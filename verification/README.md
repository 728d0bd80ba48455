# Verified models of Steampipe's stateful cores

These Dafny modules model those parts of Steampipe whose correctness rests on an invariant rather than on
reading one function, and prove the invariants.  Each module stands for one component:

- `DimensionColors`: the generator that gives each dimension value of a check its terminal colour. It walks
  16 allowed columns by 5 rows with one stride, probes with another, and resets itself when all 80 colours are
  used. (After any increment the row is in 1..5, as the code subtracts 5 and not 6; a clash is equality, not
  the "within 5" of the comment in the code.)
- `Connections`, `ConnectionChanges`, `ConnectionConvergence`, `ConnectionRivals`, `ConnectionImports`,
  `ConnectionQueries`, `ConnectionSchemas`, `ConnectionRefresh`: reconciliation of the connection config with the
  state file and the database. `Connections` gives a refresh as one step on (state file, database);
  `ConnectionChanges` says what it does to each connection; `ConnectionConvergence` when refreshing settles;
  `ConnectionRivals` why that needs one schema per plugin; `ConnectionImports` which plugin each schema then comes
  from; `ConnectionQueries` is the SQL and what it does in any order; `ConnectionSchemas` how one fetched schema is
  shared between connections; `ConnectionRefresh` the program's own loops over maps, in any order, proved to carry
  out that step. `Maps` builds maps from a function, and `Options` is the type of optional values.
- `ControlExecution`, `ControlRuns`, `ControlTree`, `ControlMachine`: running a check. `ControlExecution` is the
  machine of goroutines, semaphore and locks that rolls summaries up the tree; `ControlRuns` one run, with its rows,
  retries and reports; `ControlTree` the construction of the tree and the order of dispatch; `ControlMachine`
  makes a machine of a built tree.
- `Dashboard`, `DashboardExecutions`: the tree of dashboard nodes executed concurrently over buffered channels:
  what holds in every execution, and which executions there are.
- `PluginManager`, `FileWatcher`: two protocols of a lock and goroutines.
- `ImageRef`: references to plugin images, as fetched and as shown.
- `CounterGraph`: the bar of failed and passed controls.

Where components are concurrent, an execution is a list of actions, each what one goroutine does between two
points where others can see the state; theorems are about every legal list. Where a component updates an object
in place it is a class, whose methods are proved against functions about which the theorems are stated.
Traversal of a Go map is a loop that picks any remaining key.

Some expectations turn out to have exact conditions, which are stated as equivalences:

- Comments name the tables of the plugin the config now asks for, while a connection whose dynamic schema changed is
  imported from the plugin of its saved entry. A refresh that updates something stops at a comment if and only if a
  loaded plugin describes what its connection's schema then lacks; imports stay, nothing is deleted or saved.
- Where the connections of each plugin share one schema, refreshing settles if and only if the first or the second
  refresh ends without an error; otherwise all end with one. It is then silent from the fourth refresh on, and from
  the third exactly if nothing is left to do by then; and this last holds, whatever the order of the maps, if and
  only if each plugin has one schema. Where it has more, the dynamic hash of one connection can be compared with the
  schema of another, and refreshing can go on for ever.
- After a refresh that saved its state the next is already silent unless an entry saved as non-dynamic carried another
  schema's hash, or a schema was imported from the entry's old plugin, which has no tables.
- `Execute` of a check counts a run's failures again for a retry, and for a row that arrives as an error.
- With all plugins installed, a refresh fails before any query, and with it all that follow, exactly if the saved
  entry of a connection whose dynamic schema changed lacks its connection.
- A dashboard returns if and only if no leaf with work to do fails in waiting for its inputs; and an error shows in
  a container if and only if it is received before all children are found complete: every leaf's error can be
  missed by all containers, and can show in all those above it.
- A plugin is started at most once if and only if it is not started after its entry was removed for a dead
  process; and a call that starts it then can fail for having removed the entry.
- An image reference that is nothing but one of the repository URLs does not survive being shown.

Nothing in this project runs the program; all statements are about the models.

## Model

| member | source | states |
|---|---|---|
| DimensionColors.NewDimensionColorGenerator | control/controlexecute/dimension_color_map.go:25-47 | the two error messages, exactly when the starting column is not in 16..51 or else the starting row not in 0..5; otherwise a generator in the initial state |
| DimensionColors.DimensionColorGenerator.Reset | control/controlexecute/dimension_color_map.go:57-63 | back to the starting position with no colour allocated; the map is kept |
| DimensionColors.DimensionColorGenerator.IncrementCurrentRow | control/controlexecute/dimension_color_map.go:127-132 | the row advances in the cycle 1..5, without 8-bit overflow |
| DimensionColors.DimensionColorGenerator.IncrementCurrentColumn | control/controlexecute/dimension_color_map.go:134-142 | the column advances, wraps from 51 to 16 and skips forbidden columns, without overflow |
| DimensionColors.DimensionColorGenerator.ColorClashes | control/controlexecute/dimension_color_map.go:144-153 | true exactly when the very colour is allocated |
| DimensionColors.DimensionColorGenerator.GetNextColor | control/controlexecute/dimension_color_map.go:100-121 | terminates with at most one recursive call, and does one step of the generator: the first free cell of the probe, or a fresh start |
| DimensionColors.DimensionColorGenerator.AddDimensionValue | control/controlexecute/dimension_color_map.go:88-98 | exactly the one pair is coloured, with the next colour |
| DimensionColors.DimensionColorGenerator.Populate | control/controlexecute/dimension_color_map.go:65-75 | the nested loops over runs, rows and dimensions add each pair when it first occurs, in order |
| DimensionColors.ColumnStep | control/controlexecute/dimension_color_map.go:134-142 | one step of the column is one step in the cycle of the 16 allowed columns |
| DimensionColors.ProbeStep | control/controlexecute/dimension_color_map.go:108-110 | the probe (+1, +1) visits the 80 cells of 16 columns by 5 rows one after the other |
| DimensionColors.StrideLands | control/controlexecute/dimension_color_map.go:100-103 | from any place a call first goes two rows on, from rows 4 and 5 to 1 and 2, and to the first usable column two or more on, columns beyond 51 counting on at 16 |
| DimensionColors.FirstColour | control/controlexecute/dimension_color_map.go:57-106 | so the first colour of a generator, from its starting row and column |
| DimensionColors.NextColour | control/controlexecute/dimension_color_map.go:100-121 | each of the next 79 colours is the first unused one, probing from two rows and two columns on from the colour before |
| DimensionColors.ProgramColours | control/controlexecute/execution_tree.go:121 | the first four colours of the generator the program makes, 66, 140, 217 and 111 |
| DimensionColors.DimensionsInOrder | control/controlexecute/dimension_color_map.go:65-75 | dimensions are met run by run, in a run row by row, in a row one by one |
| DimensionColors.CodeInjective | control/controlexecute/dimension_color_map.go:123-125 | two cells have one colour code exactly when they are the same modulo 80 |
| DimensionColors.ExhaustedOnlyAtEighty | control/controlexecute/dimension_color_map.go:107-116 | the probe comes back to its first colour only when all 80 colours are allocated |
| DimensionColors.StepTakesFirstFree | control/controlexecute/dimension_color_map.go:100-121 | a step gives the first free colour of the probe, and after a reset the first probe does not clash |
| DimensionColors.ColourSequenceLaw | control/controlexecute/dimension_color_map.go:57-121 | for every legal start: call n and call m give one colour if and only if n and m are equal modulo 80 |
| DimensionColors.BlockIsPermutation | control/controlexecute/dimension_color_map.go:57-121 | for every legal start: each 80 calls give every legal colour, each once |
| DimensionColors.PopulateAssigns | control/controlexecute/dimension_color_map.go:65-98 | the map has a colour for exactly the pairs that occur, the k-th new pair having the k-th colour |
| DimensionColors.PopulateInjective | control/controlexecute/dimension_color_map.go:65-98 | every colour is legal, and distinct pairs have distinct colours if and only if there are at most 80 |
| ConnectionChanges.OutOfDateExactly | steampipeconfig/connection_data.go:40-50 | a connection is entered for update if and only if its schema or usable entry is missing, or its plugin, modification time, name, options or config text differs |
| ConnectionChanges.SilentMeansConfigured | db/db_local/local_db_client_connections.go:50-57 | a refresh without queries means: every connection, unless its name is reserved, is there and saved as it is configured, its dynamic hash current, and nothing else is saved |
| ConnectionChanges.ConfiguredMeansSilent | db/db_local/local_db_client_connections.go:50-57 | and when all that holds there are none |
| ConnectionChanges.UpdatedSavesConfig | steampipeconfig/connection_updates.go:40-51 | after a refresh that saved its state the file has exactly the configured connections, as configured |
| ConnectionChanges.SavedModeAndHash | steampipeconfig/connection_updates.go:110-136 | and the mode and hash of each: those loaded, fetched or kept |
| ConnectionChanges.SchemaExactly | db/db_local/local_db_client_connections.go:82-128 | what becomes of each schema: imported anew, and from which plugin; dropped, as no longer configured or of an incompatible plugin; or untouched, as those with reserved names are |
| ConnectionChanges.StopsExactly | db/db_local/local_db_client_connections.go:168-187 | a refresh stops at a comment if and only if something is imported and a loaded plugin describes an item that is then not in its schema |
| ConnectionChanges.FailsExactly | steampipeconfig/connection_updates.go:40-105 | a refresh fails before any query if and only if a plugin is not installed or a changed dynamic schema's entry lacks its connection |
| ConnectionConvergence.RefreshIsDirect | db/db_local/local_db_client_connections.go:21-80 | if every connection can be imported and connections of a plugin share its schema, a refresh has the same outcome whichever connection each plugin's schema was fetched through: that of a description name by name. It fails exactly if a missing connection of an entry with a changed schema is dereferenced, and stops at a comment, with imports done and nothing deleted or saved, exactly if something is updated and a loaded plugin describes a table or column that its connection's schema then lacks |
| ConnectionConvergence.UpdateBringsInStep | steampipeconfig/connection_updates.go:27-136 | after a refresh that saved its state, the state is in step with the config and the next refresh is not stopped; a schema is missing exactly when its import was lost, a dynamic hash wrong exactly when the entry was stale |
| ConnectionConvergence.SilentWhenInStep | db/db_local/local_db_client_connections.go:50-57 | with the state in step, the next refresh builds no query if and only if no schema is missing and no dynamic hash is wrong |
| ConnectionConvergence.RefreshConverges | db/db_local/local_db_client_connections.go:21-80 | from any state file and database: after a refresh that saved its state the next has no queries if and only if no entry is stale (saved as non-dynamic with another hash) and no update is imported from an old plugin without tables; the third has none if and only if the first ends without an error, or the second does and has no such entry |
| ConnectionConvergence.RefreshSettles | db/db_local/local_db_client_connections.go:59-70 | in runs of any length: from the fourth on no refresh has queries, if the first or the second ends without an error; otherwise every refresh of the run ends with one |
| ConnectionConvergence.SettlesExactly | db/db_local/local_db_client_connections.go:59-70 | when that is so, read off the state file and the database: no missing connection is dereferenced, and if a comment fails then either every saved entry stands for its required connection, or no comment fails again |
| ConnectionConvergence.StoppedAgain | db/db_local/local_db_client_connections.go:61-70 | if two refreshes in a row stop at a comment, so does the next |
| ConnectionRivals.ConvergesIffUniform | steampipeconfig/connection_plugin.go:121-140 | the third refresh is silent from exactly the state files and databases of RefreshConverges, if and only if all connections of a plugin have one schema |
| ConnectionRivals.FlipStep | steampipeconfig/connection_updates.go:172-204 | two connections of one dynamic plugin with different schemas, fetched through one of them: silent exactly if its hash is the saved one; otherwise its hash is saved, if all that it describes is in the other's schema too, and else the refresh stops and changes nothing |
| ConnectionRivals.RivalsNeverSettle | steampipeconfig/connection_updates.go:172-204 | for two such connections there is an endless run in which every refresh either saves the other's hash or stops |
| ConnectionImports.SwapNeverSettles | steampipeconfig/connection_updates.go:83-94 | a connection moved to another plugin while its dynamic schema changed, whose new plugin describes something the old plugin's schema lacks: no refresh ever succeeds |
| ConnectionImports.SwappedForEver | db/db_local/local_db_client_connections.go:168-187 | an input on which every refresh stops in the same state: the old plugin's table is imported and the new plugin's commented on |
| ConnectionImports.FinalImports | steampipeconfig/connection_updates.go:83-94 | in a run that settles, where connections that need no update have the schema of their plugin: once silent, each schema is imported from its required plugin, except exactly for a connection whose plugin changed in the refresh in which its dynamic hash changed too; that one keeps the old plugin's, which has all that the new plugin describes |
| ConnectionQueries.UpdateConnectionRuns | db/db_local/local_db_client_connections.go:138-166 | the seven update statements succeed on any database and leave just that schema imported, with its comment, open to the users, who may read all of it |
| ConnectionQueries.UpdatesRun | db/db_local/local_db_client_connections.go:111-120 | in any order of the map, the update statements import every updated schema |
| ConnectionQueries.CommentsRun | db/db_local/local_db_client_connections.go:168-187 | comments change nothing, and all succeed if and only if every described table and column is in the schema |
| ConnectionQueries.DropsRun | db/db_local/local_db_client_connections.go:121-126 | in any order, exactly the failing connections that should be dropped, and the deleted ones, disappear |
| ConnectionQueries.QueriesOrderIndependent | db/db_local/local_db_client_connections.go:82-128 | whatever order the four loops traverse their maps in: no statement fails, with one resulting database, if and only if every validated plugin's described tables and columns are in its schema after the imports; otherwise a comment fails with the imports and drops done and nothing deleted |
| ConnectionQueries.QueriesEmpty | db/db_local/local_db_client_connections.go:50-57 | the list of queries is empty exactly when there is nothing to update, drop, comment or delete |
| ConnectionQueries.NewUpdatesRunnable | steampipeconfig/connection_updates.go:27-105 | the computed updates never touch a schema that is not there, nor one in two groups |
| ConnectionQueries.RefreshRunsQueries | db/db_local/local_db_client_connections.go:50-80 | running the queries, in any order, gives the database of the refresh step, and breaks off exactly if the step stops |
| ConnectionRefresh.FilterVersions | steampipeconfig/connection_state.go:48-57 | entries of older versions are removed, all others kept |
| ConnectionRefresh.GetConnectionState | steampipeconfig/connection_state.go:15-70 | the loops leave exactly the usable entries |
| ConnectionRefresh.NewConnectionDataMap | steampipeconfig/connection_data_map.go:44-87 | the required entries, and exactly the plugins that are configured but not installed |
| ConnectionRefresh.CreateConnectionPlugins | steampipeconfig/connection_plugin.go:41-85 | when all plugins load, no nil plugin is met and each connection gets the schema fetched through one connection of its plugin |
| ConnectionRefresh.GetSchemaHashesForDynamicSchemas | steampipeconfig/connection_updates.go:172-204 | hashes and plugins for exactly the required connections saved as dynamic |
| ConnectionRefresh.ConnectionUpdates.AddOutOfDate | steampipeconfig/connection_updates.go:64-73 | exactly the missing and the changed connections are entered for update |
| ConnectionRefresh.ConnectionUpdates.AddDeletes | steampipeconfig/connection_updates.go:75-81 | exactly the entries no longer required are entered for deletion |
| ConnectionRefresh.ConnectionUpdates.AddChangedSchemas | steampipeconfig/connection_updates.go:83-94 | the connections whose hash changed are entered with their saved data, whatever the order |
| ConnectionRefresh.ConnectionUpdates.RemoveConnectionsFromList | steampipeconfig/connection_updates.go:157-170 | the connections still to be created; a nil connection is dereferenced exactly if there is one |
| ConnectionRefresh.ConnectionUpdates.PopulateConnectionPlugins | steampipeconfig/connection_updates.go:138-155 | the plugins of all updates, the already created ones kept; panics exactly on a nil connection |
| ConnectionRefresh.ConnectionUpdates.UpdateRequiredStateWithSchemaProperties | steampipeconfig/connection_updates.go:110-136 | the overwriting of mode and hash gives the saved state, in any order |
| ConnectionRefresh.NewConnectionUpdates | steampipeconfig/connection_updates.go:27-105 | the whole computation of the updates, with its two ways to fail |
| ConnectionRefresh.ValidatePlugins | steampipeconfig/connection_validation.go:29-52 | exactly the failing, validated and updated connections, and which are to be dropped |
| ConnectionRefresh.GetSchemaQueries | db/db_local/local_db_client_connections.go:111-128 | the update queries of the validated updates, then the drops |
| ConnectionRefresh.GetCommentQueries | db/db_local/local_db_client_connections.go:130-136 | the comment queries of the validated plugins, one for each table and column described |
| ConnectionRefresh.BuildConnectionUpdateQueries | db/db_local/local_db_client_connections.go:82-109 | the query list for some order of each map |
| ConnectionRefresh.LocalDbClient.LoadForeignSchemaNames | db/db_client/db_client.go:247-265 | the client knows exactly the foreign schemas of the database |
| ConnectionRefresh.LocalDbClient.ExecuteConnectionQueries | db/db_local/execute.go:10-25 | statements take effect one by one; succeeds exactly if none fails, and otherwise leaves what those before the first failing one did |
| ConnectionRefresh.LocalDbClient.RefreshConnections | db/db_local/local_db_client_connections.go:21-80 | one call takes state file and database through exactly one step of the refresh; if it stops at a statement the file is as before, otherwise the client knows the schema names afterwards |
| ConnectionSchemas.NewConnectionSchemaMapForConnections | steampipeconfig/connection_schemas.go:43-71 | the buckets of connections with one schema |
| ConnectionSchemas.BucketsPartition | steampipeconfig/connection_schemas.go:43-71 | every connection is in exactly one bucket, once; a bucket starts with its key and holds connections of one plugin |
| ConnectionSchemas.SharedExactlyWhenStatic | steampipeconfig/connection_schemas.go:43-71 | two connections share a bucket if and only if they have one plugin and it is not dynamic |
| ConnectionSchemas.BuildPluginSchemaMap | steampipeconfig/connection_plugin.go:121-140 | one schema for each loaded plugin, fetched through one of its connections |
| ConnectionSchemas.BuildSchemaModeMap | steampipeconfig/connection_plugin.go:142-150 | the mode of each loaded connection |
| ConnectionSchemas.SetSchema | steampipeconfig/connection_plugin.go:114-116 | exactly the connections of a bucket get the schema; a nil dereference exactly if one is not loaded |
| ConnectionSchemas.PopulateConnectionPluginSchemas | steampipeconfig/connection_plugin.go:87-119 | which connections get which schema, and exactly when a nil plugin is dereferenced |
| ConnectionSchemas.AllServedIffLoadedAlike | steampipeconfig/connection_plugin.go:87-119 | no nil plugin is met and every loaded connection gets a schema, if and only if: of a static plugin all or no connections loaded; of a dynamic one, none that failed comes after one that loaded |
| ControlExecution.SummaryConserved | control/controlexecute/result_group.go:201-214 | in every state of every interleaving: a group's counts plus the reports still climbing to it are all that was reported in its subtree |
| ControlExecution.ParentIsSumOfChildren | control/controlexecute/result_group.go:201-214 | whenever no report is climbing, a group counts its own runs' reports and its children's counts |
| ControlExecution.GroupWithinRoot | control/controlexecute/result_group.go:201-214 | whenever no report is climbing, no group counts more than the root, in any status |
| ControlExecution.LocksAreExclusive | control/controlexecute/result_group.go:201-203 | no two goroutines hold one group's lock |
| ControlExecution.ClimberCanStep | control/controlexecute/result_group.go:201-214 | locks held hand over hand from child to parent never deadlock |
| ControlExecution.CanStep | control/controlexecute/execution_tree.go:84-118 | until Execute returns, some goroutine can take a step |
| ControlExecution.ExecuteReturns | control/controlexecute/execution_tree.go:84-125 | every execution takes the same number of steps and then Execute has returned |
| ControlExecution.AtMostMaxParallel | control/controlexecute/execution_tree.go:95-105 | at most maxParallel runs are going on |
| ControlExecution.ActionsCounted | control/controlexecute/result_group.go:240-268 | each run is dispatched once, finishes once, and begins as many reports as it issues |
| ControlExecution.ReturnedAllDone | control/controlexecute/execution_tree.go:115-118 | having acquired the whole semaphore, every run, with its reports, has finished |
| ControlExecution.ExecuteResult | control/controlexecute/execution_tree.go:84-125 | Execute returns the failures of all runs, each as often as reported; that is the number of failures if and only if no failing run reports twice |
| ControlRuns.NewResultRow | control/controlexecute/result_row.go:52-86 | a row exactly if the three columns exist and the status is valid; its dimensions are the other scalar columns, in order |
| ControlRuns.ReadsExactly | control/controlexecute/result_row.go:52-86 | a row is read if and only if reason, resource and status are among the columns and every value under status is one of the five |
| ControlRuns.RowFields | control/controlexecute/result_row.go:68-80 | reason, resource and status are the values under the last columns of these names |
| ControlRuns.RowDimensions | control/controlexecute/result_row.go:44-50 | the dimensions are the other scalar columns, all of them, each once, in order |
| ControlRuns.RowHasStatus | control/controlexecute/result_row.go:72-79 | a row that is read has one of the five statuses |
| ControlRuns.StableSortUnique | control/controlexecute/control_run.go:399-405 | there is only one stable sort by error, alarm, info, ok, skip |
| ControlRuns.StableSortKeepsRows | control/controlexecute/control_run.go:399-405 | it keeps every row, as often as received |
| ControlRuns.StableSortIs | control/controlexecute/control_run.go:399-405 | the results are the rows in error, then alarm, info, ok and skip, each as received |
| ControlRuns.CountsByStatus | control/controlexecute/control_run.go:379-397 | each count of the summary is the number of rows with that status |
| ControlRuns.ReceivedAt | control/controlexecute/control_run.go:345-375 | the rows received are those before the first event that is no row, in order |
| ControlRuns.CountsAddUp | control/controlexecute/status_summary.go:20-22 | the five counts add up to the number of rows |
| ControlRuns.ControlRun.SetRunStatus | control/controlexecute/control_run.go:407-422 | the new status, and one signal on doneChan for a finished run; every caller shows that the signal finds room |
| ControlRuns.ControlRun.AddResultRow | control/controlexecute/control_run.go:379-397 | the row goes to its status, and just that count goes up |
| ControlRuns.ControlRun.CreatedOrderedResultRows | control/controlexecute/control_run.go:399-405 | the rows become the stable sort of those received |
| ControlRuns.ControlRun.GatherResults | control/controlexecute/control_run.go:333-377 | summary, rows and status for a complete result, a row error and an unreadable row; the extra report exactly for a row error |
| ControlRuns.ControlRun.Execute | control/controlexecute/control_run.go:187-290 | however it ends, each report to the group is of the final summary: one for each try, and one more for a row error |
| ControlRuns.ReportsOnce | control/controlexecute/control_run.go:199-211 | a run reports once if and only if it was not retried and no row arrived as an error |
| ControlRuns.ReportsExactly | control/controlexecute/control_run.go:187-290 | how often a run reports: once, once more for the one retry after losing the plugin, and once more for a row error |
| ControlRuns.SummaryExactly | control/controlexecute/control_run.go:118-128 | the counts a run ends with: none without a session, one error without a query, else the rows by status and one error if they break off |
| ControlRuns.ExecuteCountsFailures | control/controlexecute/execution_tree.go:118-124 | Execute returns the number of failures if and only if no row arrived as an error and no failing run was retried |
| ControlTree.BuildLosesNothing | control/controlexecute/result_group.go:104-117 | leaving out groups without runs drops no included control |
| ControlTree.BuildPrunes | control/controlexecute/result_group.go:108-112 | no group below a built group is empty |
| ControlTree.IncludedExactly | control/controlexecute/execution_tree.go:187-193 | a control is run if and only if it is below the root, through benchmarks, and its short name is in the filter, if there is one |
| ControlTree.BuildShape | control/controlexecute/result_group.go:82-120 | a group has the included controls among its item's children, and a subgroup for each benchmark with an included control below it, in order |
| ControlTree.RootShape | control/controlexecute/result_group.go:58-79 | the root group has the included controls among the root items, and a group for every other root item, empty or not, in order |
| ControlTree.OwnControlsFirst | control/controlexecute/result_group.go:236-271 | the order of dispatch: a group's own controls, then those of its subgroups one after the other |
| ControlTree.ResultGroup.ControlRunCount | control/controlexecute/result_group.go:173-179 | the number of runs in the group and below |
| ControlTree.ResultGroup.Execute | control/controlexecute/result_group.go:236-271 | dispatches every run of the tree once, a group's own runs before its subgroups' |
| ControlTree.ResultGroup.UpdateSummary | control/controlexecute/result_group.go:201-214 | adds the summary to the group and all groups above it, each once, and to no other |
| ControlTree.ExecutionTree.AddControl | control/controlexecute/execution_tree.go:72-82 | exactly an included control gets a run, both in the group and in the list |
| ControlTree.NewResultGroup | control/controlexecute/result_group.go:82-120 | the group tree of an item, pruned, and its runs in the list in order |
| ControlTree.NewRootResultGroup | control/controlexecute/result_group.go:58-79 | the list has one run for each included control in order, and the tree holds the same runs, none twice |
| ControlTree.ChainToRoot | control/controlexecute/result_group.go:92-102 | the parents of any run's group lead to the root |
| ControlMachine.MachineMirrorsTree | control/controlexecute/result_group.go:82-120 | a built tree of groups gives a machine with its structure, its runs and its limit: each group's parent holds it, and each run, in the order of dispatch, is in the group that holds its control |
| ControlMachine.BuiltTreeExecutes | control/controlexecute/execution_tree.go:84-125 | executing a built tree returns after a fixed number of steps, with the failures of all runs it holds, each as often as reported |
| Dashboard.SendersNeverBlock | dashboard/dashboardexecute/container_run.go:145-150 | no child ever blocks on childComplete or errChan |
| Dashboard.SendsAtMostOnce | dashboard/dashboardexecute/execute.go:37-42 | every node sends at most once on each channel, the root at most once on runComplete |
| Dashboard.NoLostWakeUp | dashboard/dashboardexecute/container_run.go:121-131 | if a container waits with both channels empty, some child is not complete or is about to report |
| Dashboard.TerminalIsFinal | dashboard/dashboardexecute/container_run.go:169-185 | complete and error are never left, nor exchanged |
| Dashboard.LeafStatusExactly | dashboard/dashboardexecute/leaf_run.go:69-91 | in every execution a leaf is in error if and only if it had work that failed, complete if and only if it had none or it succeeded, and returns an error if and only if the work or the wait for inputs failed |
| Dashboard.OnlyWorkIsReported | dashboard/dashboardexecute/leaf_run.go:74-77 | a leaf without work never reports to its parent |
| Dashboard.ReadyExactly | dashboard/dashboardexecute/container_run.go:100-103 | a node is ready at the start if and only if some leaf at or below it has work |
| Dashboard.NothingToDo | dashboard/dashboardexecute/dashboard_execution_tree.go:69-80 | a dashboard without work returns at once and starts no node |
| Dashboard.SignalsItsEnd | dashboard/dashboardexecute/dashboard_run.go:169-185 | a dashboard with work signals its end exactly once, before it returns |
| Dashboard.ReturnedAllTerminal | dashboard/dashboardexecute/dashboard_run.go:115-144 | when the root's Execute returns, every node is complete or in error |
| Dashboard.ErrorComesFromLeaf | dashboard/dashboardexecute/container_run.go:133-142 | a container ends in error only if some leaf or check below it returned an error |
| Dashboard.ErrorShowsIfReceived | dashboard/dashboardexecute/container_run.go:121-142 | a container ends in error if and only if it received some child's error before it found all its children complete |
| DashboardExecutions.ErrorCanBeMissed | dashboard/dashboardexecute/container_run.go:124-142 | in every tree, for every leaf with work to do: an execution in which it returns an error and the dashboard returns with all containers complete |
| DashboardExecutions.ErrorCanShow | dashboard/dashboardexecute/container_run.go:121-142 | and one in which it fails and all containers above it end in error |
| Dashboard.CanMove | dashboard/dashboardexecute/container_run.go:113-142 | unless a leaf gave up, a node that is executing, or one it waits for, can move |
| Dashboard.ReturnsUnlessALeafGaveUp | dashboard/dashboardexecute/leaf_run.go:69-73 | when nothing can move, the root has returned if and only if no leaf with work to do failed in its wait for inputs |
| Dashboard.GivesUpExactly | dashboard/dashboardexecute/leaf_run.go:69-78 | a leaf gives up if and only if it has work to do and its wait for inputs fails |
| Dashboard.GivingUpIsFatal | dashboard/dashboardexecute/container_run.go:121-131 | once a leaf has given up, the root never returns, whatever follows |
| DashboardExecutions.LeafCanGiveUp | dashboard/dashboardexecute/leaf_run.go:69-73 | in every tree, for every leaf with work to do that waits for inputs: an execution in which it gives up |
| Dashboard.ExecutionIsFinite | dashboard/dashboardexecute/container_run.go:121-131 | every execution is over after a number of steps that depends on the tree only |
| PluginManager.StartedOnceExactly | pluginmanager/plugin_manager.go:107-164 | in every execution, a connection's plugin is started at most once if and only if it is not started after a call found its process dead and removed its entry; processes that die unnoticed make no difference |
| PluginManager.ClosedOnce | pluginmanager/plugin_manager.go:174-188 | in every execution, a channel is closed at most once, and only with a process to reattach to; a call that succeeds returns a process started for its connection |
| PluginManager.SuccessesAgree | pluginmanager/plugin_manager.go:126-134 | when a connection's plugin was started at most once, all calls that succeed return one process |
| PluginManager.FailsExactly | pluginmanager/plugin_manager.go:95-188 | in every execution a call has failed if and only if it timed out, its plugin did not start, or there was no placeholder to store its client in |
| PluginManager.SucceedsUnlessFailed | pluginmanager/plugin_manager.go:107-172 | with no entry of its connection removed, a call has failed if and only if it timed out or its plugin did not start; and at rest all other calls, unless a start of the plugin failed, have returned a process of their connection |
| PluginManager.StoredServesNext | pluginmanager/plugin_manager.go:174-188 | a stored process serves the next call, even if the call that stored it fails |
| PluginManager.OneProcess | pluginmanager/plugin_manager.go:95-172 | so they do in every execution that does not start the plugin after such a removal |
| PluginManager.FailedStartIsFinal | pluginmanager/plugin_manager.go:161-164 | a failed start, with no entry of the connection removed before, leaves its placeholder: nobody starts the plugin again, and no call for the connection succeeds, whatever follows |
| PluginManager.DeadProcessStartedAgain | pluginmanager/plugin_manager.go:137-181 | in any execution, a call that finds the process of its entry dead can start the plugin again, and then fails, as it has just removed the entry |
| PluginManager.CanBeStartedTwice | pluginmanager/plugin_manager.go:137-181 | an execution from the start in which a plugin is started twice |
| FileWatcher.DeliveredOnce | utils/file_watcher.go:286-311 | every event is delivered once, in order, or waits; no empty batch; never two handlers; with the lock free there is one if and only if an event waits |
| FileWatcher.CallsDelivered | utils/file_watcher.go:286-311 | what was delivered and what waits is what scheduleHandler was called with, in the order of the calls, up to one still entering |
| FileWatcher.HandlerDrains | utils/file_watcher.go:299-310 | with the lock free, at most three steps deliver everything scheduled |
| ImageRef.ActualOf | ociinstaller/imageref.go:31-45 | what is fetched: the home of the path, and the tag or the digest |
| ImageRef.DisplayOf | ociinstaller/imageref.go:49-61 | what is shown: the path under the display URL, '@', and the stream |
| ImageRef.FullRef | ociinstaller/imageref.go:95-119 | splitting and defaulting of organisation and tag |
| ImageRef.Forms | ociinstaller/imageref.go:31-61 | how "path", "path:tag", "path@tag" and "path@sha256:hex" are fetched and shown |
| ImageRef.FullPathOfName | ociinstaller/imageref.go:106-109 | a bare name is turbot's plugin |
| ImageRef.FullPathOfTwo | ociinstaller/imageref.go:110-115 | of two parts the first is an organisation, or a host if it has a dot |
| ImageRef.FullPathOfMore | ociinstaller/imageref.go:116-118 | a longer path is kept |
| ImageRef.TagIsSecondPart | ociinstaller/imageref.go:99-103 | of several colons only the first two count |
| ImageRef.ShownFetchesTheSame | ociinstaller/imageref.go:31-61 | fetching what is shown fetches the same image if and only if there is no digest and the path is more than a repository URL |
| ImageRef.ShowingIsIdempotent | ociinstaller/imageref.go:49-61 | showing twice is showing once if and only if the path is more than the repository URL |
| ImageRef.OrgAndNameRecovered | ociinstaller/imageref.go:69-77 | "org/name" with a stream gives back organisation, name and stream |
| ImageRef.NameIsTurbots | ociinstaller/imageref.go:69-77 | a bare name belongs to turbot |
| ImageRef.OutOfRangeExactly | ociinstaller/imageref.go:69-77 | the program indexes out of range if and only if the path is nothing but the repository URL |
| CounterGraph.SegmentsCover | control/controldisplay/group_counter_graph.go:45-55 | the number of segments is the least that makes up the count |
| CounterGraph.Render | control/controldisplay/group_counter_graph.go:38-77 | the three parts sum to 10; any failure shows; a pass shows unless failures fill the bar; a panic exactly if the total exceeds the maximum |
| CounterGraph.GroupFitsRoot | control/controldisplay/group.go:120-127 | the counts a group is rendered with are within the root's |

## Left out

- Processes, files, the network, SQL and gRPC: a plugin's mode, schema hash, compatibility and described tables and columns are given functions, the database is a map from schema to what was imported and the tables and columns that gave, its comment and what the users may read, the state file is its entries, and reading and writing it as JSON is the identity. Comment statements can fail and are modelled so; imports, reading and writing the state file, and the other operations are taken to succeed, except where a row names their errors.
- Schemas of one plugin with the same hash (of table names, column names and types) are taken to describe the same tables and columns; with schema comments switched off nothing is described.
- After a refresh stopped by an error the schema names the client holds are not reloaded; the next refresh is taken to be by a new client, which loads them when it is created, as all callers do.
- ConnectionQueries.UpdateConnectionRuns: the statement that grants reading of all tables of the new schema meets none, as the program's comment says; the schema ends up the same without it.
- Aliasing of saved connection data: entries are values; in the program an updated entry and its required entry are one object, of which nothing read later changes.
- Saved entries are taken to be stored under their connection's own name.
- ConnectionRefresh.CreateConnectionPlugins: a refresh in which a plugin fails to start is not modelled; what then happens to the schemas of its connections is in ConnectionSchemas.
- ConnectionSchemas.BuildPluginSchemaMap: a plugin that has started but fails to give its schema ends the refresh with an error, which is not modelled.
- ConnectionRefresh.NewConnectionUpdates: missing plugins are reported at once; the program computes the updates first and then reports them, without using them.
- Schema names longer than the database allows, and the escaping of names in SQL.
- ConnectionRefresh.ValidatePlugins: the text of the warnings is not modelled, and reserved names are those of the constants in use.
- Cancellation, dry runs and panics of a control run, and the severity counts, durations and dimension keys that climb the tree like summaries do.
- ControlExecution.CanStep: the limit on parallel runs is at least 1; with 0 nothing is ever dispatched.
- The progress counters of a check, whose updates are unsynchronised.
- Dashboard inputs, events and web sockets: waiting for an input either succeeds or fails.
- PluginManager: the error branch of Get, which unlocks twice, and Shutdown.
- Image references with more than one ':' (but see ImageRef.TagIsSecondPart) or '@', with a '/' in the tag, or with a repository URL elsewhere than at the start: the round trips are about the forms the program documents.
- CounterGraph.Render: segment sizes are exact rationals, not floating point numbers; colours and the drawing itself are left out.
- File watching other than the batching of events, and the delay before a batch.
- Mod installation, workspace loading, interactive prompt, renderers, service management and configuration parsing.
