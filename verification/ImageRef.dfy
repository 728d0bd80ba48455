/** References to plugin images, as they are fetched and as they are shown (ociinstaller/imageref.go). */
module ImageRef {

  function ActualUrl(): (u: string)
    ensures |u| == 27 && ':' !in u && '@' !in u && u[0] == 'u' && u[1] == 's'
  {
    "us-docker.pkg.dev/steampipe"
  }

  function DisplayUrl(): (u: string)
    ensures |u| == 16 && ':' !in u && '@' !in u && '/' !in u && u[0] == 'h' && u[1] == 'u' && '.' in u
  {
    "hub.steampipe.io"
  }

  /** The host the images are fetched from, and the repository's name there. */
  lemma ActualUrlParts() returns (host: string, name: string)
    ensures ActualUrl() == host + "/" + name && '.' in host && '/' !in host && '/' !in name
  {
    host, name := "us-docker.pkg.dev", "steampipe";
    assert host[9] == '.';
  }

  const LATEST := "latest"
  const SHA256 := "sha256"

  // ---------- String operations ----------

  /** strings.Split, for a one-character separator. */
  function Split(s: string, c: char): (parts: seq<string>)
    ensures parts != []
  {
    if s == "" then [""]
    else
      var rest := Split(s[1..], c);
      if s[0] == c then [""] + rest else [[s[0]] + rest[0]] + rest[1..]
  }

  /** strings.ReplaceAll, for one-character strings. */
  function ReplaceChar(s: string, a: char, b: char): string {
    if s == "" then "" else [if s[0] == a then b else s[0]] + ReplaceChar(s[1..], a, b)
  }

  function ReplaceAll(s: string, old0: string, new0: string): string
    requires old0 != ""
    decreases |s|
  {
    if |s| < |old0| then s
    else if old0 <= s then new0 + ReplaceAll(s[|old0|..], old0, new0)
    else [s[0]] + ReplaceAll(s[1..], old0, new0)
  }

  predicate Contains(s: string, u: string) {
    u <= s || (s != "" && Contains(s[1..], u))
  }

  // ---------- References ----------

  predicate IsDigestRef(ref: string) {
    Contains(ref, "@" + SHA256 + ":")
  }

  /** The path an image path stands for, without tag. */
  function FullPath(path: string): string {
    var parts := Split(path, '/');
    if |parts| == 1 then ActualUrl() + "/plugins/turbot/" + parts[0]
    else if |parts| == 2 && '.' !in parts[0] then ActualUrl() + "/plugins/" + parts[0] + "/" + parts[1]
    else path
  }

  function GetFullImageRef(imagePath: string): string {
    var items := Split(imagePath, ':');
    FullPath(items[0]) + ":" + if |items| > 1 then items[1] else LATEST
  }

  function ActualImageRef(requested: string): string {
    var ref := if IsDigestRef(requested) then requested else ReplaceChar(requested, '@', ':');
    var full := GetFullImageRef(ref);
    if DisplayUrl() <= full then ReplaceAll(full, DisplayUrl(), ActualUrl()) else full
  }

  function DisplayImageRef(requested: string): string {
    var actual := ActualImageRef(requested);
    var full := ReplaceChar(if IsDigestRef(actual) then ReplaceChar(actual, ':', '-') else actual, ':', '@');
    if ActualUrl() <= full then ReplaceAll(full, ActualUrl(), DisplayUrl()) else full
  }

  datatype OrgNameStream = OrgNameStream(org: string, name: string, stream: string) | OutOfRange

  /** OutOfRange where the program panics. */
  function GetOrgNameAndStream(requested: string): OrgNameStream {
    var split := Split(DisplayImageRef(requested), '/');
    var nameAndStream := Split(split[|split| - 1], '@');
    if |split| < 2 || |nameAndStream| < 2 then OutOfRange
    else OrgNameStream(split[|split| - 2], nameAndStream[0], nameAndStream[1])
  }

  // ---------- Facts about strings ----------

  lemma {:induction false} SplitNone(s: string, c: char)
    requires c !in s
    ensures Split(s, c) == [s]
  {
    if s != "" {
      SplitNone(s[1..], c);
      assert s == [s[0]] + s[1..];
    }
  }

  lemma {:induction false} SplitFirst(a: string, c: char, b: string)
    requires c !in a
    ensures Split(a + [c] + b, c) == [a] + Split(b, c)
  {
    var s := a + [c] + b;
    if a == "" {
      assert s[1..] == b;
    } else {
      SplitFirst(a[1..], c, b);
      assert s[1..] == a[1..] + [c] + b;
      assert a == [a[0]] + a[1..];
    }
  }

  lemma {:induction false} SplitLast(a: string, c: char, b: string)
    requires c !in b
    ensures Split(a + [c] + b, c) == Split(a, c) + [b]
  {
    var s := a + [c] + b;
    if a == "" {
      assert s[1..] == b;
      SplitNone(b, c);
    } else {
      SplitLast(a[1..], c, b);
      assert s[1..] == a[1..] + [c] + b;
      var rest := Split(a[1..], c);
      assert (rest + [b])[0] == rest[0] && (rest + [b])[1..] == rest[1..] + [b];
    }
  }

  lemma {:induction false} ReplaceAbsent(s: string, u: string, v: string)
    requires u != "" && !Contains(s, u)
    ensures ReplaceAll(s, u, v) == s
  {
    if |s| >= |u| {
      ReplaceAbsent(s[1..], u, v);
      assert s == [s[0]] + s[1..];
    }
  }

  /** An occurrence at the start only. */
  lemma ReplacePrefix(s: string, u: string, v: string)
    requires u != "" && !Contains(s, u)
    ensures ReplaceAll(u + s, u, v) == v + s
  {
    assert (u + s)[|u|..] == s;
    ReplaceAbsent(s, u, v);
  }

  /** No occurrence begins within a literal none of whose characters begins one. */
  lemma {:induction false} ContainsAfter(lit: string, s: string, u: string)
    requires |u| > 1 && forall i :: 0 <= i < |lit| && lit[i] == u[0] ==> i + 1 < |lit| && lit[i + 1] != u[1]
    ensures Contains(lit + s, u) <==> Contains(s, u)
  {
    if lit == "" {
      assert lit + s == s;
    } else {
      ContainsAfter(lit[1..], s, u);
      assert (lit + s)[1..] == lit[1..] + s;
      assert (lit + s)[0] == lit[0] && (|lit| > 1 ==> (lit + s)[1] == lit[1]);
    }
  }

  /** No occurrence crosses a character that u does not have. */
  lemma {:induction false} ContainsAcross(a: string, c: char, b: string, u: string)
    requires u != "" && c !in u
    ensures Contains(a + [c] + b, u) <==> Contains(a, u) || Contains(b, u)
  {
    var s := a + [c] + b;
    if a == "" {
      assert s[1..] == b && s[0] == c;
    } else {
      ContainsAcross(a[1..], c, b, u);
      assert s[1..] == a[1..] + [c] + b;
      assert s[|a|] == c;
      assert u <= s <==> u <= a;
    }
  }

  lemma {:induction false} ContainsNeeds(s: string, u: string, c: char)
    requires c in u && c !in s
    ensures !Contains(s, u)
  {
    var i :| 0 <= i < |u| && u[i] == c;
    if s != "" {
      ContainsNeeds(s[1..], u, c);
    }
  }

  // ---------- Well-formed references ----------

  datatype Ref = Plain(path: string) | Tagged(sep: char, path: string, tag: string) | Digest(path: string, hex: string)

  function Text(r: Ref): string {
    match r
    case Plain(path) => path
    case Tagged(sep, path, tag) => path + [sep] + tag
    case Digest(path, hex) => path + "@" + SHA256 + ":" + hex
  }

  predicate NoSeparator(s: string) {
    ':' !in s && '@' !in s
  }

  /** Neither repository URL occurs. */
  predicate NoUrl(s: string) {
    !Contains(s, DisplayUrl()) && !Contains(s, ActualUrl())
  }

  /** A path in which a repository URL occurs as prefix only. */
  predicate GoodPath(path: string) {
    && NoSeparator(path)
    && (DisplayUrl() <= path ==> NoUrl(path[|DisplayUrl()|..]))
    && (ActualUrl() <= path ==> NoUrl(path[|ActualUrl()|..]))
    && (!(DisplayUrl() <= path) && !(ActualUrl() <= path) ==> NoUrl(path))
  }

  predicate GoodTag(tag: string) {
    NoSeparator(tag) && '/' !in tag && !Contains(tag, DisplayUrl())
  }

  predicate WellFormed(r: Ref) {
    GoodPath(r.path) &&
    match r
    case Plain(_) => true
    case Tagged(sep, _, tag) => (sep == ':' || sep == '@') && GoodTag(tag)
    case Digest(_, hex) => GoodTag(hex)
  }

  /** What is shown after the '@'. */
  function Stream(r: Ref): string {
    match r
    case Plain(_) => LATEST
    case Tagged(_, _, tag) => tag
    case Digest(_, hex) => SHA256 + "-" + hex
  }

  /** Where the image is fetched from, without tag or digest. */
  function Home(path: string): string {
    var full := FullPath(path);
    if DisplayUrl() <= full then ActualUrl() + full[|DisplayUrl()|..] else full
  }

  function Shown(path: string): string {
    if ActualUrl() <= Home(path) then DisplayUrl() + Home(path)[|ActualUrl()|..] else Home(path)
  }

  /** Nothing but the host the images are shown under, perhaps with more characters. */
  predicate BareDisplay(path: string) {
    DisplayUrl() <= path && '/' !in path
  }

  /** Nothing but the repository the images are fetched from, perhaps with more characters. */
  predicate BareActual(path: string) {
    ActualUrl() <= path && '/' !in path[|ActualUrl()|..]
  }

  // ---------- Paths ----------

  lemma {:induction false} FirstSlash(path: string) returns (a: string, b: string)
    requires '/' in path
    ensures path == a + "/" + b && '/' !in a
  {
    if path[0] == '/' {
      a, b := "", path[1..];
    } else {
      a, b := FirstSlash(path[1..]);
      a := [path[0]] + a;
      assert path == [path[0]] + path[1..];
    }
  }

  lemma FullPathOfName(path: string)
    requires '/' !in path
    ensures FullPath(path) == ActualUrl() + "/plugins/turbot/" + path
  {
    hide ActualUrl, DisplayUrl;
    SplitNone(path, '/');
  }

  lemma FullPathOfTwo(a: string, b: string)
    requires '/' !in a && '/' !in b
    ensures FullPath(a + "/" + b) == if '.' in a then a + "/" + b else ActualUrl() + "/plugins/" + (a + "/" + b)
  {
    hide ActualUrl, DisplayUrl;
    SplitFirst(a, '/', b);
    SplitNone(b, '/');
    assert ActualUrl() + "/plugins/" + a + "/" + b == ActualUrl() + "/plugins/" + (a + "/" + b);
  }

  lemma FullPathOfMore(a: string, b: string)
    requires '/' !in a && '/' in b
    ensures FullPath(a + "/" + b) == a + "/" + b
  {
    hide ActualUrl, DisplayUrl;
    SplitFirst(a, '/', b);
    var c, d := FirstSlash(b);
    SplitFirst(c, '/', d);
  }

  lemma SplitCons(s: string, c: char)
    requires s != ""
    ensures var rest := Split(s[1..], c);
            Split(s, c) == if s[0] == c then [""] + rest else [[s[0]] + rest[0]] + rest[1..]
  {
  }

  lemma {:induction false} SplitSuffix(s: string, c: char, suffix: string)
    requires c !in suffix
    ensures var parts := Split(s, c); Split(s + suffix, c) == parts[..|parts| - 1] + [parts[|parts| - 1] + suffix]
  {
    hide Split;
    if s == "" {
      assert s + suffix == suffix;
      SplitNone(suffix, c);
      SplitNone("", c);
    } else {
      SplitSuffix(s[1..], c, suffix);
      SplitCons(s, c);
      SplitCons(s + suffix, c);
      assert (s + suffix)[1..] == s[1..] + suffix && (s + suffix)[0] == s[0];
      var rest := Split(s[1..], c);
      var n := |rest|;
      if s[0] == c {
        assert [""] + (rest[..n - 1] + [rest[n - 1] + suffix]) == ([""] + rest)[..n] + [([""] + rest)[n] + suffix];
      } else if n == 1 {
        assert [s[0]] + (rest[0] + suffix) == ([s[0]] + rest[0]) + suffix;
      } else {
        var x := [[s[0]] + rest[0]];
        assert x + (rest[..n - 1] + [rest[n - 1] + suffix])[1..] == (x + rest[1..])[..n - 1] +
            [(x + rest[1..])[n - 1] + suffix];
      }
    }
  }

  /** What follows the last part of a path is carried along. */
  lemma FullPathSuffix(path: string, suffix: string)
    requires '/' !in suffix
    ensures FullPath(path + suffix) == FullPath(path) + suffix
  {
    hide ActualUrl, DisplayUrl, Split;
    SplitSuffix(path, '/', suffix);
    var parts := Split(path, '/');
    if |parts| == 1 {
      assert (ActualUrl() + "/plugins/turbot/" + parts[0]) + suffix == ActualUrl() + "/plugins/turbot/" +
          (parts[0] + suffix);
    } else if |parts| == 2 && '.' !in parts[0] {
      assert (ActualUrl() + "/plugins/" + parts[0] + "/" + parts[1]) + suffix
          == ActualUrl() + "/plugins/" + parts[0] + "/" + (parts[1] + suffix);
    }
  }

  lemma FullPathNoSeparator(path: string)
    requires NoSeparator(path)
    ensures NoSeparator(FullPath(path))
  {
    hide ActualUrl, DisplayUrl, Split;
    if '/' !in path {
      FullPathOfName(path);
    } else {
      var a, b := FirstSlash(path);
      if '/' in b {
        FullPathOfMore(a, b);
      } else {
        FullPathOfTwo(a, b);
      }
    }
  }

  // ---------- What is fetched ----------

  lemma PrefixAcross(u: string, a: string, c: char, b: string)
    requires c !in u
    ensures u <= a + [c] + b <==> u <= a
  {
    assert (a + [c] + b)[|a|] == c;
  }

  lemma {:induction false} ContainsMiddle(a: string, u: string, b: string)
    ensures Contains(a + u + b, u)
  {
    if a == "" {
      assert a + u + b == u + b;
    } else {
      ContainsMiddle(a[1..], u, b);
      assert (a + u + b)[1..] == a[1..] + u + b;
    }
  }

  lemma NotDigest(s: string)
    requires ':' !in s || '@' !in s
    ensures !IsDigestRef(s)
  {
    var u := "@" + SHA256 + ":";
    assert u[0] == '@' && u[7] == ':';
    ContainsNeeds(s, u, if ':' !in s then ':' else '@');
  }

  lemma {:induction false} ReplaceCharAt(s: string, a: char, b: char)
    ensures |ReplaceChar(s, a, b)| == |s|
    ensures forall i :: 0 <= i < |s| ==> ReplaceChar(s, a, b)[i] == if s[i] == a then b else s[i]
  {
    if s != "" {
      ReplaceCharAt(s[1..], a, b);
    }
  }

  lemma ReplaceNone(s: string, a: char, b: char)
    requires a !in s
    ensures ReplaceChar(s, a, b) == s
  {
    ReplaceCharAt(s, a, b);
  }

  lemma ReplaceBetween(a: string, c: char, d: char, b: string)
    requires c !in a && c !in b
    ensures ReplaceChar(a + [c] + b, c, d) == a + [d] + b
  {
    hide ReplaceChar;
    ReplaceCharAt(a + [c] + b, c, d);
  }

  /** What follows the path in what is fetched. */
  function Suffix(r: Ref): string {
    if r.Digest? then "@" + (SHA256 + ":" + r.hex) else ":" + Stream(r)
  }

  lemma LatestIsGood()
    ensures GoodTag(LATEST) && !Contains(SHA256, DisplayUrl()) && NoSeparator(SHA256) && '/' !in SHA256
  {
    hide DisplayUrl;
    assert '.' !in LATEST && '.' !in SHA256;
    ContainsNeeds(LATEST, DisplayUrl(), '.');
    ContainsNeeds(SHA256, DisplayUrl(), '.');
  }

  lemma SuffixHasNoUrl(r: Ref)
    requires WellFormed(r)
    ensures Suffix(r) != "" && (Suffix(r)[0] == ':' || Suffix(r)[0] == '@') && !Contains(Suffix(r)[1..], DisplayUrl())
  {
    hide DisplayUrl, ActualUrl, Contains, GoodPath;
    LatestIsGood();
    if r.Digest? {
      ContainsAcross(SHA256, ':', r.hex, DisplayUrl());
      assert Suffix(r)[1..] == SHA256 + ":" + r.hex;
    } else {
      assert Suffix(r)[1..] == Stream(r);
    }
  }

  /** Splitting off the tag, or the digest. */
  lemma FullRef(r: Ref)
    requires WellFormed(r)
    ensures var ref := if IsDigestRef(Text(r)) then Text(r) else ReplaceChar(Text(r), '@', ':');
            GetFullImageRef(ref) == FullPath(r.path) + Suffix(r)
  {
    hide DisplayUrl, ActualUrl, Contains, GoodPath, FullPath, Split, IsDigestRef, ReplaceChar;
    assert NoSeparator(r.path) by { GoodPathParts(r.path); }
    match r
    case Plain(path) =>
      NotDigest(path);
      ReplaceNone(path, '@', ':');
      SplitNone(path, ':');
      assert FullPath(path) + ":" + LATEST == FullPath(path) + (":" + LATEST);
    case Tagged(sep, path, tag) =>
      NotDigest(Text(r));
      if sep == '@' {
        ReplaceBetween(path, '@', ':', tag);
      } else {
        ReplaceNone(Text(r), '@', ':');
      }
      SplitFirst(path, ':', tag);
      SplitNone(tag, ':');
      assert FullPath(path) + ":" + tag == FullPath(path) + (":" + tag);
    case Digest(path, hex) =>
      assert Text(r) == path + ("@" + SHA256 + ":") + hex;
      ContainsMiddle(path, "@" + SHA256 + ":", hex);
      assert IsDigestRef(Text(r)) by { DigestIs(Text(r)); }
      assert Text(r) == (path + ("@" + SHA256)) + ":" + hex;
      LatestIsGood();
      SplitFirst(path + ("@" + SHA256), ':', hex);
      SplitNone(hex, ':');
      FullPathSuffix(path, "@" + SHA256);
      assert (FullPath(path) + ("@" + SHA256)) + ":" + hex == FullPath(path) + ("@" + (SHA256 + ":" + hex));
  }

  /** Of several ':' only the first two count: what is between them is the tag. */
  lemma TagIsSecondPart(path: string, tag: string, rest: string)
    requires ':' !in path && ':' !in tag
    ensures GetFullImageRef(path + ":" + (tag + ":" + rest)) == FullPath(path) + ":" + tag
  {
    hide FullPath, Split;
    SplitFirst(path, ':', tag + ":" + rest);
    SplitFirst(tag, ':', rest);
  }

  lemma GoodPathParts(path: string)
    requires GoodPath(path)
    ensures NoSeparator(path)
    ensures DisplayUrl() <= path ==> !Contains(path[|DisplayUrl()|..], DisplayUrl())
  {
  }

  lemma DigestIs(s: string)
    ensures IsDigestRef(s) <==> Contains(s, "@" + SHA256 + ":")
  {
  }

  lemma HomeRest(path: string)
    requires GoodPath(path) && DisplayUrl() <= FullPath(path)
    ensures FullPath(path) == path
  {
    hide DisplayUrl, ActualUrl, Contains, GoodPath, Split, FullPath;
    assert ActualUrl()[0] != DisplayUrl()[0];
    if '/' !in path {
      FullPathOfName(path);
    } else {
      var a, b := FirstSlash(path);
      if '/' in b {
        FullPathOfMore(a, b);
      } else {
        FullPathOfTwo(a, b);
      }
    }
  }

  /** What is fetched: the home of the path, and the tag, or digest. */
  lemma ActualOf(r: Ref)
    requires WellFormed(r)
    ensures ActualImageRef(Text(r)) == Home(r.path) + Suffix(r)
  {
    hide DisplayUrl, ActualUrl, Contains, GoodPath, FullPath, Split, IsDigestRef, ReplaceChar, ReplaceAll,
         GetFullImageRef, Suffix, Text, Stream;
    FullRef(r);
    SuffixHasNoUrl(r);
    var full, sfx, d := FullPath(r.path), Suffix(r), DisplayUrl();
    assert full + sfx == full + [sfx[0]] + sfx[1..];
    if d <= full {
      HomeRest(r.path);
      GoodPathParts(r.path);
    }
    ExchangePrefix(full, sfx[0], sfx[1..], d, ActualUrl());
    if d <= full {
      assert Home(r.path) + sfx == (ActualUrl() + full[|d|..]) + [sfx[0]] + sfx[1..];
    }
  }

  // ---------- What is shown ----------

  lemma HomeNoSeparator(path: string)
    requires GoodPath(path)
    ensures NoSeparator(Home(path)) && NoSeparator(FullPath(path))
  {
    hide DisplayUrl, ActualUrl, Contains, FullPath;
    FullPathNoSeparator(path);
  }

  /** A path that begins with a repository URL begins with a host name. */
  lemma UrlHasHost(a: string, b: string)
    requires '/' !in a && (ActualUrl() <= a + "/" + b || DisplayUrl() <= a + "/" + b)
    ensures '.' in a
  {
    hide DisplayUrl, ActualUrl;
    var path := a + "/" + b;
    assert path[|a|] == '/';
    if DisplayUrl() <= path {
      assert |DisplayUrl()| <= |a|;
      var i :| 0 <= i < |DisplayUrl()| && DisplayUrl()[i] == '.';
      assert a[i] == path[i] == '.';
    } else {
      var host, name := ActualUrlParts();
      assert path[|host|] == ActualUrl()[|host|] == '/';
      var i :| 0 <= i < |host| && host[i] == '.';
      assert |host| >= |a| && path[i] == '.';
      assert ActualUrl()[..|host|] == host;
      assert |a| >= |host|;
      assert a[i] == '.';
    }
  }

  /** The three kinds of path. */
  lemma KindsOfPath(path: string)
    requires GoodPath(path)
    ensures '/' !in path ==> FullPath(path) == ActualUrl() + "/plugins/turbot/" + path
    ensures '/' in path && FullPath(path) != path ==> FullPath(path) == ActualUrl() + "/plugins/" + path && NoUrl(path)
    ensures '/' in path && (ActualUrl() <= path || DisplayUrl() <= path) ==> FullPath(path) == path
  {
    hide DisplayUrl, ActualUrl, Contains, FullPath, NoUrl, Split;
    if '/' !in path {
      FullPathOfName(path);
    } else {
      var a, b := FirstSlash(path);
      if '/' in b {
        FullPathOfMore(a, b);
      } else {
        FullPathOfTwo(a, b);
      }
      if ActualUrl() <= path || DisplayUrl() <= path {
        UrlHasHost(a, b);
      }
    }
  }

  lemma NoActualUrlAfter(path: string)
    ensures Contains("/plugins/turbot/" + path, ActualUrl()) <==> Contains(path, ActualUrl())
    ensures Contains("/plugins/" + path, ActualUrl()) <==> Contains(path, ActualUrl())
    ensures Contains("/plugins/" + path, DisplayUrl()) <==> Contains(path, DisplayUrl())
    ensures Contains("/plugins/turbot/" + path, DisplayUrl()) <==> Contains(path, DisplayUrl())
  {
    hide DisplayUrl, ActualUrl, Contains;
    ContainsAfter("/plugins/turbot/", path, ActualUrl());
    ContainsAfter("/plugins/", path, ActualUrl());
    ContainsAfter("/plugins/", path, DisplayUrl());
    ContainsAfter("/plugins/turbot/", path, DisplayUrl());
  }

  lemma ActualUrlHasSlash()
    ensures '/' in ActualUrl()
  {
    var host, name := ActualUrlParts();
    assert ActualUrl()[|host|] == '/';
  }

  lemma NoActualUrlIn(s: string)
    requires '/' !in s
    ensures !Contains(s, ActualUrl())
  {
    ActualUrlHasSlash();
    ContainsNeeds(s, ActualUrl(), '/');
  }

  /** The repository URL is a prefix of the home, and occurs nowhere else. */
  lemma HomeTail(path: string)
    requires GoodPath(path) && ActualUrl() <= Home(path)
    ensures !Contains(Home(path)[|ActualUrl()|..], ActualUrl())
  {
    hide DisplayUrl, ActualUrl, Contains, FullPath;
    KindsOfPath(path);
    NoActualUrlAfter(path);
    assert ActualUrl()[0] != DisplayUrl()[0];
    var u := ActualUrl();
    if '/' !in path {
      NoActualUrlIn(path);
      assert (u + "/plugins/turbot/" + path)[|u|..] == "/plugins/turbot/" + path;
    } else if FullPath(path) != path {
      assert (u + "/plugins/" + path)[|u|..] == "/plugins/" + path;
    } else if DisplayUrl() <= path {
      assert (u + path[|DisplayUrl()|..])[|u|..] == path[|DisplayUrl()|..];
    }
  }

  lemma StreamIsGood(r: Ref)
    requires WellFormed(r)
    ensures GoodTag(Stream(r)) && !Contains(Stream(r), ActualUrl())
  {
    hide DisplayUrl, ActualUrl, Contains, GoodPath;
    LatestIsGood();
    if r.Digest? {
      ContainsAfter(SHA256 + "-", r.hex, DisplayUrl());
    }
    NoActualUrlIn(Stream(r));
  }

  lemma TagShown(home: string, tag: string)
    requires NoSeparator(home) && NoSeparator(tag)
    ensures !IsDigestRef(home + ":" + tag) && ReplaceChar(home + ":" + tag, ':', '@') == home + "@" + tag
  {
    hide IsDigestRef, ReplaceChar;
    NotDigest(home + ":" + tag);
    ReplaceBetween(home, ':', '@', tag);
  }

  lemma DigestShown(home: string, hex: string)
    requires NoSeparator(home) && NoSeparator(hex)
    ensures var actual := home + ("@" + (SHA256 + ":" + hex));
            IsDigestRef(actual) && ReplaceChar(ReplaceChar(actual, ':', '-'), ':', '@') == home + "@" +
                (SHA256 + "-" + hex)
  {
    hide IsDigestRef, ReplaceChar, Contains;
    var actual := home + ("@" + (SHA256 + ":" + hex));
    LatestIsGood();
    var a := home + "@" + SHA256;
    assert actual == home + ("@" + SHA256 + ":") + hex == a + ":" + hex;
    ContainsMiddle(home, "@" + SHA256 + ":", hex);
    DigestIs(actual);
    ReplaceBetween(a, ':', '-', hex);
    ReplaceNone(a + "-" + hex, ':', '@');
    assert a + "-" + hex == home + "@" + (SHA256 + "-" + hex);
  }

  /** The separators of what is fetched, as shown. */
  lemma SeparatorsShown(home: string, r: Ref)
    requires WellFormed(r) && NoSeparator(home)
    ensures var actual := home + Suffix(r);
            ReplaceChar(if IsDigestRef(actual) then ReplaceChar(actual, ':', '-') else actual, ':', '@') == home +
                "@" + Stream(r)
  {
    hide DisplayUrl, ActualUrl, Contains, GoodPath, IsDigestRef, ReplaceChar;
    if r.Digest? {
      DigestShown(home, r.hex);
    } else {
      StreamIsGood(r);
      assert home + Suffix(r) == home + ":" + Stream(r);
      TagShown(home, Stream(r));
    }
  }

  /** Exchanging the prefix u of a text for v, when u occurs nowhere else. */
  lemma ExchangePrefix(home: string, c: char, stream: string, u: string, v: string)
    requires u != "" && c !in u && !Contains(stream, u) && (u <= home ==> !Contains(home[|u|..], u))
    ensures u <= home + [c] + stream <==> u <= home
    ensures u <= home ==> ReplaceAll(home + [c] + stream, u, v) == (v + home[|u|..]) + [c] + stream
  {
    hide Contains, ReplaceAll;
    PrefixAcross(u, home, c, stream);
    if u <= home {
      var rest := home[|u|..];
      ContainsAcross(rest, c, stream, u);
      assert home + [c] + stream == u + (rest + [c] + stream);
      ReplacePrefix(rest + [c] + stream, u, v);
      assert v + (rest + [c] + stream) == (v + rest) + [c] + stream;
    }
  }

  /** What is shown. */
  lemma DisplayOf(r: Ref)
    requires WellFormed(r)
    ensures DisplayImageRef(Text(r)) == Shown(r.path) + "@" + Stream(r)
  {
    hide DisplayUrl, ActualUrl, Contains, GoodPath, IsDigestRef, ReplaceChar, ReplaceAll, ActualImageRef, Home,
         Stream, Suffix, Text;
    ActualOf(r);
    assert GoodPath(r.path);
    HomeNoSeparator(r.path);
    var home, stream, u := Home(r.path), Stream(r), ActualUrl();
    SeparatorsShown(home, r);
    StreamIsGood(r);
    if u <= home {
      HomeTail(r.path);
    }
    ExchangePrefix(home, '@', stream, u, DisplayUrl());
  }

  // ---------- Round trips ----------

  /** What is shown of a path, by kind of path. */
  lemma ShownByKind(path: string)
    requires GoodPath(path)
    ensures '/' !in path ==> Shown(path) == DisplayUrl() + ("/plugins/turbot/" + path)
                             && Home(path) == ActualUrl() + ("/plugins/turbot/" + path)
    ensures '/' in path && FullPath(path) != path ==> NoUrl(path) && Shown(path) == DisplayUrl() + ("/plugins/" + path)
                                                      && Home(path) == ActualUrl() + ("/plugins/" + path)
    ensures '/' in path && FullPath(path) == path && ActualUrl() <= path ==>
              Shown(path) == DisplayUrl() + path[|ActualUrl()|..] && Home(path) == path
    ensures '/' in path && FullPath(path) == path && DisplayUrl() <= path ==>
              Shown(path) == path && Home(path) == ActualUrl() + path[|DisplayUrl()|..]
    ensures '/' in path && FullPath(path) == path && !(ActualUrl() <= path) && !(DisplayUrl() <= path) ==>
              Shown(path) == path == Home(path)
  {
    hide DisplayUrl, ActualUrl, Contains, FullPath, GoodPath, NoUrl;
    KindsOfPath(path);
    assert ActualUrl()[0] != DisplayUrl()[0];
    var u := ActualUrl();
    assert u + "/plugins/turbot/" + path == u + ("/plugins/turbot/" + path);
    assert u + "/plugins/" + path == u + ("/plugins/" + path);
  }

  /** A path under the display URL, with a slash, is fetched from the same place under the actual URL. */
  lemma UnderDisplayUrl(rest: string)
    requires NoSeparator(rest) && NoUrl(rest) && '/' in rest
    ensures GoodPath(DisplayUrl() + rest) && Home(DisplayUrl() + rest) == ActualUrl() + rest
  {
    hide ActualUrl, Contains, FullPath;
    assert ActualUrl()[0] != DisplayUrl()[0];
    var path := DisplayUrl() + rest;
    assert path[|DisplayUrl()|..] == rest;
    assert GoodPath(path) by {
      hide DisplayUrl;
    }
    hide DisplayUrl, GoodPath;
    KindsOfPath(path);
  }

  lemma GoodPathRest(path: string)
    requires GoodPath(path)
    ensures NoSeparator(path)
    ensures ActualUrl() <= path ==> NoUrl(path[|ActualUrl()|..]) && NoSeparator(path[|ActualUrl()|..])
    ensures !(ActualUrl() <= path) && !(DisplayUrl() <= path) ==> NoUrl(path)
  {
    hide DisplayUrl, ActualUrl, Contains, NoUrl;
  }

  lemma NoUrlAfterPlugins(path: string)
    requires NoUrl(path)
    ensures NoUrl("/plugins/" + path) && NoUrl("/plugins/turbot/" + path)
  {
    hide DisplayUrl, ActualUrl, Contains;
    NoActualUrlAfter(path);
  }

  /** What is shown is fetched from the same place, unless the path was nothing but a repository URL. */
  lemma ShownIsSameHome(path: string)
    requires GoodPath(path) && !BareDisplay(path) && !BareActual(path)
    ensures GoodPath(Shown(path)) && Home(Shown(path)) == Home(path)
  {
    hide DisplayUrl, ActualUrl, Contains, FullPath, GoodPath, NoUrl, Shown, Home;
    ShownByKind(path);
    KindsOfPath(path);
    GoodPathRest(path);
    if '/' !in path {
      assert !(ActualUrl() <= path) by { ActualUrlHasSlash(); }
      NoUrlAfterPlugins(path);
      UnderDisplayUrl("/plugins/turbot/" + path);
    } else if FullPath(path) != path {
      NoUrlAfterPlugins(path);
      UnderDisplayUrl("/plugins/" + path);
    } else if ActualUrl() <= path {
      UnderDisplayUrl(path[|ActualUrl()|..]);
    }
  }

  lemma ShownOfHome(p: string, q: string)
    requires Home(p) == Home(q)
    ensures Shown(p) == Shown(q)
  {
  }

  /** What is shown of r, as a reference. */
  function ShownRef(r: Ref): Ref {
    Tagged('@', Shown(r.path), Stream(r))
  }

  /** The three forms as they are fetched and shown. */
  lemma Forms(path: string, tag: string, hex: string)
    requires WellFormed(Plain(path)) && WellFormed(Tagged(':', path, tag)) && WellFormed(Digest(path, hex))
    ensures ActualImageRef(path) == Home(path) + ":latest" && DisplayImageRef(path) == Shown(path) + "@latest"
    ensures ActualImageRef(path + ":" + tag) == ActualImageRef(path + "@" + tag) == Home(path) + ":" + tag
    ensures DisplayImageRef(path + ":" + tag) == DisplayImageRef(path + "@" + tag) == Shown(path) + "@" + tag
    ensures ActualImageRef(path + "@sha256:" + hex) == Home(path) + "@sha256:" + hex
    ensures DisplayImageRef(path + "@sha256:" + hex) == Shown(path) + "@sha256-" + hex
  {
    hide ActualImageRef, DisplayImageRef, Home, Shown, GoodPath, GoodTag;
    ActualOf(Plain(path));
    DisplayOf(Plain(path));
    ActualOf(Tagged(':', path, tag));
    ActualOf(Tagged('@', path, tag));
    DisplayOf(Tagged(':', path, tag));
    DisplayOf(Tagged('@', path, tag));
    ActualOf(Digest(path, hex));
    DisplayOf(Digest(path, hex));
    assert path + "@" + "sha256" + ":" + hex == path + "@sha256:" + hex;
    assert Home(path) + ("@" + ("sha256" + ":" + hex)) == Home(path) + "@sha256:" + hex;
    assert Home(path) + (":" + tag) == Home(path) + ":" + tag;
    assert Shown(path) + "@" + ("sha256" + "-" + hex) == Shown(path) + "@sha256-" + hex;
  }

  lemma ShownText(r: Ref)
    requires WellFormed(r)
    ensures DisplayImageRef(Text(r)) == Text(ShownRef(r))
    ensures GoodPath(Shown(r.path)) ==> WellFormed(ShownRef(r))
    ensures Suffix(ShownRef(r)) == ":" + Stream(r) && Stream(ShownRef(r)) == Stream(r)
  {
    hide DisplayUrl, ActualUrl, Contains, GoodPath, Shown, DisplayImageRef, GoodTag;
    DisplayOf(r);
    StreamIsGood(r);
  }

  /** The suffixes of a digest and of what is shown for it. */
  lemma DigestSuffix(r: Ref)
    requires WellFormed(r)
    ensures |Suffix(r)| == |":" + Stream(r)| && Suffix(r) != "" && (Suffix(r)[0] == ':' <==> !r.Digest?)
    ensures !r.Digest? ==> Suffix(r) == ":" + Stream(r)
  {
    hide GoodPath, GoodTag;
  }

  /** A bare host is shown below itself. */
  lemma BareDisplayShown(path: string)
    requires GoodPath(path) && BareDisplay(path)
    ensures Shown(path) == DisplayUrl() + ("/plugins/turbot/" + path) &&
            Home(path) == ActualUrl() + ("/plugins/turbot/" + path)
    ensures NoUrl(path[|DisplayUrl()|..]) && NoSeparator(path)
  {
    hide DisplayUrl, ActualUrl, Contains, NoUrl, Home, Shown;
    ShownByKind(path);
  }

  lemma ReplaceTail(s: string, u: string, v: string)
    requires u != "" && |s| >= |u| && !(u <= s)
    ensures ReplaceAll(s, u, v) == [s[0]] + ReplaceAll(s[1..], u, v)
  {
  }

  lemma {:induction false} ReplaceAfter(lit: string, s: string, u: string, v: string)
    requires |u| > 1 && |s| >= |u|
    requires forall i :: 0 <= i < |lit| && lit[i] == u[0] ==> i + 1 < |lit| && lit[i + 1] != u[1]
    ensures ReplaceAll(lit + s, u, v) == lit + ReplaceAll(s, u, v)
  {
    hide ReplaceAll;
    if lit == "" {
      assert lit + s == s;
    } else {
      var t := lit + s;
      assert t[0] == lit[0] && (|lit| > 1 ==> t[1] == lit[1]) && t[1..] == lit[1..] + s;
      ReplaceTail(t, u, v);
      ReplaceAfter(lit[1..], s, u, v);
      assert lit == [lit[0]] + lit[1..];
    }
  }

  /** Replacing both occurrences in a bare host shown below itself. */
  lemma ReplaceBoth(rest: string, u: string, v: string)
    requires (u == DisplayUrl() || u == ActualUrl()) && !Contains(rest, u)
    ensures u <= u + ("/plugins/turbot/" + (u + rest))
    ensures ReplaceAll(u + ("/plugins/turbot/" + (u + rest)), u, v) == v + ("/plugins/turbot/" + (v + rest))
  {
    hide DisplayUrl, ActualUrl, Contains;
    var lit := "/plugins/turbot/";
    var s := u + (lit + (u + rest));
    assert s[|u|..] == lit + (u + rest);
    hide ReplaceAll;
    ReplaceAfter(lit, u + rest, u, v);
    ReplacePrefix(rest, u, v);
    ReplaceHead(s, u, v);
  }

  lemma ReplaceHead(s: string, u: string, v: string)
    requires u != "" && u <= s
    ensures ReplaceAll(s, u, v) == v + ReplaceAll(s[|u|..], u, v)
  {
  }

  /** Fetching what is shown for a bare host: its own URL is replaced twice. */
  lemma BareDisplayFetched(r: Ref)
    requires WellFormed(r) && BareDisplay(r.path)
    ensures var rest := r.path[|DisplayUrl()|..]; var d := DisplayImageRef(Text(r));
            && ActualImageRef(d) == ActualUrl() + ("/plugins/turbot/" + (ActualUrl() + (rest + ":" + Stream(r))))
            && DisplayImageRef(d) == d
  {
    hide DisplayUrl, ActualUrl, Contains, GoodPath, GoodTag, Shown, Home, IsDigestRef, ReplaceChar, ReplaceAll,
         FullPath, Split, Text, Stream, Suffix, NoUrl;
    BareDisplayShown(r.path);
    DisplayOf(r);
    StreamIsGood(r);
    NoActualUrlIn(r.path[|DisplayUrl()|..]);
    GoodTagParts(Stream(r));
    BareFetched(r.path[|DisplayUrl()|..], Stream(r));
    assert r.path == DisplayUrl() + r.path[|DisplayUrl()|..];
  }

  lemma GoodTagParts(tag: string)
    requires GoodTag(tag)
    ensures NoSeparator(tag) && '/' !in tag && !Contains(tag, DisplayUrl())
  {
  }

  lemma NoUrlParts(s: string)
    ensures NoUrl(s) <==> !Contains(s, DisplayUrl()) && !Contains(s, ActualUrl())
  {
  }

  lemma PathFetched(path: string, stream: string)
    requires NoSeparator(path) && NoSeparator(stream)
    ensures GetFullImageRef(ReplaceChar(path + "@" + stream, '@', ':')) == FullPath(path) + ":" + stream
    ensures !IsDigestRef(path + "@" + stream)
  {
    hide FullPath, IsDigestRef, ReplaceChar, Split;
    NotDigest(path + "@" + stream);
    ReplaceBetween(path, '@', ':', stream);
    SplitFirst(path, ':', stream);
    SplitNone(stream, ':');
  }

  lemma BareFetched(rest: string, stream: string)
    requires NoUrl(rest) && NoSeparator(rest) && NoSeparator(stream) && '/' !in stream &&
             !Contains(stream, DisplayUrl())
    ensures var d := (DisplayUrl() + ("/plugins/turbot/" + (DisplayUrl() + rest))) + "@" + stream;
            && ActualImageRef(d) == ActualUrl() + ("/plugins/turbot/" + (ActualUrl() + (rest + ":" + stream)))
            && DisplayImageRef(d) == d
  {
    hide DisplayUrl, ActualUrl, Contains, IsDigestRef, ReplaceChar, ReplaceAll, FullPath, Split, GetFullImageRef,
         NoUrl, ActualImageRef, NoSeparator;
    var du, au := DisplayUrl(), ActualUrl();
    BareActualRef(rest, stream);
    assert au + ("/plugins/turbot/" + (au + (rest + ":" + stream))) == (au + ("/plugins/turbot/" + (au + rest))) +
        ":" + stream;
    BareDisplayRef(rest, stream);
  }

  lemma BareActualRef(rest: string, stream: string)
    requires NoUrl(rest) && NoSeparator(rest) && NoSeparator(stream) && !Contains(stream, DisplayUrl())
    ensures ActualImageRef((DisplayUrl() + ("/plugins/turbot/" + (DisplayUrl() + rest))) + "@" + stream)
         == ActualUrl() + ("/plugins/turbot/" + (ActualUrl() + (rest + ":" + stream)))
  {
    hide DisplayUrl, ActualUrl, Contains, IsDigestRef, ReplaceChar, ReplaceAll, FullPath, Split, GetFullImageRef, NoUrl;
    var du, au := DisplayUrl(), ActualUrl();
    var path := du + ("/plugins/turbot/" + (du + rest));
    PathFetched(path, stream);
    BelowHost(du, du + rest);
    NoUrlParts(rest);
    var tail := rest + ":" + stream;
    ContainsAcross(rest, ':', stream, du);
    assert path + ":" + stream == du + ("/plugins/turbot/" + (du + tail));
    ReplaceBoth(tail, du, au);
  }

  lemma BareDisplayRef(rest: string, stream: string)
    requires NoUrl(rest) && NoSeparator(rest) && NoSeparator(stream) && '/' !in stream
    ensures var actual := (ActualUrl() + ("/plugins/turbot/" + (ActualUrl() + rest))) + ":" + stream;
            var full := ReplaceChar(if IsDigestRef(actual) then ReplaceChar(actual, ':', '-') else actual, ':', '@');
            && ActualUrl() <= full
            && ReplaceAll(full, ActualUrl(), DisplayUrl())
               == (DisplayUrl() + ("/plugins/turbot/" + (DisplayUrl() + rest))) + "@" + stream
  {
    hide DisplayUrl, ActualUrl, Contains, IsDigestRef, ReplaceChar, ReplaceAll, NoUrl;
    var du, au := DisplayUrl(), ActualUrl();
    NoUrlParts(rest);
    NoActualUrlIn(stream);
    var home := au + ("/plugins/turbot/" + (au + rest));
    TagShown(home, stream);
    var tail := rest + "@" + stream;
    ContainsAcross(rest, '@', stream, au);
    assert home + "@" + stream == au + ("/plugins/turbot/" + (au + tail));
    ReplaceBoth(tail, au, du);
    assert (du + ("/plugins/turbot/" + (du + rest))) + "@" + stream == du + ("/plugins/turbot/" + (du + tail));
  }

  /** A path with three parts, or more, is taken as it is. */
  lemma BelowHost(host: string, rest: string)
    requires '/' !in host
    ensures FullPath(host + ("/plugins/turbot/" + rest)) == host + ("/plugins/turbot/" + rest)
  {
    hide FullPath;
    var b := "plugins/turbot/" + rest;
    assert b[7] == '/';
    FullPathOfMore(host, b);
    assert host + "/" + b == host + ("/plugins/turbot/" + rest);
  }

  /** What is shown for nothing but the repository URL is a bare host. */
  lemma BareActualShown(r: Ref)
    requires WellFormed(r) && BareActual(r.path)
    ensures Home(r.path) == r.path && Shown(r.path) == DisplayUrl() + r.path[|ActualUrl()|..]
    ensures WellFormed(ShownRef(r)) && BareDisplay(Shown(r.path))
  {
    hide ActualUrl, Contains, NoUrl, Home, Shown, FullPath, GoodTag, Stream;
    var rest := r.path[|ActualUrl()|..];
    ActualUrlHasSlash();
    assert '/' in r.path by {
      var i :| 0 <= i < |ActualUrl()| && ActualUrl()[i] == '/';
      assert r.path[i] == '/';
    }
    KindsOfPath(r.path);
    ShownByKind(r.path);
    GoodPathRest(r.path);
    StreamIsGood(r);
    hide DisplayUrl;
    assert (DisplayUrl() + rest)[|DisplayUrl()|..] == rest;
    assert ActualUrl()[0] != DisplayUrl()[0];
  }

  /** Fetching what is shown fetches the same image, exactly when the reference has no digest and its path
      is more than a repository URL. */
  lemma ShownFetchesTheSame(r: Ref)
    requires WellFormed(r)
    ensures ActualImageRef(DisplayImageRef(Text(r))) == ActualImageRef(Text(r)) <==>
            !r.Digest? && !BareDisplay(r.path) && !BareActual(r.path)
  {
    hide DisplayUrl, ActualUrl, Contains, GoodPath, GoodTag, NoUrl, Shown, Home, Stream, Suffix, Text,
         ActualImageRef, DisplayImageRef, BareDisplay, BareActual, FullPath;
    ActualOf(r);
    ShownText(r);
    DigestSuffix(r);
    var home, stream := Home(r.path), Stream(r);
    if BareDisplay(r.path) {
      BareDisplayFetched(r);
      BareDisplayShown(r.path);
      BareDisplayLonger(r);
    } else if BareActual(r.path) {
      BareActualShown(r);
      BareDisplayShown(Shown(r.path));
      ActualOf(ShownRef(r));
      BareActualLonger(r);
    } else {
      ShownIsSameHome(r.path);
      ActualOf(ShownRef(r));
      if r.Digest? {
        assert (home + Suffix(r))[|home|] != (home + (":" + stream))[|home|];
      }
    }
  }

  lemma BareDisplayLonger(r: Ref)
    requires WellFormed(r) && BareDisplay(r.path)
    ensures |ActualUrl() + ("/plugins/turbot/" + (ActualUrl() + (r.path[|DisplayUrl()|..] + ":" + Stream(r))))|
          > |Home(r.path) + Suffix(r)|
  {
    hide DisplayUrl, ActualUrl, Contains, GoodPath, GoodTag, NoUrl, Home, Stream, Suffix;
    BareDisplayShown(r.path);
    DigestSuffix(r);
  }

  lemma BareActualLonger(r: Ref)
    requires WellFormed(r) && BareActual(r.path) && GoodPath(Shown(r.path)) && BareDisplay(Shown(r.path))
    ensures |Home(Shown(r.path)) + (":" + Stream(r))| > |Home(r.path) + Suffix(r)|
  {
    hide DisplayUrl, ActualUrl, Contains, GoodPath, GoodTag, NoUrl, Home, Stream, Suffix, Shown;
    BareActualShown(r);
    BareDisplayShown(Shown(r.path));
    DigestSuffix(r);
  }

  /** Showing what is shown changes nothing, exactly when the path is more than the repository URL. */
  lemma ShowingIsIdempotent(r: Ref)
    requires WellFormed(r)
    ensures DisplayImageRef(DisplayImageRef(Text(r))) == DisplayImageRef(Text(r)) <==> !BareActual(r.path)
  {
    hide DisplayUrl, ActualUrl, Contains, GoodPath, GoodTag, NoUrl, Shown, Home, Stream, Suffix, Text,
         ActualImageRef, DisplayImageRef, BareDisplay, BareActual, FullPath;
    ShownText(r);
    DisplayOf(r);
    if BareDisplay(r.path) {
      BareDisplayFetched(r);
      BareBoth(r.path);
    } else if BareActual(r.path) {
      BareActualShown(r);
      DisplayOf(ShownRef(r));
      BareDisplayShown(Shown(r.path));
    } else {
      ShownIsSameHome(r.path);
      DisplayOf(ShownRef(r));
      ShownOfHome(r.path, Shown(r.path));
    }
  }

  lemma BareBoth(path: string)
    requires BareDisplay(path)
    ensures !BareActual(path)
  {
    hide DisplayUrl, ActualUrl;
    assert ActualUrl()[0] != DisplayUrl()[0];
  }

  // ---------- Organisation, name and stream ----------

  lemma LastTwoParts(pre: string, org: string, name: string, stream: string)
    requires '/' !in org && '/' !in name && '@' !in name && '/' !in stream && '@' !in stream
    ensures var split := Split(pre + "/" + org + "/" + name + "@" + stream, '/');
            && |split| > 1 && split[|split| - 2] == org
            && Split(split[|split| - 1], '@') == [name, stream]
  {
    hide Split;
    var last := name + "@" + stream;
    assert pre + "/" + org + "/" + name + "@" + stream == (pre + "/" + org) + "/" + last;
    SplitLast(pre + "/" + org, '/', last);
    SplitLast(pre, '/', org);
    SplitFirst(name, '@', stream);
    SplitNone(stream, '@');
  }

  lemma OnlyTwoParts(org: string, name: string, stream: string)
    requires '/' !in org && '/' !in name && '@' !in name && '/' !in stream && '@' !in stream
    ensures var split := Split(org + "/" + name + "@" + stream, '/');
            && |split| == 2 && split[0] == org && Split(split[1], '@') == [name, stream]
  {
    hide Split;
    var last := name + "@" + stream;
    assert org + "/" + name + "@" + stream == org + "/" + last;
    SplitLast(org, '/', last);
    SplitNone(org, '/');
    SplitFirst(name, '@', stream);
    SplitNone(stream, '@');
  }

  /** A plugin given by its name alone is turbot's. */
  lemma NameIsTurbots(r: Ref)
    requires WellFormed(r) && '/' !in r.path
    ensures GetOrgNameAndStream(Text(r)) == OrgNameStream("turbot", r.path, Stream(r))
  {
    hide DisplayUrl, ActualUrl, Contains, GoodPath, NoUrl, Shown, Home, Stream, Text, DisplayImageRef, Split;
    DisplayOf(r);
    ShownByKind(r.path);
    StreamIsGood(r);
    assert GoodPath(r.path);
    GoodPathRest(r.path);
    LastTwoParts(DisplayUrl() + "/plugins", "turbot", r.path, Stream(r));
    assert DisplayUrl() + "/plugins" + "/" + "turbot" + "/" + r.path + "@" + Stream(r) == Shown(r.path) + "@" +
        Stream(r);
  }

  /** "org/name", with a tag or a digest or neither, gives back the organisation, the name and the stream,
      unless it begins with the repository URL. */
  lemma OrgAndNameRecovered(r: Ref, org: string, name: string)
    requires WellFormed(r) && r.path == org + "/" + name && '/' !in org && '/' !in name && !(ActualUrl() <= r.path)
    ensures GetOrgNameAndStream(Text(r)) == OrgNameStream(org, name, Stream(r))
  {
    hide DisplayUrl, ActualUrl, Contains, GoodPath, NoUrl, Shown, Home, Stream, Text, DisplayImageRef, Split, FullPath;
    DisplayOf(r);
    assert r.path[|org|] == '/';
    ShownByKind(r.path);
    StreamIsGood(r);
    assert GoodPath(r.path);
    GoodPathRest(r.path);
    LastTwoParts(DisplayUrl() + "/plugins", org, name, Stream(r));
    OnlyTwoParts(org, name, Stream(r));
    assert DisplayUrl() + "/plugins" + "/" + org + "/" + name + "@" +
        Stream(r) == (DisplayUrl() + ("/plugins/" + r.path)) + "@" + Stream(r);
  }

  /** The program indexes out of range exactly for nothing but the repository URL. */
  lemma OutOfRangeExactly(r: Ref)
    requires WellFormed(r)
    ensures GetOrgNameAndStream(Text(r)) == OutOfRange <==> BareActual(r.path)
  {
    hide DisplayUrl, ActualUrl, Contains, GoodPath, NoUrl, Shown, Home, Stream, Text, DisplayImageRef, Split,
         FullPath, BareActual;
    DisplayOf(r);
    StreamIsGood(r);
    assert GoodPath(r.path);
    HomeNoSeparator(r.path);
    ShownNoSeparator(r.path);
    var shown, stream := Shown(r.path), Stream(r);
    if '/' in shown {
      var i := LastSlash(shown);
      var a, b := shown[..i], shown[i + 1..];
      assert shown == a + "/" + b;
      assert shown + "@" + stream == a + "/" + (b + "@" + stream);
      SplitLast(a, '/', b + "@" + stream);
      SplitFirst(b, '@', stream);
      SplitNone(stream, '@');
    } else {
      SplitNone(shown + "@" + stream, '/');
    }
    SlashShown(r.path);
  }

  lemma ShownNoSeparator(path: string)
    requires NoSeparator(Home(path))
    ensures NoSeparator(Shown(path))
  {
    hide DisplayUrl, ActualUrl, Home;
  }

  lemma {:induction false} LastSlash(s: string) returns (i: nat)
    requires '/' in s
    ensures i < |s| && s[i] == '/' && '/' !in s[i + 1..]
  {
    if s[|s| - 1] == '/' {
      i := |s| - 1;
    } else {
      assert s == s[..|s| - 1] + [s[|s| - 1]];
      i := LastSlash(s[..|s| - 1]);
      assert s[i + 1..] == s[..|s| - 1][i + 1..] + [s[|s| - 1]];
    }
  }

  lemma SlashShown(path: string)
    requires GoodPath(path)
    ensures '/' in Shown(path) <==> !BareActual(path)
  {
    hide DisplayUrl, ActualUrl, Contains, GoodPath, NoUrl, Shown, Home, FullPath;
    ShownByKind(path);
    KindsOfPath(path);
    if '/' !in path {
      assert Shown(path)[|DisplayUrl()|] == '/';
      ActualUrlHasSlash();
    } else if FullPath(path) != path {
      assert Shown(path)[|DisplayUrl()|] == '/';
    }
  }
}