/** The host's mount table: finding what is mounted at a path without touching it, listing
    what is mounted below a directory in an order that is safe to release, and parsing the
    lines of the mount listing. */
module HostMount {
  import opened Wrappers
  import opened Text

  // ---- Mount lines ---------------------------------------------------------------------

  datatype MountInfo = MountInfo(source: string, fstype: string)

  /** What comes before the first comma or closing parenthesis. */
  function UntilDelimiter(s: string): string {
    if s == [] || s[0] == ',' || s[0] == ')' then [] else [s[0]] + UntilDelimiter(s[1..])
  }

  predicate NoDelimiter(s: string) {
    ',' !in s && ')' !in s
  }

  /** `parse_mount_line`: the mount point and what is mounted there. */
  function ParseLine(line: string): Option<(string, MountInfo)> {
    match SplitOnce(line, " on ")
    case None => None
    case Some((source, rest)) =>
      match SplitOnce(rest, " (")
      case None => None
      case Some((point, suffix)) => Some((point, MountInfo(source, Trim(UntilDelimiter(suffix)))))
  }

  /** A line of the listing; `options` begins with a comma or is the closing parenthesis. */
  function Line(source: string, point: string, fstype: string, options: string): string {
    source + " on " + point + " (" + fstype + options
  }

  lemma {:induction false} UntilDelimiterOf(s: string, options: string)
    requires options != [] && (options[0] == ',' || options[0] == ')')
    ensures UntilDelimiter(s + options) <= s
    ensures UntilDelimiter(s + options) == s <==> NoDelimiter(s)
  {
    if s == [] {
      assert s + options == options;
    } else {
      UntilDelimiterOf(s[1..], options);
      assert (s + options)[1..] == s[1..] + options;
      assert s == [s[0]] + s[1..];
    }
  }

  lemma TrimIsShorter(s: string)
    ensures |Trim(s)| <= |s|
  {
    TrimStartShape(s);
    TrimEndShape(TrimStart(s));
  }

  lemma FstypeRecoveredIff(fstype: string, options: string)
    requires options != [] && (options[0] == ',' || options[0] == ')')
    ensures Trim(UntilDelimiter(fstype + options)) == fstype <==> NoDelimiter(fstype) && Trimmed(fstype)
  {
    UntilDelimiterOf(fstype, options);
    TrimIsShorter(UntilDelimiter(fstype + options));
    TrimFixesIff(fstype);
    if UntilDelimiter(fstype + options) != fstype {
      assert |UntilDelimiter(fstype + options)| < |fstype|;
    }
  }

  /** A line parses back to its parts exactly when the source is clear of " on ", the mount
      point is clear of " (", and the type is trimmed and free of commas and parentheses. */
  lemma LineRoundTripIff(source: string, point: string, fstype: string, options: string)
    requires options != [] && (options[0] == ',' || options[0] == ')')
    ensures ParseLine(Line(source, point, fstype, options)) == Some((point, MountInfo(source, fstype))) <==>
      Clear(source, " on ") && Clear(point, " (") && NoDelimiter(fstype) && Trimmed(fstype)
  {
    var suffix := fstype + options;
    var rest := point + " (" + suffix;
    assert Line(source, point, fstype, options) == source + " on " + rest;
    SplitOnceRecovers(source, " on ", rest);
    SplitOnceRecovers(point, " (", suffix);
    FstypeRecoveredIff(fstype, options);
  }

  /** The mount point of an ordinary folder name can break its line. */
  lemma ParenthesisInMountPoint()
    ensures ParseLine(Line("/dev/disk4", "/Volumes/Backup (2)", "apfs", ", local)")) !=
      Some(("/Volumes/Backup (2)", MountInfo("/dev/disk4", "apfs")))
  {
    var point := "/Volumes/Backup (2)";
    assert At(point + " (", " (", 15) by {
      assert (point + " (")[15..17] == " (";
    }
    LineRoundTripIff("/dev/disk4", point, "apfs", ", local)");
  }

  // ---- Whose mount it is ---------------------------------------------------------------

  const HOSTS_ALIAS_NAME: string := "ArcBox"

  /** NFS from the loopback proxy, by address or alias. */
  predicate IsDockerExport(info: MountInfo) {
    info.fstype == "nfs" &&
    match SplitOnce(info.source, ":/")
    case None => false
    case Some((host, _)) => host == "127.0.0.1" || host == HOSTS_ALIAS_NAME
  }

  /** NFS from the root of a server named by an IPv4 address that is not loopback. */
  predicate IsMachineExport(info: MountInfo) {
    info.fstype == "nfs" &&
    match StripSuffix(info.source, ":/")
    case None => false
    case Some(host) =>
      match ParseIpv4(host)
      case None => false
      case Some(octets) => |octets| == 4 && octets[0] != 127
  }

  lemma LiteralIsClear(host: string)
    requires ParseIpv4(host).Some?
    ensures Clear(host, ":/")
  {
    LiteralChars(host, 4);
    forall i | 0 <= i < |host| ensures !At(host + ":/", ":/", i) {
      assert (host + ":/")[i..i + 2][0] == host[i];
    }
  }

  lemma LoopbackIsLoopback()
    ensures ParseIpv4("127.0.0.1").Some? ==> ParseIpv4("127.0.0.1").value[0] == 127
  {
    ClearChar("127", '.');
    SplitOnceRecovers("127", ".", "0.0.1");
    assert "127.0.0.1" == "127" + "." + "0.0.1";
    assert "127"[..2] == "12" && "12"[..1] == "1" && "1"[..0] == "";
    assert Value("1") == 1 && Value("12") == 12 && Value("127") == 127;
  }

  /** No mount is both a docker export and a machine export. */
  lemma ExportsAreDisjoint(info: MountInfo)
    ensures !(IsDockerExport(info) && IsMachineExport(info))
  {
    if IsMachineExport(info) {
      var host := StripSuffix(info.source, ":/").value;
      LiteralIsClear(host);
      SplitOnceRecovers(host, ":/", "");
      assert info.source == host + ":/" + "";
      LoopbackIsLoopback();
      LiteralChars(host, 4);
      assert !LiteralChar(HOSTS_ALIAS_NAME[0]);
    }
  }

  // ---- The table -----------------------------------------------------------------------

  /** The components of a canonical path. */
  type Path = seq<string>

  datatype Mount = Mount(point: Path, info: MountInfo)

  predicate StrictlyBelow(p: Path, root: Path) {
    root < p
  }

  /** The mounts below `root`, in the table's order. */
  function Descendants(mounts: seq<Mount>, root: Path): seq<Mount> {
    if mounts == [] then []
    else
      var rest := Descendants(mounts[..|mounts| - 1], root);
      var last := mounts[|mounts| - 1];
      if StrictlyBelow(last.point, root) then rest + [last] else rest
  }

  /** Those of one depth, in order. */
  function Layer(mounts: seq<Mount>, depth: nat): seq<Mount> {
    if mounts == [] then []
    else
      var rest := Layer(mounts[..|mounts| - 1], depth);
      var last := mounts[|mounts| - 1];
      if |last.point| == depth then rest + [last] else rest
  }

  lemma {:induction false} LayerConcat(a: seq<Mount>, b: seq<Mount>, depth: nat)
    ensures Layer(a + b, depth) == Layer(a, depth) + Layer(b, depth)
  {
    if b == [] {
      assert a + b == a;
    } else {
      LayerConcat(a, b[..|b| - 1], depth);
      assert (a + b)[..|a + b| - 1] == a + b[..|b| - 1];
    }
  }

  lemma {:induction false} LayerHolds(mounts: seq<Mount>, m: Mount)
    ensures m in mounts <==> m in Layer(mounts, |m.point|)
  {
    if mounts != [] {
      LayerHolds(mounts[..|mounts| - 1], m);
      assert mounts == mounts[..|mounts| - 1] + [mounts[|mounts| - 1]];
    }
  }

  lemma {:induction false} DescendantsExactly(mounts: seq<Mount>, root: Path, m: Mount)
    ensures m in Descendants(mounts, root) <==> m in mounts && StrictlyBelow(m.point, root)
  {
    if mounts != [] {
      DescendantsExactly(mounts[..|mounts| - 1], root, m);
      assert mounts == mounts[..|mounts| - 1] + [mounts[|mounts| - 1]];
    }
  }

  ghost predicate DeepestFirst(mounts: seq<Mount>) {
    forall i, j | 0 <= i < j < |mounts| :: |mounts[i].point| >= |mounts[j].point|
  }

  /** Nothing released later lies below what is released now. */
  ghost predicate SafeToRelease(mounts: seq<Mount>) {
    forall i, j | 0 <= i < j < |mounts| :: !StrictlyBelow(mounts[j].point, mounts[i].point)
  }

  /** The same mounts in the same order at every depth. */
  ghost predicate SameLayers(a: seq<Mount>, b: seq<Mount>) {
    forall d: nat :: Layer(a, d) == Layer(b, d)
  }

  lemma ShallowLayer(mounts: seq<Mount>, depth: nat)
    requires forall i | 0 <= i < |mounts| :: |mounts[i].point| != depth
    ensures Layer(mounts, depth) == []
  {
  }

  /** One element put behind all that are at least as deep. */
  method Insert(sorted: seq<Mount>, m: Mount) returns (r: seq<Mount>)
    requires DeepestFirst(sorted)
    ensures DeepestFirst(r) && SameLayers(r, sorted + [m])
  {
    var k := 0;
    while k < |sorted| && |sorted[k].point| >= |m.point|
      invariant 0 <= k <= |sorted|
      invariant forall i | 0 <= i < k :: |sorted[i].point| >= |m.point|
    {
      k := k + 1;
    }
    var front, back := sorted[..k], sorted[k..];
    r := front + [m] + back;
    forall d: nat ensures Layer(r, d) == Layer(sorted + [m], d) {
      assert sorted == front + back;
      InsertKeepsLayers(front, back, m, d);
    }
  }

  lemma InsertKeepsLayers(front: seq<Mount>, back: seq<Mount>, m: Mount, d: nat)
    requires forall i | 0 <= i < |back| :: |back[i].point| < |m.point|
    ensures Layer(front + [m] + back, d) == Layer(front + back + [m], d)
  {
    LayerConcat(front + [m], back, d);
    LayerConcat(front, [m], d);
    LayerConcat(front + back, [m], d);
    LayerConcat(front, back, d);
    if d == |m.point| {
      ShallowLayer(back, d);
    } else {
      ShallowLayer([m], d);
    }
  }

  /** `MountTable::under`: exactly the mounts strictly below the root, deepest first, equal
      depths in the table's order, so that releasing them in turn is safe. `root` is absent
      when it cannot be resolved. */
  method Under(mounts: seq<Mount>, root: Option<Path>) returns (r: seq<Mount>)
    ensures root.None? ==> r == []
    ensures root.Some? ==> SameLayers(r, Descendants(mounts, root.value))
    ensures root.Some? ==> forall m :: m in r <==> m in mounts && StrictlyBelow(m.point, root.value)
    ensures DeepestFirst(r) && SafeToRelease(r)
  {
    r := [];
    if root.None? {
      return;
    }
    var n := 0;
    while n < |mounts|
      invariant 0 <= n <= |mounts|
      invariant DeepestFirst(r) && SameLayers(r, Descendants(mounts[..n], root.value))
    {
      assert mounts[..n + 1][..n] == mounts[..n];
      if StrictlyBelow(mounts[n].point, root.value) {
        var next := Insert(r, mounts[n]);
        forall d: nat ensures Layer(next, d) == Layer(Descendants(mounts[..n + 1], root.value), d) {
          LayerConcat(r, [mounts[n]], d);
          LayerConcat(Descendants(mounts[..n], root.value), [mounts[n]], d);
        }
        r := next;
      }
      n := n + 1;
    }
    assert mounts[..n] == mounts;
    forall m ensures m in r <==> m in mounts && StrictlyBelow(m.point, root.value) {
      LayerHolds(r, m);
      LayerHolds(Descendants(mounts, root.value), m);
      DescendantsExactly(mounts, root.value, m);
    }
  }

  // ---- Looking a mount point up --------------------------------------------------------

  /** What an `lstat` of a path says; a link's target is joined to the link's parent. */
  datatype Stat = Missing | Plain | Link(target: Option<Path>)

  /** The file system: a path with its parent resolved, and what is found there. */
  datatype Files = Files(canonical: Path -> Option<Path>, stat: Path -> Stat)

  const MAX_SYMLINK_HOPS: nat := 16

  /** `MountTable::find`: the first entry for a mount point. */
  function Entry(mounts: seq<Mount>, point: Path): (r: Option<MountInfo>)
    ensures r.Some? <==> Listed(mounts, point)
    ensures r.Some? ==> exists i | 0 <= i < |mounts| :: mounts[i] == Mount(point, r.value) && forall j | 0 <= j < i :: mounts[j].point != point
  {
    if mounts == [] then None
    else if mounts[0].point == point then
      assert mounts[0] == Mount(point, mounts[0].info);
      Some(mounts[0].info)
    else
      var r := Entry(mounts[1..], point);
      assert r.Some? ==> exists i | 0 <= i < |mounts| :: mounts[i] == Mount(point, r.value) && forall j | 0 <= j < i :: mounts[j].point != point by {
        if r.Some? {
          var i :| 0 <= i < |mounts[1..]| && mounts[1..][i] == Mount(point, r.value) && forall j | 0 <= j < i :: mounts[1..][j].point != point;
          assert mounts[i + 1] == Mount(point, r.value);
          assert forall j | 0 < j < i + 1 :: mounts[j] == mounts[1..][j - 1];
        }
      }
      r
  }

  predicate Listed(mounts: seq<Mount>, point: Path) {
    exists i | 0 <= i < |mounts| :: mounts[i].point == point
  }

  /** Where a path's last component leads if it is a symlink. */
  function Hop(fs: Files, point: Path): Option<Path> {
    match fs.stat(point)
    case Link(Some(target)) => if point == [] then None else Some(target)
    case _ => None
  }

  /** The mount point a path names: the first listed one along its symlinks. */
  function Names(fs: Files, mounts: seq<Mount>, path: Path, hops: nat): Option<Path>
    decreases hops
  {
    if hops == 0 then None
    else
      match fs.canonical(path)
      case None => None
      case Some(point) =>
        if Listed(mounts, point) then Some(point)
        else
          match Hop(fs, point)
          case None => None
          case Some(next) => Names(fs, mounts, next, hops - 1)
  }

  /** `MountTable::at`: finds the mount the path names within sixteen hops, and never asks
      the file system about a path the table lists as mounted. `asked` are those it did. */
  method MountAt(fs: Files, mounts: seq<Mount>, start: Path) returns (info: Option<MountInfo>, asked: seq<Path>)
    ensures match Names(fs, mounts, start, MAX_SYMLINK_HOPS)
      case None => info == None
      case Some(point) => info == Entry(mounts, point) && info.Some?
    ensures |asked| <= MAX_SYMLINK_HOPS
    ensures forall p | p in asked :: !Listed(mounts, p)
  {
    var path, hops: nat := start, MAX_SYMLINK_HOPS;
    asked := [];
    while hops > 0
      invariant Names(fs, mounts, start, MAX_SYMLINK_HOPS) == Names(fs, mounts, path, hops)
      invariant |asked| == MAX_SYMLINK_HOPS - hops && hops <= MAX_SYMLINK_HOPS
      invariant forall p | p in asked :: !Listed(mounts, p)
      decreases hops
    {
      var candidate := fs.canonical(path);
      if candidate.None? {
        return None, asked;
      }
      info := Entry(mounts, candidate.value);
      if info.Some? {
        return info, asked;
      }
      asked := asked + [candidate.value];
      var next := Hop(fs, candidate.value);
      if next.None? {
        return None, asked;
      }
      path, hops := next.value, hops - 1;
    }
    info := None;
  }
}
