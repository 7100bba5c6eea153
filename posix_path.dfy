/** The POSIX path operations the utility class applies to file names
    (Python's `os.path.split`, `os.path.splitext` and `os.path.join` on a
    POSIX system). */
module PosixPath {
  import opened Text

  /** The position of the last `c` in `s`, or -1 when there is none. */
  function RFind(s: string, c: char): (r: int)
    ensures -1 <= r < |s|
    ensures r >= 0 ==> s[r] == c
    ensures forall j :: r < j < |s| ==> s[j] != c
  {
    if s == [] then -1
    else if s[|s| - 1] == c then |s| - 1
    else RFind(s[..|s| - 1], c)
  }

  /** `s` without its trailing run of `c`. */
  function RStrip(s: string, c: char): (r: string)
    ensures |r| <= |s| && r == s[..|r|]
    ensures r == [] || r[|r| - 1] != c
    ensures forall j :: |r| <= j < |s| ==> s[j] == c
  {
    if s == [] || s[|s| - 1] != c then s
    else RStrip(s[..|s| - 1], c)
  }

  /** `os.path.split`: the tail is everything after the last slash, the
      head everything before it, stripped of trailing slashes unless it
      consists of slashes only. */
  function PathSplit(p: string): (r: (string, string))
    ensures '/' !in r.1
    ensures |r.1| <= |p| && r.1 == p[|p| - |r.1|..]
    ensures |r.1| == |p| || p[|p| - |r.1| - 1] == '/'
    ensures |r.0| <= |p| - |r.1| && r.0 == p[..|r.0|]
    ensures (exists j :: 0 <= j < |p| - |r.1| && p[j] != '/') ==> r.0 == RStrip(p[..|p| - |r.1|], '/')
    ensures (forall j :: 0 <= j < |p| - |r.1| ==> p[j] == '/') ==> r.0 == p[..|p| - |r.1|]
  {
    var i := RFind(p, '/') + 1;
    var head := p[..i];
    var tail := p[i..];
    if exists j :: 0 <= j < |head| && head[j] != '/' then (RStrip(head, '/'), tail)
    else (head, tail)
  }

  /** Position `i` holds the last dot of `p`, position `j` a character
      other than a dot before it, and no slash follows `j`: the final
      component has an extension starting at `i`. */
  predicate LeadsExtension(p: string, i: int, j: int) {
    0 <= j < i < |p| && p[i] == '.' && p[j] != '.' && '/' !in p[j..] && '.' !in p[i + 1..]
  }

  /** The test `splitext` makes, on the last slash and the last dot,
      holds exactly when the final component has an extension. */
  lemma ExtensionAtLastDot(p: string)
    ensures var sepIndex := RFind(p, '/');
      var dotIndex := RFind(p, '.');
      (dotIndex > sepIndex && exists j :: sepIndex + 1 <= j < dotIndex && p[j] != '.') <==>
        exists i, j :: LeadsExtension(p, i, j)
  {
    var sepIndex := RFind(p, '/');
    var dotIndex := RFind(p, '.');
    if dotIndex > sepIndex && exists j :: sepIndex + 1 <= j < dotIndex && p[j] != '.' {
      var j :| sepIndex + 1 <= j < dotIndex && p[j] != '.';
      assert LeadsExtension(p, dotIndex, j);
    }
    if exists i, j :: LeadsExtension(p, i, j) {
      var i, j :| LeadsExtension(p, i, j);
      assert dotIndex == i;
      assert sepIndex < j;
    }
  }

  /** `os.path.splitext`: splits at the last dot of the final component,
      unless everything before that dot in the component is dots. */
  function SplitExt(p: string): (r: (string, string))
    ensures r.0 + r.1 == p
    ensures r.1 == [] || (r.1[0] == '.' && '.' !in r.1[1..] && '/' !in r.1)
    ensures r.1 != [] <==> exists i, j :: LeadsExtension(p, i, j)
  {
    var sepIndex := RFind(p, '/');
    var dotIndex := RFind(p, '.');
    ExtensionAtLastDot(p);
    if dotIndex > sepIndex && exists j :: sepIndex + 1 <= j < dotIndex && p[j] != '.' then
      (p[..dotIndex], p[dotIndex..])
    else (p, [])
  }

  /** `os.path.join` of two components: an absolute second component
      replaces the first; otherwise they are joined with one slash unless
      the first is empty or already ends in one. */
  function PathJoin(a: string, b: string): (r: string)
    ensures |b| > 0 && b[0] == '/' ==> r == b
    ensures (|b| == 0 || b[0] != '/') && (a == [] || a[|a| - 1] == '/') ==> r == a + b
    ensures (|b| == 0 || b[0] != '/') && a != [] && a[|a| - 1] != '/' ==> r == a + "/" + b
    ensures EndsWith(r, b)
  {
    if |b| > 0 && b[0] == '/' then b
    else if a == [] || a[|a| - 1] == '/' then a + b
    else a + "/" + b
  }

  /** The tail that `os.path.split` returns is the longest slash-free end of
      the path. */
  lemma TailIsLongestSlashFree(p: string, t: string)
    requires |t| <= |p| && t == p[|p| - |t|..] && '/' !in t
    requires |t| == |p| || p[|p| - |t| - 1] == '/'
    ensures PathSplit(p).1 == t
  {
  }

  /** Splitting a joined path gives back the slash-free file name joined on. */
  lemma SplitJoinTail(a: string, b: string)
    requires '/' !in b
    ensures PathSplit(PathJoin(a, b)).1 == b
  {
    var r := PathJoin(a, b);
    if a != [] {
      assert r[|r| - |b| - 1] == '/';
    }
    TailIsLongestSlashFree(r, b);
  }
}
