/** The processing utility class (MetaUtilsClass.py `MetaUtils`): its
    constructor's argument check and chunk fallback, the version check, the
    GPU mask, the image file filter, the region doubling and the masking
    guard. Calls into the photogrammetry engine are left to the engine:
    the document `initDoc` would open or create, the GPU count and the
    directory listing are parameters. */
module MetaUtils {
  import opened Wrappers
  import opened Text
  import opened PosixPath
  import opened Geometry
  import opened Scene

  /** The engine version the scripts are written for. */
  const CompatibleVersion: string := "2.2"

  /** The file extensions, lower case, that count as images. */
  const ImageExtensions: seq<string> := [".jpg", ".jpeg", ".png", ".tif", ".tiff"]

  // ---------------------------------------------------------------------
  // Version check

  /** The first two dot-separated fields of a version string, rejoined with
      a dot (the whole string when it has no dot). */
  function VersionPrefix(v: string): string {
    var parts := Split(v, '.');
    Join(parts[..if |parts| < 2 then |parts| else 2], '.')
  }

  /** With two fields or more, a version string is its first two fields
      joined by a dot, followed by nothing or by a dot and the rest. */
  lemma TwoFieldShape(v: string)
    requires |Split(v, '.')| >= 2
    ensures var parts := Split(v, '.');
      VersionPrefix(v) == parts[0] + "." + parts[1] &&
      exists tail :: v == parts[0] + "." + parts[1] + tail && (tail == [] || tail[0] == '.')
  {
    var parts := Split(v, '.');
    JoinSplit(v, '.');
    var two := [parts[0], parts[1]];
    assert parts[..2] == two;
    assert two[1..] == [parts[1]];
    assert Join(two, '.') == parts[0] + "." + parts[1];
    assert v == parts[0] + "." + Join(parts[1..], '.');
    if |parts| == 2 {
      assert parts[1..] == [parts[1]];
      assert v == parts[0] + "." + parts[1] + [];
    } else {
      var rest := Join(parts[2..], '.');
      assert parts[1..][1..] == parts[2..];
      assert Join(parts[1..], '.') == parts[1] + "." + rest;
      assert v == parts[0] + "." + parts[1] + ("." + rest);
    }
  }

  /** A version string without a dot has itself as prefix, and neither is
      "2.2" nor starts with "2.2.". */
  lemma OneFieldVersion(v: string)
    requires |Split(v, '.')| == 1
    ensures VersionPrefix(v) == v
    ensures !(v == "2.2" || (|v| >= 4 && v[..4] == "2.2."))
  {
    var parts := Split(v, '.');
    JoinSplit(v, '.');
    assert parts[..1] == parts;
    assert '.' !in v;
    assert "2.2"[1] == '.';
    if |v| >= 4 {
      assert v[..4][1] == v[1];
    }
  }

  /** A version whose prefix is "2.2" is "2.2" or starts with "2.2.". */
  lemma PrefixGivesShape(v: string)
    requires |Split(v, '.')| >= 2
    requires VersionPrefix(v) == CompatibleVersion
    ensures v == "2.2" || (|v| >= 4 && v[..4] == "2.2.")
  {
    var parts := Split(v, '.');
    TwoFieldShape(v);
    var tail :| v == parts[0] + "." + parts[1] + tail && (tail == [] || tail[0] == '.');
    assert "2.2" == "2" + "." + "2";
    FirstFieldUnique(parts[0], parts[1], "2", "2", '.');
    if tail != [] {
      assert v == "2.2" + tail;
      assert v[..4] == "2.2.";
    }
  }

  /** A version that is "2.2" or starts with "2.2." has prefix "2.2". */
  lemma ShapeGivesPrefix(v: string)
    requires v == "2.2" || (|v| >= 4 && v[..4] == "2.2.")
    ensures VersionPrefix(v) == CompatibleVersion
  {
    var rest := v[3..];
    assert v == "2" + "." + ("2" + rest);
    assert '.' !in "2";
    SplitField("2", "2" + rest, '.');
    var parts := Split(v, '.');
    var later := Split("2" + rest, '.');
    assert parts == ["2"] + later;
    if rest == [] {
      SplitPrefix("2", [], '.');
      assert Split([], '.') == [[]];
      assert "2" + rest == "2" + [] == "2";
      assert later == ["2"];
    } else {
      assert rest[0] == '.';
      assert "2" + rest == "2" + "." + rest[1..];
      SplitField("2", rest[1..], '.');
      assert later[0] == "2";
    }
    assert parts[0] == "2" && parts[1] == "2";
    assert parts[..2] == ["2", "2"];
    assert ["2", "2"][1..] == ["2"];
    assert Join(["2", "2"], '.') == "2" + "." + "2";
  }

  /** The prefix is "2.2" exactly when the version is "2.2" or starts with
      "2.2.": "2.2.1" passes and "2.20.0" does not. */
  lemma VersionPrefixMatches(v: string)
    ensures VersionPrefix(v) == CompatibleVersion <==> v == "2.2" || (|v| >= 4 && v[..4] == "2.2.")
  {
    if |Split(v, '.')| == 1 {
      OneFieldVersion(v);
    } else if VersionPrefix(v) == CompatibleVersion {
      PrefixGivesShape(v);
    } else if v == "2.2" || (|v| >= 4 && v[..4] == "2.2.") {
      ShapeGivesPrefix(v);
    }
  }

  /** The version check (MetaUtilsClass.py `CHECK_VER`): passes exactly when
      the first two fields of the version are "2" and "2". */
  function CheckVer(v: string): (ok: bool)
    ensures ok <==> v == "2.2" || (|v| >= 4 && v[..4] == "2.2.")
  {
    VersionPrefixMatches(v);
    VersionPrefix(v) == CompatibleVersion
  }

  // ---------------------------------------------------------------------
  // GPU mask

  function Pow2(n: nat): (p: nat)
    ensures p >= 1
  {
    if n == 0 then 1 else 2 * Pow2(n - 1)
  }

  /** Bit `i` of a non-negative mask: device `i` is enabled. */
  predicate Bit(m: nat, i: nat) {
    if i == 0 then m % 2 == 1 else Bit(m / 2, i - 1)
  }

  /** The mask `USE_GPU` writes for `n` devices: two to the n, minus two. */
  function GpuMask(n: nat): int {
    Pow2(n) - 2
  }

  /** `2^k - 1` has exactly bits `0 .. k-1` set. */
  lemma {:induction false} AllOnesBits(k: nat, j: nat)
    ensures Bit(Pow2(k) - 1, j) <==> j < k
  {
    if k == 0 {
      ZeroBits(j);
    } else if j > 0 {
      assert (Pow2(k) - 1) / 2 == Pow2(k - 1) - 1;
      AllOnesBits(k - 1, j - 1);
    }
  }

  lemma {:induction false} ZeroBits(j: nat)
    ensures !Bit(0, j)
  {
    if j > 0 {
      ZeroBits(j - 1);
    }
  }

  /** For one device or more the mask is non-negative and enables exactly
      devices `1 .. n-1`: device 0 stays off, and a single device gives the
      empty mask. */
  lemma GpuMaskEnables(n: nat, i: nat)
    requires n >= 1
    ensures GpuMask(n) >= 0
    ensures Bit(GpuMask(n), i) <==> 1 <= i < n
  {
    var m := GpuMask(n);
    assert m == 2 * (Pow2(n - 1) - 1);
    if i > 0 {
      assert m / 2 == Pow2(n - 1) - 1;
      AllOnesBits(n - 1, i - 1);
    }
  }

  /** The application settings `USE_GPU` writes. */
  class App {
    var gpuMask: int
    var cpuEnable: bool

    constructor (gpuMask: int, cpuEnable: bool)
      ensures this.gpuMask == gpuMask && this.cpuEnable == cpuEnable
    {
      this.gpuMask := gpuMask;
      this.cpuEnable := cpuEnable;
    }
  }

  /** Enables the GPUs (MetaUtilsClass.py `USE_GPU`): with `gpuCount`
      devices present, writes the mask and disables the CPU; with none,
      changes nothing. */
  method UseGpu(app: App, gpuCount: nat)
    modifies app
    ensures gpuCount > 0 ==> app.gpuMask == GpuMask(gpuCount) && !app.cpuEnable
    ensures gpuCount == 0 ==> app.gpuMask == old(app.gpuMask) && app.cpuEnable == old(app.cpuEnable)
  {
    if gpuCount > 0 {
      app.gpuMask := Pow2(gpuCount) - 2;
      app.cpuEnable := false;
    }
  }

  // ---------------------------------------------------------------------
  // Image files

  /** A file name whose lower-case form ends in an image extension. */
  predicate IsImageName(f: string) {
    exists e :: e in ImageExtensions && EndsWith(Lower(f), e)
  }

  /** The test ignores letter case. */
  lemma ImageNameIgnoresCase(f: string)
    ensures IsImageName(f) <==> IsImageName(Lower(f))
  {
    LowerIdempotent(f);
  }

  /** The paths `loadImages` collects from a directory listing: each image
      name joined to the image directory, in listing order. */
  function ImagesToLoad(dir: string, listing: seq<string>): (r: seq<string>)
    ensures |r| <= |listing|
  {
    if listing == [] then []
    else
      var last := listing[|listing| - 1];
      ImagesToLoad(dir, listing[..|listing| - 1]) + (if IsImageName(last) then [PathJoin(dir, last)] else [])
  }

  /** A path is collected exactly when it joins the directory to a listed
      image name. */
  lemma {:induction false} ImagesToLoadMembers(dir: string, listing: seq<string>, p: string)
    ensures p in ImagesToLoad(dir, listing) <==>
      exists f :: f in listing && IsImageName(f) && p == PathJoin(dir, f)
  {
    if listing != [] {
      var init := listing[..|listing| - 1];
      var last := listing[|listing| - 1];
      ImagesToLoadMembers(dir, init, p);
      assert listing == init + [last];
      if p in ImagesToLoad(dir, init) {
        var f :| f in init && IsImageName(f) && p == PathJoin(dir, f);
        assert f in listing;
      }
      if exists f :: f in listing && IsImageName(f) && p == PathJoin(dir, f) {
        var f :| f in listing && IsImageName(f) && p == PathJoin(dir, f);
        if f != last {
          assert f in init;
        }
      }
    }
  }

  /** Collecting from two listings one after the other gives the two
      collections one after the other: listing order is kept. */
  lemma {:induction false} ImagesToLoadAppend(dir: string, a: seq<string>, b: seq<string>)
    ensures ImagesToLoad(dir, a + b) == ImagesToLoad(dir, a) + ImagesToLoad(dir, b)
  {
    if b == [] {
      assert a + b == a;
    } else {
      var init := b[..|b| - 1];
      var last := b[|b| - 1];
      var tail := if IsImageName(last) then [PathJoin(dir, last)] else [];
      ImagesToLoadAppend(dir, a, init);
      assert (a + b)[..|a + b| - 1] == a + init;
      assert (a + b)[|a + b| - 1] == last;
      assert ImagesToLoad(dir, a + b) == ImagesToLoad(dir, a + init) + tail;
      assert ImagesToLoad(dir, b) == ImagesToLoad(dir, init) + tail;
    }
  }

  // ---------------------------------------------------------------------
  // The utility object

  /** The engine document: its path, its active chunk (if any) and all its
      chunks. */
  datatype Document = Document(path: string, chunk: Option<Chunk>, chunks: seq<Chunk>)

  /** Why construction fails: neither a document nor a path and prefix to
      make one, or a document without chunks. */
  datatype InitError = NoDocument | NoChunk

  /** The chunk the constructor works on: the active chunk, else the first
      chunk, else none. */
  function WorkingChunk(d: Document): (c: Option<Chunk>)
    ensures d.chunk.Some? ==> c == d.chunk
    ensures d.chunk.None? && |d.chunks| > 0 ==> c == Some(d.chunks[0])
    ensures c.None? <==> d.chunk.None? && |d.chunks| == 0
  {
    if d.chunk.Some? then d.chunk
    else if |d.chunks| > 0 then Some(d.chunks[0])
    else None
  }

  /** The image directory and project name read from a document's path: the
      directory part, and the file name without its extension (the
      extension `SplitExt` finds). */
  function NamesFromPath(path: string): (r: (string, string))
    ensures r.0 == PathSplit(path).0
    ensures r.1 + SplitExt(PathSplit(path).1).1 == PathSplit(path).1
  {
    var (dir, file) := PathSplit(path);
    (dir, SplitExt(file).0)
  }

  /** The document `initDoc` leaves: the document it opened or saved new,
      given a chunk (`added`) only when it has none; the added chunk is
      made the active one. */
  function InitDoc(found: Document, added: Chunk): (d: Document)
    ensures |found.chunks| >= 1 ==> d == found
    ensures |found.chunks| < 1 ==> d.chunk == Some(added) && d.chunks == found.chunks + [added]
    ensures d.path == found.path
  {
    if |found.chunks| < 1 then found.(chunk := Some(added), chunks := found.chunks + [added])
    else found
  }

  /** The document `initDoc` leaves always has a chunk to work on. */
  lemma InitDocHasChunk(found: Document, added: Chunk)
    ensures WorkingChunk(InitDoc(found, added)).Some?
  {
  }

  class MetaUtils {
    var doc: Document
    var imagePath: string
    var projectName: string
    var chunk: Chunk

    constructor (doc: Document, imagePath: string, projectName: string, chunk: Chunk)
      ensures this.doc == doc && this.imagePath == imagePath
      ensures this.projectName == projectName && this.chunk == chunk
    {
      this.doc := doc;
      this.imagePath := imagePath;
      this.projectName := projectName;
      this.chunk := chunk;
    }

    /** The image paths to add from a listing of the image directory
        (MetaUtilsClass.py `loadImages`, up to the engine call). */
    method LoadImages(listing: seq<string>) returns (images: seq<string>)
      ensures images == ImagesToLoad(imagePath, listing)
    {
      images := [];
      for i := 0 to |listing|
        invariant images == ImagesToLoad(imagePath, listing[..i])
      {
        var filename := listing[i];
        assert listing[..i + 1][..i] == listing[..i];
        if exists e :: e in ImageExtensions && EndsWith(Lower(filename), e) {
          images := images + [PathJoin(imagePath, filename)];
        }
      }
      assert listing[..|listing|] == listing;
    }

    /** Doubles the region's size in every direction, keeping its center and
        rotation (MetaUtilsClass.py `chunkCorrect`). */
    method ChunkCorrect()
      modifies chunk
      ensures chunk.region == old(chunk.region).(size := Scale(old(chunk.region.size), 2.0))
      ensures chunk.transform == old(chunk.transform)
    {
      var newRegion := chunk.region;
      newRegion := newRegion.(size := Scale(newRegion.size, 2.0));
      chunk.region := newRegion;
    }

    /** The guard of `autoMask`: masking needs at least one camera. */
    method AutoMask(maskPath: string) returns (ok: bool)
      ensures ok <==> |chunk.cameras| > 0
    {
      if |chunk.cameras| <= 0 {
        return false;
      }
      ok := true;
    }
  }

  /** The constructor of MetaUtilsClass.py: refuses when neither a document
      nor a path and prefix are given; takes the image directory and project
      name from an existing document's path, or keeps `path` and `prefix`
      and uses the document `initDoc` leaves (`found` is what it opens or
      saves new, `added` the chunk it would add); then works on the active
      chunk, else the first chunk, and refuses when the document has none,
      which only a given document can lack. */
  method NewMetaUtils(doc: Option<Document>, path: string, prefix: string, found: Document, added: Chunk)
    returns (r: Result<MetaUtils, InitError>)
    ensures r == Err(NoDocument) <==> doc.None? && path == "" && prefix == ""
    ensures r == Err(NoChunk) <==> doc.Some? && WorkingChunk(doc.value).None?
    ensures r.Ok? ==> fresh(r.value)
    ensures r.Ok? ==> var d := if doc.Some? then doc.value else InitDoc(found, added);
      r.value.doc == d && WorkingChunk(d) == Some(r.value.chunk)
    ensures r.Ok? && doc.Some? ==>
      (r.value.imagePath, r.value.projectName) == NamesFromPath(doc.value.path)
    ensures r.Ok? && doc.None? ==> r.value.imagePath == path && r.value.projectName == prefix
  {
    if path == "" && prefix == "" && doc.None? {
      return Err(NoDocument);
    }
    var d := InitDoc(found, added);
    var imagePath := path;
    var projectName := prefix;
    if doc.Some? {
      d := doc.value;
      var names := NamesFromPath(d.path);
      imagePath, projectName := names.0, names.1;
    }
    var c := d.chunk;
    if c.None? {
      if |d.chunks| > 0 {
        c := Some(d.chunks[0]);
      } else {
        return Err(NoChunk);
      }
    }
    var m := new MetaUtils(d, imagePath, projectName, c.value);
    r := Ok(m);
  }
}
