/** Project preferences kept in an INI table (ProjectPrefs.py): a fixed set
    of allowed preference names, each stored under a section of the table,
    with defaults filled in when the table is read. Values go through the
    `%` interpolation of `ConfigParser` when they are stored and when they
    are read. The INI file's parsed contents are an input; reading, writing
    and parsing files are not modelled. */
module ProjectPrefs {
  import opened Wrappers
  import opened Interpolation

  /** An INI table: section name to (key to value). */
  type Config = map<string, map<string, string>>

  /** One allowed preference: its command-line flags, the section it is
      stored under and its default, if it has one. */
  datatype PrefSpec = PrefSpec(short: string, long: string, section: string, default: Option<string>)

  /** Why a lookup or an update fails: the name is not an allowed
      preference, the table lacks the section, the section lacks the key,
      a value to store has a `%` outside the interpolation syntax, or a
      stored value does not interpolate. */
  datatype PrefError = UnknownPref | MissingSection | MissingKey | BadValue | Interpolation(e: InterpError)

  const DefaultFilename: string := "project.ini"

  /** The allowed preferences. */
  const AllowedPrefs: map<string, PrefSpec> := map[
    "ImagePath" := PrefSpec("I", "images", "PATHS", None),
    "MaskPath" := PrefSpec("M", "masks", "PATHS", None),
    "NamePrefix" := PrefSpec("N", "name", "PROJECT", Some("MetaPy"))]

  /** The allowed names in the order the table of preferences lists them. */
  const PrefOrder: seq<string> := ["ImagePath", "MaskPath", "NamePrefix"]

  /** The value stored under `section` and `key`, if any. */
  function Lookup(c: Config, section: string, key: string): Option<string> {
    if section in c && key in c[section] then Some(c[section][key]) else None
  }

  /** One step of the fill: make sure the preference's section exists, then
      store its default when it has one and the key is absent. */
  function FillOne(c: Config, name: string): Config
    requires name in AllowedPrefs
  {
    var spec := AllowedPrefs[name];
    var c1 := if spec.section in c then c else c[spec.section := map[]];
    if name !in c1[spec.section] && spec.default.Some? then
      c1[spec.section := c1[spec.section][name := spec.default.value]]
    else c1
  }

  /** The fill applied for each of `names`, first to last. */
  function FillAll(c: Config, names: seq<string>): Config
    requires forall n :: n in names ==> n in AllowedPrefs
  {
    if names == [] then c
    else FillOne(FillAll(c, names[..|names| - 1]), names[|names| - 1])
  }

  /** One step of the fill keeps every stored value and adds at most the
      filled preference's default under its section. */
  lemma FillOneLookup(c: Config, name: string, s: string, k: string)
    requires name in AllowedPrefs
    ensures Lookup(FillOne(c, name), s, k) ==
      if Lookup(c, s, k).Some? then Lookup(c, s, k)
      else if k == name && AllowedPrefs[name].section == s then AllowedPrefs[name].default
      else None
  {
  }

  /** After the fill, a stored value is the one the table already had;
      otherwise it is the default of a filled preference stored under that
      section; otherwise there is none. */
  lemma {:induction false} FillAllLookup(c: Config, names: seq<string>, s: string, k: string)
    requires forall n :: n in names ==> n in AllowedPrefs
    ensures Lookup(FillAll(c, names), s, k) ==
      if Lookup(c, s, k).Some? then Lookup(c, s, k)
      else if k in names && AllowedPrefs[k].section == s then AllowedPrefs[k].default
      else None
  {
    if names != [] {
      var init := names[..|names| - 1];
      var last := names[|names| - 1];
      FillAllLookup(c, init, s, k);
      FillOneLookup(FillAll(c, init), last, s, k);
      assert names == init + [last];
      assert k in names <==> k in init || k == last;
    }
  }

  /** The sections named by the preferences `names`. */
  function SectionsOf(names: seq<string>): set<string>
    requires forall n :: n in names ==> n in AllowedPrefs
  {
    if names == [] then {}
    else SectionsOf(names[..|names| - 1]) + {AllowedPrefs[names[|names| - 1]].section}
  }

  /** Each listed preference's section is among the sections of the list. */
  lemma {:induction false} SectionsOfContains(names: seq<string>, n: string)
    requires forall m :: m in names ==> m in AllowedPrefs
    requires n in names
    ensures AllowedPrefs[n].section in SectionsOf(names)
  {
    var init := names[..|names| - 1];
    if names[|names| - 1] != n {
      assert n in init by {
        var k :| 0 <= k < |names| && names[k] == n;
        assert init[k] == n;
      }
      SectionsOfContains(init, n);
    }
  }

  /** After the fill, the table has exactly its old sections plus those of
      the filled preferences. */
  lemma {:induction false} FillAllSections(c: Config, names: seq<string>)
    requires forall n :: n in names ==> n in AllowedPrefs
    ensures FillAll(c, names).Keys == c.Keys + SectionsOf(names)
  {
    if names != [] {
      FillAllSections(c, names[..|names| - 1]);
    }
  }

  /** Two tables with the same sections and the same stored values are equal. */
  lemma ConfigExtensional(a: Config, b: Config)
    requires a.Keys == b.Keys
    requires forall s, k :: Lookup(a, s, k) == Lookup(b, s, k)
    ensures a == b
  {
    forall s | s in a
      ensures a[s] == b[s]
    {
      assert forall k :: k in a[s] <==> Lookup(a, s, k).Some?;
      assert forall k :: k in b[s] <==> Lookup(b, s, k).Some?;
      assert a[s].Keys == b[s].Keys;
      forall k | k in a[s]
        ensures a[s][k] == b[s][k]
      {
        assert Lookup(a, s, k) == Lookup(b, s, k);
      }
    }
  }

  /** Filling a table that was already filled changes nothing. */
  lemma FillIdempotent(c: Config)
    ensures FillAll(FillAll(c, PrefOrder), PrefOrder) == FillAll(c, PrefOrder)
  {
    var once := FillAll(c, PrefOrder);
    var twice := FillAll(once, PrefOrder);
    forall s, k
      ensures Lookup(twice, s, k) == Lookup(once, s, k)
    {
      FillAllLookup(c, PrefOrder, s, k);
      FillAllLookup(once, PrefOrder, s, k);
    }
    FillAllSections(once, PrefOrder);
    FillAllSections(c, PrefOrder);
    ConfigExtensional(twice, once);
  }

  /** After the fill every section an allowed preference names exists, and
      each allowed preference keeps a value it had; otherwise it holds its
      default when it has one, and nothing when it has none. */
  lemma FillComplete(c: Config, name: string)
    requires name in AllowedPrefs
    ensures AllowedPrefs[name].section in FillAll(c, PrefOrder)
    ensures var s := AllowedPrefs[name].section;
      Lookup(FillAll(c, PrefOrder), s, name) ==
        if Lookup(c, s, name).Some? then Lookup(c, s, name) else AllowedPrefs[name].default
  {
    var s := AllowedPrefs[name].section;
    assert name == PrefOrder[0] || name == PrefOrder[1] || name == PrefOrder[2];
    SectionsOfContains(PrefOrder, name);
    FillAllSections(c, PrefOrder);
    FillAllLookup(c, PrefOrder, s, name);
  }

  /** Before the `i`-th preference is read, the fill has touched only
      preferences without a default, so its stored value reads as it did in
      the loaded table. */
  lemma SameStoredError(loaded: Config, i: nat)
    requires i < |PrefOrder|
    ensures StoredError(FillAll(loaded, PrefOrder[..i]), PrefOrder[i]) == StoredError(loaded, PrefOrder[i])
  {
    var name := PrefOrder[i];
    var section := AllowedPrefs[name].section;
    assert forall n :: n in PrefOrder[..i] ==> n == "ImagePath" || n == "MaskPath";
    FillNoDefaults(loaded, PrefOrder[..i], section);
  }

  /** The `i`-th step of `readConfig`: once its section is ensured, the
      preference reads as it did in the loaded table, and the step adds its
      default when the key is absent. */
  lemma ReadStep(loaded: Config, i: nat)
    requires i < |PrefOrder|
    ensures var name := PrefOrder[i];
      var section := AllowedPrefs[name].section;
      var before := FillAll(loaded, PrefOrder[..i]);
      var c1 := if section in before then before else before[section := map[]];
      StoredError(c1, name) == StoredError(loaded, name) &&
      FillAll(loaded, PrefOrder[..i + 1]) ==
        (if name !in c1[section] && AllowedPrefs[name].default.Some? then
           c1[section := c1[section][name := AllowedPrefs[name].default.value]]
         else c1)
    ensures FailureFrom(loaded, i) ==
      if StoredError(loaded, PrefOrder[i]).Some? then Some(i) else FailureFrom(loaded, i + 1)
  {
    SameStoredError(loaded, i);
    ReadStepSection(loaded, i);
    assert PrefOrder[..i + 1][..i] == PrefOrder[..i];
  }

  /** Ensuring a section that is missing adds it empty, so nothing is read
      from it. */
  lemma ReadStepSection(loaded: Config, i: nat)
    requires i < |PrefOrder|
    ensures var name := PrefOrder[i];
      var section := AllowedPrefs[name].section;
      var before := FillAll(loaded, PrefOrder[..i]);
      section !in before ==> StoredError(before[section := map[]], name) == StoredError(before, name)
  {
  }

  /** Filling preferences without a default adds at most empty sections
      and changes no section the table had. */
  lemma {:induction false} FillNoDefaults(c: Config, names: seq<string>, s: string)
    requires forall n :: n in names ==> n in AllowedPrefs && AllowedPrefs[n].default.None?
    ensures s in c ==> s in FillAll(c, names) && FillAll(c, names)[s] == c[s]
    ensures s !in c && s in FillAll(c, names) ==> FillAll(c, names)[s] == map[]
  {
    if names != [] {
      FillNoDefaults(c, names[..|names| - 1], s);
    }
  }

  /** The error reading the stored value of an allowed preference raises,
      if any: none when nothing is stored. */
  function StoredError(c: Config, name: string): Option<InterpError>
    requires name in AllowedPrefs
  {
    var section := AllowedPrefs[name].section;
    if section in c && name in c[section] then
      var got := Expand(c[section], c[section][name], 1);
      if got.Err? then Some(got.error) else None
    else None
  }

  /** The `i`-th allowed preference is the first, in table order, whose
      stored value does not read. */
  ghost predicate FirstUnreadable(c: Config, i: int) {
    0 <= i < |PrefOrder| &&
    (forall j :: 0 <= j < i ==> StoredError(c, PrefOrder[j]).None?) &&
    StoredError(c, PrefOrder[i]).Some?
  }

  /** Every allowed preference the table stores reads without error. */
  ghost predicate Readable(c: Config) {
    forall name :: name in AllowedPrefs ==> StoredError(c, name).None?
  }

  /** The first allowed preference, in table order from the `i`-th on,
      whose stored value does not read, if any. */
  function FailureFrom(c: Config, i: nat): (r: Option<nat>)
    requires i <= |PrefOrder|
    ensures r.Some? ==> i <= r.value < |PrefOrder| && StoredError(c, PrefOrder[r.value]).Some?
    decreases |PrefOrder| - i
  {
    if i == |PrefOrder| then None
    else if StoredError(c, PrefOrder[i]).Some? then Some(i)
    else FailureFrom(c, i + 1)
  }

  /** The search from the start finds nothing exactly when the table is
      readable, and otherwise finds the first unreadable preference. */
  lemma FailureFromStart(c: Config)
    ensures FailureFrom(c, 0).None? <==> Readable(c)
    ensures FailureFrom(c, 0).Some? ==> FirstUnreadable(c, FailureFrom(c, 0).value)
  {
    var e0, e1, e2 := StoredError(c, "ImagePath"), StoredError(c, "MaskPath"), StoredError(c, "NamePrefix");
    assert FailureFrom(c, 2) == if e2.Some? then Some(2) else None;
    assert FailureFrom(c, 1) == if e1.Some? then Some(1) else FailureFrom(c, 2);
    assert FailureFrom(c, 0) == if e0.Some? then Some(0) else FailureFrom(c, 1);
    assert AllowedPrefs.Keys == {"ImagePath", "MaskPath", "NamePrefix"};
  }

  /** After the full fill every allowed preference's section exists. */
  lemma FillAllValid(c: Config)
    ensures forall name :: name in AllowedPrefs ==> AllowedPrefs[name].section in FillAll(c, PrefOrder)
  {
    forall name | name in AllowedPrefs
      ensures AllowedPrefs[name].section in FillAll(c, PrefOrder)
    {
      FillComplete(c, name);
    }
  }

  /** The table update `setPref` makes: unknown names are refused, a
      missing section fails, and a value whose `%` signs are not escapes or
      references is refused; otherwise the value is stored under the
      preference's section. */
  function SetEntry(c: Config, name: string, value: string): (r: Result<Config, PrefError>)
    ensures r == Err(UnknownPref) <==> name !in AllowedPrefs
    ensures r == Err(MissingSection) <==> name in AllowedPrefs && AllowedPrefs[name].section !in c
    ensures r == Err(BadValue) <==>
      name in AllowedPrefs && AllowedPrefs[name].section in c && !Settable(value)
    ensures r.Ok? ==> r.value.Keys == c.Keys
  {
    if name !in AllowedPrefs then Err(UnknownPref)
    else
      var section := AllowedPrefs[name].section;
      if section !in c then Err(MissingSection)
      else if !Settable(value) then Err(BadValue)
      else Ok(c[section := c[section][name := value]])
  }

  /** The lookup `getPref` makes: unknown names are refused, and an allowed
      name with no stored value fails in the section or key lookup. A
      stored value is returned interpolated against its section, and a
      value without `%` is returned as stored. */
  function GetEntry(c: Config, name: string): (r: Result<string, PrefError>)
    ensures r == Err(UnknownPref) <==> name !in AllowedPrefs
    ensures r == Err(MissingSection) <==> name in AllowedPrefs && AllowedPrefs[name].section !in c
    ensures r == Err(MissingKey) <==>
      name in AllowedPrefs && AllowedPrefs[name].section in c && name !in c[AllowedPrefs[name].section]
    ensures r.Ok? || r.error.Interpolation? ==>
      name in AllowedPrefs && Lookup(c, AllowedPrefs[name].section, name).Some?
    ensures r.Ok? ==> var section := AllowedPrefs[name].section;
      Expand(c[section], c[section][name], 1) == Ok(r.value)
    ensures r.Err? && r.error.Interpolation? ==>
      StoredError(c, name) == Some(r.error.e)
    ensures r.Err? ==> r.error != BadValue
    ensures name in AllowedPrefs && Lookup(c, AllowedPrefs[name].section, name).Some? ==>
      var section := AllowedPrefs[name].section;
      match Expand(c[section], c[section][name], 1)
      case Ok(v) => r == Ok(v)
      case Err(e) => r == Err(Interpolation(e))
    ensures name in AllowedPrefs ==> var stored := Lookup(c, AllowedPrefs[name].section, name);
      stored.Some? && '%' !in stored.value ==> r == Ok(stored.value)
  {
    if name !in AllowedPrefs then Err(UnknownPref)
    else
      var section := AllowedPrefs[name].section;
      if section !in c then Err(MissingSection)
      else if name !in c[section] then Err(MissingKey)
      else
        var raw := c[section][name];
        if '%' !in raw then PlainValue(c[section], raw, 1); Ok(raw)
        else
          var got := Expand(c[section], raw, 1);
          if got.Ok? then Ok(got.value) else Err(Interpolation(got.error))
  }

  /** A value without `%` reads back, right after it is set, as it was set. */
  lemma SetThenGet(c: Config, name: string, value: string)
    requires SetEntry(c, name, value).Ok?
    ensures '%' !in value ==> GetEntry(SetEntry(c, name, value).value, name) == Ok(value)
  {
  }

  /** Any text, stored with its `%` signs doubled, is accepted and reads
      back, right after it is set, as the text itself. */
  lemma SetEscapedThenGet(c: Config, name: string, value: string)
    requires name in AllowedPrefs && AllowedPrefs[name].section in c
    ensures SetEntry(c, name, Escape(value)).Ok?
    ensures GetEntry(SetEntry(c, name, Escape(value)).value, name) == Ok(value)
  {
    var section := AllowedPrefs[name].section;
    EscapeRoundTrip(c[section][name := Escape(value)], value, 1);
  }

  /** A value ending in a lone `%` is refused when set. */
  lemma SetRefusesStrayPercent(c: Config, name: string, value: string)
    requires name in AllowedPrefs && AllowedPrefs[name].section in c
    requires '%' !in value
    ensures SetEntry(c, name, value + "%") == Err(BadValue)
  {
    StrayPercent(map[], value, 1);
  }

  /** Setting a preference changes no other entry of the table. */
  lemma SetChangesOnlyItsEntry(c: Config, name: string, value: string, s: string, k: string)
    requires SetEntry(c, name, value).Ok?
    requires s != AllowedPrefs[name].section || k != name
    ensures Lookup(SetEntry(c, name, value).value, s, k) == Lookup(c, s, k)
  {
  }

  /** The preferences of a project: the INI table and the name of its file. */
  class Prefs {
    var config: Config
    var prefsFileName: string

    /** Every section an allowed preference names exists. */
    predicate Valid()
      reads this
    {
      forall name :: name in AllowedPrefs ==> AllowedPrefs[name].section in config
    }

    /** A table with no sections yet, to be read from `fileName`, or from
        the default file name when `fileName` is empty. */
    constructor (fileName: string)
      ensures prefsFileName == if fileName == "" then DefaultFilename else fileName
      ensures config == map[]
    {
      config := map[];
      prefsFileName := if fileName == "" then DefaultFilename else fileName;
    }

    /** Replaces the table by the file's contents and fills in the allowed
        sections and defaults (ProjectPrefs.py `readConfig`); an empty
        `fileName` keeps the current file name. Each allowed preference is
        read once, after its section is ensured and before its default is
        considered; the first one whose stored value does not interpolate
        stops the fill with the table filled up to it. */
    method ReadConfig(fileName: string, loaded: Config) returns (err: Option<PrefError>)
      modifies this
      ensures prefsFileName == if fileName != "" then fileName else old(prefsFileName)
      ensures FailureFrom(loaded, 0).None? ==>
        err.None? && config == FillAll(loaded, PrefOrder) && Valid()
      ensures FailureFrom(loaded, 0).Some? ==> var i := FailureFrom(loaded, 0).value;
        i < |PrefOrder| && config == FillAll(loaded, PrefOrder[..i]) &&
        err == Some(Interpolation(StoredError(loaded, PrefOrder[i]).value))
    {
      if fileName != "" {
        prefsFileName := fileName;
      }
      config := loaded;
      for i := 0 to |PrefOrder|
        invariant config == FillAll(loaded, PrefOrder[..i])
        invariant FailureFrom(loaded, 0) == FailureFrom(loaded, i)
        invariant prefsFileName == if fileName != "" then fileName else old(prefsFileName)
      {
        var name := PrefOrder[i];
        var spec := AllowedPrefs[name];
        ghost var before := config;
        if spec.section !in config {
          config := config[spec.section := map[]];
        }
        ReadStep(loaded, i);
        var failure := StoredError(config, name);
        if failure.Some? {
          return Some(Interpolation(failure.value));
        }
        if name !in config[spec.section] && spec.default.Some? {
          config := config[spec.section := config[spec.section][name := spec.default.value]];
        }
      }
      assert PrefOrder[..|PrefOrder|] == PrefOrder;
      err := None;
      FillAllValid(loaded);
    }

    /** Stores a preference (ProjectPrefs.py `setPref`): refused, changing
        nothing, for a name outside the allowed set or a value `SetEntry`
        refuses; on a valid table a value `ConfigParser` accepts is always
        stored. */
    method SetPref(name: string, value: string) returns (err: Option<PrefError>)
      modifies this
      ensures SetEntry(old(config), name, value).Ok? ==>
        err.None? && config == SetEntry(old(config), name, value).value
      ensures SetEntry(old(config), name, value).Err? ==>
        err == Some(SetEntry(old(config), name, value).error) && config == old(config)
      ensures old(Valid()) ==> Valid() && (name in AllowedPrefs && Settable(value) ==> err.None?)
      ensures prefsFileName == old(prefsFileName)
    {
      if name !in AllowedPrefs {
        return Some(UnknownPref);
      }
      var pref := AllowedPrefs[name];
      if pref.section !in config {
        return Some(MissingSection);
      }
      if !Settable(value) {
        return Some(BadValue);
      }
      config := config[pref.section := config[pref.section][name := value]];
      err := None;
    }

    /** Reads a preference (ProjectPrefs.py `getPref`): the lookup
        `GetEntry` makes on the table; on a valid table the section lookup
        never fails. */
    function GetPref(name: string): (r: Result<string, PrefError>)
      reads this
      ensures r == GetEntry(config, name)
      ensures Valid() ==> r != Err(MissingSection)
    {
      GetEntry(config, name)
    }
  }

  /** Creates the preferences of a project (ProjectPrefs.py `__init__`, up
      to the command line): an empty file name becomes the default one, and
      the loaded table is filled; fails, as `readConfig` raises, when a
      stored allowed preference does not interpolate. */
  method NewPrefs(fileName: string, loaded: Config) returns (r: Result<Prefs, PrefError>)
    ensures r.Ok? <==> Readable(loaded)
    ensures r.Err? ==> r.error.Interpolation?
    ensures r.Ok? ==> fresh(r.value) && r.value.Valid()
    ensures r.Ok? ==> r.value.prefsFileName == (if fileName == "" then DefaultFilename else fileName)
    ensures r.Ok? ==> r.value.config == FillAll(loaded, PrefOrder)
  {
    FailureFromStart(loaded);
    var p := new Prefs(fileName);
    var err := p.ReadConfig(p.prefsFileName, loaded);
    if err.Some? {
      return Err(err.value);
    }
    r := Ok(p);
  }
}
