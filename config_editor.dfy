// The experiment configuration editor: the loaded agent configurations and
// fault scenarios, the setters that flip their `execute` flags in place, the
// manual `+n,-n,n` selection, and the grouping of scenarios by application.
// Reading the JSON files and writing them back are left to the caller: a
// write is recorded as the file's name in `saved`.

module ConfigEditor {
  import opened Values

  /** One loaded file: its name and its dict. */
  datatype Entry = Entry(filename: string, config: map<string, Value>)

  ghost predicate DistinctNames(entries: seq<Entry>)
  {
    forall i, j :: 0 <= i < j < |entries| ==> entries[i].filename != entries[j].filename
  }

  /** `config.get("execute")` */
  function ExecuteOf(c: map<string, Value>): Value
  {
    if "execute" in c then c["execute"] else Null
  }

  /** `config.get("execute") != flag` */
  predicate Differs(c: map<string, Value>, flag: bool)
  {
    !EqualsBool(ExecuteOf(c), flag)
  }

  function WithFlag(e: Entry, flag: bool): (r: Entry)
    ensures r.filename == e.filename && ExecuteOf(r.config) == Bool(flag)
    ensures forall k :: k in e.config && k != "execute" ==> k in r.config && r.config[k] == e.config[k]
  {
    Entry(e.filename, e.config["execute" := Bool(flag)])
  }

  /**
   * The application a scenario belongs to, lower-cased: its `app_name`, else
   * its `scenario`, else "Unknown". `None` when that value is not a string
   * (where `.lower()` would fail).
   */
  function AppOf(c: map<string, Value>): Option<string>
  {
    var v := if "app_name" in c then c["app_name"] else if "scenario" in c then c["scenario"] else Str("Unknown");
    if v.Str? then Some(Lower(v.s)) else None
  }

  ghost predicate AppNamesAreStrings(entries: seq<Entry>)
  {
    forall i :: 0 <= i < |entries| ==> AppOf(entries[i].config).Some?
  }

  /** Which entries a bulk setter looks at. */
  datatype Selector = Every | AppIs(app: string)

  predicate Selects(sel: Selector, e: Entry)
  {
    sel.Every? || AppOf(e.config) == Some(sel.app)
  }

  lemma FlagKeepsSelection(sel: Selector, e: Entry, flag: bool)
    ensures Selects(sel, WithFlag(e, flag)) == Selects(sel, e)
  {
    AppOfIgnoresFlag(e.config, Bool(flag));
  }

  lemma AppOfIgnoresFlag(c: map<string, Value>, v: Value)
    ensures AppOf(c["execute" := v]) == AppOf(c)
  {
    var d := c["execute" := v];
    assert "app_name" != "execute" && "scenario" != "execute";
    assert ("app_name" in d) == ("app_name" in c) && ("scenario" in d) == ("scenario" in c);
    assert "app_name" in c ==> d["app_name"] == c["app_name"];
    assert "scenario" in c ==> d["scenario"] == c["scenario"];
  }

  /** What a bulk setter does to one entry: set the flag if it is selected and differs. */
  function UpdateOne(e: Entry, flag: bool, sel: Selector): Entry
  {
    if Selects(sel, e) && Differs(e.config, flag) then WithFlag(e, flag) else e
  }

  function Updated(entries: seq<Entry>, flag: bool, sel: Selector): (r: seq<Entry>)
    ensures |r| == |entries| && forall i :: 0 <= i < |entries| ==> r[i] == UpdateOne(entries[i], flag, sel)
  {
    seq(|entries|, i requires 0 <= i < |entries| => UpdateOne(entries[i], flag, sel))
  }

  /** The names of the files a bulk setter writes, in order. */
  function Changed(entries: seq<Entry>, flag: bool, sel: Selector): (names: seq<string>)
    ensures |names| <= |entries|
  {
    if entries == [] then []
    else
      var n := |entries| - 1;
      var e := entries[n];
      Changed(entries[..n], flag, sel) + (if Selects(sel, e) && Differs(e.config, flag) then [e.filename] else [])
  }

  /** The state of a bulk setter after the first `i` entries. */
  predicate SetProgress(orig: seq<Entry>, items: seq<Entry>, written: seq<string>, i: nat, flag: bool, sel: Selector)
  {
    && i <= |orig| && |items| == |orig|
    && (forall j :: 0 <= j < i ==> items[j] == UpdateOne(orig[j], flag, sel))
    && (forall j :: i <= j < |orig| ==> items[j] == orig[j])
    && written == Changed(orig[..i], flag, sel)
  }

  lemma SetStep(orig: seq<Entry>, items: seq<Entry>, written: seq<string>, i: nat, flag: bool, sel: Selector)
    requires SetProgress(orig, items, written, i, flag, sel) && i < |orig|
    ensures items[i] == orig[i]
    ensures var c := Selects(sel, items[i]) && Differs(items[i].config, flag);
      SetProgress(orig, if c then items[i := WithFlag(items[i], flag)] else items,
                  if c then written + [items[i].filename] else written, i + 1, flag, sel)
  {
    ChangedSnoc(orig, i, flag, sel);
  }

  lemma ChangedSnoc(entries: seq<Entry>, i: nat, flag: bool, sel: Selector)
    requires i < |entries|
    ensures Changed(entries[..i + 1], flag, sel) == Changed(entries[..i], flag, sel)
      + (if Selects(sel, entries[i]) && Differs(entries[i].config, flag) then [entries[i].filename] else [])
  {
    assert entries[..i + 1][..i] == entries[..i];
  }

  lemma SetDone(orig: seq<Entry>, items: seq<Entry>, written: seq<string>, flag: bool, sel: Selector)
    requires SetProgress(orig, items, written, |orig|, flag, sel)
    ensures items == Updated(orig, flag, sel) && written == Changed(orig, flag, sel)
  {
    assert orig[..|orig|] == orig;
  }

  /**
   * After a bulk setter every selected entry's flag equals the requested
   * one (in Python's sense, so `1` counts as `True`), every other entry is
   * untouched, and each entry keeps its file name and its other keys.
   */
  lemma UpdatedSetsFlag(entries: seq<Entry>, flag: bool, sel: Selector, i: nat)
    requires i < |entries|
    ensures Selects(sel, entries[i]) ==> EqualsBool(ExecuteOf(Updated(entries, flag, sel)[i].config), flag)
    ensures !Selects(sel, entries[i]) ==> Updated(entries, flag, sel)[i] == entries[i]
    ensures Updated(entries, flag, sel)[i].filename == entries[i].filename
  {
  }

  /** A second bulk call with the same flag changes nothing and writes nothing. */
  lemma {:induction false} UpdateIdempotent(entries: seq<Entry>, flag: bool, sel: Selector)
    ensures Updated(Updated(entries, flag, sel), flag, sel) == Updated(entries, flag, sel)
    ensures Changed(Updated(entries, flag, sel), flag, sel) == []
  {
    var once := Updated(entries, flag, sel);
    forall i | 0 <= i < |entries|
      ensures UpdateOne(once[i], flag, sel) == once[i]
      ensures !(Selects(sel, once[i]) && Differs(once[i].config, flag))
    {
      if Selects(sel, entries[i]) && Differs(entries[i].config, flag) {
        FlagKeepsSelection(sel, entries[i], flag);
      }
    }
    NothingChanged(once, flag, sel);
  }

  lemma {:induction false} NothingChanged(entries: seq<Entry>, flag: bool, sel: Selector)
    requires forall i :: 0 <= i < |entries| ==> !(Selects(sel, entries[i]) && Differs(entries[i].config, flag))
    ensures Changed(entries, flag, sel) == []
  {
    if entries != [] {
      NothingChanged(entries[..|entries| - 1], flag, sel);
    }
  }

  /** Every selected entry whose flag differed is written. */
  lemma {:induction false} ChangedMember(entries: seq<Entry>, flag: bool, sel: Selector, i: nat)
    requires i < |entries| && Selects(sel, entries[i]) && Differs(entries[i].config, flag)
    ensures entries[i].filename in Changed(entries, flag, sel)
  {
    var n := |entries| - 1;
    if i < n {
      ChangedMember(entries[..n], flag, sel, i);
    }
  }

  /** Every write is of a selected entry whose flag differed, and the writes keep the entries' order. */
  lemma {:induction false} ChangedSource(entries: seq<Entry>, flag: bool, sel: Selector, k: nat) returns (i: nat)
    requires k < |Changed(entries, flag, sel)|
    ensures i < |entries| && entries[i].filename == Changed(entries, flag, sel)[k]
    ensures Selects(sel, entries[i]) && Differs(entries[i].config, flag)
  {
    var n := |entries| - 1;
    var before := Changed(entries[..n], flag, sel);
    if k < |before| {
      i := ChangedSource(entries[..n], flag, sel, k);
    } else {
      i := n;
    }
  }

  lemma UpdatedKeepsNames(entries: seq<Entry>, flag: bool, sel: Selector)
    requires DistinctNames(entries)
    ensures DistinctNames(Updated(entries, flag, sel))
  {
    var u := Updated(entries, flag, sel);
    assert forall i :: 0 <= i < |u| ==> u[i].filename == entries[i].filename;
  }

  // -----------------------------------------------------------------------
  // Setting one entry

  /** The key `set_agent_config` (file name, `id` or `name`) or `set_scenario` (file name only) looks for. */
  datatype Key = AgentKey(id: string) | FileKey(name: string)

  predicate KeyMatches(k: Key, e: Entry)
  {
    match k
    case AgentKey(id) =>
      e.filename == id || Get(e.config, "id") == Some(Str(id)) || Get(e.config, "name") == Some(Str(id))
    case FileKey(name) => e.filename == name
  }

  /** The first entry that matches and whose flag differs: the only one a single setter changes. */
  function FirstToChange(entries: seq<Entry>, k: Key, flag: bool): (r: Option<nat>)
    ensures r.Some? ==> r.value < |entries| && KeyMatches(k, entries[r.value]) && Differs(entries[r.value].config, flag)
    ensures r.Some? ==> forall j :: 0 <= j < r.value ==> !(KeyMatches(k, entries[j]) && Differs(entries[j].config, flag))
    ensures r.None? <==> forall j :: 0 <= j < |entries| ==> !(KeyMatches(k, entries[j]) && Differs(entries[j].config, flag))
  {
    if entries == [] then None
    else if KeyMatches(k, entries[0]) && Differs(entries[0].config, flag) then Some(0)
    else
      var rest := FirstToChange(entries[1..], k, flag);
      if rest.Some? then Some(rest.value + 1) else None
  }

  /**
   * With distinct file names, `set_scenario` changes exactly the entry with
   * that name, and only when its flag differs.
   */
  lemma ScenarioByName(entries: seq<Entry>, name: string, flag: bool, i: nat)
    requires DistinctNames(entries) && i < |entries| && entries[i].filename == name
    ensures FirstToChange(entries, FileKey(name), flag) == (if Differs(entries[i].config, flag) then Some(i) else None)
  {
  }

  // -----------------------------------------------------------------------
  // Manual selection

  function DigitsValue(s: string): nat
    requires forall i :: 0 <= i < |s| ==> '0' <= s[i] <= '9'
  {
    if s == [] then 0 else DigitsValue(s[..|s| - 1]) * 10 + (s[|s| - 1] as int - '0' as int)
  }

  predicate AllDigits(s: string)
  {
    s != [] && forall i :: 0 <= i < |s| ==> '0' <= s[i] <= '9'
  }

  /**
   * Python `int(s)` on a stripped string: a non-empty run of ASCII digits,
   * with an optional sign in front, read in decimal; anything else fails.
   */
  function ParseInt(s: string): (r: Option<int>)
    ensures r.Some? <==> AllDigits(s) || (s != [] && (s[0] == '+' || s[0] == '-') && AllDigits(s[1..]))
    ensures AllDigits(s) ==> r == Some(DigitsValue(s))
    ensures s != [] && s[0] == '+' && AllDigits(s[1..]) ==> r == Some(DigitsValue(s[1..]))
    ensures s != [] && s[0] == '-' && AllDigits(s[1..]) ==> r == Some(0 - DigitsValue(s[1..]))
  {
    if s != [] && (s[0] == '+' || s[0] == '-') then
      if AllDigits(s[1..]) then
        var v: int := DigitsValue(s[1..]);
        Some(if s[0] == '-' then -v else v)
      else None
    else if AllDigits(s) then Some(DigitsValue(s)) else None
  }

  /** Reading back a number written in decimal gives the number. */
  lemma {:induction false} ParseIntRoundTrip(n: nat)
    ensures AllDigits(NatToString(n)) && ParseInt(NatToString(n)) == Some(n)
  {
    DigitsOfNatToString(n);
  }

  lemma {:induction false} DigitsOfNatToString(n: nat)
    ensures AllDigits(NatToString(n)) && DigitsValue(NatToString(n)) == n
    decreases n
  {
    var s := NatToString(n);
    if n >= 10 {
      DigitsOfNatToString(n / 10);
      assert s[..|s| - 1] == NatToString(n / 10);
    }
  }

  /** One comma-separated item: `+` enables, `-` disables, no sign toggles; then the 1-based number. */
  datatype Selection = Selection(action: Option<bool>, number: Option<int>)

  function ParseSelection(raw: string): (sel: Selection)
    ensures var s := Strip(raw);
      && (s != [] && s[0] == '+' ==> sel == Selection(Some(true), ParseInt(Strip(s[1..]))))
      && (s != [] && s[0] == '-' ==> sel == Selection(Some(false), ParseInt(Strip(s[1..]))))
      && (s == [] || (s[0] != '+' && s[0] != '-') ==> sel == Selection(None, ParseInt(s)))
  {
    var s := Strip(raw);
    if s != [] && s[0] == '+' then Selection(Some(true), ParseInt(Strip(s[1..])))
    else if s != [] && s[0] == '-' then Selection(Some(false), ParseInt(Strip(s[1..])))
    else Selection(None, ParseInt(s))
  }

  /** The flag a selection asks for, from the current value (missing reads as `False`). */
  function NewState(action: Option<bool>, current: Value): bool
  {
    if action.None? then !Truthy(current) else action.value
  }

  /** The entry a selection targets, if its number is a valid 1-based index. */
  function TargetIndex(sel: Selection, count: nat): (r: Option<nat>)
    ensures r.Some? <==> sel.number.Some? && 1 <= sel.number.value <= count
    ensures r.Some? ==> r.value == sel.number.value - 1 && r.value < count
  {
    if sel.number.Some? && 0 <= sel.number.value - 1 < count then Some(sel.number.value - 1) else None
  }

  /** The current value as `config.get("execute", False)` reads it. */
  function CurrentState(c: map<string, Value>): Value
  {
    if "execute" in c then c["execute"] else Bool(false)
  }

  /** One selection applied: the entries after it and the file it wrote, if any. */
  function ApplyOne(entries: seq<Entry>, raw: string): (r: (seq<Entry>, Option<string>))
    ensures |r.0| == |entries|
  {
    var sel := ParseSelection(raw);
    match TargetIndex(sel, |entries|)
    case None => (entries, None)
    case Some(i) =>
      var current := CurrentState(entries[i].config);
      var newState := NewState(sel.action, current);
      if !EqualsBool(current, newState) then (entries[i := WithFlag(entries[i], newState)], Some(entries[i].filename))
      else (entries, None)
  }

  /** All selections applied in order: the entries after them and the files written. */
  function ApplyAll(entries: seq<Entry>, raws: seq<string>): (r: (seq<Entry>, seq<string>))
    ensures |r.0| == |entries|
    decreases |raws|
  {
    if raws == [] then (entries, [])
    else
      var n := |raws| - 1;
      var before := ApplyAll(entries, raws[..n]);
      var step := ApplyOne(before.0, raws[n]);
      (step.0, before.1 + (if step.1.Some? then [step.1.value] else []))
  }

  lemma OneSelection(entries: seq<Entry>, raw: string)
    ensures ApplyAll(entries, [raw]).0 == ApplyOne(entries, raw).0
    ensures ApplyAll(entries, [raw]).1 == if ApplyOne(entries, raw).1.Some? then [ApplyOne(entries, raw).1.value] else []
  {
    assert [raw][..0] == [];
  }

  /** A selection whose number is not an integer or out of range changes nothing. */
  lemma InvalidSelectionIgnored(entries: seq<Entry>, raw: string)
    requires TargetIndex(ParseSelection(raw), |entries|).None?
    ensures ApplyOne(entries, raw) == (entries, None)
  {
  }

  /**
   * A valid selection changes only its own entry; afterwards that entry's
   * flag is the requested one (`+` true, `-` false, a bare number the
   * negation of the current flag), and a write happens exactly when the
   * flag differed.
   */
  lemma ValidSelection(entries: seq<Entry>, raw: string, i: nat)
    requires TargetIndex(ParseSelection(raw), |entries|) == Some(i)
    ensures var sel := ParseSelection(raw);
      var want := NewState(sel.action, CurrentState(entries[i].config));
      var r := ApplyOne(entries, raw);
      && EqualsBool(CurrentState(r.0[i].config), want)
      && (forall j :: 0 <= j < |entries| && j != i ==> r.0[j] == entries[j])
      && (r.1.Some? <==> !EqualsBool(CurrentState(entries[i].config), want))
      && (r.1.Some? ==> r.1.value == entries[i].filename)
  {
  }

  /** A bare number always flips its entry, so it always writes. */
  lemma ToggleAlwaysWrites(entries: seq<Entry>, raw: string, i: nat)
    requires TargetIndex(ParseSelection(raw), |entries|) == Some(i)
    requires ParseSelection(raw).action.None?
    ensures ApplyOne(entries, raw).1 == Some(entries[i].filename)
    ensures ApplyOne(entries, raw).0[i].config["execute"] == Bool(!Truthy(CurrentState(entries[i].config)))
  {
  }

  /** Toggling the same boolean flag twice restores it and counts two writes. */
  lemma {:induction false} ToggleTwiceRestores(entries: seq<Entry>, raw: string, i: nat)
    requires TargetIndex(ParseSelection(raw), |entries|) == Some(i)
    requires ParseSelection(raw).action.None?
    requires CurrentState(entries[i].config).Bool?
    ensures ApplyAll(entries, [raw, raw]).0[i] == WithFlag(entries[i], CurrentState(entries[i].config).b)
    ensures |ApplyAll(entries, [raw, raw]).1| == 2
  {
    var raws := [raw, raw];
    assert raws[..1] == [raw] && raws[..2] == raws;
    ApplyAllSnoc(entries, raws, 1);
    var once := ApplyOne(entries, raw);
    ToggleAlwaysWrites(entries, raw, i);
    OneSelection(entries, raw);
    ToggleAlwaysWrites(once.0, raw, i);
    var twice := ApplyOne(once.0, raw);
    var b := CurrentState(entries[i].config).b;
    var c := entries[i].config;
    assert once.0[i] == WithFlag(entries[i], !b);
    assert twice.0[i] == WithFlag(once.0[i], b);
    FlagTwice(c, Bool(!b), Bool(b));
  }

  lemma FlagTwice(c: map<string, Value>, v: Value, w: Value)
    ensures c["execute" := v]["execute" := w] == c["execute" := w]
  {
  }

  // -----------------------------------------------------------------------
  // Grouping scenarios by application

  /** The file names of the scenarios of one application, in order. */
  function FilesOfApp(entries: seq<Entry>, app: string): seq<string>
  {
    if entries == [] then []
    else
      var n := |entries| - 1;
      FilesOfApp(entries[..n], app) + (if AppOf(entries[n].config) == Some(app) then [entries[n].filename] else [])
  }

  function GroupKeys(groups: seq<(string, seq<string>)>): (keys: seq<string>)
    ensures |keys| == |groups| && forall i :: 0 <= i < |groups| ==> keys[i] == groups[i].0
  {
    seq(|groups|, i requires 0 <= i < |groups| => groups[i].0)
  }

  /** The applications in order of first appearance. */
  function AppsInOrder(entries: seq<Entry>): (apps: seq<string>)
    requires AppNamesAreStrings(entries)
  {
    if entries == [] then []
    else
      var n := |entries| - 1;
      var before := AppsInOrder(entries[..n]);
      var app := AppOf(entries[n].config).value;
      if app in before then before else before + [app]
  }

  lemma {:induction false} AppsInOrderMembers(entries: seq<Entry>, app: string)
    requires AppNamesAreStrings(entries)
    ensures app in AppsInOrder(entries) <==> FilesOfApp(entries, app) != []
  {
    if entries != [] {
      var n := |entries| - 1;
      AppsInOrderMembers(entries[..n], app);
    }
  }

  /** No value occurs twice. */
  ghost predicate NoDuplicates(s: seq<string>)
  {
    forall i, j :: 0 <= i < j < |s| ==> s[i] != s[j]
  }

  lemma {:induction false} AppsInOrderDistinct(entries: seq<Entry>)
    requires AppNamesAreStrings(entries)
    ensures NoDuplicates(AppsInOrder(entries))
  {
    if entries != [] {
      var n := |entries| - 1;
      assert forall i :: 0 <= i < n ==> entries[..n][i] == entries[i];
      AppsInOrderDistinct(entries[..n]);
      var before := AppsInOrder(entries[..n]);
      assert NoDuplicates(before);
      var app := AppOf(entries[n].config).value;
      if app !in before {
        var apps := before + [app];
        assert AppsInOrder(entries) == apps;
        forall i, j | 0 <= i < j < |apps|
          ensures apps[i] != apps[j]
        {
          if j == |before| {
            assert apps[i] == before[i];
          } else {
            assert apps[i] == before[i] && apps[j] == before[j];
          }
        }
      }
    }
  }

  lemma PrefixAppNames(entries: seq<Entry>, k: nat)
    requires AppNamesAreStrings(entries) && k <= |entries|
    ensures AppNamesAreStrings(entries[..k])
  {
    assert forall i :: 0 <= i < k ==> entries[..k][i] == entries[i];
  }

  /** Adding a scenario whose application already has a group appends its name to that group. */
  lemma GroupExtend(entries: seq<Entry>, k: nat, apps: seq<(string, seq<string>)>, g: nat)
    requires AppNamesAreStrings(entries) && k < |entries|
    requires AppNamesAreStrings(entries[..k]) && GroupKeys(apps) == AppsInOrder(entries[..k])
    requires forall h :: 0 <= h < |apps| ==> apps[h].1 == FilesOfApp(entries[..k], apps[h].0)
    requires g < |apps| && apps[g].0 == AppOf(entries[k].config).value
    ensures AppNamesAreStrings(entries[..k + 1])
    ensures var next := apps[g := (apps[g].0, apps[g].1 + [entries[k].filename])];
      && GroupKeys(next) == AppsInOrder(entries[..k + 1])
      && forall h :: 0 <= h < |next| ==> next[h].1 == FilesOfApp(entries[..k + 1], next[h].0)
  {
    AppsInOrderSnoc(entries, k);
    var app := apps[g].0;
    assert app in GroupKeys(apps);
    AppsInOrderDistinct(entries[..k]);
    var next := apps[g := (app, apps[g].1 + [entries[k].filename])];
    GroupKeysUpdate(apps, g, apps[g].1 + [entries[k].filename]);
    forall h | 0 <= h < |next|
      ensures next[h].1 == FilesOfApp(entries[..k + 1], next[h].0)
    {
      FilesOfAppSnoc(entries, k, next[h].0);
      if h != g {
        assert GroupKeys(apps)[h] != GroupKeys(apps)[g];
      }
    }
  }

  lemma GroupKeysSnoc(groups: seq<(string, seq<string>)>, group: (string, seq<string>))
    ensures GroupKeys(groups + [group]) == GroupKeys(groups) + [group.0]
  {
    var a, b := GroupKeys(groups + [group]), GroupKeys(groups) + [group.0];
    forall i | 0 <= i < |a|
      ensures a[i] == b[i]
    {
    }
  }

  lemma GroupKeysUpdate(groups: seq<(string, seq<string>)>, g: nat, files: seq<string>)
    requires g < |groups|
    ensures GroupKeys(groups[g := (groups[g].0, files)]) == GroupKeys(groups)
  {
    var a, b := GroupKeys(groups[g := (groups[g].0, files)]), GroupKeys(groups);
    forall i | 0 <= i < |a|
      ensures a[i] == b[i]
    {
    }
  }

  lemma AppsInOrderSnoc(entries: seq<Entry>, k: nat)
    requires AppNamesAreStrings(entries) && k < |entries|
    ensures AppNamesAreStrings(entries[..k]) && AppNamesAreStrings(entries[..k + 1])
    ensures var app := AppOf(entries[k].config).value;
      AppsInOrder(entries[..k + 1])
        == if app in AppsInOrder(entries[..k]) then AppsInOrder(entries[..k]) else AppsInOrder(entries[..k]) + [app]
  {
    PrefixAppNames(entries, k);
    PrefixAppNames(entries, k + 1);
    assert entries[..k + 1][..k] == entries[..k];
  }

  lemma FilesOfAppSnoc(entries: seq<Entry>, k: nat, app: string)
    requires k < |entries|
    ensures FilesOfApp(entries[..k + 1], app)
         == FilesOfApp(entries[..k], app) + (if AppOf(entries[k].config) == Some(app) then [entries[k].filename] else [])
  {
    assert entries[..k + 1][..k] == entries[..k];
  }

  /** A scenario of a new application opens a group of its own. */
  lemma GroupAdd(entries: seq<Entry>, k: nat, apps: seq<(string, seq<string>)>)
    requires AppNamesAreStrings(entries) && k < |entries|
    requires AppNamesAreStrings(entries[..k]) && GroupKeys(apps) == AppsInOrder(entries[..k])
    requires forall h :: 0 <= h < |apps| ==> apps[h].1 == FilesOfApp(entries[..k], apps[h].0)
    requires AppOf(entries[k].config).value !in GroupKeys(apps)
    ensures AppNamesAreStrings(entries[..k + 1])
    ensures var next := apps + [(AppOf(entries[k].config).value, [entries[k].filename])];
      && GroupKeys(next) == AppsInOrder(entries[..k + 1])
      && forall h :: 0 <= h < |next| ==> next[h].1 == FilesOfApp(entries[..k + 1], next[h].0)
  {
    AppsInOrderSnoc(entries, k);
    var app := AppOf(entries[k].config).value;
    AppsInOrderMembers(entries[..k], app);
    GroupKeysSnoc(apps, (app, [entries[k].filename]));
    GroupAddFiles(entries, k, apps, app);
  }

  lemma GroupAddFiles(entries: seq<Entry>, k: nat, apps: seq<(string, seq<string>)>, app: string)
    requires k < |entries| && AppOf(entries[k].config) == Some(app)
    requires forall h :: 0 <= h < |apps| ==> apps[h].1 == FilesOfApp(entries[..k], apps[h].0) && apps[h].0 != app
    requires FilesOfApp(entries[..k], app) == []
    ensures var next := apps + [(app, [entries[k].filename])];
      forall h :: 0 <= h < |next| ==> next[h].1 == FilesOfApp(entries[..k + 1], next[h].0)
  {
    var next := apps + [(app, [entries[k].filename])];
    forall h | 0 <= h < |next|
      ensures next[h].1 == FilesOfApp(entries[..k + 1], next[h].0)
    {
      if h < |apps| {
        assert next[h] == apps[h];
        FilesOfAppSnoc(entries, k, apps[h].0);
      } else {
        FilesOfAppSnoc(entries, k, app);
      }
    }
  }

  /** The groups built from the first `k` scenarios. */
  ghost predicate Grouped(entries: seq<Entry>, k: nat, apps: seq<(string, seq<string>)>)
  {
    && k <= |entries| && AppNamesAreStrings(entries[..k])
    && GroupKeys(apps) == AppsInOrder(entries[..k])
    && forall h :: 0 <= h < |apps| ==> apps[h].1 == FilesOfApp(entries[..k], apps[h].0)
  }

  lemma GroupStep(entries: seq<Entry>, k: nat, apps: seq<(string, seq<string>)>, g: nat)
    requires AppNamesAreStrings(entries) && k < |entries| && Grouped(entries, k, apps)
    requires var app := AppOf(entries[k].config).value;
      && g <= |apps| && (g < |apps| ==> apps[g].0 == app) && (g == |apps| <==> app !in GroupKeys(apps))
    ensures var app := AppOf(entries[k].config).value;
      Grouped(entries, k + 1, if g < |apps| then apps[g := (app, apps[g].1 + [entries[k].filename])]
                              else apps + [(app, [entries[k].filename])])
  {
    if g < |apps| {
      GroupExtend(entries, k, apps, g);
    } else {
      GroupAdd(entries, k, apps);
    }
  }

  lemma GroupedDone(entries: seq<Entry>, apps: seq<(string, seq<string>)>)
    requires AppNamesAreStrings(entries) && Grouped(entries, |entries|, apps)
    ensures GroupKeys(apps) == AppsInOrder(entries)
    ensures forall g :: 0 <= g < |apps| ==> apps[g].1 == FilesOfApp(entries, apps[g].0)
  {
    assert entries[..|entries|] == entries;
  }

  // -----------------------------------------------------------------------
  // The editor

  /** The loop of the bulk setters over one collection: the updated entries and the names written. */
  method UpdateEntries(orig: seq<Entry>, flag: bool, sel: Selector) returns (items: seq<Entry>, written: seq<string>)
    ensures items == Updated(orig, flag, sel) && written == Changed(orig, flag, sel)
  {
    items := orig;
    written := [];
    for i := 0 to |items|
      invariant SetProgress(orig, items, written, i, flag, sel)
    {
      SetStep(orig, items, written, i, flag, sel);
      var e := items[i];
      if Selects(sel, e) && Differs(e.config, flag) {
        items := items[i := WithFlag(e, flag)];
        written := written + [e.filename];
      }
    }
    SetDone(orig, items, written, flag, sel);
  }

  lemma ApplyAllSnoc(entries: seq<Entry>, raws: seq<string>, k: nat)
    requires k < |raws|
    ensures var before := ApplyAll(entries, raws[..k]);
      var step := ApplyOne(before.0, raws[k]);
      && ApplyAll(entries, raws[..k + 1]).0 == step.0
      && ApplyAll(entries, raws[..k + 1]).1 == before.1 + (if step.1.Some? then [step.1.value] else [])
  {
    assert raws[..k + 1][..k] == raws[..k];
  }

  lemma ApplyOneKeepsNames(entries: seq<Entry>, raw: string)
    ensures forall j :: 0 <= j < |entries| ==> ApplyOne(entries, raw).0[j].filename == entries[j].filename
  {
  }

  /** Manual selections change flags only, so the file names stay distinct. */
  lemma {:induction false} ApplyAllKeepsNames(entries: seq<Entry>, raws: seq<string>)
    requires DistinctNames(entries)
    ensures DistinctNames(ApplyAll(entries, raws).0)
  {
    if raws != [] {
      var n := |raws| - 1;
      var before := ApplyAll(entries, raws[..n]).0;
      ApplyAllKeepsNames(entries, raws[..n]);
      ApplyOneKeepsNames(before, raws[n]);
    }
  }

  /** The loop of `apply_manual_selection` over the comma-separated selections. */
  method ApplySelections(orig: seq<Entry>, selections: seq<string>) returns (items: seq<Entry>, written: seq<string>)
    ensures items == ApplyAll(orig, selections).0 && written == ApplyAll(orig, selections).1
  {
    items := orig;
    written := [];
    for k := 0 to |selections|
      invariant items == ApplyAll(orig, selections[..k]).0
      invariant written == ApplyAll(orig, selections[..k]).1
    {
      ApplyAllSnoc(orig, selections, k);
      ghost var step := ApplyOne(items, selections[k]);
      var sel := ParseSelection(selections[k]);
      var idx := TargetIndex(sel, |items|);
      if idx.Some? {
        var i := idx.value;
        var e := items[i];
        var current := CurrentState(e.config);
        var newState := NewState(sel.action, current);
        if !EqualsBool(current, newState) {
          assert step == (items[i := WithFlag(e, newState)], Some(e.filename));
          items := items[i := WithFlag(e, newState)];
          written := written + [e.filename];
        } else {
          assert step == (items, None);
        }
      } else {
        assert step == (items, None);
      }
    }
    assert selections[..|selections|] == selections;
  }

  datatype Collection = Agents | Scenarios

  class ConfigurationEditor {
    var agentConfigs: seq<Entry>
    var scenarios: seq<Entry>
    /** The names of the files written so far, in order. */
    var saved: seq<string>

    ghost predicate Valid()
      reads this
    {
      DistinctNames(agentConfigs) && DistinctNames(scenarios)
    }

    function EntriesOf(which: Collection): seq<Entry>
      reads this
    {
      if which == Agents then agentConfigs else scenarios
    }

    /** The editor over files already loaded, in sorted file-name order. */
    constructor (agents: seq<Entry>, faultScenarios: seq<Entry>)
      requires DistinctNames(agents) && DistinctNames(faultScenarios)
      ensures Valid() && agentConfigs == agents && scenarios == faultScenarios && saved == []
    {
      agentConfigs := agents;
      scenarios := faultScenarios;
      saved := [];
    }

    method Store(which: Collection, entries: seq<Entry>)
      modifies this
      ensures which == Agents ==> agentConfigs == entries && scenarios == old(scenarios)
      ensures which == Scenarios ==> scenarios == entries && agentConfigs == old(agentConfigs)
      ensures saved == old(saved)
    {
      if which == Agents {
        agentConfigs := entries;
      } else {
        scenarios := entries;
      }
    }

    /** The loop shared by the bulk setters: set the flag of every selected entry that differs, writing each. */
    method SetWhere(which: Collection, flag: bool, sel: Selector) returns (modifiedCount: nat)
      requires Valid()
      modifies this
      ensures Valid()
      ensures EntriesOf(which) == Updated(old(EntriesOf(which)), flag, sel)
      ensures which == Agents ==> scenarios == old(scenarios)
      ensures which == Scenarios ==> agentConfigs == old(agentConfigs)
      ensures saved == old(saved) + Changed(old(EntriesOf(which)), flag, sel)
      ensures modifiedCount == |Changed(old(EntriesOf(which)), flag, sel)|
    {
      var items, written := UpdateEntries(EntriesOf(which), flag, sel);
      UpdatedKeepsNames(old(EntriesOf(which)), flag, sel);
      Store(which, items);
      saved := saved + written;
      modifiedCount := |written|;
    }

    /** `set_all_agents`: every agent configuration's flag becomes `flag`; returns the number written. */
    method SetAllAgents(flag: bool) returns (modifiedCount: nat)
      requires Valid()
      modifies this
      ensures Valid() && scenarios == old(scenarios)
      ensures agentConfigs == Updated(old(agentConfigs), flag, Every)
      ensures saved == old(saved) + Changed(old(agentConfigs), flag, Every)
      ensures modifiedCount == |Changed(old(agentConfigs), flag, Every)|
    {
      modifiedCount := SetWhere(Agents, flag, Every);
    }

    /** `set_all_scenarios` */
    method SetAllScenarios(flag: bool) returns (modifiedCount: nat)
      requires Valid()
      modifies this
      ensures Valid() && agentConfigs == old(agentConfigs)
      ensures scenarios == Updated(old(scenarios), flag, Every)
      ensures saved == old(saved) + Changed(old(scenarios), flag, Every)
      ensures modifiedCount == |Changed(old(scenarios), flag, Every)|
    {
      modifiedCount := SetWhere(Scenarios, flag, Every);
    }

    /** `set_scenarios_by_app`: the scenarios whose application matches, ignoring case. */
    method SetScenariosByApp(appName: string, flag: bool) returns (modifiedCount: nat)
      requires Valid() && AppNamesAreStrings(scenarios)
      modifies this
      ensures Valid() && agentConfigs == old(agentConfigs)
      ensures scenarios == Updated(old(scenarios), flag, AppIs(Lower(appName)))
      ensures saved == old(saved) + Changed(old(scenarios), flag, AppIs(Lower(appName)))
      ensures modifiedCount == |Changed(old(scenarios), flag, AppIs(Lower(appName)))|
    {
      modifiedCount := SetWhere(Scenarios, flag, AppIs(Lower(appName)));
    }

    /** The loop shared by the single setters: change the first matching entry whose flag differs. */
    method SetFirst(which: Collection, k: Key, flag: bool) returns (changed: bool)
      requires Valid()
      modifies this
      ensures Valid()
      ensures changed <==> FirstToChange(old(EntriesOf(which)), k, flag).Some?
      ensures changed ==>
                var i := FirstToChange(old(EntriesOf(which)), k, flag).value;
                && EntriesOf(which) == old(EntriesOf(which))[i := WithFlag(old(EntriesOf(which))[i], flag)]
                && saved == old(saved) + [old(EntriesOf(which))[i].filename]
      ensures !changed ==> EntriesOf(which) == old(EntriesOf(which)) && saved == old(saved)
      ensures which == Agents ==> scenarios == old(scenarios)
      ensures which == Scenarios ==> agentConfigs == old(agentConfigs)
    {
      var items := EntriesOf(which);
      var i := 0;
      while i < |items| && !(KeyMatches(k, items[i]) && Differs(items[i].config, flag))
        invariant i <= |items|
        invariant forall j :: 0 <= j < i ==> !(KeyMatches(k, items[j]) && Differs(items[j].config, flag))
      {
        i := i + 1;
      }
      if i == |items| {
        NoneToChange(items, k, flag);
        return false;
      }
      FirstIs(items, k, flag, i);
      var e := items[i];
      var updated := items[i := WithFlag(e, flag)];
      FlagKeepsNames(items, i, flag);
      Store(which, updated);
      saved := saved + [e.filename];
      return true;
    }

    /** `set_agent_config`: by file name, `id` or `name`; true exactly when one configuration changed. */
    method SetAgentConfig(configId: string, flag: bool) returns (changed: bool)
      requires Valid()
      modifies this
      ensures Valid() && scenarios == old(scenarios)
      ensures changed <==> FirstToChange(old(agentConfigs), AgentKey(configId), flag).Some?
      ensures changed ==>
                var i := FirstToChange(old(agentConfigs), AgentKey(configId), flag).value;
                agentConfigs == old(agentConfigs)[i := WithFlag(old(agentConfigs)[i], flag)]
                && saved == old(saved) + [old(agentConfigs)[i].filename]
      ensures !changed ==> agentConfigs == old(agentConfigs) && saved == old(saved)
    {
      changed := SetFirst(Agents, AgentKey(configId), flag);
    }

    /** `set_scenario`: by file name only. */
    method SetScenario(scenarioId: string, flag: bool) returns (changed: bool)
      requires Valid()
      modifies this
      ensures Valid() && agentConfigs == old(agentConfigs)
      ensures changed <==> FirstToChange(old(scenarios), FileKey(scenarioId), flag).Some?
      ensures changed ==>
                var i := FirstToChange(old(scenarios), FileKey(scenarioId), flag).value;
                && old(scenarios)[i].filename == scenarioId
                && scenarios == old(scenarios)[i := WithFlag(old(scenarios)[i], flag)]
                && saved == old(saved) + [scenarioId]
      ensures !changed ==> scenarios == old(scenarios) && saved == old(saved)
    {
      changed := SetFirst(Scenarios, FileKey(scenarioId), flag);
    }

    /**
     * `_apply_manual_selection`: the comma-separated selections applied in
     * order to the agent configurations or to the scenarios; returns the
     * number of writes.
     */
    method ApplyManualSelection(userInput: string, which: Collection) returns (modifiedCount: nat)
      requires Valid()
      modifies this
      ensures Valid()
      ensures var r := ApplyAll(old(EntriesOf(which)), Split(userInput, ','));
        && EntriesOf(which) == r.0
        && saved == old(saved) + r.1
        && modifiedCount == |r.1|
      ensures which == Agents ==> scenarios == old(scenarios)
      ensures which == Scenarios ==> agentConfigs == old(agentConfigs)
    {
      var items, written := ApplySelections(EntriesOf(which), Split(userInput, ','));
      ApplyAllKeepsNames(old(EntriesOf(which)), Split(userInput, ','));
      Store(which, items);
      saved := saved + written;
      modifiedCount := |written|;
    }

    /**
     * `get_unique_apps`: the scenarios' file names grouped by lower-cased
     * application, groups in order of first appearance, names in scenario
     * order.
     */
    method GetUniqueApps() returns (apps: seq<(string, seq<string>)>)
      requires AppNamesAreStrings(scenarios)
      ensures GroupKeys(apps) == AppsInOrder(scenarios)
      ensures forall g :: 0 <= g < |apps| ==> apps[g].1 == FilesOfApp(scenarios, apps[g].0)
    {
      var entries := scenarios;
      apps := [];
      assert entries[..0] == [];
      for k := 0 to |entries|
        invariant Grouped(entries, k, apps)
      {
        var e := entries[k];
        var app := AppOf(e.config).value;
        var g := FindGroup(apps, app);
        GroupStep(entries, k, apps, g);
        if g < |apps| {
          apps := apps[g := (app, apps[g].1 + [e.filename])];
        } else {
          apps := apps + [(app, [e.filename])];
        }
      }
      GroupedDone(entries, apps);
    }
  }

  /** The position of the group for `app`, or the number of groups when there is none. */
  method FindGroup(groups: seq<(string, seq<string>)>, app: string) returns (g: nat)
    ensures g <= |groups|
    ensures g < |groups| ==> groups[g].0 == app
    ensures g == |groups| <==> app !in GroupKeys(groups)
  {
    g := 0;
    while g < |groups| && groups[g].0 != app
      invariant g <= |groups|
      invariant forall h :: 0 <= h < g ==> groups[h].0 != app
    {
      g := g + 1;
    }
  }

  lemma NoneToChange(entries: seq<Entry>, k: Key, flag: bool)
    requires forall j :: 0 <= j < |entries| ==> !(KeyMatches(k, entries[j]) && Differs(entries[j].config, flag))
    ensures FirstToChange(entries, k, flag).None?
  {
  }

  lemma FlagKeepsNames(entries: seq<Entry>, i: nat, flag: bool)
    requires DistinctNames(entries) && i < |entries|
    ensures DistinctNames(entries[i := WithFlag(entries[i], flag)])
  {
    var updated := entries[i := WithFlag(entries[i], flag)];
    assert forall j :: 0 <= j < |updated| ==> updated[j].filename == entries[j].filename;
  }

  lemma FirstIs(entries: seq<Entry>, k: Key, flag: bool, i: nat)
    requires i < |entries| && KeyMatches(k, entries[i]) && Differs(entries[i].config, flag)
    requires forall j :: 0 <= j < i ==> !(KeyMatches(k, entries[j]) && Differs(entries[j].config, flag))
    ensures FirstToChange(entries, k, flag) == Some(i)
  {
    var r := FirstToChange(entries, k, flag);
    // `i` qualifies, so some entry is found, and neither an earlier nor a
    // later first qualifying entry is possible.
    assert r.Some?;
    assert !(r.value < i) && !(r.value > i);
  }
}
