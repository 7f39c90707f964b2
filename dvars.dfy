// Launch dvars: the gDvars table, Dvar::findDvar, the three Dvar::setDvarSetting
// overloads over a settings store, and the `+set` arguments OnEditDvars assembles.

module Dvars {
  import opened Strings

  /** DVAR_VALUE_BOOL, DVAR_VALUE_INT, DVAR_VALUE_STRING, in that order. */
  datatype DvarType = BoolDvar | IntDvar | StringDvar

  /** dvar_s: name, tooltip, value type, spin-box range and whether it is a console command. */
  datatype DvarSpec = DvarSpec(name: string, description: string, kind: DvarType,
                               minValue: int, maxValue: int, isCmd: bool)

  /** dvar_s{}: every field zero (the null name reads as empty text). */
  const DefaultDvar: DvarSpec := DvarSpec("", "", BoolDvar, 0, 0, false)

  /** gDvars. */
  const Table: seq<DvarSpec> := [
    DvarSpec("ai_disableSpawn", "Disable AI from spawning", BoolDvar, 0, 0, false),
    DvarSpec("developer", "Run developer mode", IntDvar, 0, 2, false),
    DvarSpec("g_password", "Password for your server", StringDvar, 0, 0, false),
    DvarSpec("logfile", "Console log information written to current fs_game", IntDvar, 0, 2, false),
    DvarSpec("scr_mod_enable_devblock", "Developer blocks are executed in mods ", BoolDvar, 0, 0, false),
    DvarSpec("connect", "Connect to a specific server", StringDvar, 0, 0, true),
    DvarSpec("set_gametype", "Set a gametype to load with map", StringDvar, 0, 0, true),
    DvarSpec("splitscreen", "Enable splitscreen", BoolDvar, 0, 0, false),
    DvarSpec("splitscreen_playerCount", "Allocate the number of instances for splitscreen", IntDvar, 0, 2, false)]

  // ---------------------------------------------------------------------
  // findDvar

  /**
   * Reference definition of the scan from index i on, where `last` is the entry
   * the scan holds so far: the first entry named `name`, or the last one scanned.
   */
  function LookupFrom(name: string, dvars: seq<DvarSpec>, i: nat, last: DvarSpec): DvarSpec
    requires i <= |dvars|
    decreases |dvars| - i
  {
    if i == |dvars| then last
    else if dvars[i].name == name then dvars[i]
    else LookupFrom(name, dvars, i + 1, dvars[i])
  }

  function Lookup(name: string, dvars: seq<DvarSpec>): DvarSpec {
    LookupFrom(name, dvars, 0, DefaultDvar)
  }

  /** Dvar::findDvar: scans the table in order and returns at the first name match. */
  method FindDvar(name: string, dvars: seq<DvarSpec>) returns (dvar: DvarSpec)
    ensures dvar == Lookup(name, dvars)
  {
    dvar := DefaultDvar;
    var i := 0;
    while i < |dvars|
      invariant 0 <= i <= |dvars|
      invariant LookupFrom(name, dvars, i, dvar) == Lookup(name, dvars)
    {
      dvar := dvars[i];
      if dvar.name == name {
        return;
      }
      i := i + 1;
    }
  }

  lemma {:induction false} LookupFromFirstMatch(name: string, dvars: seq<DvarSpec>, i: nat, last: DvarSpec, k: nat)
    requires i <= k < |dvars| && dvars[k].name == name
    requires forall j :: i <= j < k ==> dvars[j].name != name
    ensures LookupFrom(name, dvars, i, last) == dvars[k]
    decreases k - i
  {
    if i < k {
      LookupFromFirstMatch(name, dvars, i + 1, dvars[i], k);
    }
  }

  lemma {:induction false} LookupFromNoMatch(name: string, dvars: seq<DvarSpec>, i: nat, last: DvarSpec)
    requires i <= |dvars|
    requires forall j :: i <= j < |dvars| ==> dvars[j].name != name
    ensures LookupFrom(name, dvars, i, last) == if i == |dvars| then last else dvars[|dvars| - 1]
    decreases |dvars| - i
  {
    if i < |dvars| {
      LookupFromNoMatch(name, dvars, i + 1, dvars[i]);
    }
  }

  /** findDvar returns the first table entry with the queried name. */
  lemma LookupFirstMatch(name: string, dvars: seq<DvarSpec>, k: nat)
    requires k < |dvars| && dvars[k].name == name
    requires forall j :: 0 <= j < k ==> dvars[j].name != name
    ensures Lookup(name, dvars) == dvars[k]
  {
    LookupFromFirstMatch(name, dvars, 0, DefaultDvar, k);
  }

  /** Without a match it returns the last entry scanned, or dvar_s{} for an empty table. */
  lemma LookupNoMatch(name: string, dvars: seq<DvarSpec>)
    requires forall j :: 0 <= j < |dvars| ==> dvars[j].name != name
    ensures Lookup(name, dvars) == if |dvars| == 0 then DefaultDvar else dvars[|dvars| - 1]
  {
    LookupFromNoMatch(name, dvars, 0, DefaultDvar);
  }

  predicate DistinctNames(dvars: seq<DvarSpec>) {
    forall i, j :: 0 <= i < j < |dvars| ==> dvars[i].name != dvars[j].name
  }

  /** In a table without repeated names each entry is found under its own name. */
  lemma LookupOwnEntry(dvars: seq<DvarSpec>, k: nat)
    requires DistinctNames(dvars) && k < |dvars|
    ensures Lookup(dvars[k].name, dvars) == dvars[k]
  {
    LookupFirstMatch(dvars[k].name, dvars, k);
  }

  lemma TableNamesDistinct()
    ensures DistinctNames(Table)
  {
  }

  // ---------------------------------------------------------------------
  // setDvarSetting

  /** What the store holds: QVariant of a bool, an int or a string. */
  datatype Variant = BoolValue(b: bool) | IntValue(i: int) | TextValue(s: string)

  /** QVariant::toString. */
  function VariantText(v: Variant): string {
    match v
    case BoolValue(b) => if b then "true" else "false"
    case IntValue(i) => IntToString(i)
    case TextValue(s) => s
  }

  /** The settings key of a dvar: "dvar_" followed by its name. */
  function SettingKey(name: string): (r: string)
    ensures |r| == 5 + |name| && r[5..] == name
  {
    "dvar_" + name
  }

  /** Different dvar names never share a settings key. */
  lemma SettingKeysDistinct(a: string, b: string)
    ensures SettingKey(a) == SettingKey(b) <==> a == b
  {
    if SettingKey(a) == SettingKey(b) {
      assert a == SettingKey(a)[5..];
    }
  }

  /** The text the bool overload returns for the value it read back. */
  function BoolText(stored: Variant): (r: string)
    ensures r == "1" || r == "0"
  {
    if VariantText(stored) == "true" then "1" else "0"
  }

  /** A check box reads back as "1" exactly when it is checked, so it never gives empty text. */
  lemma BoolTextOfCheckBox(checked: bool)
    ensures BoolText(BoolValue(checked)) == "1" <==> checked
    ensures BoolText(BoolValue(checked)) != ""
  {
  }

  /** A spin box value reads back as decimal text that parses to the value; never empty. */
  lemma IntTextOfSpinBox(value: int)
    ensures ParseInt(VariantText(IntValue(value))) == value
    ensures VariantText(IntValue(value)) != ""
  {
    IntToStringRoundTrip(value);
  }

  /** The QSettings store, reduced to a map from keys to values. */
  class SettingsStore {
    var values: map<string, Variant>

    constructor (values: map<string, Variant>)
      ensures this.values == values
    {
      this.values := values;
    }

    /** QSettings::setValue. */
    method SetValue(key: string, v: Variant)
      modifies this
      ensures values == old(values)[key := v]
    {
      values := values[key := v];
    }

    /** QSettings::value(key), with an invalid QVariant (empty text) for a missing key. */
    function Value(key: string): string
      reads this
    {
      if key in values then VariantText(values[key]) else ""
    }

    /** setDvarSetting for a check box: stores the bool, reads it back as "1" or "0". */
    method SetBoolDvar(dvar: DvarSpec, checked: bool) returns (value: string)
      modifies this
      ensures values == old(values)[SettingKey(dvar.name) := BoolValue(checked)]
      ensures value == BoolText(values[SettingKey(dvar.name)])
      ensures value == (if checked then "1" else "0")
    {
      SetValue(SettingKey(dvar.name), BoolValue(checked));
      value := if Value(SettingKey(dvar.name)) == "true" then "1" else "0";
    }

    /** setDvarSetting for a spin box: stores the int, reads back its decimal text. */
    method SetIntDvar(dvar: DvarSpec, spinValue: int) returns (value: string)
      modifies this
      ensures values == old(values)[SettingKey(dvar.name) := IntValue(spinValue)]
      ensures value == VariantText(values[SettingKey(dvar.name)])
      ensures ParseInt(value) == spinValue
    {
      SetValue(SettingKey(dvar.name), IntValue(spinValue));
      value := Value(SettingKey(dvar.name));
      IntTextOfSpinBox(spinValue);
    }

    /** setDvarSetting for a line edit: stores the text, reads it back unchanged. */
    method SetStringDvar(dvar: DvarSpec, text: string) returns (value: string)
      modifies this
      ensures values == old(values)[SettingKey(dvar.name) := TextValue(text)]
      ensures value == VariantText(values[SettingKey(dvar.name)])
      ensures value == text
    {
      SetValue(SettingKey(dvar.name), TextValue(text));
      value := Value(SettingKey(dvar.name));
    }
  }

  // ---------------------------------------------------------------------
  // OnEditDvars

  /** The value widget next to a dvar in the dialog's tree. */
  datatype Widget = CheckBox(checked: bool) | SpinBox(spinValue: int) | LineEdit(text: string)

  /** One row of the dvar tree: the name in column 0 and the widget in column 1. */
  datatype Row = Row(name: string, widget: Widget)

  /** The widget is of the type the dvar's setDvarSetting overload casts it to. */
  predicate Fits(kind: DvarType, w: Widget) {
    match kind
    case BoolDvar => w.CheckBox?
    case IntDvar => w.SpinBox?
    case StringDvar => w.LineEdit?
  }

  /** What a widget stores under the dvar's key. */
  function Stored(w: Widget): Variant {
    match w
    case CheckBox(c) => BoolValue(c)
    case SpinBox(v) => IntValue(v)
    case LineEdit(t) => TextValue(t)
  }

  /** The value text the matching overload returns for a widget. */
  function ValueText(w: Widget): string {
    match w
    case CheckBox(c) => BoolText(BoolValue(c))
    case SpinBox(v) => VariantText(IntValue(v))
    case LineEdit(t) => VariantText(TextValue(t))
  }

  /** The arguments one row adds: `+set name value`, or `+name value` for a command, or nothing for empty text. */
  function RowArgs(dvar: DvarSpec, row: Row): seq<string> {
    var value := ValueText(row.widget);
    if value == "" then []
    else if !dvar.isCmd then ["+set", row.name, value]
    else ["+" + row.name, value]
  }

  /** The rows OnEditDvars reads: at most one per table entry. */
  function Visited(dvars: seq<DvarSpec>, rows: seq<Row>): (n: nat)
    ensures n <= |rows| && n <= |dvars|
  {
    if |rows| < |dvars| then |rows| else |dvars|
  }

  predicate RowsFit(dvars: seq<DvarSpec>, rows: seq<Row>) {
    forall i :: 0 <= i < Visited(dvars, rows) ==> Fits(Lookup(rows[i].name, dvars).kind, rows[i].widget)
  }

  /** Reference definition of mRunDvars after the first n rows. */
  function RunDvarsUpTo(dvars: seq<DvarSpec>, rows: seq<Row>, n: nat): seq<string>
    requires n <= |rows|
    decreases n
  {
    if n == 0 then [] else RunDvarsUpTo(dvars, rows, n - 1) + RowArgs(Lookup(rows[n - 1].name, dvars), rows[n - 1])
  }

  /** The store after the first n rows: each row writes its value under the found dvar's key. */
  function StoreUpTo(values: map<string, Variant>, dvars: seq<DvarSpec>, rows: seq<Row>, n: nat): map<string, Variant>
    requires n <= |rows|
    decreases n
  {
    if n == 0 then values
    else StoreUpTo(values, dvars, rows, n - 1)[SettingKey(Lookup(rows[n - 1].name, dvars).name) := Stored(rows[n - 1].widget)]
  }

  /** One row of the OnEditDvars loop. */
  method ReadRow(settings: SettingsStore, dvars: seq<DvarSpec>, row: Row) returns (args: seq<string>)
    requires Fits(Lookup(row.name, dvars).kind, row.widget)
    modifies settings
    ensures args == RowArgs(Lookup(row.name, dvars), row)
    ensures settings.values == old(settings.values)[SettingKey(Lookup(row.name, dvars).name) := Stored(row.widget)]
  {
    var dvar := FindDvar(row.name, dvars);
    var value: string;
    match dvar.kind {
      case BoolDvar =>
        value := settings.SetBoolDvar(dvar, row.widget.checked);
      case IntDvar =>
        value := settings.SetIntDvar(dvar, row.widget.spinValue);
      case StringDvar =>
        value := settings.SetStringDvar(dvar, row.widget.text);
    }
    args := [];
    if value != "" {
      if !dvar.isCmd {
        args := ["+set", row.name];
      } else {
        args := ["+" + row.name];
      }
      args := args + [value];
    }
  }

  /**
   * The OnEditDvars loop: walks the rows while fewer than |dvars| have been read,
   * storing each widget's value and collecting the launch arguments.
   */
  method RunDvarArguments(settings: SettingsStore, dvars: seq<DvarSpec>, rows: seq<Row>) returns (runDvars: seq<string>)
    requires RowsFit(dvars, rows)
    modifies settings
    ensures runDvars == RunDvarsUpTo(dvars, rows, Visited(dvars, rows))
    ensures settings.values == StoreUpTo(old(settings.values), dvars, rows, Visited(dvars, rows))
  {
    runDvars := [];
    var size := 0;
    while size < |rows| && size < |dvars|
      invariant 0 <= size <= Visited(dvars, rows)
      invariant runDvars == RunDvarsUpTo(dvars, rows, size)
      invariant settings.values == StoreUpTo(old(settings.values), dvars, rows, size)
    {
      var args := ReadRow(settings, dvars, rows[size]);
      runDvars := runDvars + args;
      size := size + 1;
    }
  }

  // ---------------------------------------------------------------------
  // Properties of the launch arguments

  /** Every visited bool dvar row contributes its `+set name 1|0` (or `+name 1|0`): a check box is never empty. */
  lemma BoolRowAlwaysSet(dvar: DvarSpec, row: Row)
    requires row.widget.CheckBox?
    ensures RowArgs(dvar, row) == (if !dvar.isCmd then ["+set", row.name] else ["+" + row.name])
                                  + [if row.widget.checked then "1" else "0"]
  {
  }

  /** An int row always contributes, with decimal text that reads back as the value. */
  lemma IntRowAlwaysSet(dvar: DvarSpec, row: Row)
    requires row.widget.SpinBox?
    ensures |RowArgs(dvar, row)| >= 2
    ensures ParseInt(RowArgs(dvar, row)[|RowArgs(dvar, row)| - 1]) == row.widget.spinValue
  {
    IntTextOfSpinBox(row.widget.spinValue);
  }

  /** A string row contributes exactly when its text is non-empty, with the text unchanged. */
  lemma StringRowIff(dvar: DvarSpec, row: Row)
    requires row.widget.LineEdit?
    ensures RowArgs(dvar, row) == [] <==> row.widget.text == ""
    ensures row.widget.text != "" ==> RowArgs(dvar, row)[|RowArgs(dvar, row)| - 1] == row.widget.text
  {
  }

  /** Reading more rows only appends: the arguments of the first m rows are a prefix of those of the first n. */
  lemma {:induction false} RunDvarsSplit(dvars: seq<DvarSpec>, rows: seq<Row>, m: nat, n: nat)
    requires m <= n <= |rows|
    ensures RunDvarsUpTo(dvars, rows, m) <= RunDvarsUpTo(dvars, rows, n)
    decreases n - m
  {
    if m < n {
      RunDvarsSplit(dvars, rows, m, n - 1);
      var a := RunDvarsUpTo(dvars, rows, m);
      var b := RunDvarsUpTo(dvars, rows, n - 1);
      var c := RunDvarsUpTo(dvars, rows, n);
      assert b <= c;
      assert c[..|a|] == b[..|a|];
    }
  }

  /** No row beyond the table size is read: the rows after it change neither arguments nor store. */
  lemma {:induction false} RowsBeyondIgnored(dvars: seq<DvarSpec>, rows: seq<Row>, more: seq<Row>, n: nat)
    requires n <= |rows|
    ensures RunDvarsUpTo(dvars, rows + more, n) == RunDvarsUpTo(dvars, rows, n)
    ensures forall values :: StoreUpTo(values, dvars, rows + more, n) == StoreUpTo(values, dvars, rows, n)
    decreases n
  {
    if n > 0 {
      RowsBeyondIgnored(dvars, rows, more, n - 1);
      assert (rows + more)[n - 1] == rows[n - 1];
    }
  }

  /**
   * With the dialog's rows (one per table entry, in table order) every row is found
   * as its own entry, so the value widget is read through the dvar's own overload and
   * each dvar's value lands under its own key.
   */
  lemma DialogRowsStored(values: map<string, Variant>, rows: seq<Row>)
    requires |rows| == |Table|
    requires forall i :: 0 <= i < |rows| ==> rows[i].name == Table[i].name
    ensures forall i :: 0 <= i < |rows| ==>
      SettingKey(Table[i].name) in StoreUpTo(values, Table, rows, |rows|)
      && StoreUpTo(values, Table, rows, |rows|)[SettingKey(Table[i].name)] == Stored(rows[i].widget)
  {
    TableNamesDistinct();
    RowsStored(values, Table, rows, |rows|);
  }

  /** The same for any table without repeated names, after the first n rows. */
  lemma {:induction false} RowsStored(values: map<string, Variant>, dvars: seq<DvarSpec>, rows: seq<Row>, n: nat)
    requires DistinctNames(dvars) && |rows| == |dvars| && n <= |rows|
    requires forall i :: 0 <= i < |rows| ==> rows[i].name == dvars[i].name
    ensures forall i :: 0 <= i < n ==>
      SettingKey(dvars[i].name) in StoreUpTo(values, dvars, rows, n)
      && StoreUpTo(values, dvars, rows, n)[SettingKey(dvars[i].name)] == Stored(rows[i].widget)
    decreases n
  {
    if n > 0 {
      RowsStored(values, dvars, rows, n - 1);
      LookupOwnEntry(dvars, n - 1);
      var key := SettingKey(dvars[n - 1].name);
      assert StoreUpTo(values, dvars, rows, n) == StoreUpTo(values, dvars, rows, n - 1)[key := Stored(rows[n - 1].widget)];
      forall i | 0 <= i < n - 1
        ensures SettingKey(dvars[i].name) != key
      {
        SettingKeysDistinct(dvars[i].name, dvars[n - 1].name);
      }
    }
  }
}
