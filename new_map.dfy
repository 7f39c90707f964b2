// File > New: the checks on a new map's name, and the "template" renaming applied
// while a template folder is copied into the new map.

module NewMap {
  import opened Strings
  import opened Paths

  /** mShippedMapList: the maps that ship with the game. */
  const ShippedMaps: seq<string> := [
    "mp_aerospace", "mp_apartments", "mp_arena", "mp_banzai", "mp_biodome", "mp_chinatown",
    "mp_city", "mp_conduit", "mp_crucible", "mp_cryogen", "mp_ethiopia", "mp_freerun_01",
    "mp_freerun_02", "mp_freerun_03", "mp_freerun_04", "mp_havoc", "mp_infection", "mp_kung_fu",
    "mp_metro", "mp_miniature", "mp_nuketown_x", "mp_redwood", "mp_rise", "mp_rome", "mp_ruins",
    "mp_sector", "mp_shrine", "mp_skyjacked", "mp_spire", "mp_stronghold", "mp_veiled", "mp_waterpark",
    "mp_western", "zm_castle", "zm_factory", "zm_genesis", "zm_island", "zm_levelcommon",
    "zm_stalingrad", "zm_zod"]

  /** How the name checks end: one of the three refusals, or the lower-cased map name. */
  datatype NameCheck = EmptyName | BuiltInName | BadPrefix | Accepted(mapName: string)

  /** The message box text of each refusal. */
  function Message(r: NameCheck): string
    requires !r.Accepted?
  {
    match r
    case EmptyName => "Map name cannot be empty."
    case BuiltInName => "Map name cannot be the same as a built-in map."
    case BadPrefix => "Map name must start with 'mp_' or 'zm_'."
  }

  /** QStringList::contains(name, Qt::CaseInsensitive). */
  predicate IsShipped(name: string, shipped: seq<string>) {
    exists i :: 0 <= i < |shipped| && EqualsIgnoreCase(shipped[i], name)
  }

  /** The multiplayer and zombies mod templates demand their mode's prefix; other templates demand none. */
  predicate PrefixFits(template: string, mapName: string) {
    !(template == "MP Mod Level" && !("mp_" <= mapName)) && !(template == "ZM Mod Level" && !("zm_" <= mapName))
  }

  /** The checks of OnFileNew, in their order, on the typed name and the chosen template. */
  function CheckName(name: string, template: string, shipped: seq<string>): NameCheck {
    if name == "" then EmptyName
    else if IsShipped(name, shipped) then BuiltInName
    else
      var mapName := ToLower(name);
      if !PrefixFits(template, mapName) then BadPrefix
      else Accepted(mapName)
  }

  function IsUpperLetter(c: char): bool {
    'A' <= c <= 'Z'
  }

  /**
   * An accepted name is the typed name lower-cased: same length, no upper-case letter,
   * no shipped map's name in any letter case, and the template's prefix when it has one.
   */
  lemma AcceptedNameFacts(name: string, template: string, shipped: seq<string>)
    requires CheckName(name, template, shipped).Accepted?
    ensures var m := CheckName(name, template, shipped).mapName;
      m == ToLower(name) && |m| == |name| && m != ""
      && (forall i :: 0 <= i < |m| ==> !IsUpperLetter(m[i]))
      && (forall i :: 0 <= i < |shipped| ==> ToLower(shipped[i]) != m)
      && (template == "MP Mod Level" ==> "mp_" <= m)
      && (template == "ZM Mod Level" ==> "zm_" <= m)
  {
    var m := ToLower(name);
    forall i | 0 <= i < |m|
      ensures !IsUpperLetter(m[i])
    {
      assert m[i] == LowerChar(name[i]);
    }
  }

  /** A shipped map's name is refused however its letters are cased. */
  lemma ShippedNameRefused(name: string, template: string, shipped: seq<string>, k: nat)
    requires k < |shipped| && name != "" && ToLower(name) == ToLower(shipped[k])
    ensures CheckName(name, template, shipped) == BuiltInName
  {
    assert EqualsIgnoreCase(shipped[k], name);
  }

  lemma ShippedUpperCaseRefused(template: string, k: nat)
    requires k < |ShippedMaps|
    ensures CheckName(ToUpper(ShippedMaps[k]), template, ShippedMaps) == BuiltInName
  {
    LowerIgnoresCase(ShippedMaps[k]);
    ShippedNameRefused(ToUpper(ShippedMaps[k]), template, ShippedMaps, k);
  }

  /** Any other non-empty, non-shipped name is accepted, lower-cased, when the prefix fits. */
  lemma FreshNameAccepted(name: string, template: string, shipped: seq<string>)
    requires name != "" && !IsShipped(name, shipped) && PrefixFits(template, ToLower(name))
    ensures CheckName(name, template, shipped) == Accepted(ToLower(name))
  {
  }

  /** Templates other than the two mod levels accept any prefix. */
  lemma OtherTemplatesAnyPrefix(template: string, mapName: string)
    requires template != "MP Mod Level" && template != "ZM Mod Level"
    ensures PrefixFits(template, mapName)
  {
  }

  /** "MP_Test" with the multiplayer template becomes "mp_test"; a zombies template refuses it. */
  lemma MixedCaseExample()
    ensures CheckName("MP_Test", "MP Mod Level", []) == Accepted("mp_test")
    ensures CheckName("MP_Test", "ZM Mod Level", []) == BadPrefix
  {
    assert ToLower("MP_Test") == "mp_test";
    assert "mp_test"[..3] == "mp_";
    assert "mp_test"[..3] != "zm_";
  }

  // ---------------------------------------------------------------------
  // Renaming while copying the template

  /** QByteArray::contains. */
  predicate Contains(s: string, pattern: string) {
    exists i: nat :: i <= |s| && OccursAt(s, pattern, i)
  }

  /** A copied line: lines mentioning a guid get a fresh one instead of the rename. */
  datatype CopiedLine = FreshGuid(line: string) | Renamed(line: string)

  function CopyLine(line: string, mapName: string): CopiedLine {
    if Contains(line, "guid") then FreshGuid(line) else Renamed(Replace(line, "template", mapName))
  }

  /** The destination path of a copied entry, with every "template" in it replaced. */
  function CopiedPath(destPath: string, entry: string, mapName: string): string {
    Replace(destPath + [Separator] + entry, "template", mapName)
  }

  /**
   * In a line without "guid", the text before the first "template" is kept, that
   * occurrence becomes the map name, and the rest of the line is renamed in turn.
   */
  lemma FirstTemplateRenamed(line: string, mapName: string, i: nat)
    requires !Contains(line, "guid")
    requires OccursAt(line, "template", i)
    requires forall j: nat :: j < i ==> !OccursAt(line, "template", j)
    ensures CopyLine(line, mapName).Renamed?
    ensures CopyLine(line, mapName).line == line[..i] + mapName + Replace(line[i + 8..], "template", mapName)
  {
    ReplaceAtFirst(line, "template", mapName, i);
  }

  /** A renamed line grows by the length difference for each "template" in it. */
  lemma RenamedLineLength(line: string, mapName: string)
    requires !Contains(line, "guid")
    ensures CopyLine(line, mapName) == Renamed(Replace(line, "template", mapName))
    ensures |CopyLine(line, mapName).line| == |line| + Occurrences(line, "template") * (|mapName| - 8)
  {
    ReplaceLength(line, "template", mapName);
  }

  /** A line without "template" or "guid" is copied as it is. */
  lemma PlainLineCopied(line: string, mapName: string)
    requires forall i: nat :: !OccursAt(line, "template", i)
    requires !Contains(line, "guid")
    ensures CopyLine(line, mapName) == Renamed(line)
  {
    ReplaceAbsent(line, "template", mapName);
  }
}
