// The command lists the main window hands to a build runner: Build (OnEditBuild),
// Update DB and Run (OnRunMapOrMod). Entries are first built as symbolic tasks, and
// `CommandOf` spells a task out as the (program, arguments) pair the runner starts.

module BuildCommands {
  import opened Wrappers
  import opened Strings
  import opened Process
  import opened FileTree

  /** gLanguages: the languages "All" expands to, in order. */
  const Languages: seq<string> := [
    "english", "french", "italian", "spanish", "german", "portuguese", "russian", "polish",
    "japanese", "traditionalchinese", "simplifiedchinese", "englisharabic"]

  /** The option widgets and settings OnEditBuild reads. */
  datatype BuildOptions = BuildOptions(
    toolsPath: string,        // mToolsPath
    gamePath: string,         // mGamePath
    buildLanguage: string,    // mBuildLanguage
    compile: bool,            // mCompileEnabledWidget
    compileMode: int,         // mCompileModeWidget->currentIndex()
    light: bool,              // mLightEnabledWidget
    lightQuality: int,        // mLightQualityWidget->currentIndex()
    link: bool,               // mLinkEnabledWidget
    run: bool,                // mRunEnabledWidget
    runDvars: seq<string>,    // mRunDvars
    runOptions: string)       // mRunOptionsWidget->text()

  /** One entry of a command list, before its program path and arguments are spelled out. */
  datatype Task =
    | UpdateDB
    | Compile(mapName: string)
    | Light(mapName: string)
    | LinkMap(mapName: string)
    | LinkMod(modName: string, zone: string)
    | RunGame(args: seq<string>)

  // ---------------------------------------------------------------------
  // Spelling out the entries

  /** The `-language` arguments of "All": one pair per language, in table order. */
  function LanguagePairs(langs: seq<string>): seq<string>
    decreases |langs|
  {
    if |langs| == 0 then [] else ["-language", langs[0]] + LanguagePairs(langs[1..])
  }

  lemma {:induction false} LanguagePairsShape(langs: seq<string>)
    ensures |LanguagePairs(langs)| == 2 * |langs|
    ensures forall i :: 0 <= i < |langs| ==>
      LanguagePairs(langs)[2 * i] == "-language" && LanguagePairs(langs)[2 * i + 1] == langs[i]
    decreases |langs|
  {
    if |langs| > 0 {
      LanguagePairsShape(langs[1..]);
      var r := LanguagePairs(langs);
      assert r == ["-language", langs[0]] + LanguagePairs(langs[1..]);
      forall i | 1 <= i < |langs|
        ensures r[2 * i] == "-language" && r[2 * i + 1] == langs[i]
      {
        assert r[2 * i] == LanguagePairs(langs[1..])[2 * (i - 1)];
        assert r[2 * i + 1] == LanguagePairs(langs[1..])[2 * (i - 1) + 1];
        assert langs[1..][i - 1] == langs[i];
      }
    }
  }

  function ExpectedLanguageArgs(buildLanguage: string): seq<string> {
    if buildLanguage != "All" then ["-language", buildLanguage] else LanguagePairs(Languages)
  }

  /** LanguageArgs of OnEditBuild: one language, or the loop over gLanguages for "All". */
  method LanguageArgs(buildLanguage: string) returns (args: seq<string>)
    ensures args == ExpectedLanguageArgs(buildLanguage)
  {
    if buildLanguage != "All" {
      args := ["-language", buildLanguage];
      return;
    }
    args := ExpandLanguages(Languages);
  }

  /** The loop over gLanguages. */
  method ExpandLanguages(langs: seq<string>) returns (args: seq<string>)
    ensures args == LanguagePairs(langs)
  {
    args := [];
    var i := 0;
    while i < |langs|
      invariant 0 <= i <= |langs|
      invariant args + LanguagePairs(langs[i..]) == LanguagePairs(langs)
    {
      assert langs[i..][1..] == langs[i + 1..];
      args := args + ["-language", langs[i]];
      i := i + 1;
    }
  }

  /** "All" gives every one of the twelve languages, each after its own `-language`. */
  lemma AllLanguagesExpanded()
    ensures |ExpectedLanguageArgs("All")| == 24
    ensures forall i :: 0 <= i < 12 ==>
      ExpectedLanguageArgs("All")[2 * i] == "-language" && ExpectedLanguageArgs("All")[2 * i + 1] == Languages[i]
  {
    LanguagePairsShape(Languages);
  }

  /** The light quality combo box: index 0 is low, 2 is high, every other index medium. */
  function LightQualityArg(index: int): string {
    if index == 0 then "+low" else if index == 2 then "+high" else "+medium"
  }

  /** The map-source file of a map; maps live in a folder named by the first two letters. */
  function MapSource(gamePath: string, mapName: string, sep: string): string {
    gamePath + sep + "map_source" + sep + Left(mapName, 2) + sep + mapName + ".map"
  }

  function CommandOf(o: BuildOptions, languageArgs: seq<string>, t: Task): Command {
    match t
    case UpdateDB => Command(o.toolsPath + "/gdtdb/gdtdb.exe", ["/update"])
    case Compile(mapName) =>
      Command(o.toolsPath + "\\bin\\cod2map64.exe",
        ["-platform", "pc"]
        + (if o.compileMode == 0 then ["-onlyents"] else ["-navmesh", "-navvolume"])
        + ["-loadFrom", MapSource(o.gamePath, mapName, "\\"),
           o.gamePath + "\\share\\raw\\maps\\" + Left(mapName, 2) + "\\" + mapName + ".d3dbsp"])
    case Light(mapName) =>
      Command(o.toolsPath + "/bin/radiant_modtools.exe",
        ["-ledSilent", LightQualityArg(o.lightQuality), "+localprobes", "+forceclean", "+recompute",
         MapSource(o.gamePath, mapName, "/")])
    case LinkMap(mapName) =>
      Command(o.toolsPath + "/bin/linker_modtools.exe", languageArgs + ["-modsource", mapName])
    case LinkMod(modName, zone) =>
      Command(o.toolsPath + "/bin/linker_modtools.exe", languageArgs + ["-fs_game", modName, "-modsource", zone])
    case RunGame(args) => Command(o.gamePath + "/BlackOps3.exe", args)
  }

  function Commands(o: BuildOptions, languageArgs: seq<string>, tasks: seq<Task>): (r: seq<Command>)
    ensures |r| == |tasks|
    ensures forall i :: 0 <= i < |tasks| ==> r[i] == CommandOf(o, languageArgs, tasks[i])
  {
    seq(|tasks|, i requires 0 <= i < |tasks| => CommandOf(o, languageArgs, tasks[i]))
  }

  // ---------------------------------------------------------------------
  // Arguments of the game entry

  /** The space-separated extra options; an empty box adds nothing. */
  function ExtraArgs(extra: string): seq<string> {
    if extra == "" then [] else Split(extra, ' ')
  }

  /** Dvars, then `+set fs_game <mod>`, then `+devmap <map>` when a map is launched, then the extras. */
  function GameArgs(runDvars: seq<string>, fsGame: string, devmap: Option<string>, extra: string): seq<string> {
    runDvars + ["+set", "fs_game", fsGame]
    + (match devmap case Some(m) => ["+devmap", m] case None => [])
    + ExtraArgs(extra)
  }

  /** How the game arguments split into their parts, and that the extras join back to the option text. */
  lemma GameArgsParts(runDvars: seq<string>, fsGame: string, devmap: Option<string>, extra: string)
    ensures var args := GameArgs(runDvars, fsGame, devmap, extra);
      var n := |runDvars| + 3 + (if devmap.Some? then 2 else 0);
      n <= |args|
      && args[..|runDvars|] == runDvars
      && args[|runDvars|..|runDvars| + 3] == ["+set", "fs_game", fsGame]
      && (devmap.Some? ==> args[|runDvars| + 3..n] == ["+devmap", devmap.value])
      && (extra == "" ==> |args| == n)
      && (extra != "" ==> Join(args[n..], ' ') == extra)
  {
    var args := GameArgs(runDvars, fsGame, devmap, extra);
    var n := |runDvars| + 3 + (if devmap.Some? then 2 else 0);
    assert args[n..] == ExtraArgs(extra);
    if extra != "" {
      JoinSplit(extra, ' ');
    }
  }

  // ---------------------------------------------------------------------
  // OnEditBuild: reference definition of the command list

  /** Mod zones are read through their parent item, the mod; only maps need no parent. */
  predicate ParentsKnown(items: seq<Found>) {
    forall i :: 0 <= i < |items| ==> items[i].item.kind != MapItem ==> items[i].parent.Some?
  }

  /** The entries one checked item adds: compile, light, link for a map; link for a mod zone. */
  function ItemTasks(o: BuildOptions, f: Found): seq<Task>
    requires f.item.kind != MapItem ==> f.parent.Some?
  {
    if f.item.kind == MapItem then
      Opt(o.compile, Compile(f.item.text)) + Opt(o.light, Light(f.item.text)) + Opt(o.link, LinkMap(f.item.text))
    else Opt(o.link, LinkMod(f.parent.value, f.item.text))
  }

  function Opt(b: bool, t: Task): seq<Task> {
    if b then [t] else []
  }

  function ItemsTasks(o: BuildOptions, items: seq<Found>): seq<Task>
    requires ParentsKnown(items)
    decreases |items|
  {
    if |items| == 0 then []
    else ItemsTasks(o, items[..|items| - 1]) + ItemTasks(o, items[|items| - 1])
  }

  /** LastMap: the text of the last checked map, "" when there is none. */
  function LastMap(items: seq<Found>): string
    decreases |items|
  {
    if |items| == 0 then ""
    else if items[|items| - 1].item.kind == MapItem then items[|items| - 1].item.text
    else LastMap(items[..|items| - 1])
  }

  /** LastMod: the parent text of the last checked non-map item, "" when there is none. */
  function LastMod(items: seq<Found>): string
    requires ParentsKnown(items)
    decreases |items|
  {
    if |items| == 0 then ""
    else if items[|items| - 1].item.kind != MapItem then items[|items| - 1].parent.value
    else LastMod(items[..|items| - 1])
  }

  function FsGame(lastMap: string, lastMod: string): string {
    if lastMod == "" then lastMap else lastMod
  }

  function Devmap(lastMap: string): Option<string> {
    if lastMap == "" then None else Some(lastMap)
  }

  /** The whole list: `gdtdb /update` once before any per-item entry, the per-item entries, the game. */
  function BuildTasks(o: BuildOptions, items: seq<Found>): seq<Task>
    requires ParentsKnown(items)
  {
    var perItem := ItemsTasks(o, items);
    var lastMap := LastMap(items);
    var lastMod := LastMod(items);
    WithUpdate(perItem)
    + (if o.run && (lastMod != "" || lastMap != "")
       then [RunGame(GameArgs(o.runDvars, FsGame(lastMap, lastMod), Devmap(lastMap), o.runOptions))]
       else [])
  }

  // ---------------------------------------------------------------------
  // OnEditBuild: the list as the loop builds it

  /** The per-item entries behind the single `gdtdb /update` entry, which is there only if they are. */
  function WithUpdate(perItem: seq<Task>): seq<Task> {
    if perItem == [] then [] else [UpdateDB] + perItem
  }

  /** AddUpdateDBCommand followed by one action entry, when that action is ticked. */
  method AddIf(ticked: bool, tasks: seq<Task>, ghost prefix: seq<Task>, updateAdded: bool, t: Task)
    returns (tasks': seq<Task>, updateAdded': bool)
    requires tasks == WithUpdate(prefix) && updateAdded == (prefix != [])
    ensures tasks' == WithUpdate(prefix + Opt(ticked, t)) && updateAdded' == (prefix + Opt(ticked, t) != [])
  {
    tasks', updateAdded' := tasks, updateAdded;
    if ticked {
      if !updateAdded' {
        tasks' := tasks' + [UpdateDB];
        updateAdded' := true;
      }
      tasks' := tasks' + [t];
    } else {
      assert prefix + Opt(ticked, t) == prefix;
    }
  }

  /** One iteration of the loop over the checked items. */
  method AddItem(o: BuildOptions, f: Found, tasks: seq<Task>, ghost prefix: seq<Task>, updateAdded: bool)
    returns (tasks': seq<Task>, updateAdded': bool)
    requires f.item.kind != MapItem ==> f.parent.Some?
    requires tasks == WithUpdate(prefix) && updateAdded == (prefix != [])
    ensures tasks' == WithUpdate(prefix + ItemTasks(o, f)) && updateAdded' == (prefix + ItemTasks(o, f) != [])
  {
    if f.item.kind == MapItem {
      var mapName := f.item.text;
      ghost var p1 := prefix + Opt(o.compile, Compile(mapName));
      tasks', updateAdded' := AddIf(o.compile, tasks, prefix, updateAdded, Compile(mapName));
      ghost var p2 := p1 + Opt(o.light, Light(mapName));
      tasks', updateAdded' := AddIf(o.light, tasks', p1, updateAdded', Light(mapName));
      ghost var p3 := p2 + Opt(o.link, LinkMap(mapName));
      tasks', updateAdded' := AddIf(o.link, tasks', p2, updateAdded', LinkMap(mapName));
      assert p3 == prefix + ItemTasks(o, f);
    } else {
      tasks', updateAdded' := AddIf(o.link, tasks, prefix, updateAdded, LinkMod(f.parent.value, f.item.text));
    }
  }

  /** The game entry's argument list, built as OnEditBuild appends it. */
  method GameEntryArgs(runDvars: seq<string>, lastMap: string, lastMod: string, extra: string) returns (args: seq<string>)
    ensures args == GameArgs(runDvars, FsGame(lastMap, lastMod), Devmap(lastMap), extra)
  {
    args := runDvars + ["+set", "fs_game", if lastMod == "" then lastMap else lastMod];
    if lastMap != "" {
      args := args + ["+devmap", lastMap];
    }
    if extra != "" {
      args := args + Split(extra, ' ');
    }
  }

  /**
   * The list-building part of OnEditBuild, from the checked items on: returns the
   * entries (spelled out by `Commands`) and the UpdateAdded flag.
   */
  method CollectBuildTasks(o: BuildOptions, items: seq<Found>) returns (tasks: seq<Task>, updateAdded: bool)
    requires ParentsKnown(items)
    ensures tasks == BuildTasks(o, items)
    ensures updateAdded <==> ItemsTasks(o, items) != []
  {
    tasks := [];
    updateAdded := false;
    var lastMap := "";
    var lastMod := "";
    var i := 0;
    while i < |items|
      invariant 0 <= i <= |items|
      invariant tasks == WithUpdate(ItemsTasks(o, items[..i])) && updateAdded == (ItemsTasks(o, items[..i]) != [])
      invariant lastMap == LastMap(items[..i]) && lastMod == LastMod(items[..i])
    {
      var f := items[i];
      assert items[..i + 1][..i] == items[..i];
      tasks, updateAdded := AddItem(o, f, tasks, ItemsTasks(o, items[..i]), updateAdded);
      if f.item.kind == MapItem {
        lastMap := f.item.text;
      } else {
        lastMod := f.parent.value;
      }
      i := i + 1;
    }
    assert items[..i] == items;
    if o.run && (lastMod != "" || lastMap != "") {
      var args := GameEntryArgs(o.runDvars, lastMap, lastMod, o.runOptions);
      tasks := tasks + [RunGame(args)];
    }
  }

  /** OnEditBuild's Commands list, with the language arguments computed first. */
  method CollectBuildCommands(o: BuildOptions, items: seq<Found>) returns (commands: seq<Command>, updateAdded: bool)
    requires ParentsKnown(items)
    ensures commands == Commands(o, ExpectedLanguageArgs(o.buildLanguage), BuildTasks(o, items))
    ensures updateAdded <==> ItemsTasks(o, items) != []
  {
    var languageArgs := LanguageArgs(o.buildLanguage);
    var tasks;
    tasks, updateAdded := CollectBuildTasks(o, items);
    commands := Commands(o, languageArgs, tasks);
  }

  /** The items found in a file list whose top-level items carry no check box all have parents. */
  lemma CheckedItemsParentsKnown(topLevel: seq<Item>)
    requires forall i :: 0 <= i < |topLevel| ==> !topLevel[i].checked
    ensures ParentsKnown(CheckedIn(topLevel, None))
  {
    var items := CheckedIn(topLevel, None);
    CollectedItemsHaveParents(topLevel);
    assert forall i :: 0 <= i < |items| ==> items[i] in items;
  }

  /** The command list Build produces for a file list, spelled out. */
  function BuildList(o: BuildOptions, topLevel: seq<Item>): seq<Command>
    requires forall i :: 0 <= i < |topLevel| ==> !topLevel[i].checked
  {
    CheckedItemsParentsKnown(topLevel);
    Commands(o, ExpectedLanguageArgs(o.buildLanguage), BuildTasks(o, CheckedIn(topLevel, None)))
  }

  // ---------------------------------------------------------------------
  // Properties of the Build list

  lemma {:induction false} ItemsTasksAppend(o: BuildOptions, items: seq<Found>, more: seq<Found>)
    requires ParentsKnown(items) && ParentsKnown(more)
    ensures ParentsKnown(items + more)
    ensures ItemsTasks(o, items + more) == ItemsTasks(o, items) + ItemsTasks(o, more)
    decreases |more|
  {
    if |more| > 0 {
      var init := more[..|more| - 1];
      assert (items + more)[..|items + more| - 1] == items + init;
      ItemsTasksAppend(o, items, init);
    } else {
      assert items + more == items;
    }
  }

  /** No per-item entry is the database update, so the update entry is only ever at the front. */
  lemma {:induction false} NoUpdateInItems(o: BuildOptions, items: seq<Found>)
    requires ParentsKnown(items)
    ensures UpdateDB !in ItemsTasks(o, items)
    decreases |items|
  {
    if |items| > 0 {
      NoUpdateInItems(o, items[..|items| - 1]);
    }
  }

  /** `gdtdb /update` heads the list exactly when some compile, light or link entry was added, and appears nowhere else. */
  lemma UpdateComesFirst(o: BuildOptions, items: seq<Found>)
    requires ParentsKnown(items)
    ensures var tasks := BuildTasks(o, items);
      (|tasks| > 0 && tasks[0] == UpdateDB <==> ItemsTasks(o, items) != [])
      && forall i :: 0 < i < |tasks| ==> tasks[i] != UpdateDB
  {
    var tasks := BuildTasks(o, items);
    var perItem := ItemsTasks(o, items);
    NoUpdateInItems(o, items);
    forall i | 0 < i < |tasks|
      ensures tasks[i] != UpdateDB
    {
      if perItem != [] && i <= |perItem| {
        assert tasks[i] == perItem[i - 1];
      }
    }
    if perItem == [] && |tasks| > 0 {
      assert tasks[0].RunGame?;
    }
  }

  /** Every checked map gets its compile, light and link entries, as far as those actions are ticked. */
  lemma {:induction false} MapEntriesPresent(o: BuildOptions, items: seq<Found>, j: nat)
    requires ParentsKnown(items) && j < |items| && items[j].item.kind == MapItem
    ensures o.compile ==> Compile(items[j].item.text) in ItemsTasks(o, items)
    ensures o.light ==> Light(items[j].item.text) in ItemsTasks(o, items)
    ensures o.link ==> LinkMap(items[j].item.text) in ItemsTasks(o, items)
    decreases |items|
  {
    if j < |items| - 1 {
      ParentsKnownPrefix(items, |items| - 1);
      MapEntriesPresent(o, items[..|items| - 1], j);
    }
  }

  /** Every checked mod zone gets a link entry naming its mod and zone when Link is ticked. */
  lemma {:induction false} ModEntriesPresent(o: BuildOptions, items: seq<Found>, j: nat)
    requires ParentsKnown(items) && j < |items| && items[j].item.kind != MapItem && o.link
    ensures LinkMod(items[j].parent.value, items[j].item.text) in ItemsTasks(o, items)
    decreases |items|
  {
    if j < |items| - 1 {
      ParentsKnownPrefix(items, |items| - 1);
      ModEntriesPresent(o, items[..|items| - 1], j);
    }
  }

  /** Conversely, every per-item entry comes from a checked item of the matching kind, and only from a ticked action. */
  lemma {:induction false} ItemEntriesSound(o: BuildOptions, items: seq<Found>, t: Task)
    requires ParentsKnown(items) && t in ItemsTasks(o, items)
    ensures t.Compile? ==> o.compile && exists j :: 0 <= j < |items| && items[j].item.kind == MapItem && items[j].item.text == t.mapName
    ensures t.Light? ==> o.light && exists j :: 0 <= j < |items| && items[j].item.kind == MapItem && items[j].item.text == t.mapName
    ensures t.LinkMap? ==> o.link && exists j :: 0 <= j < |items| && items[j].item.kind == MapItem && items[j].item.text == t.mapName
    ensures t.LinkMod? ==> o.link && exists j :: (0 <= j < |items| && items[j].item.kind != MapItem
                                                   && items[j].parent == Some(t.modName) && items[j].item.text == t.zone)
    ensures !t.RunGame? && !t.UpdateDB?
    decreases |items|
  {
    var n := |items| - 1;
    if t !in ItemTasks(o, items[n]) {
      ParentsKnownPrefix(items, n);
      ItemEntriesSound(o, items[..n], t);
      // the witness found in the prefix is a witness in the whole list
      assert forall j :: 0 <= j < n ==> items[..n][j] == items[j];
    }
  }

  lemma ParentsKnownPrefix(items: seq<Found>, n: nat)
    requires ParentsKnown(items) && n <= |items|
    ensures ParentsKnown(items[..n])
  {
    forall i | 0 <= i < n
      ensures items[..n][i].item.kind != MapItem ==> items[..n][i].parent.Some?
    {
      assert items[..n][i] == items[i];
    }
  }

  /** With no checked map, LastMap is "". */
  lemma {:induction false} LastMapNone(items: seq<Found>)
    requires forall i :: 0 <= i < |items| ==> items[i].item.kind != MapItem
    ensures LastMap(items) == ""
    decreases |items|
  {
    if |items| > 0 {
      var init := items[..|items| - 1];
      assert forall i :: 0 <= i < |init| ==> init[i] == items[i];
      LastMapNone(init);
    }
  }

  /** LastMap is the text of the last checked map. */
  lemma {:induction false} LastMapAt(items: seq<Found>, j: nat)
    requires j < |items| && items[j].item.kind == MapItem
    requires forall k :: j < k < |items| ==> items[k].item.kind != MapItem
    ensures LastMap(items) == items[j].item.text
    decreases |items|
  {
    var n := |items| - 1;
    if j < n {
      var init := items[..n];
      assert forall k :: 0 <= k < n ==> init[k] == items[k];
      LastMapAt(init, j);
    }
  }

  /** With no checked mod zone, LastMod is "". */
  lemma {:induction false} LastModNone(items: seq<Found>)
    requires ParentsKnown(items)
    requires forall i :: 0 <= i < |items| ==> items[i].item.kind == MapItem
    ensures LastMod(items) == ""
    decreases |items|
  {
    if |items| > 0 {
      var init := items[..|items| - 1];
      assert forall i :: 0 <= i < |init| ==> init[i] == items[i];
      LastModNone(init);
    }
  }

  /** LastMod is the mod (parent text) of the last checked mod zone. */
  lemma {:induction false} LastModAt(items: seq<Found>, j: nat)
    requires ParentsKnown(items)
    requires j < |items| && items[j].item.kind != MapItem
    requires forall k :: j < k < |items| ==> items[k].item.kind == MapItem
    ensures Some(LastMod(items)) == items[j].parent
    decreases |items|
  {
    var n := |items| - 1;
    if j < n {
      var init := items[..n];
      assert forall k :: 0 <= k < n ==> init[k] == items[k];
      LastModAt(init, j);
    }
  }

  /**
   * The game entry: present, and last, exactly when Run is ticked and the last checked
   * map or mod has a name; it selects the last mod if any, else the last map, and asks
   * for `+devmap` only when a map was checked.
   */
  lemma GameEntryLast(o: BuildOptions, items: seq<Found>)
    requires ParentsKnown(items)
    ensures var tasks := BuildTasks(o, items);
      var lastMap := LastMap(items);
      var lastMod := LastMod(items);
      (|tasks| > 0 && tasks[|tasks| - 1].RunGame? <==> o.run && (lastMod != "" || lastMap != ""))
      && (|tasks| > 0 && tasks[|tasks| - 1].RunGame? ==>
            tasks[|tasks| - 1].args == GameArgs(o.runDvars, FsGame(lastMap, lastMod), Devmap(lastMap), o.runOptions))
      && forall i :: 0 <= i < |tasks| - 1 ==> !tasks[i].RunGame?
  {
    var tasks := BuildTasks(o, items);
    var perItem := ItemsTasks(o, items);
    forall t | t in perItem
      ensures !t.RunGame?
    {
      ItemEntriesSound(o, items, t);
    }
    var head := (if perItem != [] then [UpdateDB] else []) + perItem;
    assert forall i :: 0 <= i < |head| ==> !head[i].RunGame?;
  }

  /** With nothing checked, or no action ticked, there is nothing to run. */
  lemma NothingCheckedNothingToDo(o: BuildOptions, items: seq<Found>)
    requires ParentsKnown(items)
    requires items == [] || (!o.compile && !o.light && !o.link && !o.run)
    ensures BuildTasks(o, items) == []
  {
    if items != [] {
      NoItemTasks(o, items);
    }
  }

  lemma {:induction false} NoItemTasks(o: BuildOptions, items: seq<Found>)
    requires ParentsKnown(items) && !o.compile && !o.light && !o.link
    ensures ItemsTasks(o, items) == []
    decreases |items|
  {
    if |items| > 0 {
      NoItemTasks(o, items[..|items| - 1]);
    }
  }

  // ---------------------------------------------------------------------
  // Update DB and Run

  /**
   * The game arguments of OnRunMapOrMod for the first selected item: a map launches
   * itself with `+devmap`; anything else selects the mod named by its parent item, or
   * by itself when it has no parent.
   */
  function RunArgs(runDvars: seq<string>, f: Found, extra: string): seq<string> {
    if f.item.kind == MapItem then GameArgs(runDvars, f.item.text, Some(f.item.text), extra)
    else
      var modName := match f.parent case Some(p) => p case None => f.item.text;
      GameArgs(runDvars, modName, None, extra)
  }

  /**
   * The Run arguments: the dvars, `+set fs_game <mod>`, then for a map `+devmap <map>`,
   * and after that nothing but the extra options, which join back to the option text.
   */
  lemma RunArgsShape(runDvars: seq<string>, f: Found, extra: string)
    ensures var args := RunArgs(runDvars, f, extra);
      var fsGame := if f.item.kind == MapItem || f.parent.None? then f.item.text else f.parent.value;
      var n := |runDvars| + 3;
      var m := if f.item.kind == MapItem then n + 2 else n;
      m <= |args| && args[..|runDvars|] == runDvars && args[|runDvars|..n] == ["+set", "fs_game", fsGame]
      && (f.item.kind == MapItem ==> args[n..m] == ["+devmap", f.item.text])
      && (extra == "" ==> |args| == m)
      && (extra != "" ==> Join(args[m..], ' ') == extra)
  {
    if f.item.kind == MapItem {
      GameArgsParts(runDvars, f.item.text, Some(f.item.text), extra);
    } else {
      var modName := match f.parent case Some(p) => p case None => f.item.text;
      GameArgsParts(runDvars, modName, None, extra);
    }
  }
}
