// The main window's handling of its runner threads: Build (which cancels a running
// build), Update DB, Run, Export2Bin conversion, the finished slots, and the dvar dialog.

module MainWindow {
  import opened Wrappers
  import opened Process
  import opened FileTree
  import opened BuildCommands
  import opened Dvars
  import BuildRunner
  import ConvertRunner

  /** What pressing Build did. */
  datatype BuildPress = CancelledRunning | NothingToDo | Started

  class Window {
    /** mBuildThread: the build runner the Build button cancels, or null. */
    var buildThread: BuildRunner.BuildThread?
    /** mConvertThread: the last conversion runner started, or null. */
    var convertThread: ConvertRunner.ConvertThread?
    /** mBuildButton's text. */
    var buildButton: string
    /** mOutputWidget's lines. */
    var output: seq<string>
    /** mIgnoreErrorsWidget->isChecked(). */
    var ignoreErrors: bool
    /** mRunDvars. */
    var runDvars: seq<string>
    /** The runner threads started and not yet finished. */
    ghost var runningBuilds: set<BuildRunner.BuildThread>
    ghost var runningConversions: set<ConvertRunner.ConvertThread>
    /** The build runners handed to deleteLater. */
    ghost var deletedBuilds: set<BuildRunner.BuildThread>
    /** Whether deleteLater was ever called through a null mBuildThread. */
    ghost var deletedNull: bool

    /**
     * The window knows every running build: at most one runs, mBuildThread is that
     * one, and the button offers to cancel exactly while it runs. No running build has
     * been handed to deleteLater, and deleteLater was never called through null.
     */
    ghost predicate Valid()
      reads this`buildThread, this`buildButton, this`runningBuilds, this`deletedBuilds, this`deletedNull
    {
      runningBuilds == (if buildThread == null then {} else {buildThread})
      && buildButton == (if buildThread == null then "Build" else "Cancel")
      && runningBuilds !! deletedBuilds && !deletedNull
    }

    constructor (ignoreErrors: bool)
      ensures Valid() && buildThread == null && convertThread == null
      ensures this.ignoreErrors == ignoreErrors && runDvars == [] && output == []
      ensures runningConversions == {}
    {
      buildThread := null;
      convertThread := null;
      buildButton := "Build";
      output := [];
      this.ignoreErrors := ignoreErrors;
      runDvars := [];
      runningBuilds := {};
      runningConversions := {};
      deletedBuilds := {};
      deletedNull := false;
    }

    /** The option widgets together with the dvars chosen in the dvar dialog. */
    function Options(widgets: BuildOptions): BuildOptions
      reads this`runDvars
    {
      widgets.(runDvars := runDvars)
    }

    /** StartBuildThread: a fresh runner over the commands, with the ignore-errors box as its flag. */
    method StartBuildThread(commands: seq<Command>)
      modifies this`buildThread, this`buildButton, this`output, this`runningBuilds
      ensures fresh(buildThread) && buildThread.commands == commands && buildThread.ignoreErrors == ignoreErrors
      ensures !buildThread.success && !buildThread.cancel
      ensures buildButton == "Cancel" && output == []
      ensures runningBuilds == old(runningBuilds) + {buildThread}
    {
      buildButton := "Cancel";
      output := [];
      buildThread := new BuildRunner.BuildThread(commands, ignoreErrors);
      runningBuilds := runningBuilds + {buildThread};
    }

    /** UpdateDB: does nothing while a build runs; otherwise runs `gdtdb /update` alone. */
    method UpdateDB(widgets: BuildOptions)
      modifies this`buildThread, this`buildButton, this`output, this`runningBuilds
      ensures old(Valid()) ==> Valid()
      ensures old(buildThread) != null ==>
        buildThread == old(buildThread) && buildButton == old(buildButton) && output == old(output)
        && runningBuilds == old(runningBuilds)
      ensures old(buildThread) == null ==>
        fresh(buildThread) && buildThread.commands == [CommandOf(widgets, [], Task.UpdateDB)]
        && buildThread.ignoreErrors == ignoreErrors && runningBuilds == old(runningBuilds) + {buildThread}
        && buildButton == "Cancel" && output == []
    {
      if buildThread != null {
        return;
      }
      StartBuildThread([CommandOf(widgets, [], Task.UpdateDB)]);
    }

    /**
     * OnEditBuild: while a build runs, Build only cancels it. Otherwise it collects the
     * checked items, builds the command list and starts it, or starts nothing when the
     * list is empty.
     */
    method OnEditBuild(widgets: BuildOptions, topLevel: seq<Item>) returns (press: BuildPress)
      requires forall i :: 0 <= i < |topLevel| ==> !topLevel[i].checked
      modifies this`buildThread, this`buildButton, this`output, this`runningBuilds
      modifies if buildThread == null then {} else {buildThread}
      ensures old(Valid()) ==> Valid()
      ensures old(buildThread) != null ==>
        press == CancelledRunning && buildThread == old(buildThread) && buildThread.cancel
        && buildThread.success == old(buildThread.success)
        && buildButton == old(buildButton) && output == old(output) && runningBuilds == old(runningBuilds)
      ensures old(buildThread) == null ==>
        press != CancelledRunning
        && (press == NothingToDo <==> BuildList(Options(widgets), topLevel) == [])
        && (press == NothingToDo ==> buildThread == null && output == old(output) && runningBuilds == old(runningBuilds))
        && (press == Started ==>
              fresh(buildThread) && buildThread.commands == BuildList(Options(widgets), topLevel)
              && buildThread.ignoreErrors == ignoreErrors && runningBuilds == old(runningBuilds) + {buildThread}
              && buildButton == "Cancel" && output == [])
    {
      if buildThread != null {
        buildThread.Cancel();
        return CancelledRunning;
      }
      var o := Options(widgets);
      var items := CheckedItems(topLevel);
      CheckedItemsParentsKnown(topLevel);
      var commands, updateAdded := CollectBuildCommands(o, items);
      if |commands| == 0 && !updateAdded {
        return NothingToDo;
      }
      StartBuildThread(commands);
      press := Started;
    }

    /**
     * OnRunMapOrMod as written: starts the game for the first selected item, with no
     * check for a build that is already running.
     */
    method OnRunMapOrMod(widgets: BuildOptions, selected: seq<Found>)
      modifies this`buildThread, this`buildButton, this`output, this`runningBuilds
      ensures selected == [] ==>
        buildThread == old(buildThread) && buildButton == old(buildButton) && output == old(output)
        && runningBuilds == old(runningBuilds)
      ensures selected != [] ==>
        fresh(buildThread)
        && buildThread.commands == [CommandOf(widgets, [], RunGame(RunArgs(runDvars, selected[0], widgets.runOptions)))]
        && buildThread.ignoreErrors == ignoreErrors && runningBuilds == old(runningBuilds) + {buildThread}
        && buildButton == "Cancel" && output == []
    {
      if selected == [] {
        return;
      }
      var args := RunArgs(runDvars, selected[0], widgets.runOptions);
      StartBuildThread([CommandOf(widgets, [], RunGame(args))]);
    }

    /** OnRunMapOrMod with the guard UpdateDB has: nothing happens while a build runs. */
    method OnRunMapOrModGuarded(widgets: BuildOptions, selected: seq<Found>)
      modifies this`buildThread, this`buildButton, this`output, this`runningBuilds
      ensures old(Valid()) ==> Valid()
      ensures old(buildThread) != null || selected == [] ==>
        buildThread == old(buildThread) && buildButton == old(buildButton) && output == old(output)
        && runningBuilds == old(runningBuilds)
      ensures old(buildThread) == null && selected != [] ==>
        fresh(buildThread)
        && buildThread.commands == [CommandOf(widgets, [], RunGame(RunArgs(runDvars, selected[0], widgets.runOptions)))]
        && runningBuilds == old(runningBuilds) + {buildThread}
    {
      if buildThread != null {
        return;
      }
      OnRunMapOrMod(widgets, selected);
    }

    /** StartConvertThread: a fresh conversion runner that always ignores errors; nothing is checked first. */
    method StartConvertThread(paths: seq<string>, outputDir: string, allowOverwrite: bool)
      modifies this`convertThread, this`runningConversions
      ensures fresh(convertThread) && convertThread.files == paths && convertThread.outputDir == outputDir
      ensures convertThread.ignoreErrors && convertThread.overwrite == allowOverwrite
      ensures runningConversions == old(runningConversions) + {convertThread}
    {
      convertThread := new ConvertRunner.ConvertThread(paths, outputDir, true, allowOverwrite);
      runningConversions := runningConversions + {convertThread};
    }

    /** BuildOutputReady: appends a runner's output to the output widget. */
    method BuildOutputReady(text: string)
      modifies this`output
      ensures output == old(output) + [text]
    {
      output := output + [text];
    }

    /**
     * The BuildFinished slot: resets the button, hands mBuildThread to deleteLater
     * and forgets it. With no build held, deleteLater is called through null.
     */
    method BuildFinished()
      modifies this`buildThread, this`buildButton, this`deletedBuilds, this`deletedNull
      ensures buildThread == null && buildButton == "Build"
      ensures deletedBuilds == old(deletedBuilds) + (if old(buildThread) == null then {} else {old(buildThread)})
      ensures deletedNull == (old(deletedNull) || old(buildThread) == null)
    {
      buildButton := "Build";
      if buildThread == null {
        deletedNull := true;
      } else {
        deletedBuilds := deletedBuilds + {buildThread};
      }
      buildThread := null;
    }

    /** A build runner's finished() signal, wired to BuildFinished. */
    method BuildThreadFinished(t: BuildRunner.BuildThread)
      requires t in runningBuilds
      modifies this`buildThread, this`buildButton, this`runningBuilds, this`deletedBuilds, this`deletedNull
      ensures old(Valid()) ==> Valid() && runningBuilds == {} && deletedBuilds == old(deletedBuilds) + {t}
      ensures runningBuilds == old(runningBuilds) - {t} && buildThread == null
    {
      runningBuilds := runningBuilds - {t};
      BuildFinished();
    }

    /** A conversion runner's finished() signal as wired: to BuildFinished too. */
    method ConvertThreadFinished(t: ConvertRunner.ConvertThread)
      requires t in runningConversions
      modifies this`buildThread, this`buildButton, this`runningConversions, this`deletedBuilds, this`deletedNull
      ensures runningConversions == old(runningConversions) - {t}
      ensures buildThread == null && buildButton == "Build"
      ensures deletedBuilds == old(deletedBuilds) + (if old(buildThread) == null then {} else {old(buildThread)})
      ensures deletedNull == (old(deletedNull) || old(buildThread) == null)
    {
      runningConversions := runningConversions - {t};
      BuildFinished();
    }

    /** A conversion runner's finished() signal with a slot of its own: the build handle is left alone. */
    method ConvertThreadFinishedFixed(t: ConvertRunner.ConvertThread)
      requires t in runningConversions
      modifies this`convertThread, this`runningConversions
      ensures old(Valid()) ==> Valid()
      ensures runningConversions == old(runningConversions) - {t}
      ensures convertThread == (if old(convertThread) == t then null else old(convertThread))
    {
      runningConversions := runningConversions - {t};
      if convertThread == t {
        convertThread := null;
      }
    }

    /** OnEditDvars after the dialog is accepted: rebuilds mRunDvars from the dvar rows. */
    method OnEditDvars(settings: SettingsStore, rows: seq<Row>)
      requires RowsFit(Table, rows)
      modifies this`runDvars, settings
      ensures runDvars == RunDvarsUpTo(Table, rows, Visited(Table, rows))
      ensures settings.values == StoreUpTo(old(settings.values), Table, rows, Visited(Table, rows))
    {
      runDvars := RunDvarArguments(settings, Table, rows);
    }
  }

  // ---------------------------------------------------------------------
  // Runner flags

  /** Cancel twice leaves a build runner as one Cancel does: cancel set, success untouched. */
  method CancelBuildTwice(t: BuildRunner.BuildThread)
    modifies t`cancel
    ensures t.cancel && t.success == old(t.success)
  {
    t.Cancel();
    t.Cancel();
  }

  /** The same for a conversion runner. */
  method CancelConversionTwice(t: ConvertRunner.ConvertThread)
    modifies t`cancel
    ensures t.cancel && t.success == old(t.success)
  {
    t.Cancel();
    t.Cancel();
  }

  // ---------------------------------------------------------------------
  // Two runs of the window that lose track of a build

  /**
   * Update DB, then Run while it is still running: two builds run, the window only
   * holds the second, so the Build button can no longer cancel the first.
   */
  method RunWhileBuilding(widgets: BuildOptions, selected: seq<Found>)
    returns (w: Window, first: BuildRunner.BuildThread, second: BuildRunner.BuildThread)
    requires selected != []
    ensures first != second && w.runningBuilds == {first, second} && w.buildThread == second
    ensures !w.Valid()
  {
    w := new Window(false);
    w.UpdateDB(widgets);
    first := w.buildThread;
    w.OnRunMapOrMod(widgets, selected);
    second := w.buildThread;
  }

  /** With the guard, Run during the build changes nothing and the window keeps its one build. */
  method RunWhileBuildingGuarded(widgets: BuildOptions, selected: seq<Found>)
    returns (w: Window, first: BuildRunner.BuildThread)
    requires selected != []
    ensures w.runningBuilds == {first} && w.buildThread == first && w.Valid()
  {
    w := new Window(false);
    w.UpdateDB(widgets);
    first := w.buildThread;
    w.OnRunMapOrModGuarded(widgets, selected);
  }

  /**
   * Update DB, then a conversion that finishes first: BuildFinished resets the button,
   * forgets the build, and hands it to deleteLater while it still runs. Qt 5 treats
   * destroying a running QThread as a fatal error.
   */
  method ConversionEndsDuringBuild(widgets: BuildOptions, files: seq<string>, outputDir: string)
    returns (w: Window, first: BuildRunner.BuildThread)
    ensures first in w.runningBuilds && first in w.deletedBuilds
    ensures w.buildThread == null && w.buildButton == "Build" && !w.Valid()
  {
    w := new Window(false);
    w.UpdateDB(widgets);
    first := w.buildThread;
    w.StartConvertThread(files, outputDir, false);
    var conversion := w.convertThread;
    w.ConvertThreadFinished(conversion);
  }

  /** A conversion that finishes with no build running: BuildFinished calls deleteLater through null. */
  method ConversionEndsWithNoBuild(files: seq<string>, outputDir: string) returns (w: Window)
    ensures w.deletedNull && !w.Valid()
  {
    w := new Window(false);
    w.StartConvertThread(files, outputDir, false);
    var conversion := w.convertThread;
    w.ConvertThreadFinished(conversion);
  }

  /** With the conversion's own finished slot, a conversion alone leaves the window valid. */
  method ConversionEndsWithNoBuildFixed(files: seq<string>, outputDir: string) returns (w: Window)
    ensures w.Valid() && w.buildThread == null && !w.deletedNull
  {
    w := new Window(false);
    w.StartConvertThread(files, outputDir, false);
    var conversion := w.convertThread;
    w.ConvertThreadFinishedFixed(conversion);
  }

  /**
   * With the conversion's own finished slot, the same sequence keeps the window's
   * single build, deletes nothing, and a Build press then cancels that build.
   */
  method ConversionEndsDuringBuildFixed(widgets: BuildOptions, files: seq<string>, outputDir: string, topLevel: seq<Item>)
    returns (w: Window, first: BuildRunner.BuildThread, press: BuildPress)
    requires forall i :: 0 <= i < |topLevel| ==> !topLevel[i].checked
    ensures w.Valid() && w.runningBuilds == {first} && w.buildThread == first && first !in w.deletedBuilds
    ensures press == CancelledRunning && first.cancel
  {
    w := new Window(false);
    w.UpdateDB(widgets);
    first := w.buildThread;
    w.StartConvertThread(files, outputDir, false);
    var conversion := w.convertThread;
    w.ConvertThreadFinishedFixed(conversion);
    press := w.OnEditBuild(widgets, topLevel);
  }
}
