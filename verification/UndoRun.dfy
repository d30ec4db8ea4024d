/** The whole undo script, from the text the installer wrote to the restored
    file system. */
module UndoRun {
  import opened Seqs
  import opened Text
  import opened Files
  import opened Dos
  import opened Undo
  import opened Keys
  import opened Restore

  // ----------------------------------------------- frames of the tail

  lemma UgLeaves(k: string)
    requires Unrelated(BACKUP_UG_KEY, k) && Unrelated(LIVE_UG_KEY, k)
    ensures LeavesItem(UG_ITEM, k)
  {
    hide Norm, Unrelated;
    UgKeys();
    RestoreLeaves(BACKUP_UG, LIVE_UG, BK + "/Libs", k);
  }

  lemma OwnDropLeaves(path: string, key: string, k: string)
    requires Norm(path) == key && |key| > 4 && |k| > 4 && key[4] != k[4]
    ensures LeavesItem(Drop(path), k)
  {
    AreasApart(key, k);
    DropLeaves(path, false, k);
  }

  lemma OwnEachLeaves(k: string)
    requires |k| > 4 && k[4] != 'p' && k[4] != 'd'
    ensures forall i :: 0 <= i < |OWN_FILES| ==> LeavesItem(OWN_FILES[i], k)
  {
    hide Norm, LeavesItem;
    OwnKeys();
    ConfigKey();
    OwnDropLeaves("SYS:Prefs/TolunnetPrefs", "sys:prefs/tolunnetprefs", k);
    OwnDropLeaves("SYS:Prefs/TolunnetPrefs.info", "sys:prefs/tolunnetprefs.info", k);
    OwnDropLeaves("SYS:Prefs/TolunnetSetup", "sys:prefs/tolunnetsetup", k);
    OwnDropLeaves("SYS:Prefs/TolunnetSetup.info", "sys:prefs/tolunnetsetup.info", k);
    OwnDropLeaves("DEVS:tolunnet.config", "sys:devs/" + "tolunnet.config", k);
  }

  lemma {:induction false} LeavesEach(b: Block, k: string)
    requires forall i :: 0 <= i < |b| ==> LeavesItem(b[i], k)
    ensures Leaves(b, k)
  {
    hide LeavesItem;
    if b != [] { LeavesEach(b[1..], k); }
  }

  lemma OwnLeaves(k: string)
    requires |k| > 4 && k[4] != 'p' && k[4] != 'd'
    ensures Leaves(OWN_FILES, k)
  {
    OwnEachLeaves(k);
    LeavesEach(OWN_FILES, k);
  }

  lemma StartupLeaves(k: string)
    requires Unrelated(US_KEY, k) && Unrelated(US_BAK_KEY, k) && Unrelated(US_OLD_KEY, k)
    ensures LeavesItem(STARTUP_ITEM, k)
  {
    hide Norm, Unrelated;
    SKeys();
    NoteLeaves(STARTUP_NOTE, k);
    DropLeaves(US_OLD, false, k);
    LeavesTwo(Drop(US_OLD), Rename(US_BAK, US_OLD), k);
    LeavesAppend([Echo(STARTUP_NOTE)], [Drop(US_OLD), Rename(US_BAK, US_OLD)], k);
    assert LIVE_STARTUP_ITEM.thn == [Echo(STARTUP_NOTE)] + [Drop(US_OLD), Rename(US_BAK, US_OLD)];
    LeavesOne(Rename(US_BAK, US), k);
    LeavesOne(LIVE_STARTUP_ITEM, k);
  }

  lemma LibLeaves(k: string)
    requires Unrelated(LIB_KEY, k) && Unrelated(PARKED_KEY, k) && Unrelated(NEWER_KEY, k)
    ensures LeavesItem(LIB_ITEM, k)
  {
    hide Norm, Unrelated;
    LibKeys();
    LeavesOne(Rename(NEWER, LIB), k);
    LeavesOne(Rename(PARKED, LIB), k);
    LeavesOne(When(PARKED, [Rename(PARKED, LIB)]), k);
    LeavesOne(PARKED_ITEM, k);
  }

  lemma NotesLeave(k: string)
    ensures Leaves(LIB_NOTES, k)
  {
    NoteLeaves(KeptNote(PARKED).thn[0].text, k);
    NoteLeaves(KeptNote(NEWER).thn[0].text, k);
    LeavesTwo(KeptNote(PARKED), KeptNote(NEWER), k);
  }

  lemma MarkersLeave(k: string)
    requires Unrelated(NEW_DIR_KEY, k) && Unrelated(OURS_DIR_KEY, k)
    ensures Leaves(MARKER_ITEMS, k)
  {
    hide Norm, Unrelated;
    DirKeys();
    DropLeaves(BK + "/new", true, k);
    DropLeaves(BK + "/ours", true, k);
    LeavesTwo(Drop(BK + "/new", true), Drop(BK + "/ours", true), k);
  }

  lemma DirsLeave(k: string)
    requires Unrelated(C_DIR_KEY, k) && Unrelated(LIBS_DIR_KEY, k) && Unrelated(BACKUP_KEY, k)
    ensures Leaves(DIR_ITEMS, k)
  {
    hide Norm, Unrelated;
    DirKeys();
    var a, b, c, d := Drop(BK + "/C"), Drop(BK + "/Libs"), Drop(BK), When(BK, [Echo(LEFT_NOTE)]);
    DropLeaves(BK + "/C", false, k);
    DropLeaves(BK + "/Libs", false, k);
    DropLeaves(BK, false, k);
    NoteLeaves(LEFT_NOTE, k);
    LeavesTwo(a, b, k);
    LeavesTwo(c, d, k);
    LeavesAppend([a, b], [c, d], k);
    assert DIR_ITEMS == [a, b] + [c, d];
  }

  // ------------------------------------------------ the tail is steady

  lemma OwnSteady()
    ensures Steady(OWN_FILES)
  {
    var a, b, c, d, e := OWN_FILES[0], OWN_FILES[1], OWN_FILES[2], OWN_FILES[3], OWN_FILES[4];
    DropSteady("SYS:Prefs/TolunnetPrefs", false); DropSteady("SYS:Prefs/TolunnetPrefs.info", false);
    DropSteady("SYS:Prefs/TolunnetSetup", false); DropSteady("SYS:Prefs/TolunnetSetup.info", false);
    DropSteady("DEVS:tolunnet.config", false);
    SteadyTwo(a, b);
    SteadyTwo(c, d);
    SteadyOne(e);
    SteadyAppend([a, b], [c, d]);
    SteadyAppend([a, b] + [c, d], [e]);
    assert OWN_FILES == [a, b] + [c, d] + [e];
  }

  lemma StartupSteady()
    ensures SteadyItem(STARTUP_ITEM)
  {
    NoteLeaves(STARTUP_NOTE, "");
    DropSteady(US_OLD, false);
    SteadyTwo(Drop(US_OLD), Rename(US_BAK, US_OLD));
    SteadyAppend([Echo(STARTUP_NOTE)], [Drop(US_OLD), Rename(US_BAK, US_OLD)]);
    assert LIVE_STARTUP_ITEM.thn == [Echo(STARTUP_NOTE)] + [Drop(US_OLD), Rename(US_BAK, US_OLD)];
    SteadyOne(Rename(US_BAK, US));
    SteadyOne(LIVE_STARTUP_ITEM);
  }

  lemma LibSteady()
    ensures SteadyItem(LIB_ITEM) && Steady(LIB_NOTES)
  {
    SteadyOne(Rename(NEWER, LIB));
    SteadyOne(Rename(PARKED, LIB));
    SteadyOne(When(PARKED, [Rename(PARKED, LIB)]));
    SteadyOne(PARKED_ITEM);
    NoteLeaves(KeptNote(PARKED).thn[0].text, "");
    NoteLeaves(KeptNote(NEWER).thn[0].text, "");
    SteadyTwo(KeptNote(PARKED), KeptNote(NEWER));
  }

  lemma DirsSteady()
    ensures Steady(MARKER_ITEMS) && Steady(DIR_ITEMS)
  {
    DropSteady(BK + "/new", true);
    DropSteady(BK + "/ours", true);
    SteadyTwo(Drop(BK + "/new", true), Drop(BK + "/ours", true));
    var a, b, c, d := Drop(BK + "/C"), Drop(BK + "/Libs"), Drop(BK), When(BK, [Echo(LEFT_NOTE)]);
    DropSteady(BK + "/C", false);
    DropSteady(BK + "/Libs", false);
    DropSteady(BK, false);
    NoteLeaves(LEFT_NOTE, "");
    SteadyTwo(a, b);
    SteadyTwo(c, d);
    SteadyAppend([a, b], [c, d]);
    assert DIR_ITEMS == [a, b] + [c, d];
  }

  /** The script in the stages the proofs speak of. */
  const BEFORE_LIB: Block := OWN_FILES + [STARTUP_ITEM]
  const AFTER_LIB: Block := LIB_NOTES + MARKER_ITEMS

  lemma StagesSteady()
    ensures SteadyItem(UG_ITEM) && Steady(BEFORE_LIB) && SteadyItem(LIB_ITEM) && Steady(AFTER_LIB)
    ensures Steady(DIR_ITEMS) && SteadyItem(SELF_DELETE)
  {
    RestoreSteady(BACKUP_UG, LIVE_UG, BK + "/Libs");
    OwnSteady(); StartupSteady(); LibSteady(); DirsSteady();
    SteadyOne(STARTUP_ITEM);
    SteadyAppend(OWN_FILES, [STARTUP_ITEM]);
    SteadyAppend(LIB_NOTES, MARKER_ITEMS);
  }

  /** The states between the stages of one run of the undo. */
  datatype Stages = Stages(start: State, named: State, ug: State, mid: State, lib: State, noted: State, end: State)

  ghost function RunStages(names: seq<string>, s: State): Stages {
    var named := ExecBlock(NameItems(names), s, 0);
    var ug := ExecItem(UG_ITEM, named, 0);
    var mid := ExecBlock(BEFORE_LIB, ug, 0);
    var lib := ExecItem(LIB_ITEM, mid, 0);
    var noted := ExecBlock(AFTER_LIB, lib, 0);
    var dirs := ExecBlock(DIR_ITEMS, noted, 0);
    Stages(s, named, ug, mid, lib, noted, dirs)
  }

  /** Every stage runs with the fail level at 21: nothing aborts. */
  lemma StagesGo(names: seq<string>, s: State)
    requires s.halt == Go && s.failat > FAIL
    ensures var r := RunStages(names, s);
            forall t :: t in [r.named, r.ug, r.mid, r.lib, r.noted, r.end] ==>
              t.halt == Go && t.failat == s.failat && t.ro == s.ro
  {
    hide UG_ITEM, LIB_ITEM, BEFORE_LIB, AFTER_LIB, DIR_ITEMS, ExecBlock, ExecItem;
    StagesSteady();
    NamesSteady(names);
    var r := RunStages(names, s);
    SteadyExec(NameItems(names), s, 0);
    SteadyExecItem(UG_ITEM, r.named, 0);
    SteadyExec(BEFORE_LIB, r.ug, 0);
    SteadyExecItem(LIB_ITEM, r.mid, 0);
    SteadyExec(AFTER_LIB, r.lib, 0);
    SteadyExec(DIR_ITEMS, r.noted, 0);
  }

  // ------------------------------------------------- from text to stages

  /** Running the undo script that the installer wrote for `names`. */
  function RunUndo(names: seq<string>, m: Tree, ro: set<string>): State
    requires ValidNames(names)
  {
    RunDos(UndoLines(names) + [""], m, ro, [], 0)
  }

  function AfterHead(m: Tree, ro: set<string>): State {
    State(m, ro, 0, 21, Go, [Tested(STACKS, false)])
  }

  lemma HeadExec(m: Tree, ro: set<string>)
    requires Kind(m, STACKS_KEY) == ABSENT
    ensures ExecBlock([FailAt(21), STACKS_ITEM], State(m, ro, 0, 10, Go, []), 0) == AfterHead(m, ro)
  {
    hide Norm, Kind;
    SKeys();
    ExecTwo(FailAt(21), STACKS_ITEM, State(m, ro, 0, 10, Go, []), 0);
  }

  lemma TailExec(s: State)
    requires s.halt == Go && s.failat > FAIL
    ensures var ug := ExecItem(UG_ITEM, s, 0);
            var lib := ExecItem(LIB_ITEM, ExecBlock(BEFORE_LIB, ug, 0), 0);
            ExecBlock(TAIL, s, 0) == ExecBlock(DIR_ITEMS, ExecBlock(AFTER_LIB, lib, 0), 0)
  {
    hide ExecItem, UG_ITEM, LIB_ITEM, STARTUP_ITEM, OWN_FILES, LIB_NOTES, MARKER_ITEMS, DIR_ITEMS;
    StagesSteady();
    var rest1 := BEFORE_LIB + ([LIB_ITEM] + (AFTER_LIB + DIR_ITEMS));
    assert TAIL == [UG_ITEM] + rest1;
    ExecAppend([UG_ITEM], rest1, s, 0);
    ExecOne(UG_ITEM, s, 0);
    SteadyExecItem(UG_ITEM, s, 0);
    var s1 := ExecItem(UG_ITEM, s, 0);
    ExecAppend(BEFORE_LIB, [LIB_ITEM] + (AFTER_LIB + DIR_ITEMS), s1, 0);
    SteadyExec(BEFORE_LIB, s1, 0);
    var s2 := ExecBlock(BEFORE_LIB, s1, 0);
    ExecAppend([LIB_ITEM], AFTER_LIB + DIR_ITEMS, s2, 0);
    ExecOne(LIB_ITEM, s2, 0);
    ExecAppend(AFTER_LIB, DIR_ITEMS, ExecItem(LIB_ITEM, s2, 0), 0);
  }

  /** Everything after the wizard's part runs as its stages. */
  lemma RestIsStages(names: seq<string>, s: State)
    requires s.halt == Go && s.failat > FAIL
    ensures ExecBlock(NameItems(names) + TAIL + [SELF_DELETE], s, 0)
            == ExecItem(SELF_DELETE, RunStages(names, s).end, 0)
    ensures RunStages(names, s).end.halt == Go && RunStages(names, s).end.failat > FAIL
  {
    hide TAIL, UG_ITEM, LIB_ITEM, BEFORE_LIB, AFTER_LIB, DIR_ITEMS, ExecItem, NameItems;
    ExecAppend(NameItems(names), TAIL, s, 0);
    ExecAppend(NameItems(names) + TAIL, [SELF_DELETE], s, 0);
    var r := RunStages(names, s);
    StagesGo(names, s);
    assert r.named in [r.named, r.ug, r.mid, r.lib, r.noted, r.end];
    assert r.end in [r.named, r.ug, r.mid, r.lib, r.noted, r.end];
    TailExec(r.named);
    ExecOne(SELF_DELETE, r.end, 0);
  }

  /** The undo is the wizard's part and then the rest. */
  lemma UndoIsHeadAndRest(names: seq<string>, m: Tree, ro: set<string>)
    requires ValidNames(names)
    ensures var s1 := ExecBlock([FailAt(21), STACKS_ITEM], State(m, ro, 0, 10, Go, []), 0);
            RunUndo(names, m, ro) == ExecBlock(NameItems(names) + TAIL + [SELF_DELETE], s1, 0)
  {
    hide TAIL, STACKS_ITEM, ExecBlock, UndoLines, NameItems;
    UndoParses(names);
    var head: Block := [FailAt(21), STACKS_ITEM];
    assert UndoTree(names) == head + (NameItems(names) + TAIL + [SELF_DELETE]);
    ExecAppend(head, NameItems(names) + TAIL + [SELF_DELETE], State(m, ro, 0, 10, Go, []), 0);
  }

  /** With no wizard script the undo is its stages and the final self-delete. */
  lemma UndoIsStages(names: seq<string>, m: Tree, ro: set<string>)
    requires ValidNames(names) && Kind(m, STACKS_KEY) == ABSENT
    ensures RunUndo(names, m, ro) == ExecItem(SELF_DELETE, RunStages(names, AfterHead(m, ro)).end, 0)
  {
    hide TAIL, STACKS_ITEM, ExecItem, ExecBlock, Kind, RunUndo, RunStages;
    UndoIsHeadAndRest(names, m, ro);
    HeadExec(m, ro);
    RestIsStages(names, AfterHead(m, ro));
  }

  // ------------------------------------------------- the undo never aborts

  /** Every script, whatever it executes, ends with code 0 or 20. */
  lemma {:induction false} CodeBound(b: Block, s: State, depth: nat)
    requires depth <= MAX_DEPTH && (s.rc == 0 || s.rc == FAIL)
    ensures var r := ExecBlock(b, s, depth); r.rc == 0 || r.rc == FAIL
    decreases MAX_DEPTH - depth, b, 0
  {
    hide Norm, Kind, Writable, SplitLines, Parse;
    if b != [] && s.halt == Go {
      CodeBoundItem(b[0], s, depth);
      CodeBound(b[1..], ExecItem(b[0], s, depth), depth);
    }
  }

  lemma {:induction false} CodeBoundItem(it: Item, s: State, depth: nat)
    requires depth <= MAX_DEPTH && (s.rc == 0 || s.rc == FAIL)
    ensures var r := ExecItem(it, s, depth); r.rc == 0 || r.rc == FAIL
    decreases MAX_DEPTH - depth, it, 1
  {
    hide Norm, Writable, SplitLines, Parse;
    match it {
      case If(neg, test, thn, els) => CodeBound(if Holds(s, test) != neg then thn else els, Observe(s, test), depth);
      case Execute(script) =>
        if Kind(s.m, Norm(script)) == FILE && depth <= 4 {
          var tree := Parse(SplitLines(s.m[Norm(script)].data));
          if tree.Some? { CodeBound(tree.value, State(s.m, s.ro, 0, 10, Go, s.trace), depth + 1); }
        }
      case _ =>
    }
  }

  /** The wizard's script is there, and it, or a script it executes, cannot be
      parsed. */
  predicate WizardCrashes(m: Tree, ro: set<string>) {
    Kind(m, STACKS_KEY) == FILE
      && RunDos(SplitLines(m[STACKS_KEY].data), m, ro, [Tested(STACKS, true)], 1).halt == Crashed
  }

  /** The state in which the wizard's script is executed, if there is one. */
  function Tried(m: Tree, ro: set<string>): State {
    State(m, ro, 0, 21, Go, [Tested(STACKS, Kind(m, STACKS_KEY) != ABSENT)])
  }

  lemma HeadIs(m: Tree, ro: set<string>)
    ensures ExecBlock([FailAt(21), STACKS_ITEM], State(m, ro, 0, 10, Go, []), 0)
            == if Kind(m, STACKS_KEY) == ABSENT then Tried(m, ro) else ExecBlock([Execute(STACKS), Drop(STACKS)],
                Tried(m, ro), 0)
  {
    hide Norm, Kind, Drop;
    SKeys();
    ExecTwo(FailAt(21), STACKS_ITEM, State(m, ro, 0, 10, Go, []), 0);
    var s1 := State(m, ro, 0, 21, Go, []);
    assert ExecItem(FailAt(21), State(m, ro, 0, 10, Go, []), 0) == s1;
    assert Observe(s1, Exists(STACKS)) == Tried(m, ro);
  }

  lemma WizardRuns(m: Tree, ro: set<string>)
    requires Kind(m, STACKS_KEY) != ABSENT
    ensures var r := ExecItem(Execute(STACKS), Tried(m, ro), 0);
            r.failat == 21 && r.halt == if WizardCrashes(m, ro) then Crashed else Go
  {
    hide Norm, SplitLines, Parse, ExecBlock;
    SKeys();
    var s := Tried(m, ro);
    if Kind(m, STACKS_KEY) == FILE {
      var tree := Parse(SplitLines(m[STACKS_KEY].data));
      if tree.Some? { CodeBound(tree.value, State(m, ro, 0, 10, Go, s.trace), 1); }
    }
  }

  lemma WizardPart(m: Tree, ro: set<string>)
    ensures var r := ExecBlock([FailAt(21), STACKS_ITEM], State(m, ro, 0, 10, Go, []), 0);
            r.halt == (if WizardCrashes(m, ro) then Crashed else Go) && (r.halt == Go ==> r.failat == 21)
  {
    hide Norm, Kind, ExecBlock, ExecItem, Drop;
    HeadIs(m, ro);
    if Kind(m, STACKS_KEY) != ABSENT {
      var x, d := Execute(STACKS), Drop(STACKS);
      WizardRuns(m, ro);
      ExecPair(x, d, Tried(m, ro));
      var mid := ExecItem(x, Tried(m, ro), 0);
      DropSteady(STACKS, false);
      if mid.halt == Go { SteadyExecItem(d, mid, 0); }
    }
  }

  lemma ExecPair(a: Item, b: Item, s: State)
    requires s.halt == Go
    ensures var mid := ExecItem(a, s, 0); ExecBlock([a, b], s, 0) == if mid.halt == Go then ExecItem(b, mid, 0) else mid
  {
    hide ExecItem;
    var mid := ExecItem(a, s, 0);
    assert [a, b][1..] == [b];
    assert ExecBlock([a, b], s, 0) == ExecBlock([b], mid, 0);
    if mid.halt == Go { ExecOne(b, mid, 0); }
  }

  /** The undo never aborts, whatever is write-protected and whatever the wizard
      left: every failing command ends with code 20, below the fail level 21. It
      runs to its end unless the wizard's script cannot be parsed. */
  lemma UndoCompletes(names: seq<string>, m: Tree, ro: set<string>)
    requires ValidNames(names)
    ensures RunUndo(names, m, ro).halt == if WizardCrashes(m, ro) then Crashed else Go
  {
    hide RunUndo, Kind, ExecBlock, ExecItem, NameItems, TAIL, STACKS_ITEM, RunStages;
    UndoIsHeadAndRest(names, m, ro);
    WizardPart(m, ro);
    var s := ExecBlock([FailAt(21), STACKS_ITEM], State(m, ro, 0, 10, Go, []), 0);
    if WizardCrashes(m, ro) {
      StoppedBlock(NameItems(names) + TAIL + [SELF_DELETE], s);
    } else {
      RestIsStages(names, s);
      SteadyExecItem(SELF_DELETE, RunStages(names, s).end, 0);
    }
  }

  lemma StoppedBlock(b: Block, s: State)
    requires s.halt != Go
    ensures ExecBlock(b, s, 0) == s
  {
  }

  // -------------------------------------------------- the command files

  lemma {:induction false} NamesUndo(names: seq<string>, n: string, orig: Option<string>, s: State)
    requires ValidNames(names) && n in names
    requires s.halt == Go && s.failat > FAIL && Safe(s.m, n, orig)
    ensures var r := ExecBlock(NameItems(names), s, 0);
            && Plain(r.m, LiveKey(n)) && Plain(r.m, BackupKey(n))
            && (s.ro == {} ==> Content(r.m, LiveKey(n)) == orig && Content(r.m, BackupKey(n)).None?)
            && (orig.Some? ==> Content(r.m, LiveKey(n)) == orig || Content(r.m, BackupKey(n)) == orig)
  {
    hide Norm, Kind, ExecItem, NameItem, Plain, LiveKey, BackupKey, NewKey, Children, Lower, Leaves, LeavesItem;
    var rest := names[1..];
    var mid := ExecItem(NameItem(names[0]), s, 0);
    assert NameItems(names)[1..] == NameItems(rest);
    NameSteady(names[0]);
    SteadyExecItem(NameItem(names[0]), s, 0);
    if names[0] == n {
      NameUndo(n, orig, s, 0);
      OthersLeave(n, LiveKey(n), rest);
      OthersLeave(n, BackupKey(n), rest);
      LeavesExec(NameItems(rest), mid, 0, LiveKey(n));
      LeavesExec(NameItems(rest), mid, 0, BackupKey(n));
      var r := ExecBlock(NameItems(rest), mid, 0);
      AgreePlain(mid.m, r.m, LiveKey(n));
      AgreePlain(mid.m, r.m, BackupKey(n));
    } else {
      var i :| 0 <= i < |names| && names[i] == n;
      assert Lower(names[0]) != Lower(names[i]);
      FirstKeepsSafe(names[0], n, orig, s);
      assert forall j :: 0 <= j < |rest| ==> rest[j] == names[j + 1];
      assert rest[i - 1] == n;
      NamesUndo(rest, n, orig, mid);
    }
  }

  lemma FirstKeepsSafe(m: string, n: string, orig: Option<string>, s: State)
    requires ValidName(m) && ValidName(n) && Lower(m) != Lower(n)
    requires s.halt == Go && Safe(s.m, n, orig)
    ensures Safe(ExecItem(NameItem(m), s, 0).m, n, orig)
  {
    hide Norm, Kind, ExecItem, NameItem, Plain, LiveKey, BackupKey, NewKey, Children, Lower, LeavesItem;
    var r := ExecItem(NameItem(m), s, 0);
    NameUnrelatedTo(m, n);
    NameLeaves(m, LiveKey(n)); NameLeaves(m, BackupKey(n)); NameLeaves(m, NewKey(n));
    LeavesExecItem(NameItem(m), s, 0, LiveKey(n));
    LeavesExecItem(NameItem(m), s, 0, BackupKey(n));
    LeavesExecItem(NameItem(m), s, 0, NewKey(n));
    AgreePlain(s.m, r.m, LiveKey(n));
    AgreePlain(s.m, r.m, BackupKey(n));
    AgreePlain(s.m, r.m, NewKey(n));
  }

  lemma NameUnrelatedTo(m: string, n: string)
    requires ValidName(m) && ValidName(n) && Lower(m) != Lower(n)
    ensures Unrelated(LiveKey(m), LiveKey(n)) && Unrelated(BackupKey(m), LiveKey(n))
    ensures Unrelated(LiveKey(m), BackupKey(n)) && Unrelated(BackupKey(m), BackupKey(n))
    ensures Unrelated(LiveKey(m), NewKey(n)) && Unrelated(BackupKey(m), NewKey(n))
  {
    hide LiveKey, BackupKey, NewKey, Unrelated;
    NameShape(m); NameShape(n); OtherName(m, n);
    AreasApart(BackupKey(m), LiveKey(n));
    AreasApart(LiveKey(m), BackupKey(n));
    AreasApart(LiveKey(m), NewKey(n));
    PartsApart(BackupKey(m), NewKey(n));
  }

  /** Nothing after the command files touches a key of the SYS:C area. */
  lemma TailLeavesC(k: string)
    requires |k| > 4 && k[4] == 'c'
    ensures LeavesItem(UG_ITEM, k) && Leaves(BEFORE_LIB, k) && LeavesItem(LIB_ITEM, k)
    ensures Leaves(AFTER_LIB, k) && Leaves(DIR_ITEMS, k) && LeavesItem(SELF_DELETE, k)
  {
    hide *;
    BackupShape(); LibsShape(); StartupShape();
    AreasApart(BACKUP_UG_KEY, k); AreasApart(LIVE_UG_KEY, k);
    UgLeaves(k);
    AreasApart(US_KEY, k); AreasApart(US_BAK_KEY, k); AreasApart(US_OLD_KEY, k);
    StartupLeaves(k);
    OwnLeaves(k);
    BeforeLibLeaves(k);
    AreasApart(LIB_KEY, k); AreasApart(PARKED_KEY, k); AreasApart(NEWER_KEY, k);
    LibLeaves(k);
    NotesLeave(k);
    AreasApart(NEW_DIR_KEY, k); AreasApart(OURS_DIR_KEY, k);
    MarkersLeave(k);
    AfterLibLeaves(k);
    AreasApart(C_DIR_KEY, k); AreasApart(LIBS_DIR_KEY, k); AreasApart(BACKUP_KEY, k);
    DirsLeave(k);
    AreasApart(UNDO_KEY, k);
    SelfLeaves(k);
  }

  lemma BeforeLibLeaves(k: string)
    requires Leaves(OWN_FILES, k) && LeavesItem(STARTUP_ITEM, k)
    ensures Leaves(BEFORE_LIB, k)
  {
    hide Leaves, LeavesItem;
    LeavesOne(STARTUP_ITEM, k);
    LeavesAppend(OWN_FILES, [STARTUP_ITEM], k);
  }

  lemma AfterLibLeaves(k: string)
    requires Leaves(LIB_NOTES, k) && Leaves(MARKER_ITEMS, k)
    ensures Leaves(AFTER_LIB, k)
  {
    hide Leaves, LeavesItem;
    LeavesAppend(LIB_NOTES, MARKER_ITEMS, k);
  }

  lemma SelfLeaves(k: string)
    requires Unrelated(UNDO_KEY, k)
    ensures LeavesItem(SELF_DELETE, k)
  {
    hide Norm, Unrelated;
    SKeys();
  }

  lemma BackupShape()
    ensures |BACKUP_KEY| == 27 && BACKUP_KEY[4] == 's' && BACKUP_KEY[5] == 't'
    ensures |C_DIR_KEY| > 28 && C_DIR_KEY[4] == 's' && C_DIR_KEY[28] == 'c'
    ensures |LIBS_DIR_KEY| > 28 && LIBS_DIR_KEY[4] == 's' && LIBS_DIR_KEY[28] == 'l'
    ensures |NEW_DIR_KEY| > 28 && NEW_DIR_KEY[4] == 's' && NEW_DIR_KEY[28] == 'n'
    ensures |OURS_DIR_KEY| > 28 && OURS_DIR_KEY[4] == 's' && OURS_DIR_KEY[28] == 'o'
    ensures |BACKUP_UG_KEY| > 28 && BACKUP_UG_KEY[4] == 's' && BACKUP_UG_KEY[5] == 't' && BACKUP_UG_KEY[28] == 'l'
  {
  }

  lemma LibsShape()
    ensures |LIVE_UG_KEY| > 9 && LIVE_UG_KEY[4] == 'l' && LIVE_UG_KEY[9] == 'u'
    ensures |LIB_KEY| > 9 && LIB_KEY[4] == 'l' && LIB_KEY[9] == 'b'
    ensures |PARKED_KEY| > 9 && PARKED_KEY[4] == 'l' && PARKED_KEY[9] == 'b'
    ensures |NEWER_KEY| > 9 && NEWER_KEY[4] == 'l' && NEWER_KEY[9] == 'b'
  {
  }

  lemma StartupShape()
    ensures |US_KEY| > 5 && US_KEY[4] == 's' && US_KEY[5] == '/'
    ensures |US_BAK_KEY| > 5 && US_BAK_KEY[4] == 's' && US_BAK_KEY[5] == '/'
    ensures |US_OLD_KEY| > 5 && US_OLD_KEY[4] == 's' && US_OLD_KEY[5] == '/'
    ensures |UNDO_KEY| > 5 && UNDO_KEY[4] == 's' && UNDO_KEY[5] == '/'
    ensures |STACKS_KEY| > 5 && STACKS_KEY[4] == 's' && STACKS_KEY[5] == '/'
  {
  }

  /** What all stages after the command files leave alone stays as it is. */
  lemma TailKeeps(names: seq<string>, s: State, k: string)
    requires LeavesItem(UG_ITEM, k) && Leaves(BEFORE_LIB, k) && LeavesItem(LIB_ITEM, k) && Leaves(AFTER_LIB, k)
    ensures var r := RunStages(names, s);
            AgreeAt(r.named.m, r.noted.m, k)
    ensures var r := RunStages(names, s);
            Leaves(DIR_ITEMS, k) && LeavesItem(SELF_DELETE, k) ==>
              AgreeAt(r.named.m, ExecItem(SELF_DELETE, r.end, 0).m, k)
  {
    hide UG_ITEM, LIB_ITEM, BEFORE_LIB, AFTER_LIB, DIR_ITEMS, Norm, ExecBlock, ExecItem, Leaves, LeavesItem, AgreeAt;
    var r := RunStages(names, s);
    LeavesExecItem(UG_ITEM, r.named, 0, k);
    LeavesExec(BEFORE_LIB, r.ug, 0, k);
    AgreeTrans(r.named.m, r.ug.m, r.mid.m, k);
    LeavesExecItem(LIB_ITEM, r.mid, 0, k);
    AgreeTrans(r.named.m, r.mid.m, r.lib.m, k);
    LeavesExec(AFTER_LIB, r.lib, 0, k);
    AgreeTrans(r.named.m, r.lib.m, r.noted.m, k);
    if Leaves(DIR_ITEMS, k) && LeavesItem(SELF_DELETE, k) {
      LeavesExec(DIR_ITEMS, r.noted, 0, k);
      AgreeTrans(r.named.m, r.noted.m, r.end.m, k);
      LeavesExecItem(SELF_DELETE, r.end, 0, k);
      AgreeTrans(r.named.m, r.end.m, ExecItem(SELF_DELETE, r.end, 0).m, k);
    }
  }

  /** The undo gives every command file its original content or absence back. */
  lemma UndoRestoresName(names: seq<string>, n: string, orig: Option<string>, m: Tree)
    requires ValidNames(names) && n in names && Kind(m, STACKS_KEY) == ABSENT
    requires Safe(m, n, orig)
    ensures var r := RunUndo(names, m, {}).m; Content(r, LiveKey(n)) == orig && Plain(r, LiveKey(n))
  {
    hide RunUndo, Kind, Safe, Content, LiveKey, Norm, ExecItem, ExecBlock, Plain;
    UndoIsStages(names, m, {});
    var s := AfterHead(m, {});
    NamesUndo(names, n, orig, s);
    NameShape(n);
    TailLeavesC(LiveKey(n));
    TailKeeps(names, s, LiveKey(n));
    AgreePlain(RunStages(names, s).named.m, RunUndo(names, m, {}).m, LiveKey(n));
  }
}
