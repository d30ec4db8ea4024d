/** The undo under write protection keeps every saved original, and the two
    libraries come back. */
module UndoSafety {
  import opened Seqs
  import opened Text
  import opened Files
  import opened Dos
  import opened Undo
  import opened Keys
  import opened Restore
  import opened UndoRun

  // ------------------------------- nothing is created in the backup area

  /** A key outside SYS:Storage. */
  predicate Outside(k: string) {
    |k| > 5 && (k[4] != 's' || k[5] != 't')
  }

  /** Every Copy and Rename of the block writes outside SYS:Storage. */
  predicate WritesOutside(b: Block)
    decreases b, 0
  {
    b == [] || (WritesOutsideItem(b[0]) && WritesOutside(b[1..]))
  }

  predicate WritesOutsideItem(it: Item)
    decreases it, 1
  {
    match it
    case If(_, _, thn, els) => WritesOutside(thn) && WritesOutside(els)
    case Copy(_, dst) => Outside(Norm(dst))
    case Rename(_, dst) => Outside(Norm(dst))
    case Execute(_) => false
    case _ => true
  }

  ghost predicate NothingNew(m: Tree, m': Tree) {
    forall k :: k in m' && !Outside(k) ==> k in m && m'[k] == m[k]
  }

  lemma {:induction false} OutsideExec(b: Block, s: State, d: nat)
    requires d <= MAX_DEPTH && WritesOutside(b)
    ensures NothingNew(s.m, ExecBlock(b, s, d).m)
    decreases b, 0
  {
    hide Norm, Kind, Outside;
    if b != [] && s.halt == Go {
      OutsideExecItem(b[0], s, d);
      OutsideExec(b[1..], ExecItem(b[0], s, d), d);
    }
  }

  lemma {:induction false} OutsideExecItem(it: Item, s: State, d: nat)
    requires d <= MAX_DEPTH && WritesOutsideItem(it)
    ensures NothingNew(s.m, ExecItem(it, s, d).m)
    decreases it, 1
  {
    hide Norm, Outside;
    match it {
      case If(neg, test, thn, els) =>
        OutsideExec(if Holds(s, test) != neg then thn else els, Observe(s, test), d);
      case _ =>
    }
  }

  lemma {:induction false} OutsideEach(b: Block)
    requires forall i :: 0 <= i < |b| ==> WritesOutsideItem(b[i])
    ensures WritesOutside(b)
  {
    hide WritesOutsideItem;
    if b != [] { OutsideEach(b[1..]); }
  }

  lemma OutsideOne(it: Item)
    requires WritesOutsideItem(it)
    ensures WritesOutside([it])
  {
    OutsideEach([it]);
  }

  lemma OutsideTwo(a: Item, b: Item)
    requires WritesOutsideItem(a) && WritesOutsideItem(b)
    ensures WritesOutside([a, b])
  {
    hide WritesOutsideItem;
    OutsideEach([a, b]);
  }

  lemma {:induction false} OutsideAppend(a: Block, b: Block)
    requires WritesOutside(a) && WritesOutside(b)
    ensures WritesOutside(a + b)
    decreases |a|
  {
    if a == [] {
      assert a + b == b;
    } else {
      assert (a + b)[1..] == a[1..] + b;
      OutsideAppend(a[1..], b);
    }
  }

  lemma DropOutside(path: string, all: bool)
    ensures WritesOutsideItem(Drop(path, all))
  {
    OutsideOne(Delete(path, all));
  }

  lemma NoteOutside(text: seq<string>)
    ensures WritesOutside([Echo(text)])
  {
    OutsideOne(Echo(text));
  }

  lemma RestoreOutside(backup: string, live: string, dir: string)
    requires Outside(Norm(live))
    ensures WritesOutside(RestoreFile(backup, live, dir))
  {
    hide Norm, Outside;
    var b := RestoreFile(backup, live, dir);
    NoteOutside(b[1].thn[0].text);
    OutsideOne(Delete(backup, false));
    OutsideTwo(b[0], b[1]);
  }

  lemma NameOutside(n: string)
    requires ValidName(n)
    ensures WritesOutsideItem(NameItem(n))
  {
    hide Norm, LiveKey;
    NameKeys(n);
    NameShape(n);
    assert Outside(LiveKey(n)) by { LiveLong(n); }
    RestoreOutside(BackupPath(n), LivePath(n), BK + "/C");
    DropOutside(LivePath(n), false);
    OutsideOne(Drop(LivePath(n)));
    OutsideOne(When(NewPath(n), [Drop(LivePath(n))]));
  }

  lemma LiveLong(n: string)
    ensures |LiveKey(n)| >= 6
  {
  }

  lemma {:induction false} NamesOutside(names: seq<string>)
    requires forall i :: 0 <= i < |names| ==> ValidName(names[i])
    ensures WritesOutside(NameItems(names))
  {
    if names != [] {
      NameOutside(names[0]);
      NamesOutside(names[1..]);
      assert NameItems(names)[1..] == NameItems(names[1..]);
    }
  }

  lemma StartupOutside()
    ensures WritesOutsideItem(STARTUP_ITEM)
  {
    hide Norm;
    SKeys(); StartupShape();
    NoteOutside(STARTUP_NOTE);
    DropOutside(US_OLD, false);
    OutsideTwo(Drop(US_OLD), Rename(US_BAK, US_OLD));
    OutsideAppend([Echo(STARTUP_NOTE)], [Drop(US_OLD), Rename(US_BAK, US_OLD)]);
    assert LIVE_STARTUP_ITEM.thn == [Echo(STARTUP_NOTE)] + [Drop(US_OLD), Rename(US_BAK, US_OLD)];
    OutsideOne(Rename(US_BAK, US));
    OutsideOne(LIVE_STARTUP_ITEM);
  }

  lemma LibOutside()
    ensures WritesOutsideItem(LIB_ITEM)
  {
    hide Norm;
    LibKeys(); LibsShape();
    OutsideOne(Rename(NEWER, LIB));
    OutsideOne(Rename(PARKED, LIB));
    OutsideOne(When(PARKED, [Rename(PARKED, LIB)]));
    OutsideOne(PARKED_ITEM);
  }

  lemma UgOutside()
    ensures WritesOutsideItem(UG_ITEM)
  {
    hide Norm;
    UgKeys(); LibsShape();
    RestoreOutside(BACKUP_UG, LIVE_UG, BK + "/Libs");
  }

  lemma OwnOutside()
    ensures WritesOutside(OWN_FILES)
  {
    hide WritesOutsideItem;
    DropOutside("SYS:Prefs/TolunnetPrefs", false); DropOutside("SYS:Prefs/TolunnetPrefs.info", false);
    DropOutside("SYS:Prefs/TolunnetSetup", false); DropOutside("SYS:Prefs/TolunnetSetup.info", false);
    DropOutside("DEVS:tolunnet.config", false);
    OutsideEach(OWN_FILES);
  }

  lemma AfterLibOutside()
    ensures WritesOutside(AFTER_LIB)
  {
    NoteOutside(KeptNote(PARKED).thn[0].text);
    NoteOutside(KeptNote(NEWER).thn[0].text);
    OutsideTwo(KeptNote(PARKED), KeptNote(NEWER));
    DropOutside(BK + "/new", true);
    DropOutside(BK + "/ours", true);
    OutsideTwo(Drop(BK + "/new", true), Drop(BK + "/ours", true));
    OutsideAppend(LIB_NOTES, MARKER_ITEMS);
  }

  /** Up to the removal of the directories the undo creates nothing in the
      backup area. */
  lemma StagesNothingNew(names: seq<string>, s: State)
    requires ValidNames(names)
    ensures NothingNew(s.m, RunStages(names, s).noted.m)
  {
    hide UG_ITEM, LIB_ITEM, OWN_FILES, STARTUP_ITEM, AFTER_LIB, ExecItem, ExecBlock, Outside;
    var r := RunStages(names, s);
    NamesOutside(names);
    OutsideExec(NameItems(names), s, 0);
    UgOutside();
    OutsideExecItem(UG_ITEM, r.named, 0);
    OwnOutside(); StartupOutside();
    OutsideOne(STARTUP_ITEM);
    OutsideAppend(OWN_FILES, [STARTUP_ITEM]);
    OutsideExec(BEFORE_LIB, r.ug, 0);
    LibOutside();
    OutsideExecItem(LIB_ITEM, r.mid, 0);
    AfterLibOutside();
    OutsideExec(AFTER_LIB, r.lib, 0);
  }

  // -------------------------------------------- a kept backup stays kept

  predicate NotFile(m: Tree, k: string) {
    k in m ==> m[k].Dir?
  }

  /** A directory that still holds something is not removed without ALL. */
  lemma DropKeepsFull(path: string, q: string, s: State, d: nat)
    requires d <= MAX_DEPTH && s.halt == Go && s.failat > FAIL
    requires NotFile(s.m, Norm(path)) && q in s.m && Below(q, Norm(path))
    ensures ExecItem(Drop(path), s, d).m == s.m
  {
    hide Norm, Writable, Below;
    var k := Norm(path);
    assert q in Children(s.m, k);
    ExecOne(Delete(path, false), Observe(s, Exists(path)), d);
  }

  lemma BelowDirs(n: string)
    requires ValidName(n)
    ensures Below(BackupKey(n), C_DIR_KEY) && Below(BackupKey(n), BACKUP_KEY)
  {
    assert C_DIR_KEY + "/" == BACKUP_KEY + "/c/";
    assert BackupKey(n) == (BACKUP_KEY + "/") + ("c/" + Lower(n));
  }

  /** Removing the backup directories keeps a backup that is still there. */
  lemma DirsKeepBackup(n: string, s: State)
    requires ValidName(n) && s.halt == Go && s.failat > FAIL
    requires BackupKey(n) in s.m && NotFile(s.m, C_DIR_KEY) && NotFile(s.m, BACKUP_KEY)
    ensures AgreeAt(s.m, ExecBlock(DIR_ITEMS, s, 0).m, BackupKey(n))
  {
    hide Norm, Kind, ExecItem, ExecBlock, Drop, When, BackupKey, AgreeAt, Below, Unrelated, Leaves, LeavesItem,
         SteadyItem, DIR_ITEMS, LEFT_NOTE;
    var k := BackupKey(n);
    var a, b, c, e := Drop(BK + "/C"), Drop(BK + "/Libs"), Drop(BK), When(BK, [Echo(LEFT_NOTE)]);
    DirKeys(); BelowDirs(n); NameShape(n); BackupShape();
    var s1, s2, s3 := ExecItem(a, s, 0), ExecItem(b, ExecItem(a, s, 0), 0),
        ExecItem(c, ExecItem(b, ExecItem(a, s, 0), 0), 0);
    DropSteady(BK + "/C", false); DropSteady(BK + "/Libs", false); DropSteady(BK, false);
    SteadyExecItem(a, s, 0); SteadyExecItem(b, s1, 0); SteadyExecItem(c, s2, 0);
    DropKeepsFull(BK + "/C", k, s, 0);
    PartsApart(LIBS_DIR_KEY, k);
    DropLeaves(BK + "/Libs", false, k);
    LeavesExecItem(b, s1, 0, k);
    AgreeKind(s1.m, s2.m, k);
    DropKeepsNotFile(BK + "/Libs", s1, BACKUP_KEY);
    DropKeepsFull(BK, k, s2, 0);
    NoteItemExec(s3);
    DirsUnfold(s);
  }

  lemma DropKeepsNotFile(path: string, s: State, k: string)
    requires s.halt == Go && NotFile(s.m, k)
    ensures NotFile(ExecItem(Drop(path), s, 0).m, k)
  {
    hide Norm, Kind;
    DropExec(path, false, s, 0);
  }

  lemma NoteItemExec(s: State)
    requires s.halt == Go
    ensures ExecItem(When(BK, [Echo(LEFT_NOTE)]), s, 0).m == s.m
  {
    hide Norm, Kind;
    ExecOne(Echo(LEFT_NOTE), Observe(s, Exists(BK)), 0);
  }

  lemma DirsUnfold(s: State)
    requires s.halt == Go && s.failat > FAIL
    ensures var s3 := ExecItem(Drop(BK), ExecItem(Drop(BK + "/Libs"), ExecItem(Drop(BK + "/C"), s, 0), 0), 0);
            ExecBlock(DIR_ITEMS, s, 0) == ExecItem(When(BK, [Echo(LEFT_NOTE)]), s3, 0)
  {
    hide Norm, Kind, ExecItem, Drop, When;
    var a, b, c, e := Drop(BK + "/C"), Drop(BK + "/Libs"), Drop(BK), When(BK, [Echo(LEFT_NOTE)]);
    DropSteady(BK + "/C", false); DropSteady(BK + "/Libs", false); DropSteady(BK, false);
    SteadyExecItem(a, s, 0);
    SteadyExecItem(b, ExecItem(a, s, 0), 0);
    SteadyExecItem(c, ExecItem(b, ExecItem(a, s, 0), 0), 0);
    ExecTwo(a, b, s, 0);
    ExecTwo(c, e, ExecItem(b, ExecItem(a, s, 0), 0), 0);
    assert DIR_ITEMS == [a, b] + [c, e];
    ExecAppend([a, b], [c, e], s, 0);
  }

  lemma TailLeavesBackup(n: string)
    requires ValidName(n)
    ensures var k := BackupKey(n);
            && LeavesItem(UG_ITEM, k) && Leaves(BEFORE_LIB, k) && LeavesItem(LIB_ITEM, k)
            && Leaves(AFTER_LIB, k) && LeavesItem(SELF_DELETE, k)
  {
    hide *;
    var k := BackupKey(n);
    NameShape(n); BackupShape(); LibsShape(); StartupShape(); BackupSixth(n);
    PartsApart(BACKUP_UG_KEY, k); AreasApart(LIVE_UG_KEY, k);
    UgLeaves(k);
    DifferAt(US_KEY, k, 5); DifferAt(US_BAK_KEY, k, 5); DifferAt(US_OLD_KEY, k, 5);
    StartupLeaves(k);
    OwnLeaves(k);
    BeforeLibLeaves(k);
    AreasApart(LIB_KEY, k); AreasApart(PARKED_KEY, k); AreasApart(NEWER_KEY, k);
    LibLeaves(k);
    NotesLeave(k);
    PartsApart(NEW_DIR_KEY, k); PartsApart(OURS_DIR_KEY, k);
    MarkersLeave(k);
    AfterLibLeaves(k);
    DifferAt(UNDO_KEY, k, 5);
    SelfLeaves(k);
  }

  lemma BackupSixth(n: string)
    ensures |BackupKey(n)| > 5 && BackupKey(n)[5] == 't'
  {
    assert BACKUP_KEY[5] == 't';
  }

  /** For every set of write-protected paths: an original that was ever saved
      is in the live file or still in the backup after the undo. */
  lemma UndoKeepsOriginal(names: seq<string>, n: string, orig: Option<string>, m: Tree, ro: set<string>)
    requires ValidNames(names) && n in names && Kind(m, STACKS_KEY) == ABSENT
    requires NotFile(m, C_DIR_KEY) && NotFile(m, BACKUP_KEY)
    requires Safe(m, n, orig) && orig.Some?
    ensures var r := RunUndo(names, m, ro).m;
            Content(r, LiveKey(n)) == orig || Content(r, BackupKey(n)) == orig
  {
    hide Norm, Kind, ExecItem, ExecBlock, LiveKey, BackupKey, NewKey, AgreeAt, Leaves, LeavesItem, Safe, Content, Plain,
         UG_ITEM, LIB_ITEM, BEFORE_LIB, AFTER_LIB, DIR_ITEMS, RunStages, RunUndo, NameItems, NothingNew, NotFile;
    UndoIsStages(names, m, ro);
    var s := AfterHead(m, ro);
    HeadState(m, ro);
    NamesUndo(names, n, orig, s);
    NameShape(n);
    var r := RunStages(names, s);
    StagesAre(names, s);
    var end := RunUndo(names, m, ro).m;
    if Content(r.named.m, LiveKey(n)) == orig {
      TailLeavesC(LiveKey(n));
      TailKeeps(names, s, LiveKey(n));
      AgreePlain(r.named.m, end, LiveKey(n));
    } else {
      var k := BackupKey(n);
      TailLeavesBackup(n);
      TailKeeps(names, s, k);
      AgreePlain(r.named.m, r.noted.m, k);
      StagesNothingNew(names, s);
      StillNotFile(m, r.noted.m);
      StagesGo(names, s);
      assert r.noted in [r.named, r.ug, r.mid, r.lib, r.noted, r.end];
      ContentPresent(r.noted.m, k);
      DirsKeepBackup(n, r.noted);
      LeavesExecItem(SELF_DELETE, r.end, 0, k);
      AgreePlain(r.noted.m, r.end.m, k);
      AgreePlain(r.end.m, end, k);
    }
  }

  /** The undo creates nothing in the backup area. */
  lemma UndoCreatesNothing(names: seq<string>, m: Tree, ro: set<string>)
    requires ValidNames(names) && Kind(m, STACKS_KEY) == ABSENT
    ensures NothingNew(m, RunUndo(names, m, ro).m)
  {
    hide Norm, Kind, STACKS_KEY, ExecItem, ExecBlock, RunStages, RunUndo, DIR_ITEMS, Outside;
    UndoIsStages(names, m, ro);
    var s := AfterHead(m, ro);
    HeadState(m, ro);
    var r := RunStages(names, s);
    StagesAre(names, s);
    StagesNothingNew(names, s);
    DirsOutside();
    OutsideExec(DIR_ITEMS, r.noted, 0);
    OutsideExecItem(SELF_DELETE, r.end, 0);
  }

  lemma DirsOutside()
    ensures WritesOutside(DIR_ITEMS) && WritesOutsideItem(SELF_DELETE)
  {
    hide Norm;
    DropOutside(BK + "/C", false); DropOutside(BK + "/Libs", false); DropOutside(BK, false);
    NoteOutside(LEFT_NOTE);
    OutsideTwo(Drop(BK + "/C"), Drop(BK + "/Libs"));
    OutsideTwo(Drop(BK), When(BK, [Echo(LEFT_NOTE)]));
    OutsideAppend([Drop(BK + "/C"), Drop(BK + "/Libs")], [Drop(BK), When(BK, [Echo(LEFT_NOTE)])]);
    assert DIR_ITEMS == [Drop(BK + "/C"), Drop(BK + "/Libs")] + [Drop(BK), When(BK, [Echo(LEFT_NOTE)])];
  }

  lemma NoneStaysNone(m: Tree, m': Tree, n: string)
    requires ValidName(n) && NothingNew(m, m') && Content(m, BackupKey(n)).None?
    ensures Content(m', BackupKey(n)).None?
  {
    hide BackupKey;
    NameShape(n); BackupSixth(n);
  }

  lemma HeadState(m: Tree, ro: set<string>)
    ensures var s := AfterHead(m, ro); s.m == m && s.ro == ro && s.halt == Go && s.failat > FAIL
  {
  }

  lemma StagesAre(names: seq<string>, s: State)
    ensures var r := RunStages(names, s);
            r.named == ExecBlock(NameItems(names), s, 0) && r.end == ExecBlock(DIR_ITEMS, r.noted, 0)
  {
  }

  lemma StillNotFile(m: Tree, m': Tree)
    requires NothingNew(m, m') && NotFile(m, C_DIR_KEY) && NotFile(m, BACKUP_KEY)
    ensures NotFile(m', C_DIR_KEY) && NotFile(m', BACKUP_KEY)
  {
    BackupShape();
    assert C_DIR_KEY[5] == BACKUP_KEY[5];
  }

  lemma ContentPresent(m: Tree, k: string)
    requires Content(m, k).Some?
    ensures k in m
  {
  }
}
