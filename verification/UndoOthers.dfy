/** What the undo does to a command that its list does not name, and to
    usergroup.library under write protection. */
module UndoOthers {
  import opened Seqs
  import opened Text
  import opened Files
  import opened Dos
  import opened Undo
  import opened Keys
  import opened Restore
  import opened UndoRun
  import opened UndoSafety
  import opened UndoLibs

  /** A command the list does not name keeps its live file, and its backup if it
      has one, whatever is write-protected. */
  lemma UndoLeavesOther(names: seq<string>, n: string, m: Tree, ro: set<string>)
    requires ValidNames(names) && ValidName(n) && Kind(m, STACKS_KEY) == ABSENT
    requires forall i :: 0 <= i < |names| ==> Lower(names[i]) != Lower(n)
    requires NotFile(m, C_DIR_KEY) && NotFile(m, BACKUP_KEY)
    ensures var r := RunUndo(names, m, ro).m;
            && Content(r, LiveKey(n)) == Content(m, LiveKey(n))
            && (Content(m, BackupKey(n)).Some? ==> Content(r, BackupKey(n)) == Content(m, BackupKey(n)))
  {
    hide Norm, Kind, ExecItem, ExecBlock, LiveKey, BackupKey, NewKey, AgreeAt, Leaves, LeavesItem, Content, Plain,
         Lower, UG_ITEM, LIB_ITEM, BEFORE_LIB, AFTER_LIB, DIR_ITEMS, RunStages, RunUndo, NameItems, NothingNew,
         NotFile, ValidName;
    UndoIsStages(names, m, ro);
    var s := AfterHead(m, ro);
    HeadState(m, ro);
    NameShape(n);
    var r := RunStages(names, s);
    StagesAre(names, s);
    var end := RunUndo(names, m, ro).m;
    OthersLeave(n, LiveKey(n), names);
    LeavesExec(NameItems(names), s, 0, LiveKey(n));
    TailLeavesC(LiveKey(n));
    TailKeeps(names, s, LiveKey(n));
    AgreePlain(m, r.named.m, LiveKey(n));
    AgreePlain(r.named.m, end, LiveKey(n));
    if Content(m, BackupKey(n)).Some? {
      var k := BackupKey(n);
      OthersLeave(n, k, names);
      LeavesExec(NameItems(names), s, 0, k);
      AgreePlain(m, r.named.m, k);
      TailLeavesBackup(n);
      TailKeeps(names, s, k);
      AgreePlain(r.named.m, r.noted.m, k);
      StagesNothingNew(names, s);
      StillNotFile(m, r.noted.m);
      StagesGo(names, s);
      assert r.noted in [r.named, r.ug, r.mid, r.lib, r.noted, r.end];
      ContentPresent(r.noted.m, k);
      DirsKeepBackup(n, r.noted);
      LeavesExecItem(SELF_DELETE, r.end, 0, k);
      AgreePlain(r.noted.m, r.end.m, k);
      AgreePlain(r.end.m, end, k);
    }
  }

  // --------------------------------------------------- usergroup.library

  lemma UgItemKeeps(s: State, orig: Option<string>)
    requires s.halt == Go && s.failat > FAIL && UgSafe(s.m, orig) && orig.Some?
    ensures var r := ExecItem(UG_ITEM, s, 0).m;
            Content(r, LIVE_UG_KEY) == orig || Content(r, BACKUP_UG_KEY) == orig
  {
    hide Norm, Writable, LIVE_UG_KEY, BACKUP_UG_KEY;
    UgKeys(); UgFacts();
    PlainKind(s.m, BACKUP_UG_KEY);
    var s1 := Observe(s, Exists(BACKUP_UG));
    if Content(s.m, BACKUP_UG_KEY).Some? {
      RestoreExec(BACKUP_UG, LIVE_UG, BK + "/Libs", s1, 0);
    }
  }

  lemma TailLeavesUgBackup()
    ensures var k := BACKUP_UG_KEY;
            Leaves(BEFORE_LIB, k) && LeavesItem(LIB_ITEM, k) && Leaves(AFTER_LIB, k) && LeavesItem(SELF_DELETE, k)
  {
    hide *;
    var k := BACKUP_UG_KEY;
    BackupShape(); LibsShape(); StartupShape();
    DifferAt(US_KEY, k, 5); DifferAt(US_BAK_KEY, k, 5); DifferAt(US_OLD_KEY, k, 5);
    StartupLeaves(k);
    OwnLeaves(k);
    BeforeLibLeaves(k);
    AreasApart(LIB_KEY, k); AreasApart(PARKED_KEY, k); AreasApart(NEWER_KEY, k);
    LibLeaves(k);
    NotesLeave(k);
    PartsApart(NEW_DIR_KEY, k); PartsApart(OURS_DIR_KEY, k);
    MarkersLeave(k);
    AfterLibLeaves(k);
    DifferAt(UNDO_KEY, k, 5);
    SelfLeaves(k);
  }

  lemma UgBelowDirs()
    ensures Below(BACKUP_UG_KEY, LIBS_DIR_KEY) && Below(BACKUP_UG_KEY, BACKUP_KEY)
  {
    assert "/libs/usergroup.library" == "/libs" + ("/" + "usergroup.library");
    assert BACKUP_UG_KEY == (LIBS_DIR_KEY + "/") + "usergroup.library";
    assert BACKUP_UG_KEY == (BACKUP_KEY + "/") + BACKUP_UG_KEY[28..];
  }

  /** Removing the backup directories keeps the library's backup. */
  lemma DirsKeepUg(s: State)
    requires s.halt == Go && s.failat > FAIL
    requires BACKUP_UG_KEY in s.m && NotFile(s.m, LIBS_DIR_KEY) && NotFile(s.m, BACKUP_KEY)
    ensures AgreeAt(s.m, ExecBlock(DIR_ITEMS, s, 0).m, BACKUP_UG_KEY)
  {
    hide Norm, Kind, ExecItem, ExecBlock, Drop, When, BACKUP_UG_KEY, AgreeAt, Below, Unrelated, Leaves, LeavesItem,
         SteadyItem, DIR_ITEMS, LEFT_NOTE;
    var k := BACKUP_UG_KEY;
    var a, b, c := Drop(BK + "/C"), Drop(BK + "/Libs"), Drop(BK);
    DirKeys(); UgBelowDirs(); BackupShape();
    var s1, s2, s3 := ExecItem(a, s, 0), ExecItem(b, ExecItem(a, s, 0), 0),
        ExecItem(c, ExecItem(b, ExecItem(a, s, 0), 0), 0);
    DropSteady(BK + "/C", false); DropSteady(BK + "/Libs", false); DropSteady(BK, false);
    SteadyExecItem(a, s, 0); SteadyExecItem(b, s1, 0); SteadyExecItem(c, s2, 0);
    PartsApart(C_DIR_KEY, k);
    DropLeaves(BK + "/C", false, k);
    LeavesExecItem(a, s, 0, k);
    AgreeKind(s.m, s1.m, k);
    DropKeepsNotFile(BK + "/C", s, LIBS_DIR_KEY);
    DropKeepsNotFile(BK + "/C", s, BACKUP_KEY);
    DropKeepsFull(BK + "/Libs", k, s1, 0);
    DropKeepsFull(BK, k, s2, 0);
    NoteItemExec(s3);
    DirsUnfold(s);
  }

  lemma UgDirsStill(m: Tree, m': Tree)
    requires NothingNew(m, m') && NotFile(m, LIBS_DIR_KEY) && NotFile(m, BACKUP_KEY)
    ensures NotFile(m', LIBS_DIR_KEY) && NotFile(m', BACKUP_KEY)
  {
    BackupShape();
    assert LIBS_DIR_KEY[5] == BACKUP_KEY[5];
  }

  /** For every set of write-protected paths: an original usergroup.library is
      live or still in the backup after the undo. */
  lemma UndoKeepsUg(names: seq<string>, orig: Option<string>, m: Tree, ro: set<string>)
    requires ValidNames(names) && Kind(m, STACKS_KEY) == ABSENT
    requires NotFile(m, LIBS_DIR_KEY) && NotFile(m, BACKUP_KEY)
    requires UgSafe(m, orig) && orig.Some?
    ensures var r := RunUndo(names, m, ro).m; Content(r, LIVE_UG_KEY) == orig || Content(r, BACKUP_UG_KEY) == orig
  {
    hide Norm, Kind, ExecItem, ExecBlock, AgreeAt, Leaves, LeavesItem, Content, Plain, NotFile, NothingNew, UG_ITEM,
         LIB_ITEM, BEFORE_LIB, AFTER_LIB, DIR_ITEMS, RunUndo, NameItems, LIVE_UG_KEY, BACKUP_UG_KEY, LIBS_DIR_KEY;
    var s := AfterHead(m, ro);
    var r := RunStages(names, s);
    var end := RunUndo(names, m, ro).m;
    UndoIsStages(names, m, ro);
    BackupShape(); LibsShape();
    NamesLeave(names, LIVE_UG_KEY); NamesLeave(names, BACKUP_UG_KEY);
    LeavesExec(NameItems(names), s, 0, LIVE_UG_KEY); LeavesExec(NameItems(names), s, 0, BACKUP_UG_KEY);
    AgreePlain(m, r.named.m, LIVE_UG_KEY); AgreePlain(m, r.named.m, BACKUP_UG_KEY);
    StagesGo(names, s);
    assert r.named in [r.named, r.ug, r.mid, r.lib, r.noted, r.end]
           && r.noted in [r.named, r.ug, r.mid, r.lib, r.noted, r.end];
    UgItemKeeps(r.named, orig);
    if Content(r.ug.m, LIVE_UG_KEY) == orig {
      StagesLeaveLibs(LIVE_UG_KEY);
      LeavesExec(BEFORE_LIB, r.ug, 0, LIVE_UG_KEY); AgreePlain(r.ug.m, r.mid.m, LIVE_UG_KEY);
      LeavesExecItem(LIB_ITEM, r.mid, 0, LIVE_UG_KEY); AgreePlain(r.mid.m, r.lib.m, LIVE_UG_KEY);
      LeavesExec(AFTER_LIB, r.lib, 0, LIVE_UG_KEY); AgreePlain(r.lib.m, r.noted.m, LIVE_UG_KEY);
      LeavesExec(DIR_ITEMS, r.noted, 0, LIVE_UG_KEY); AgreePlain(r.noted.m, r.end.m, LIVE_UG_KEY);
      LeavesExecItem(SELF_DELETE, r.end, 0, LIVE_UG_KEY); AgreePlain(r.end.m, end, LIVE_UG_KEY);
    } else {
      var k := BACKUP_UG_KEY;
      TailLeavesUgBackup();
      LeavesExec(BEFORE_LIB, r.ug, 0, k); AgreePlain(r.ug.m, r.mid.m, k);
      LeavesExecItem(LIB_ITEM, r.mid, 0, k); AgreePlain(r.mid.m, r.lib.m, k);
      LeavesExec(AFTER_LIB, r.lib, 0, k); AgreePlain(r.lib.m, r.noted.m, k);
      StagesNothingNew(names, s);
      UgDirsStill(m, r.noted.m);
      ContentPresent(r.noted.m, k);
      DirsKeepUg(r.noted);
      AgreePlain(r.noted.m, r.end.m, k);
      LeavesExecItem(SELF_DELETE, r.end, 0, k); AgreePlain(r.end.m, end, k);
    }
  }
}
