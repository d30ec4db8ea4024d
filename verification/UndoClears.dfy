/** With nothing protected the undo leaves nothing of the backup directory. */
module UndoClears {
  import opened Files
  import opened Dos
  import opened Undo
  import opened Keys
  import opened Restore
  import opened UndoRun
  import opened UndoSafety
  import opened UndoLibs
  import Footprint
  import Retry
  import InstallGoes

  /** Nothing at or below the key. */
  ghost predicate Cleared(m: Tree, k: string) { forall q :: q in m ==> !AtOrBelow(q, k) }

  /** What is in the backup directory belongs there and can be removed. */
  ghost predicate Tidy(m: Tree, names: seq<string>) {
    forall q :: q in m && AtOrBelow(q, BACKUP_KEY) ==> Footprint.Stored(q, names) && Writable({}, q)
  }

  lemma NothingNewTrans(a: Tree, b: Tree, c: Tree)
    requires NothingNew(a, b) && NothingNew(b, c)
    ensures NothingNew(a, c)
  {
    hide Outside;
  }

  lemma InArea(q: string)
    requires AtOrBelow(q, BACKUP_KEY)
    ensures !Outside(q)
  {
    BackupShape();
    assert q == BACKUP_KEY || (BACKUP_KEY + "/")[4] == q[4];
    assert q == BACKUP_KEY || (BACKUP_KEY + "/")[5] == q[5];
  }

  lemma TailNothingNew(names: seq<string>, s: State)
    requires ValidNames(names)
    ensures var r := RunStages(names, s);
            NothingNew(s.m, r.named.m) && NothingNew(r.named.m, r.ug.m) && NothingNew(r.ug.m, r.lib.m)
              && NothingNew(r.lib.m, r.noted.m)
  {
    hide UG_ITEM, LIB_ITEM, OWN_FILES, STARTUP_ITEM, AFTER_LIB, ExecItem, ExecBlock, Outside;
    var r := RunStages(names, s);
    NamesOutside(names);
    OutsideExec(NameItems(names), s, 0);
    UgOutside();
    OutsideExecItem(UG_ITEM, r.named, 0);
    OwnOutside(); StartupOutside();
    OutsideOne(STARTUP_ITEM);
    OutsideAppend(OWN_FILES, [STARTUP_ITEM]);
    OutsideExec(BEFORE_LIB, r.ug, 0);
    LibOutside();
    OutsideExecItem(LIB_ITEM, r.mid, 0);
    NothingNewTrans(r.ug.m, r.mid.m, r.lib.m);
    AfterLibOutside();
    OutsideExec(AFTER_LIB, r.lib, 0);
  }

  /** A directory goes with ALL, whatever it holds, if nothing is protected. */
  lemma DropAll(path: string, s: State)
    requires s.halt == Go && s.ro == {} && Keylike(Norm(path)) && Writable({}, Norm(path))
    requires forall q :: q in s.m && AtOrBelow(q, Norm(path)) ==> Writable({}, q)
    ensures var r := ExecItem(Drop(path, true), s, 0);
            Cleared(r.m, Norm(path)) && (forall q :: q in r.m ==> q in s.m && r.m[q] == s.m[q])
  {
    hide Norm, Writable, Below;
    var k := Norm(path);
    var s1 := Observe(s, Exists(path));
    ExecOne(Delete(path, true), s1, 0);
    assert forall q :: q in s.m && Below(q, k) ==> q in Children(s.m, k);
    if Kind(s.m, k) != ABSENT {
      assert !DeleteRefused(s1.(rc := 0), k, true);
    }
  }

  /** An empty directory goes without ALL. */
  lemma DropEmpty(path: string, s: State)
    requires s.halt == Go && s.ro == {} && Keylike(Norm(path)) && Writable({}, Norm(path))
    requires Children(s.m, Norm(path)) == {}
    ensures ExecItem(Drop(path), s, 0).m == s.m - {Norm(path)}
  {
    hide Norm, Writable, Below;
    var k := Norm(path);
    var s1 := Observe(s, Exists(path));
    ExecOne(Delete(path, false), s1, 0);
    assert {k} + {} == {k};
    if Kind(s.m, k) == ABSENT { assert s.m - {k} == s.m; } else { assert !DeleteRefused(s1.(rc := 0), k, false); }
  }

  lemma DirFacts()
    ensures forall d :: d in [BACKUP_KEY, C_DIR_KEY, LIBS_DIR_KEY, NEW_DIR_KEY, OURS_DIR_KEY] ==>
              Keylike(d) && Writable({}, d)
  {
    hide Writable, BACKUP_KEY, C_DIR_KEY, LIBS_DIR_KEY, NEW_DIR_KEY, OURS_DIR_KEY;
    InstallGoes.BaseWritable();
    DirEnds();
  }

  lemma DirEnds()
    ensures forall d :: d in [BACKUP_KEY, C_DIR_KEY, LIBS_DIR_KEY, NEW_DIR_KEY, OURS_DIR_KEY] ==> Keylike(d)
  {
  }

  /** The marker directories go with all they hold. */
  lemma MarkersGo(s: State)
    requires s.halt == Go && s.ro == {} && s.failat > FAIL
    requires forall q :: q in s.m && AtOrBelow(q, BACKUP_KEY) ==> Writable({}, q)
    ensures var r := ExecBlock(MARKER_ITEMS, s, 0).m; Cleared(r, NEW_DIR_KEY) && Cleared(r, OURS_DIR_KEY)
  {
    hide Norm, Writable, AtOrBelow, ExecItem, NEW_DIR_KEY, OURS_DIR_KEY, BACKUP_KEY, BK, SteadyItem;
    var a, b := Drop(BK + "/new", true), Drop(BK + "/ours", true);
    DirKeys(); DirFacts();
    var ds := [BACKUP_KEY, C_DIR_KEY, LIBS_DIR_KEY, NEW_DIR_KEY, OURS_DIR_KEY];
    assert ds[3] in ds && ds[4] in ds;
    forall q | AtOrBelow(q, NEW_DIR_KEY) || AtOrBelow(q, OURS_DIR_KEY) ensures AtOrBelow(q, BACKUP_KEY) { Inside(q); }
    DropAll(BK + "/new", s);
    var mid := ExecItem(a, s, 0);
    DropSteady(BK + "/new", true);
    SteadyExecItem(a, s, 0);
    DropAll(BK + "/ours", mid);
    ExecTwo(a, b, s, 0);
  }

  lemma Inside(q: string)
    requires AtOrBelow(q, NEW_DIR_KEY) || AtOrBelow(q, OURS_DIR_KEY)
    ensures AtOrBelow(q, BACKUP_KEY)
  {
    var d := if AtOrBelow(q, NEW_DIR_KEY) then NEW_DIR_KEY else OURS_DIR_KEY;
    assert d[..28] == BACKUP_KEY + "/";
    assert |d| <= |q|;
    assert q[..|d|] == d;
    assert q[..28] == d[..28];
  }

  /** The notes change no file. */
  lemma NotesRun(s: State)
    requires s.halt == Go && s.failat > FAIL
    ensures var r := ExecBlock(LIB_NOTES, s, 0); r.m == s.m && r.halt == Go && r.ro == s.ro && r.failat == s.failat
  {
    hide Norm, Kind, PARKED, NEWER;
    var a, b := KeptNote(PARKED), KeptNote(NEWER);
    NoteRun(PARKED, s);
    var mid := ExecItem(a, s, 0);
    NoteRun(NEWER, mid);
    ExecTwo(a, b, s, 0);
  }

  lemma NoteRun(path: string, s: State)
    requires s.halt == Go
    ensures var r := ExecItem(KeptNote(path), s, 0); r.m == s.m && r.halt == Go && r.ro == s.ro && r.failat == s.failat
  {
    hide Norm, Kind;
    ExecOne(KeptNote(path).thn[0], Observe(s, Exists(path)), 0);
  }

  /** The directories go once they are empty. */
  lemma DirsGoWhenEmpty(s: State)
    requires s.halt == Go && s.ro == {} && s.failat > FAIL
    requires forall q :: q in s.m && AtOrBelow(q, BACKUP_KEY) ==> q == BACKUP_KEY || q == C_DIR_KEY || q == LIBS_DIR_KEY
    ensures Cleared(ExecBlock(DIR_ITEMS, s, 0).m, BACKUP_KEY)
  {
    hide Norm, Writable, ExecItem, BACKUP_KEY, C_DIR_KEY, LIBS_DIR_KEY, Below, BK, SteadyItem, LEFT_NOTE;
    var a, b, c, e := Drop(BK + "/C"), Drop(BK + "/Libs"), Drop(BK), When(BK, [Echo(LEFT_NOTE)]);
    DirKeys(); DirFacts(); DirsNested();
    var ds := [BACKUP_KEY, C_DIR_KEY, LIBS_DIR_KEY, NEW_DIR_KEY, OURS_DIR_KEY];
    assert ds[0] in ds && ds[1] in ds && ds[2] in ds;
    DropSteady(BK + "/C", false); DropSteady(BK + "/Libs", false); DropSteady(BK, false);
    assert Children(s.m, C_DIR_KEY) == {} by { forall q | q in s.m && Below(q, C_DIR_KEY) ensures false { BelowC(q); } }
    DropEmpty(BK + "/C", s);
    var s1 := ExecItem(a, s, 0);
    SteadyExecItem(a, s, 0);
    assert Children(s1.m, LIBS_DIR_KEY) == {} by {
      forall q | q in s1.m && Below(q, LIBS_DIR_KEY) ensures false { BelowC(q); }
    }
    DropEmpty(BK + "/Libs", s1);
    var s2 := ExecItem(b, s1, 0);
    SteadyExecItem(b, s1, 0);
    assert Children(s2.m, BACKUP_KEY) == {};
    DropEmpty(BK, s2);
    var s3 := ExecItem(c, s2, 0);
    SteadyExecItem(c, s2, 0);
    NoteItemExec(s3);
    DirsUnfold(s);
  }

  lemma DirsNested()
    ensures !Below(BACKUP_KEY, BACKUP_KEY) && !Below(C_DIR_KEY, C_DIR_KEY) && !Below(LIBS_DIR_KEY, LIBS_DIR_KEY)
    ensures !Below(BACKUP_KEY, C_DIR_KEY) && !Below(BACKUP_KEY, LIBS_DIR_KEY) && !Below(C_DIR_KEY, LIBS_DIR_KEY)
    ensures !Below(LIBS_DIR_KEY, C_DIR_KEY)
  {
    BackupShape();
    PartsApart(C_DIR_KEY, LIBS_DIR_KEY);
  }

  lemma BelowC(q: string)
    requires Below(q, C_DIR_KEY) || Below(q, LIBS_DIR_KEY)
    ensures AtOrBelow(q, BACKUP_KEY)
  {
    var d := if Below(q, C_DIR_KEY) then C_DIR_KEY else LIBS_DIR_KEY;
    assert d[..28] == BACKUP_KEY + "/";
    assert q[..|d|] == d;
    assert q[..28] == d[..28];
  }

  lemma {:induction false} BackupsGone(names: seq<string>, s: State, i: nat)
    requires ValidNames(names) && i < |names| && s.halt == Go && s.failat > FAIL && s.ro == {}
    requires Plain(s.m, LiveKey(names[i])) && Plain(s.m, BackupKey(names[i]))
    ensures BackupKey(names[i]) !in ExecBlock(NameItems(names), s, 0).m
  {
    hide ExecBlock, NameItems, LiveKey, BackupKey, ValidName, Safe, Content, Retry.KeptOf, Retry.Due;
    var n := names[i];
    Retry.SafeDue(s.m, n);
    NamesUndo(names, n, Retry.Due(Retry.KeptOf(s.m, n), Content(s.m, LiveKey(n))), s);
    ContentIn(ExecBlock(NameItems(names), s, 0).m, BackupKey(n));
  }

  /** Nothing is put back into the area, so what has gone stays away. */
  lemma GoneStays(m: Tree, m': Tree, q: string)
    requires NothingNew(m, m') && q !in m && AtOrBelow(q, BACKUP_KEY)
    ensures q !in m'
  {
    hide AtOrBelow, Outside;
    InArea(q);
  }

  lemma UgGone(names: seq<string>, s: State)
    requires ValidNames(names) && s.halt == Go && s.failat > FAIL && s.ro == {} && Plain(s.m, LIVE_UG_KEY)
    requires Plain(s.m, BACKUP_UG_KEY)
    ensures BACKUP_UG_KEY !in RunStages(names, s).ug.m && Plain(RunStages(names, s).ug.m, LIVE_UG_KEY)
  {
    hide ExecBlock, ExecItem, NameItems, UG_ITEM, LIVE_UG_KEY, BACKUP_UG_KEY, Plain, AgreeAt, Leaves;
    var r := RunStages(names, s);
    BackupShape(); LibsShape();
    NamesLeave(names, LIVE_UG_KEY); NamesLeave(names, BACKUP_UG_KEY);
    LeavesExec(NameItems(names), s, 0, LIVE_UG_KEY); LeavesExec(NameItems(names), s, 0, BACKUP_UG_KEY);
    AgreePlain(s.m, r.named.m, LIVE_UG_KEY); AgreePlain(s.m, r.named.m, BACKUP_UG_KEY);
    StagesGo(names, s);
    assert r.named in [r.named, r.ug, r.mid, r.lib, r.noted, r.end];
    UgItemClears(r.named);
  }

  lemma MarkersGone(names: seq<string>, s: State)
    requires ValidNames(names) && s.halt == Go && s.failat > FAIL && s.ro == {} && Tidy(s.m, names)
    ensures var r := RunStages(names, s).noted.m; Cleared(r, NEW_DIR_KEY) && Cleared(r, OURS_DIR_KEY)
  {
    hide ExecBlock, ExecItem, NameItems, LIB_NOTES, MARKER_ITEMS, NEW_DIR_KEY, OURS_DIR_KEY, AtOrBelow, Writable,
         NothingNew, Footprint.Stored, UG_ITEM, LIB_ITEM, BEFORE_LIB, DIR_ITEMS, Cleared;
    var r := RunStages(names, s);
    StagesGo(names, s);
    assert r.lib in [r.named, r.ug, r.mid, r.lib, r.noted, r.end];
    TailNothingNew(names, s);
    NothingNewTrans(s.m, r.named.m, r.ug.m);
    NothingNewTrans(s.m, r.ug.m, r.lib.m);
    StillTidy(s.m, r.lib.m, names);
    ExecAppend(LIB_NOTES, MARKER_ITEMS, r.lib, 0);
    NotesRun(r.lib);
    MarkersGo(ExecBlock(LIB_NOTES, r.lib, 0));
  }

  lemma StillTidy(m: Tree, m': Tree, names: seq<string>)
    requires Tidy(m, names) && NothingNew(m, m')
    ensures Tidy(m', names)
  {
    hide Footprint.Stored, Writable, Outside, AtOrBelow;
    forall q | q in m' && AtOrBelow(q, BACKUP_KEY) ensures Footprint.Stored(q, names) && Writable({}, q) { InArea(q); }
  }

  /** What is left of the area before the directories go. */
  lemma OnlyDirs(names: seq<string>, s: State, q: string)
    requires ValidNames(names) && s.halt == Go && s.failat > FAIL && s.ro == {} && Tidy(s.m, names)
    requires (forall i :: 0 <= i < |names| ==> Plain(s.m, LiveKey(names[i])) && Plain(s.m, BackupKey(names[i])))
    requires Plain(s.m, LIVE_UG_KEY) && Plain(s.m, BACKUP_UG_KEY)
    requires q in RunStages(names, s).noted.m && AtOrBelow(q, BACKUP_KEY)
    ensures q == BACKUP_KEY || q == C_DIR_KEY || q == LIBS_DIR_KEY
  {
    hide RunStages, AtOrBelow, Writable, NothingNew, Plain, LiveKey, BackupKey, LIVE_UG_KEY, BACKUP_UG_KEY,
         NEW_DIR_KEY, OURS_DIR_KEY, C_DIR_KEY, LIBS_DIR_KEY, BACKUP_KEY, ValidName, NameItems;
    var r := RunStages(names, s);
    TailNothingNew(names, s);
    NothingNewTrans(s.m, r.named.m, r.ug.m);
    NothingNewTrans(r.ug.m, r.lib.m, r.noted.m);
    NothingNewTrans(r.named.m, r.ug.m, r.noted.m);
    NothingNewTrans(s.m, r.named.m, r.noted.m);
    StillTidy(s.m, r.noted.m, names);
    MarkersGone(names, s);
    UgGone(names, s);
    if q == BACKUP_UG_KEY { GoneStays(r.ug.m, r.noted.m, q); }
    if exists i :: 0 <= i < |names| && q == BackupKey(names[i]) {
      var i :| 0 <= i < |names| && q == BackupKey(names[i]);
      BackupsGone(names, s, i);
      StagesAre(names, s);
      GoneStays(r.named.m, r.noted.m, q);
    }
  }

  /** The undo, with nothing protected, on a system whose backup directory holds
      just what belongs there: nothing of it is left. */
  lemma UndoClears(names: seq<string>, m: Tree)
    requires ValidNames(names) && Kind(m, STACKS_KEY) == ABSENT && Tidy(m, names)
    requires (forall i :: 0 <= i < |names| ==> Plain(m, LiveKey(names[i])) && Plain(m, BackupKey(names[i])))
    requires Plain(m, LIVE_UG_KEY) && Plain(m, BACKUP_UG_KEY)
    ensures Cleared(RunUndo(names, m, {}).m, BACKUP_KEY)
  {
    hide RunStages, AtOrBelow, NothingNew, Plain, LiveKey, BackupKey, LIVE_UG_KEY, BACKUP_UG_KEY, C_DIR_KEY,
         LIBS_DIR_KEY, BACKUP_KEY, ValidName, NameItems, ExecItem, ExecBlock, RunUndo, Kind, STACKS_KEY, Tidy,
         DIR_ITEMS;
    var s := AfterHead(m, {});
    HeadState(m, {});
    UndoIsStages(names, m, {});
    var r := RunStages(names, s);
    StagesAre(names, s);
    forall q | q in r.noted.m && AtOrBelow(q, BACKUP_KEY)
      ensures q == BACKUP_KEY || q == C_DIR_KEY || q == LIBS_DIR_KEY
    {
      OnlyDirs(names, s, q);
    }
    StagesGo(names, s);
    assert r.noted in [r.named, r.ug, r.mid, r.lib, r.noted, r.end];
    DirsGoWhenEmpty(r.noted);
    DirsOutside();
    OutsideExecItem(SELF_DELETE, r.end, 0);
    forall q | q in RunUndo(names, m, {}).m ensures !AtOrBelow(q, BACKUP_KEY) {
      if AtOrBelow(q, BACKUP_KEY) { InArea(q); StaysIn(r.end.m, RunUndo(names, m, {}).m, q); }
    }
  }

  lemma StaysIn(m: Tree, m': Tree, q: string)
    requires NothingNew(m, m') && q in m' && !Outside(q)
    ensures q in m
  {
  }
}
