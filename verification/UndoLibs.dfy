/** The undo of usergroup.library and of the parked stack library. */
module UndoLibs {
  import opened Seqs
  import opened Files
  import opened Dos
  import opened Undo
  import opened Keys
  import opened Restore
  import opened UndoRun

  // ----------------------------------------------- frames of the stages

  lemma {:induction false} NamesLeave(names: seq<string>, k: string)
    requires forall i :: 0 <= i < |names| ==> ValidName(names[i])
    requires |k| > 4 && k[4] != 'c' && (k[4] == 's' ==> |k| > 28 && k[28] != 'c')
    ensures Leaves(NameItems(names), k)
  {
    hide Norm, Unrelated, LiveKey, BackupKey, NewKey, NameItem;
    if names != [] {
      var n := names[0];
      NameShape(n);
      AreasApart(LiveKey(n), k);
      if k[4] == 's' { PartsApart(BackupKey(n), k); } else { AreasApart(BackupKey(n), k); }
      NameLeaves(n, k);
      NamesLeave(names[1..], k);
      assert NameItems(names)[1..] == NameItems(names[1..]);
    }
  }

  /** The stages around the library all leave the SYS:Libs area alone, up to
      the two libraries themselves. */
  lemma StagesLeaveLibs(k: string)
    requires |k| > 9 && k[4] == 'l'
    ensures Leaves(BEFORE_LIB, k) && Leaves(AFTER_LIB, k) && Leaves(DIR_ITEMS, k) && LeavesItem(SELF_DELETE, k)
    ensures k[9] == 'b' ==> LeavesItem(UG_ITEM, k)
    ensures k[9] == 'u' ==> LeavesItem(LIB_ITEM, k)
  {
    hide *;
    BackupShape(); LibsShape(); StartupShape();
    AreasApart(US_KEY, k); AreasApart(US_BAK_KEY, k); AreasApart(US_OLD_KEY, k);
    StartupLeaves(k);
    OwnLeaves(k);
    BeforeLibLeaves(k);
    NotesLeave(k);
    AreasApart(NEW_DIR_KEY, k); AreasApart(OURS_DIR_KEY, k);
    MarkersLeave(k);
    AfterLibLeaves(k);
    AreasApart(C_DIR_KEY, k); AreasApart(LIBS_DIR_KEY, k); AreasApart(BACKUP_KEY, k);
    DirsLeave(k);
    AreasApart(UNDO_KEY, k);
    SelfLeaves(k);
    if k[9] == 'b' {
      AreasApart(BACKUP_UG_KEY, k); DifferAt(LIVE_UG_KEY, k, 9);
      UgLeaves(k);
    }
    if k[9] == 'u' {
      DifferAt(LIB_KEY, k, 9); DifferAt(PARKED_KEY, k, 9); DifferAt(NEWER_KEY, k, 9);
      LibLeaves(k);
    }
  }

  // --------------------------------------------------- usergroup.library

  /** An original usergroup.library is live and unsaved, or saved. */
  predicate UgSafe(m: Tree, orig: Option<string>) {
    && Plain(m, LIVE_UG_KEY) && Plain(m, BACKUP_UG_KEY)
    && (orig.Some? ==>
          || (Content(m, LIVE_UG_KEY) == orig && Content(m, BACKUP_UG_KEY).None?)
          || Content(m, BACKUP_UG_KEY) == orig)
  }

  lemma UgFacts()
    ensures Unrelated(BACKUP_UG_KEY, LIVE_UG_KEY)
    ensures Keylike(BACKUP_UG_KEY) && Keylike(LIVE_UG_KEY)
    ensures Writable({}, LIVE_UG_KEY) && Writable({}, BACKUP_UG_KEY)
  {
    hide Writable, Unrelated;
    BackupShape(); LibsShape();
    AreasApart(BACKUP_UG_KEY, LIVE_UG_KEY);
    assert Writable({}, LIVE_UG_KEY) && Writable({}, BACKUP_UG_KEY) by { UgWritable(); }
  }

  lemma UgWritable()
    ensures Writable({}, LIVE_UG_KEY) && Writable({}, BACKUP_UG_KEY)
  {
    hide ShortNames, AfterColon, LIVE_UG_KEY, BACKUP_UG_KEY;
    UgShort();
  }

  lemma UgItemExec(s: State, orig: Option<string>)
    requires s.halt == Go && s.failat > FAIL && s.ro == {} && UgSafe(s.m, orig) && orig.Some?
    ensures Content(ExecItem(UG_ITEM, s, 0).m, LIVE_UG_KEY) == orig
  {
    hide Norm, Writable, LIVE_UG_KEY, BACKUP_UG_KEY;
    UgKeys(); UgFacts();
    PlainKind(s.m, BACKUP_UG_KEY);
    var s1 := Observe(s, Exists(BACKUP_UG));
    if Content(s.m, BACKUP_UG_KEY).Some? {
      RestoreExec(BACKUP_UG, LIVE_UG, BK + "/Libs", s1, 0);
    }
  }

  /** With nothing protected the backup goes, if there is one. */
  lemma UgItemClears(s: State)
    requires s.halt == Go && s.failat > FAIL && s.ro == {} && Plain(s.m, LIVE_UG_KEY) && Plain(s.m, BACKUP_UG_KEY)
    ensures var r := ExecItem(UG_ITEM, s, 0).m; BACKUP_UG_KEY !in r && Plain(r, LIVE_UG_KEY)
  {
    hide Norm, Writable, LIVE_UG_KEY, BACKUP_UG_KEY;
    UgKeys(); UgFacts();
    PlainKind(s.m, BACKUP_UG_KEY);
    var s1 := Observe(s, Exists(BACKUP_UG));
    if Content(s.m, BACKUP_UG_KEY).Some? {
      RestoreExec(BACKUP_UG, LIVE_UG, BK + "/Libs", s1, 0);
      var done := s.m[LIVE_UG_KEY := s.m[BACKUP_UG_KEY]];
      assert !Below(LIVE_UG_KEY, LIVE_UG_KEY);
      assert Children(done, LIVE_UG_KEY) == Children(s.m, LIVE_UG_KEY);
      assert Children(done - {BACKUP_UG_KEY}, LIVE_UG_KEY) <= Children(done, LIVE_UG_KEY);
    }
  }

  /** The undo restores usergroup.library if the system had one. */
  lemma UndoRestoresUg(names: seq<string>, orig: Option<string>, m: Tree)
    requires ValidNames(names) && Kind(m, STACKS_KEY) == ABSENT
    requires UgSafe(m, orig) && orig.Some?
    ensures Content(RunUndo(names, m, {}).m, LIVE_UG_KEY) == orig
  {
    hide Norm, Kind, ExecItem, ExecBlock, AgreeAt, Leaves, LeavesItem, Content, Plain,
         UG_ITEM, LIB_ITEM, BEFORE_LIB, AFTER_LIB, DIR_ITEMS, RunUndo, NameItems;
    var s := AfterHead(m, {});
    var r := RunStages(names, s);
    var end := RunUndo(names, m, {}).m;
    UndoIsStages(names, m, {});
    BackupShape(); LibsShape();
    NamesLeave(names, LIVE_UG_KEY); NamesLeave(names, BACKUP_UG_KEY);
    LeavesExec(NameItems(names), s, 0, LIVE_UG_KEY); LeavesExec(NameItems(names), s, 0, BACKUP_UG_KEY);
    AgreePlain(m, r.named.m, LIVE_UG_KEY); AgreePlain(m, r.named.m, BACKUP_UG_KEY);
    StagesGo(names, s);
    assert r.named in [r.named, r.ug, r.mid, r.lib, r.noted, r.end];
    UgItemExec(r.named, orig);
    StagesLeaveLibs(LIVE_UG_KEY);
    LeavesExec(BEFORE_LIB, r.ug, 0, LIVE_UG_KEY); AgreePlain(r.ug.m, r.mid.m, LIVE_UG_KEY);
    LeavesExecItem(LIB_ITEM, r.mid, 0, LIVE_UG_KEY); AgreePlain(r.mid.m, r.lib.m, LIVE_UG_KEY);
    LeavesExec(AFTER_LIB, r.lib, 0, LIVE_UG_KEY); AgreePlain(r.lib.m, r.noted.m, LIVE_UG_KEY);
    LeavesExec(DIR_ITEMS, r.noted, 0, LIVE_UG_KEY); AgreePlain(r.noted.m, r.end.m, LIVE_UG_KEY);
    LeavesExecItem(SELF_DELETE, r.end, 0, LIVE_UG_KEY); AgreePlain(r.end.m, end, LIVE_UG_KEY);
  }

  // --------------------------------------------------- the stack library

  /** The contents under the library's own name and its two parked names. */
  datatype Shelf = Shelf(live: Option<string>, parked: Option<string>, newer: Option<string>)

  function ShelfOf(m: Tree): Shelf {
    Shelf(Content(m, LIB_KEY), Content(m, PARKED_KEY), Content(m, NEWER_KEY))
  }

  predicate PlainShelf(m: Tree) {
    Plain(m, LIB_KEY) && Plain(m, PARKED_KEY) && Plain(m, NEWER_KEY)
  }

  function Contents(l: Shelf): set<string> {
    (if l.live.Some? then {l.live.value} else {})
    + (if l.parked.Some? then {l.parked.value} else {})
    + (if l.newer.Some? then {l.newer.value} else {})
  }

  /** Never over a live library; the newest parked one comes back. */
  function Unpark(l: Shelf): Shelf {
    if l.live.Some? then l
    else if l.newer.Some? then Shelf(l.newer, l.parked, None)
    else Shelf(l.parked, None, None)
  }

  /** A longer name in the same directory. */
  lemma Longer(k: string, x: string)
    requires x != [] && x[0] != '/'
    ensures Unrelated(k, k + x) && k != k + x
  {
    assert (k + x)[|k|] == x[0] && (k + "/")[|k|] == '/';
  }

  lemma ShelfApart()
    ensures Unrelated(LIB_KEY, PARKED_KEY) && Unrelated(LIB_KEY, NEWER_KEY) && Unrelated(PARKED_KEY, NEWER_KEY)
    ensures LIB_KEY != PARKED_KEY && LIB_KEY != NEWER_KEY && PARKED_KEY != NEWER_KEY
    ensures Keylike(LIB_KEY) && Keylike(PARKED_KEY) && Keylike(NEWER_KEY)
  {
    hide LIB_KEY, Unrelated;
    var p, w := ".pre-tolunnet", ".pre-tn-newer";
    Longer(LIB_KEY, p); Longer(LIB_KEY, w);
    assert p[6] == 'o' && w[6] == 'n';
    assert PARKED_KEY[|LIB_KEY| + 6] == 'o' && NEWER_KEY[|LIB_KEY| + 6] == 'n';
    DifferAt(PARKED_KEY, NEWER_KEY, |LIB_KEY| + 6);
    ShelfEnds();
  }

  lemma ShelfEnds()
    ensures Keylike(LIB_KEY) && Keylike(PARKED_KEY) && Keylike(NEWER_KEY)
  {
  }

  lemma ShelfWritable()
    ensures Writable({}, LIB_KEY) && Writable({}, PARKED_KEY) && Writable({}, NEWER_KEY)
  {
    hide ShortNames, AfterColon, LIB_KEY, PARKED_KEY, NEWER_KEY;
    LibsShort();
  }

  /** A rename between two plain, unrelated names moves the content. */
  lemma MovePlain(m: Tree, a: string, b: string, k: string)
    requires Unrelated(a, b) && Plain(m, a) && Plain(m, b) && a in m && b !in m
    requires k == a || k == b || (Unrelated(k, a) && Unrelated(k, b) && Plain(m, k))
    ensures var m' := (m - {a})[b := m[a]];
            Plain(m', k) && Content(m', k) == if k == a then None else if k == b then Content(m, a) else Content(m, k)
  {
    var m' := (m - {a})[b := m[a]];
    assert Children(m', k) <= Children(m, k);
  }

  lemma RenameExec(src: string, dst: string, s: State)
    requires s.halt == Go
    requires Unrelated(Norm(src), Norm(dst)) && Plain(s.m, Norm(src)) && Plain(s.m, Norm(dst))
    requires Keylike(Norm(src)) && Keylike(Norm(dst))
    requires Content(s.m, Norm(src)).Some? && Content(s.m, Norm(dst)).None?
    ensures var a, b := Norm(src), Norm(dst);
            var r := ExecBlock([Rename(src, dst)], s, 0).m;
            && (r == s.m || r == (s.m - {a})[b := s.m[a]])
            && (Writable(s.ro, a) && Writable(s.ro, b) ==> r == (s.m - {a})[b := s.m[a]])
  {
    hide Norm, Writable;
    PlainKind(s.m, Norm(src));
    PlainKind(s.m, Norm(dst));
    ExecOne(Rename(src, dst), s, 0);
  }

  /** The library item either fails and changes nothing, or is Unpark. */
  lemma LibItemExec(s: State)
    requires s.halt == Go && PlainShelf(s.m)
    ensures var r := ExecItem(LIB_ITEM, s, 0).m;
            && PlainShelf(r)
            && (ShelfOf(r) == ShelfOf(s.m) || ShelfOf(r) == Unpark(ShelfOf(s.m)))
            && (s.ro == {} ==> ShelfOf(r) == Unpark(ShelfOf(s.m)))
  {
    hide Norm, Writable, Unrelated, LIB_KEY, PARKED_KEY, NEWER_KEY, Plain, Kind, Keylike;
    LibKeys(); ShelfApart(); ShelfWritable(); UnrelatedSymmetric();
    PlainKind(s.m, LIB_KEY); PlainKind(s.m, PARKED_KEY); PlainKind(s.m, NEWER_KEY);
    var s1 := Observe(s, Exists(LIB));
    var s2 := Observe(s1, Exists(NEWER));
    var s3 := Observe(s2, Exists(PARKED));
    ExecOne(PARKED_ITEM, s1, 0);
    if Content(s.m, LIB_KEY).None? {
      if Content(s.m, NEWER_KEY).Some? {
        RenameExec(NEWER, LIB, s2);
        ContentIn(s.m, NEWER_KEY); ContentIn(s.m, LIB_KEY);
        MovePlain(s.m, NEWER_KEY, LIB_KEY, LIB_KEY);
        MovePlain(s.m, NEWER_KEY, LIB_KEY, NEWER_KEY);
        MovePlain(s.m, NEWER_KEY, LIB_KEY, PARKED_KEY);
      } else {
        ExecOne(When(PARKED, [Rename(PARKED, LIB)]), s2, 0);
        if Content(s.m, PARKED_KEY).Some? {
          assert ExecBlock([When(PARKED, [Rename(PARKED, LIB)])], s2, 0) == ExecBlock([Rename(PARKED, LIB)], s3, 0);
          assert ExecItem(LIB_ITEM, s, 0) == ExecBlock([Rename(PARKED, LIB)], s3, 0);
          RenameExec(PARKED, LIB, s3);
          ContentIn(s.m, PARKED_KEY); ContentIn(s.m, LIB_KEY);
          MovePlain(s.m, PARKED_KEY, LIB_KEY, LIB_KEY);
          MovePlain(s.m, PARKED_KEY, LIB_KEY, NEWER_KEY);
          MovePlain(s.m, PARKED_KEY, LIB_KEY, PARKED_KEY);
        } else {
          assert ExecBlock([When(PARKED, [Rename(PARKED, LIB)])], s2, 0) == ExecBlock([], s3, 0);
          assert ExecItem(LIB_ITEM, s, 0).m == s.m;
          assert Unpark(ShelfOf(s.m)) == ShelfOf(s.m);
        }
      }
    }
  }

  lemma ContentIn(m: Tree, k: string)
    requires Plain(m, k)
    ensures k in m <==> Content(m, k).Some?
  {
  }

  lemma UnrelatedSymmetric()
    ensures forall a, b :: Unrelated(a, b) ==> Unrelated(b, a)
  {
  }

  /** The whole undo acts on the three library names as Unpark, or, under
      write protection, leaves them as they were. */
  lemma UndoLibrary(names: seq<string>, m: Tree, ro: set<string>)
    requires ValidNames(names) && Kind(m, STACKS_KEY) == ABSENT && PlainShelf(m)
    ensures var r := RunUndo(names, m, ro).m;
            && PlainShelf(r)
            && (ShelfOf(r) == ShelfOf(m) || ShelfOf(r) == Unpark(ShelfOf(m)))
            && (ro == {} ==> ShelfOf(r) == Unpark(ShelfOf(m)))
  {
    hide Norm, Kind, ExecItem, ExecBlock, AgreeAt, Leaves, LeavesItem, Content, Plain,
         UG_ITEM, LIB_ITEM, BEFORE_LIB, AFTER_LIB, DIR_ITEMS, RunUndo, NameItems, Unpark;
    var s := AfterHead(m, ro);
    var r := RunStages(names, s);
    UndoIsStages(names, m, ro);
    StagesGo(names, s);
    assert r.mid in [r.named, r.ug, r.mid, r.lib, r.noted, r.end];
    LibsShape();
    KeyThroughStages(names, s, LIB_KEY); KeyThroughStages(names, s, PARKED_KEY); KeyThroughStages(names, s, NEWER_KEY);
    LibItemExec(r.mid);
  }

  lemma KeyThroughStages(names: seq<string>, s: State, k: string)
    requires ValidNames(names) && |k| > 9 && k[4] == 'l' && k[9] == 'b'
    ensures var r := RunStages(names, s);
            var end := ExecItem(SELF_DELETE, r.end, 0).m;
            && (Plain(r.mid.m, k) <==> Plain(s.m, k)) && Content(r.mid.m, k) == Content(s.m, k)
            && (Plain(end, k) <==> Plain(r.lib.m, k)) && Content(end, k) == Content(r.lib.m, k)
  {
    hide Norm, Kind, ExecItem, ExecBlock, AgreeAt, Leaves, LeavesItem, Content, Plain,
         UG_ITEM, LIB_ITEM, BEFORE_LIB, AFTER_LIB, DIR_ITEMS, NameItems;
    var r := RunStages(names, s);
    StagesLeaveLibs(k);
    NamesLeave(names, k);
    LeavesExec(NameItems(names), s, 0, k); AgreePlain(s.m, r.named.m, k);
    LeavesExecItem(UG_ITEM, r.named, 0, k); AgreePlain(r.named.m, r.ug.m, k);
    LeavesExec(BEFORE_LIB, r.ug, 0, k); AgreePlain(r.ug.m, r.mid.m, k);
    LeavesExec(AFTER_LIB, r.lib, 0, k); AgreePlain(r.lib.m, r.noted.m, k);
    LeavesExec(DIR_ITEMS, r.noted, 0, k); AgreePlain(r.noted.m, r.end.m, k);
    LeavesExecItem(SELF_DELETE, r.end, 0, k); AgreePlain(r.end.m, ExecItem(SELF_DELETE, r.end, 0).m, k);
  }

  /** Unparking loses no content and never replaces a live library. */
  lemma UnparkConserves(l: Shelf)
    ensures Contents(Unpark(l)) == Contents(l)
    ensures l.live.Some? ==> Unpark(l).live == l.live
  {
  }
}
