/** S:User-Startup through the undo, and through whole histories of installs
    and the undo after them. */
module StartupUndo {
  import opened Seqs
  import opened Files
  import opened Dos
  import opened Undo
  import opened Keys
  import opened Restore
  import opened UndoRun
  import UndoLibs
  import LintScripts
  import InstallFrames
  import InstallGoes
  import InstallScript
  import I = InstallDirs
  import Installer
  import opened StartupFile
  import H = History

  // ------------------------------------------------------------- one item

  /** The desk after the undo: a live User-Startup stays as it is and its backup is
      set aside; where there is no live one, the backup takes its place. What is
      write-protected stays. */
  function Undone(d: Desk, ro: set<string>): Desk {
    var bak, aside := Writable(ro, US_BAK_KEY), Writable(ro, US_OLD_KEY);
    if d.bak.None? then d
    else if d.live.None? then (if bak && Writable(ro, US_KEY) then Desk(d.bak, None, d.aside) else d)
    else if !aside then d
    else if !bak then d.(aside := None)
    else Desk(d.live, None, d.bak)
  }

  /** What every item of the undo keeps. */
  predicate Goes(s: State, r: State) { r.halt == Go && r.failat == s.failat && r.ro == s.ro }

  lemma RenameItemIs(src: string, dst: string, s: State)
    requires s.halt == Go && s.failat > FAIL && Kind(s.m, Norm(src)) == FILE && Norm(src) in s.m
    ensures var r, a, b := ExecItem(Rename(src, dst), s, 0), Norm(src), Norm(dst);
            && Goes(s, r)
            && r.m == if Kind(s.m, b) == ABSENT && Writable(s.ro, a) && Writable(s.ro, b)
                      then (s.m - {a})[b := s.m[a]] else s.m
  {
    hide Norm, Kind, Writable;
  }

  lemma DropItemIs(path: string, s: State)
    requires s.halt == Go && s.failat > FAIL && Plain(s.m, Norm(path)) && Keylike(Norm(path))
    ensures var r, k := ExecItem(Drop(path), s, 0), Norm(path);
            Goes(s, r) && r.m == if k in s.m && Writable(s.ro, k) then s.m - {k} else s.m
  {
    hide Norm, Writable;
    var k := Norm(path);
    ExecOne(Delete(path, false), Observe(s, Exists(path)), 0);
    PlainKind(s.m, k);
    assert {k} + {} == {k};
  }

  lemma ExecThree(a: Item, b: Item, c: Item, s: State)
    requires s.halt == Go && ExecItem(a, s, 0).halt == Go && ExecItem(b, ExecItem(a, s, 0), 0).halt == Go
    ensures ExecBlock([a, b, c], s, 0) == ExecItem(c, ExecItem(b, ExecItem(a, s, 0), 0), 0)
  {
    hide ExecItem;
    assert [a, b, c][1..] == [b, c];
    ExecTwo(b, c, ExecItem(a, s, 0), 0);
  }

  /** With a live User-Startup: its note, and the backup set aside. */
  lemma LivePart(s: State)
    requires s.halt == Go && s.failat > FAIL && PlainDesk(s.m) && DeskOf(s.m).live.Some? && DeskOf(s.m).bak.Some?
    ensures var r := ExecBlock(LIVE_STARTUP_ITEM.thn, s, 0);
            PlainDesk(r.m) && DeskOf(r.m) == Undone(DeskOf(s.m), s.ro)
  {
    hide Norm, Kind, Writable, Plain, Content, Keylike, Unrelated, US_KEY, US_BAK_KEY, US_OLD_KEY, ExecItem,
         STARTUP_NOTE;
    SKeys(); DeskApart();
    var a, b, c := Echo(STARTUP_NOTE), Drop(US_OLD), Rename(US_BAK, US_OLD);
    EchoIs(STARTUP_NOTE, s);
    var s1 := ExecItem(a, s, 0);
    DropItemIs(US_OLD, s1);
    var s2 := ExecItem(b, s1, 0);
    UndoLibs.ContentIn(s.m, US_OLD_KEY);
    DeskDrop(s.m);
    PlainKind(s2.m, US_BAK_KEY); PlainKind(s2.m, US_OLD_KEY);
    UndoLibs.ContentIn(s2.m, US_BAK_KEY); UndoLibs.ContentIn(s2.m, US_OLD_KEY);
    RenameItemIs(US_BAK, US_OLD, s2);
    if DeskOf(s2.m).aside.None? { DeskMove(s2.m, US_OLD_KEY); }
    ExecThree(a, b, c, s);
  }

  lemma EchoIs(text: seq<string>, s: State)
    requires s.halt == Go
    ensures var r := ExecItem(Echo(text), s, 0); Goes(s, r) && r.m == s.m
  {
  }

  /** Without one: the backup becomes it. */
  lemma GonePart(s: State)
    requires s.halt == Go && s.failat > FAIL && PlainDesk(s.m) && DeskOf(s.m).live.None? && DeskOf(s.m).bak.Some?
    ensures var r := ExecBlock([Rename(US_BAK, US)], s, 0);
            PlainDesk(r.m) && DeskOf(r.m) == Undone(DeskOf(s.m), s.ro)
  {
    hide Norm, Kind, Writable, Plain, Content, Keylike, Unrelated, US_KEY, US_BAK_KEY, US_OLD_KEY, ExecItem;
    SKeys(); DeskApart();
    PlainKind(s.m, US_BAK_KEY); PlainKind(s.m, US_KEY);
    UndoLibs.ContentIn(s.m, US_BAK_KEY); UndoLibs.ContentIn(s.m, US_KEY);
    ExecOne(Rename(US_BAK, US), s, 0);
    RenameItemIs(US_BAK, US, s);
    DeskMove(s.m, US_KEY);
  }

  lemma StartupItemExec(s: State)
    requires s.halt == Go && s.failat > FAIL && PlainDesk(s.m)
    ensures var r := ExecItem(STARTUP_ITEM, s, 0).m; PlainDesk(r) && DeskOf(r) == Undone(DeskOf(s.m), s.ro)
  {
    hide Norm, Kind, Writable, Plain, Content, Keylike, Unrelated, US_KEY, US_BAK_KEY, US_OLD_KEY, STARTUP_NOTE;
    SKeys(); DeskApart();
    PlainKind(s.m, US_BAK_KEY); PlainKind(s.m, US_KEY);
    var s1 := Observe(s, Exists(US_BAK));
    var s2 := Observe(s1, Exists(US));
    if DeskOf(s.m).bak.Some? {
      ExecOne(LIVE_STARTUP_ITEM, s1, 0);
      if DeskOf(s.m).live.Some? { LivePart(s2); } else { GonePart(s2); }
    }
  }

  // ------------------------------------------------------- the whole undo

  lemma {:induction false} NamesLeaveDesk(names: seq<string>, k: string)
    requires forall i :: 0 <= i < |names| ==> ValidName(names[i])
    requires InstallFrames.InS(k)
    ensures Leaves(NameItems(names), k)
  {
    hide Norm, Unrelated, LiveKey, BackupKey, NewKey, NameItem;
    if names != [] {
      var n := names[0];
      NameShape(n);
      AreasApart(LiveKey(n), k);
      LintScripts.BackupFifth(n);
      DifferAt(BackupKey(n), k, 5);
      NameLeaves(n, k);
      NamesLeaveDesk(names[1..], k);
      assert NameItems(names)[1..] == NameItems(names[1..]);
    }
  }

  /** All stages but the one on S:User-Startup leave its three names alone. */
  lemma StagesLeaveDesk(k: string)
    requires InstallFrames.InS(k) && k[6] == 'u'
    ensures LeavesItem(UG_ITEM, k) && Leaves(OWN_FILES, k) && LeavesItem(LIB_ITEM, k) && Leaves(AFTER_LIB, k)
    ensures Leaves(DIR_ITEMS, k) && LeavesItem(SELF_DELETE, k)
  {
    hide Norm, Leaves, LeavesItem, Unrelated, UG_ITEM, OWN_FILES, LIB_ITEM, LIB_NOTES, MARKER_ITEMS, DIR_ITEMS,
         SELF_DELETE, BACKUP_UG_KEY, LIVE_UG_KEY, LIB_KEY, PARKED_KEY, NEWER_KEY, NEW_DIR_KEY, OURS_DIR_KEY, C_DIR_KEY,
         LIBS_DIR_KEY, BACKUP_KEY, UNDO_KEY;
    BackupShape(); LibsShape(); LintScripts.StacksShape(); UndoSixth();
    DifferAt(BACKUP_UG_KEY, k, 5); AreasApart(LIVE_UG_KEY, k);
    UgLeaves(k);
    OwnLeaves(k);
    AreasApart(LIB_KEY, k); AreasApart(PARKED_KEY, k); AreasApart(NEWER_KEY, k);
    LibLeaves(k);
    NotesLeave(k);
    DifferAt(NEW_DIR_KEY, k, 5); DifferAt(OURS_DIR_KEY, k, 5);
    MarkersLeave(k);
    AfterLibLeaves(k);
    DifferAt(C_DIR_KEY, k, 5); DifferAt(LIBS_DIR_KEY, k, 5); DifferAt(BACKUP_KEY, k, 5);
    DirsLeave(k);
    DifferAt(UNDO_KEY, k, 6);
    SelfLeaves(k);
  }

  lemma UndoSixth()
    ensures |UNDO_KEY| > 6 && UNDO_KEY[6] == 't'
  {
  }

  /** One of the three names through the other stages; `own` is the state before
      the item on S:User-Startup. */
  lemma DeskKeyThrough(names: seq<string>, s: State, k: string)
    requires ValidNames(names) && InstallFrames.InS(k) && k[6] == 'u'
    ensures var r := RunStages(names, s); var own := ExecBlock(OWN_FILES, r.ug, 0);
            AgreeAt(s.m, own.m, k) && AgreeAt(r.mid.m, ExecItem(SELF_DELETE, r.end, 0).m, k)
  {
    hide Norm, ExecItem, ExecBlock, AgreeAt, Leaves, LeavesItem, UG_ITEM, LIB_ITEM, BEFORE_LIB, AFTER_LIB, DIR_ITEMS,
         NameItems, OWN_FILES, ValidName;
    var r := RunStages(names, s);
    var own, end := ExecBlock(OWN_FILES, r.ug, 0), ExecItem(SELF_DELETE, r.end, 0);
    StagesLeaveDesk(k);
    NamesLeaveDesk(names, k);
    LeavesExec(NameItems(names), s, 0, k);
    LeavesExecItem(UG_ITEM, r.named, 0, k);
    AgreeTrans(s.m, r.named.m, r.ug.m, k);
    LeavesExec(OWN_FILES, r.ug, 0, k);
    AgreeTrans(s.m, r.ug.m, own.m, k);
    LeavesExecItem(LIB_ITEM, r.mid, 0, k);
    LeavesExec(AFTER_LIB, r.lib, 0, k);
    AgreeTrans(r.mid.m, r.lib.m, r.noted.m, k);
    LeavesExec(DIR_ITEMS, r.noted, 0, k);
    AgreeTrans(r.mid.m, r.noted.m, r.end.m, k);
    LeavesExecItem(SELF_DELETE, r.end, 0, k);
    AgreeTrans(r.mid.m, r.end.m, end.m, k);
  }

  lemma MidIs(names: seq<string>, s: State)
    requires s.halt == Go && s.failat > FAIL
    ensures var r := RunStages(names, s); var own := ExecBlock(OWN_FILES, r.ug, 0);
            Goes(s, own) && r.mid == ExecItem(STARTUP_ITEM, own, 0)
  {
    hide UG_ITEM, LIB_ITEM, AFTER_LIB, DIR_ITEMS, ExecItem, OWN_FILES, STARTUP_ITEM, NameItems;
    var r := RunStages(names, s);
    StagesGo(names, s);
    assert r.ug in [r.named, r.ug, r.mid, r.lib, r.noted, r.end];
    OwnSteady();
    SteadyExec(OWN_FILES, r.ug, 0);
    ExecAppend(OWN_FILES, [STARTUP_ITEM], r.ug, 0);
    ExecOne(STARTUP_ITEM, ExecBlock(OWN_FILES, r.ug, 0), 0);
  }

  /** The whole undo on S:User-Startup, for every write protection. */
  lemma UndoStartup(names: seq<string>, m: Tree, ro: set<string>)
    requires ValidNames(names) && Kind(m, STACKS_KEY) == ABSENT && PlainDesk(m)
    ensures var r := RunUndo(names, m, ro).m; PlainDesk(r) && DeskOf(r) == Undone(DeskOf(m), ro)
  {
    hide Norm, Kind, ExecItem, ExecBlock, AgreeAt, PlainDesk, DeskOf, RunUndo, OWN_FILES, STARTUP_ITEM, RunStages,
         US_KEY, US_BAK_KEY, US_OLD_KEY, Undone, ValidName, SELF_DELETE;
    var s := AfterHead(m, ro);
    var r := RunStages(names, s);
    var own, end := ExecBlock(OWN_FILES, r.ug, 0), ExecItem(SELF_DELETE, r.end, 0);
    UndoIsStages(names, m, ro);
    DeskKeys();
    DeskKeyThrough(names, s, US_KEY); DeskKeyThrough(names, s, US_BAK_KEY); DeskKeyThrough(names, s, US_OLD_KEY);
    DeskKept(s.m, own.m);
    MidIs(names, s);
    StartupItemExec(own);
    DeskKept(r.mid.m, end.m);
  }

  // ------------------------------------------------------- whole histories

  /** The boot lines merged in `k` times. */
  function Booted(boot: string -> string, text: string, k: nat): string {
    if k == 0 then text else boot(Booted(boot, text, k - 1))
  }

  /** A system without a backup of User-Startup and without an undo script. */
  predicate Unbooted(m: Tree) {
    PlainDesk(m) && DeskOf(m).bak.None? && Kind(m, UNDO_KEY) == ABSENT && Kind(m, STACKS_KEY) == ABSENT
  }

  lemma InstallDesk(pc: H.Machine, i: H.Install, m: Tree)
    requires H.Sound(i) && PlainDesk(m)
    ensures var r, d, had := H.RunInstall(pc, i, m), DeskOf(m), Kind(m, UNDO_KEY) != ABSENT;
            && PlainDesk(r.m) && Kind(r.m, STACKS_KEY) == Kind(m, STACKS_KEY)
            && (r.m == m || H.UndoFor(r.m, i.names)) && (r.status == Installer.Running ==> H.UndoFor(r.m, i.names))
            && (r.status == Installer.Running ==> DeskOf(r.m) == Installed(d, had, CanSetAside(i.ro), pc.boot))
            && (r.status != Installer.Running ==> Midway(d, had, DeskOf(r.m)))
  {
    hide Installer.Run, InstallScript.Script, DeskOf, PlainDesk, Kind, ValidName, CanSetAside, STACKS_KEY, UNDO_KEY;
    var env := Installer.Env(i.package, false, pc.sum, pc.boot);
    var st := Installer.State(m, i.ro, map[], i.writes, Installer.Running);
    InstallStartup(i.names, i.copied, env, st);
    I.UndoFirst(i.names, i.copied, env, st);
    I.StacksStayAbsent(i.names, i.copied, env, st);
  }

  /** After completed installs the backup is still the text from before the first. */
  lemma {:induction false} CompletedDesk(pc: H.Machine, history: seq<H.Install>, m0: Tree)
    requires H.AllSound(history) && H.Complete(pc, history, m0) && Unbooted(m0)
    ensures var m, d0 := H.After(pc, history, m0), DeskOf(m0); var n, text := |history|, Told(d0);
            && PlainDesk(m) && Kind(m, STACKS_KEY) == ABSENT
            && if n == 0 then m == m0
               else DeskOf(m) == Desk(Some(Booted(pc.boot, text, n)), Some(text), d0.aside)
                    && H.UndoFor(m, history[n - 1].names)
  {
    hide H.RunInstall, H.Sound, H.UndoFor, DeskOf, PlainDesk, Kind, STACKS_KEY, UNDO_KEY, CanSetAside;
    if history != [] {
      var front, last := history[..|history| - 1], history[|history| - 1];
      H.CompleteFront(pc, history, m0);
      CompletedDesk(pc, front, m0);
      var m := H.After(pc, front, m0);
      assert history[..|history| - 1] == front;
      InstallDesk(pc, last, m);
      if front != [] {
        SoundNames(front[|front| - 1]);
        UndoThere(m, front[|front| - 1].names);
      }
    }
  }

  lemma UndoThere(m: Tree, names: seq<string>)
    requires ValidNames(names) && H.UndoFor(m, names)
    ensures Kind(m, UNDO_KEY) != ABSENT
  {
    hide InstallScript.UndoText;
    UndoLike();
  }

  lemma UndoLike()
    ensures Keylike(UNDO_KEY)
  {
  }

  /** Where the user's text is after a history and its undo: `k` is how often the
      live file has got the boot lines. */
  predicate Kept(d0: Desk, e: Desk, boot: string -> string, k: nat) {
    var text := Told(d0);
    && (e.live == Some(Booted(boot, text, k)) || (k == 0 && e.live == d0.live))
    && (k > 0 ==> e.bak == Some(text) || e.aside == Some(text))
  }

  /** The undo of a desk that an install of this history left. */
  lemma UndoneKept(d0: Desk, e: Desk, ro: set<string>, boot: string -> string, k: nat)
    requires Kept(d0, e, boot, k) && (k > 0 ==> e.bak == Some(Told(d0)))
    requires e.bak.None? || e.bak == Some(Told(d0))
    ensures Kept(d0, Undone(e, ro), boot, k)
    ensures ro == {} ==> Undone(e, ro).bak.None?
  {
    hide Writable, US_KEY, US_BAK_KEY, US_OLD_KEY, Booted;
    if ro == {} { DeskWritable(); }
    BootedNone(boot, Told(d0));
  }

  lemma BootedNone(boot: string -> string, text: string)
    ensures Booted(boot, text, 0) == text
  {
  }

  lemma DeskWritable()
    ensures Writable({}, US_KEY) && Writable({}, US_BAK_KEY) && Writable({}, US_OLD_KEY)
  {
    hide Writable, InstallGoes.Slot;
    var u, b, o := "user-startup", "user-startup" + ".tolunnet-bak", "user-startup" + ".tolunnet-old";
    assert NoSlash(u) && NoSlash(b) && NoSlash(o);
    InstallGoes.SSlot(u); InstallGoes.SSlot(b); InstallGoes.SSlot(o);
    assert "sys:s/" + u == US_KEY && "sys:s/" + b == US_BAK_KEY && "sys:s/" + o == US_OLD_KEY;
    SlotsWritable();
  }

  lemma SlotsWritable()
    ensures forall k, d :: InstallGoes.Slot(k, d) ==> Writable({}, k)
  {
  }

  /** The last install of a history, stopped anywhere or completed. */
  lemma LastDesk(pc: H.Machine, history: seq<H.Install>, m0: Tree) returns (k: nat)
    requires H.Runs(pc, history, m0) && Unbooted(m0)
    ensures var m, d0 := H.After(pc, history, m0), DeskOf(m0); var e := DeskOf(m);
            && PlainDesk(m) && Kind(m, STACKS_KEY) == ABSENT && k <= |history|
            && Kept(d0, e, pc.boot, k) && (k > 0 ==> e.bak == Some(Told(d0)))
            && (e.bak.None? || e.bak == Some(Told(d0)))
    ensures var m := H.After(pc, history, m0);
            m == m0 || exists names :: ValidNames(names) && H.UndoFor(m, names)
  {
    hide H.RunInstall, H.Sound, H.UndoFor, DeskOf, PlainDesk, Kind, STACKS_KEY, UNDO_KEY, CanSetAside, Booted,
         ValidName;
    BootedNone(pc.boot, Told(DeskOf(m0)));
    k := 0;
    if history != [] {
      var front, last := history[..|history| - 1], history[|history| - 1];
      CompletedDesk(pc, front, m0);
      var m := H.After(pc, front, m0);
      InstallDesk(pc, last, m);
      BootedNext(pc.boot, Told(DeskOf(m0)), |front|);
      SoundNames(last);
      if front != [] {
        SoundNames(front[|front| - 1]);
        UndoThere(m, front[|front| - 1].names);
      }
      k := if H.RunInstall(pc, last, m).status == Installer.Running then |history| else |front|;
    }
  }

  lemma SoundNames(i: H.Install)
    requires H.Sound(i)
    ensures ValidNames(i.names)
  {
  }

  lemma BootedNext(boot: string -> string, text: string, k: nat)
    ensures Booted(boot, text, k + 1) == boot(Booted(boot, text, k))
  {
  }

  /** After any number of completed installs of any versions, one more stopped at
      any write, and the undo under any write protection: the live User-Startup is
      the user's text with the boot lines merged in as often as an install
      completed, and once that has happened the text itself is in the backup or set
      aside. With nothing protected no backup is left, so that the next install
      takes a fresh one. */
  lemma HistoryStartup(pc: H.Machine, history: seq<H.Install>, m0: Tree, ro: set<string>)
    requires H.Runs(pc, history, m0) && Unbooted(m0)
    ensures var end := H.UndoOf(H.After(pc, history, m0), ro).m;
            && PlainDesk(end)
            && (exists k: nat :: k <= |history| && Kept(DeskOf(m0), DeskOf(end), pc.boot, k))
            && (ro == {} ==> DeskOf(end).bak.None?)
  {
    hide H.UndoFor, DeskOf, PlainDesk, Kind, STACKS_KEY, UNDO_KEY, Kept, H.UndoOf, RunUndo, H.After, Undone, ValidName;
    var k := LastDesk(pc, history, m0);
    var m := H.After(pc, history, m0);
    if m == m0 {
      H.UndoOfPristine(m, ro);
    } else {
      var names :| ValidNames(names) && H.UndoFor(m, names);
      H.UndoIsRunUndo(names, m, ro);
      UndoStartup(names, m, ro);
      UndoneKept(DeskOf(m0), DeskOf(m), ro, pc.boot, k);
    }
  }
}
