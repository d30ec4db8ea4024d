/** Parking the stack library: what PREPARE does to the library's three
    names, for every combination of contents. */
module InstallLib {
  import opened Seqs
  import opened Files
  import opened Installer
  import opened InstallScript
  import opened InstallSteps
  import opened InstallFrames
  import opened InstallNames
  import opened InstallRun
  import opened Restore
  import Undo
  import UndoRun
  import opened UndoLibs
  import opened Keys

  /** What the script takes for equality: checksum and size. */
  predicate SameBy(sum: string -> nat, a: string, b: string) {
    sum(a) == sum(b) && |a| == |b|
  }

  /** The code the script computes in #tn-lib. */
  function LibCode(l: Shelf, sum: string -> nat): int {
    if l.live.None? then 0
    else if l.parked.None? then 1
    else if SameBy(sum, l.live.value, l.parked.value) then 3
    else if l.newer.None? then 2
    else if SameBy(sum, l.live.value, l.newer.value) then 5
    else 4
  }

  /** The shelf after PREPARE. */
  function ParkShelf(l: Shelf, sum: string -> nat): Shelf {
    match LibCode(l, sum)
    case 1 => Shelf(None, l.live, l.newer)
    case 2 => Shelf(None, l.parked, l.live)
    case 3 => Shelf(None, l.parked, l.newer)
    case 5 => Shelf(None, l.parked, l.newer)
    case _ => l
  }

  // ------------------------------------------------------------- choice

  lemma EvalSame(a: string, b: string, env: Env, st: State)
    requires Content(st.m, Norm(a)).Some? && Content(st.m, Norm(b)).Some?
    ensures Eval(Same(a, b), env, st)
            == Some(Truth(SameBy(env.sum, Content(st.m, Norm(a)).value, Content(st.m, Norm(b)).value)))
  {
    hide Norm, Content;
    EvalFile(a, env, st);
    EvalFile(b, env, st);
    var s := Equal(GetSum(L(a)), GetSum(L(b)));
    var z := Equal(GetSize(L(a)), GetSize(L(b)));
    assert Eval(s, env, st).Some?;
    assert Eval(z, env, st).Some?;
  }

  lemma ChoiceExec(env: Env, st: State)
    requires st.status == Running && PlainShelf(st.m)
    ensures Run([Choose(0), LIB_CHOICE], env, st)
            == st.(vars := st.vars[LIBVAR := Int(LibCode(ShelfOf(st.m), env.sum))])
  {
    hide Norm, Kind, Eval, Exec, Plain, Content, LIB_KEY, PARKED_KEY, NEWER_KEY, Undo.LIB, Undo.PARKED, Undo.NEWER,
         LIBVAR, Same, Keylike;
    LibKeys(); ShelfApart();
    RunTwo(Choose(0), LIB_CHOICE, env, st);
    ExecSet(LIBVAR, 0, env, st);
    var s := st.(vars := st.vars[LIBVAR := Int(0)]);
    PlainKind(s.m, LIB_KEY); PlainKind(s.m, PARKED_KEY); PlainKind(s.m, NEWER_KEY);
    EvalExists(LIB, env, s); EvalExists(PARKED, env, s); EvalExists(NEWER, env, s);
    ExecSkip(env, s);
    var a := LIB_CHOICE;
    ExecIf(a.c, a.thn, a.els, env, s);
    ExecSet(LIBVAR, 1, env, s);
    ExecIf(a.thn.c, a.thn.thn, a.thn.els, env, s);
    if Content(s.m, LIB_KEY).Some? && Content(s.m, PARKED_KEY).Some? {
      EvalSame(LIB, PARKED, env, s);
      var b := a.thn.thn;
      ExecIf(b.c, b.thn, b.els, env, s);
      ExecSet(LIBVAR, 3, env, s); ExecSet(LIBVAR, 2, env, s); ExecSet(LIBVAR, 5, env, s); ExecSet(LIBVAR, 4, env, s);
      ExecIf(b.els.c, b.els.thn, b.els.els, env, s);
      if Content(s.m, NEWER_KEY).Some? {
        EvalSame(LIB, NEWER, env, s);
        ExecIf(b.els.thn.c, b.els.thn.thn, b.els.thn.els, env, s);
      }
    }
    SetTwice(st.vars);
  }

  lemma SetTwice(vars: map<string, Value>)
    ensures forall i: int :: vars[LIBVAR := Int(0)][LIBVAR := Int(i)] == vars[LIBVAR := Int(i)]
  {
  }

  lemma ChosenExec(code: int, s: Stmt, env: Env, st: State)
    requires st.status == Running ==> LIBVAR in st.vars
    ensures Exec(Chosen(code, s), env, st)
            == if st.status == Running && st.vars[LIBVAR] == Int(code) then Exec(s, env, st) else st
  {
    hide Norm, Kind, Exec;
    if st.status == Running {
      assert Eval(Var(LIBVAR), env, st) == Some(st.vars[LIBVAR]);
      assert Eval(N(code), env, st) == Some(Int(code));
      assert Eval(Equal(Var(LIBVAR), N(code)), env, st) == Some(Truth(st.vars[LIBVAR] == Int(code)));
      ExecIf(Equal(Var(LIBVAR), N(code)), s, Skip, env, st);
      ExecSkip(env, st);
    } else {
      ExecStopped(Chosen(code, s), env, st);
    }
  }

  // ------------------------------------------------------------ actions

  /** A rename that reports failure aborts; otherwise the file has moved or
      the install was interrupted just before. */
  lemma ParkExec(dst: string, env: Env, st: State)
    requires st.status == Running && !env.pretend
    requires Unrelated(LIB_KEY, Norm(dst)) && Plain(st.m, LIB_KEY) && Plain(st.m, Norm(dst))
    requires Keylike(LIB_KEY) && Keylike(Norm(dst))
    requires Content(st.m, LIB_KEY).Some? && Content(st.m, Norm(dst)).None?
    ensures var r := Exec(Park(dst), env, st);
            var moved := (st.m - {LIB_KEY})[Norm(dst) := st.m[LIB_KEY]];
            r.vars == st.vars && (r.m == st.m || r.m == moved) && (r.status == Running ==> r.m == moved)
  {
    hide Norm, Writable, LIB_KEY, Undo.LIB, Kind;
    LibKeys();
    PlainKind(st.m, LIB_KEY);
    PlainKind(st.m, Norm(dst));
    var p := Park(dst);
    assert Eval(Pretend, env, st) == Some(Int(0));
    assert Eval(N(0), env, st) == Some(Int(0));
    assert Eval(Equal(Pretend, N(0)), env, st) == Some(Int(1));
    ExecIf(p.thn.c, p.thn.thn, p.thn.els, env, st);
  }

  lemma DropCopyExec(dst: string, env: Env, st: State)
    requires st.status == Running && !env.pretend
    requires Plain(st.m, LIB_KEY) && Keylike(LIB_KEY) && Content(st.m, LIB_KEY).Some? && Content(st.m, Norm(dst)).Some?
    requires SameBy(env.sum, Content(st.m, LIB_KEY).value, Content(st.m, Norm(dst)).value)
    ensures var r := Exec(DropCopy(dst), env, st);
            && r.vars == st.vars && (r.m == st.m || r.m == st.m - {LIB_KEY})
            && (r.status == Running ==> r.m == st.m - {LIB_KEY})
  {
    hide Norm, Writable, LIB_KEY, Undo.LIB, Kind, Same, SameBy;
    LibKeys();
    PlainKind(st.m, LIB_KEY);
    EvalSame(LIB, dst, env, st);
    ExecIf(Same(LIB, dst), Delete(LIB), Skip, env, st);
  }

  lemma RemovedLib(m: Tree)
    requires PlainShelf(m)
    ensures var m' := m - {LIB_KEY};
            PlainShelf(m') && ShelfOf(m') == Shelf(None, ShelfOf(m).parked, ShelfOf(m).newer)
  {
    hide LIB_KEY, PARKED_KEY, NEWER_KEY, Unrelated, Keylike, Kind;
    ShelfApart();
    var m' := m - {LIB_KEY};
    assert Children(m', LIB_KEY) <= Children(m, LIB_KEY);
    assert Children(m', PARKED_KEY) <= Children(m, PARKED_KEY);
    assert Children(m', NEWER_KEY) <= Children(m, NEWER_KEY);
  }

  lemma MovedLib(m: Tree, dst: string)
    requires PlainShelf(m) && (dst == PARKED_KEY || dst == NEWER_KEY)
    requires Content(m, LIB_KEY).Some? && Content(m, dst).None?
    ensures LIB_KEY in m
    ensures var m' := (m - {LIB_KEY})[dst := m[LIB_KEY]]; var l := ShelfOf(m);
            && PlainShelf(m')
            && ShelfOf(m') == if dst == PARKED_KEY then Shelf(None, l.live, l.newer) else Shelf(None, l.parked, l.live)
  {
    hide LIB_KEY, PARKED_KEY, NEWER_KEY, Unrelated, Keylike, Kind, Plain, Content;
    ShelfApart(); UnrelatedSymmetric();
    ContentIn(m, LIB_KEY); ContentIn(m, dst);
    MovePlain(m, LIB_KEY, dst, LIB_KEY);
    MovePlain(m, LIB_KEY, dst, PARKED_KEY);
    MovePlain(m, LIB_KEY, dst, NEWER_KEY);
  }

  /** The five guarded actions that follow the choice. */
  const ACTIONS: seq<Stmt> :=
    [Chosen(4, Abort("differs from both saved copies. Nothing was replaced.")),
     Chosen(1, Park(PARKED)), Chosen(2, Park(NEWER)), Chosen(3, DropCopy(PARKED)), Chosen(5, DropCopy(NEWER))]

  /** Only the action of the chosen code runs. */
  lemma {:induction false} OnlyChosen(p: seq<Stmt>, codes: seq<int>, acts: seq<Stmt>, code: int, env: Env, st: State)
    requires |p| == |codes| == |acts| && forall i :: 0 <= i < |p| ==> p[i] == Chosen(codes[i], acts[i])
    requires forall i, j :: 0 <= i < j < |codes| ==> codes[i] != codes[j]
    requires st.status == Running && LIBVAR in st.vars && st.vars[LIBVAR] == Int(code)
    requires forall i :: 0 <= i < |codes| && codes[i] == code ==> KeepsVar(acts[i], LIBVAR)
    ensures (forall i :: 0 <= i < |codes| ==> codes[i] != code) ==> Run(p, env, st) == st
    ensures forall i :: 0 <= i < |codes| && codes[i] == code ==> Run(p, env, st) == Exec(acts[i], env, st)
  {
    hide Exec, Chosen, KeepsVar, LIBVAR;
    if p != [] {
      ChosenExec(codes[0], acts[0], env, st);
      var mid := Exec(p[0], env, st);
      assert forall i :: 0 <= i < |p[1..]| ==>
               p[1..][i] == p[i + 1] && codes[1..][i] == codes[i + 1] && acts[1..][i] == acts[i + 1];
      if codes[0] == code {
        KeepsVarExec(acts[0], env, st, LIBVAR);
        if mid.status == Running {
          assert forall i :: 0 <= i < |codes[1..]| ==> codes[1..][i] != code;
          OnlyChosen(p[1..], codes[1..], acts[1..], code, env, mid);
        }
      } else {
        OnlyChosen(p[1..], codes[1..], acts[1..], code, env, st);
        assert forall i :: 0 < i < |codes| ==> codes[i] == codes[1..][i - 1] && acts[i] == acts[1..][i - 1];
      }
    }
  }

  lemma ActionsExec(code: int, env: Env, st: State)
    requires st.status == Running && LIBVAR in st.vars && st.vars[LIBVAR] == Int(code)
    ensures var r := Run(ACTIONS, env, st);
            && (code == 0 ==> r == st)
            && (code == 1 ==> r == Exec(Park(PARKED), env, st)) && (code == 2 ==> r == Exec(Park(NEWER), env, st))
            && (code == 3 ==> r == Exec(DropCopy(PARKED), env, st))
            && (code == 5 ==> r == Exec(DropCopy(NEWER), env, st))
            && (code == 4 ==> r.m == st.m && r.status != Running)
  {
    hide Exec, Chosen, Park, DropCopy, LIBVAR, Undo.PARKED, Undo.NEWER;
    var stop := Abort("differs from both saved copies. Nothing was replaced.");
    var codes := [4, 1, 2, 3, 5];
    var acts := [stop, Park(PARKED), Park(NEWER), DropCopy(PARKED), DropCopy(NEWER)];
    ActsKeepLibVar(PARKED); ActsKeepLibVar(NEWER);
    assert KeepsVar(stop, LIBVAR);
    OnlyChosen(ACTIONS, codes, acts, code, env, st);
    assert codes[0] == 4 && codes[1] == 1 && codes[2] == 2 && codes[3] == 3 && codes[4] == 5;
    AbortExec(stop.message, env, st);
  }

  lemma AbortExec(message: string, env: Env, st: State)
    requires st.status == Running
    ensures Exec(Abort(message), env, st) == st.(status := Aborted)
  {
  }

  lemma ActsKeepLibVar(dst: string)
    ensures KeepsVar(Park(dst), LIBVAR) && KeepsVar(DropCopy(dst), LIBVAR)
  {
    var p := Park(dst);
    assert KeepsVar(p.thn.thn, LIBVAR) && KeepsVar(Skip, LIBVAR);
    assert KeepsVar(p.thn, LIBVAR);
    assert KeepsVar(DropCopy(dst).thn, LIBVAR);
  }

  /** The library section for every shelf: it ends with the parked shelf, or
      it stops with the shelf as it was or already parked. */
  lemma PrepareLibExec(env: Env, st: State)
    requires st.status == Running && !env.pretend && PlainShelf(st.m)
    ensures var r, l := Run(PREPARE_LIB, env, st), ShelfOf(st.m);
            && PlainShelf(r.m) && (ShelfOf(r.m) == l || ShelfOf(r.m) == ParkShelf(l, env.sum))
            && (r.status == Running ==> ShelfOf(r.m) == ParkShelf(l, env.sum) && LibCode(l, env.sum) != 4)
  {
    hide Norm, Kind, Run, Exec, Plain, Content, LIB_KEY, PARKED_KEY, NEWER_KEY, Undo.PARKED, Undo.NEWER, LIBVAR, Park,
         DropCopy, LIB_CHOICE, Chosen, Unrelated, Keylike, SameBy;
    var l := ShelfOf(st.m);
    var code := LibCode(l, env.sum);
    var s := st.(vars := st.vars[LIBVAR := Int(code)]);
    assert PREPARE_LIB == [Choose(0), LIB_CHOICE] + ACTIONS;
    RunAppend([Choose(0), LIB_CHOICE], ACTIONS, env, st);
    ChoiceExec(env, st);
    ActionsExec(code, env, s);
    LibKeys(); ShelfApart();
    if code == 1 {
      ParkExec(PARKED, env, s);
      MovedLib(s.m, PARKED_KEY);
    } else if code == 2 {
      ParkExec(NEWER, env, s);
      MovedLib(s.m, NEWER_KEY);
    } else if code == 3 {
      DropCopyExec(PARKED, env, s);
      RemovedLib(s.m);
    } else if code == 5 {
      DropCopyExec(NEWER, env, s);
      RemovedLib(s.m);
    }
  }

  // ------------------------------------------------- the whole install

  lemma LibKeyThrough(names: seq<string>, copied: seq<string>, k: string, env: Env, st: State)
    requires Undo.ValidNames(names) && |k| > 9 && k[4] == 'l' && k[9] == 'b'
    requires forall i :: 0 <= i < |copied| ==> Undo.ValidName(copied[i])
    ensures var r := RunPhases(names, copied, env, st);
            AgreeAt(st.m, r.ug.m, k) && AgreeAt(r.lib.m, r.end.m, k)
  {
    hide AgreeAt, Undo.ValidName, Run, SparesAll, OPENING, DIRS, OursDirs, UndoText, PrepareNames, AtOrBelow,
         BackupKey, NewKey, PREPARE_UG, PREPARE_STARTUP, CopyCommands, COPY_REST, Finish, LiveKey;
    OpeningSpares(k);
    EarlySpares(names, k);
    forall i | 0 <= i < |names| ensures !AtOrBelow(BackupKey(names[i]), k) && !AtOrBelow(NewKey(names[i]), k) {
      NameWritesApart(names[i], k);
    }
    PrepareNamesSpare(names, k);
    UgWriteApart(k);
    PrepareUgSpares(k);
    StartupWritesApart(k);
    PrepareStartupSpares(k);
    forall i | 0 <= i < |copied| ensures !AtOrBelow(LiveKey(copied[i]), k) { LiveApart(copied[i], k); }
    CopiesSpare(copied, k);
    UgLiveApart(k);
    RestSpares(k);
    FinishSpares(names, k);
    var r := RunPhases(names, copied, env, st);
    SparesRun(OPENING, env, st, k);
    SparesRun([TextFile(L(Undo.UNDO), UndoText(names))], env, r.start, k);
    AgreeTrans(st.m, r.start.m, r.written.m, k);
    SparesRun(DIRS + OursDirs(names + [UG]), env, r.written, k);
    AgreeTrans(st.m, r.written.m, r.dirs.m, k);
    SparesRun(PrepareNames(names), env, r.dirs, k);
    AgreeTrans(st.m, r.dirs.m, r.names.m, k);
    SparesRun(PREPARE_UG, env, r.names, k);
    AgreeTrans(st.m, r.names.m, r.ug.m, k);
    SparesRun(PREPARE_STARTUP, env, r.lib, k);
    SparesRun(CopyCommands(copied), env, r.prepared, k);
    AgreeTrans(r.lib.m, r.prepared.m, r.copied.m, k);
    SparesRun(COPY_REST, env, r.copied, k);
    AgreeTrans(r.lib.m, r.copied.m, r.rest.m, k);
    SparesRun(Finish(names), env, r.rest, k);
    AgreeTrans(r.lib.m, r.rest.m, r.end.m, k);
  }

  lemma ShelfKept(m: Tree, m': Tree)
    requires AgreeAt(m, m', LIB_KEY) && AgreeAt(m, m', PARKED_KEY) && AgreeAt(m, m', NEWER_KEY)
    ensures PlainShelf(m) <==> PlainShelf(m')
    ensures ShelfOf(m) == ShelfOf(m')
  {
    hide AgreeAt, Plain, Content, LIB_KEY, PARKED_KEY, NEWER_KEY;
    AgreePlain(m, m', LIB_KEY); AgreePlain(m, m', PARKED_KEY); AgreePlain(m, m', NEWER_KEY);
  }

  /** One install acts on the three library names as ParkShelf; stopped early
      it may also have left them alone. */
  lemma InstallLibrary(names: seq<string>, copied: seq<string>, env: Env, st: State)
    requires Undo.ValidNames(names) && st.status == Running && !env.pretend && PlainShelf(st.m)
    requires forall i :: 0 <= i < |copied| ==> Undo.ValidName(copied[i])
    ensures var r, l := Run(Script(names, copied), env, st), ShelfOf(st.m);
            && PlainShelf(r.m) && (ShelfOf(r.m) == l || ShelfOf(r.m) == ParkShelf(l, env.sum))
            && (r.status == Running ==> ShelfOf(r.m) == ParkShelf(l, env.sum) && LibCode(l, env.sum) != 4)
  {
    hide AgreeAt, Run, Script, PREPARE_LIB, LIB_KEY, PARKED_KEY, NEWER_KEY, PlainShelf, ShelfOf, ParkShelf, LibCode,
         Undo.ValidName;
    ScriptPhases(names, copied, env, st);
    PhasesRunning(names, copied, env, st);
    var r := RunPhases(names, copied, env, st);
    UndoRun.LibsShape();
    LibKeyThrough(names, copied, LIB_KEY, env, st);
    LibKeyThrough(names, copied, PARKED_KEY, env, st);
    LibKeyThrough(names, copied, NEWER_KEY, env, st);
    ShelfKept(st.m, r.ug.m);
    ShelfKept(r.lib.m, r.end.m);
    if r.ug.status == Running {
      PrepareLibExec(env, r.ug);
    } else {
      RunStays(PREPARE_LIB, env, r.ug);
    }
  }

  // ------------------------------------------------------- conservation

  /** Where the script takes the live library for a parked one, it is that one. */
  predicate Faithful(l: Shelf, sum: string -> nat) {
    && (l.live.Some? && l.parked.Some? && SameBy(sum, l.live.value, l.parked.value) ==> l.live == l.parked)
    && (l.live.Some? && l.newer.Some? && SameBy(sum, l.live.value, l.newer.value) ==> l.live == l.newer)
  }

  /** Parking keeps the set of distinct contents exactly when a library that
      is dropped as a copy really has its content parked. */
  lemma ParkConserves(l: Shelf, sum: string -> nat)
    ensures Contents(ParkShelf(l, sum)) == Contents(l) <==>
            (LibCode(l, sum) in {3, 5} ==> l.live == l.parked || l.live == l.newer)
    ensures Faithful(l, sum) ==> Contents(ParkShelf(l, sum)) == Contents(l)
  {
    if l.live.Some? {
      assert l.live.value in Contents(l);
    }
  }

  /** Install, then undo: the live library has its own content back exactly
      when nothing was parked as newer, or that is the same library, or the
      install refused to start. */
  lemma ParkUnpark(l: Shelf, sum: string -> nat)
    requires l.live.Some? && Faithful(l, sum)
    ensures Unpark(ParkShelf(l, sum)).live == l.live <==>
            l.newer.None? || l.newer == l.live || LibCode(l, sum) == 4
  {
    if l.parked.Some? && l.live == l.parked { assert SameBy(sum, l.live.value, l.parked.value); }
  }
}
