/** S:User-Startup through the install: its text, its backup and the set-aside
    older backup, at every stopping point and under every write protection. */
module StartupFile {
  import opened Seqs
  import opened Files
  import opened Installer
  import opened InstallScript
  import opened InstallSteps
  import opened InstallFrames
  import opened InstallNames
  import opened InstallRun
  import opened InstallGoes
  import opened InstallCompletes
  import opened Restore
  import opened UndoLibs
  import Undo
  import UndoRun
  import opened Keys

  // ---------------------------------------------------------- three names

  /** The texts of S:User-Startup, of its backup, and of a backup set aside. */
  datatype Desk = Desk(live: Option<string>, bak: Option<string>, aside: Option<string>)

  function DeskOf(m: Tree): Desk { Desk(Content(m, US_KEY), Content(m, US_BAK_KEY), Content(m, US_OLD_KEY)) }

  predicate PlainDesk(m: Tree) { Plain(m, US_KEY) && Plain(m, US_BAK_KEY) && Plain(m, US_OLD_KEY) }

  /** The user's text; a missing file counts as an empty one. */
  function Told(d: Desk): string { if d.live.Some? then d.live.value else "" }

  lemma DeskApart()
    ensures Unrelated(US_KEY, US_BAK_KEY) && Unrelated(US_KEY, US_OLD_KEY) && Unrelated(US_BAK_KEY, US_OLD_KEY)
    ensures US_KEY != US_BAK_KEY && US_KEY != US_OLD_KEY && US_BAK_KEY != US_OLD_KEY
    ensures Keylike(US_KEY) && Keylike(US_BAK_KEY) && Keylike(US_OLD_KEY)
  {
    hide US_KEY, Unrelated;
    var b, o := ".tolunnet-bak", ".tolunnet-old";
    Longer(US_KEY, b); Longer(US_KEY, o);
    assert b[10] == 'b' && o[10] == 'o';
    assert US_BAK_KEY[|US_KEY| + 10] == 'b' && US_OLD_KEY[|US_KEY| + 10] == 'o';
    DifferAt(US_BAK_KEY, US_OLD_KEY, |US_KEY| + 10);
    DeskEnds();
  }

  lemma DeskEnds()
    ensures Keylike(US_KEY) && Keylike(US_BAK_KEY) && Keylike(US_OLD_KEY)
  {
  }

  lemma WritePlain(m: Tree, k: string, data: string, j: string)
    requires Plain(m, k) && Plain(m, j) && (j == k || Unrelated(j, k))
    ensures var m' := m[k := File(data)]; Plain(m', j) && Content(m', j) == if j == k then Some(data) else Content(m, j)
  {
    var m' := m[k := File(data)];
    assert !Below(k, k);
    assert Children(m', j) <= Children(m, j);
  }

  lemma DeskWrite(m: Tree, k: string, data: string)
    requires PlainDesk(m) && (k == US_KEY || k == US_BAK_KEY)
    ensures var m' := m[k := File(data)];
            && PlainDesk(m')
            && DeskOf(m') == if k == US_KEY then DeskOf(m).(live := Some(data)) else DeskOf(m).(bak := Some(data))
  {
    hide US_KEY, US_BAK_KEY, US_OLD_KEY, Plain, Content, Unrelated, Keylike;
    DeskApart(); UnrelatedSymmetric();
    WritePlain(m, k, data, US_KEY); WritePlain(m, k, data, US_BAK_KEY); WritePlain(m, k, data, US_OLD_KEY);
  }

  lemma DeskDrop(m: Tree)
    requires PlainDesk(m)
    ensures var m' := m - {US_OLD_KEY}; PlainDesk(m') && DeskOf(m') == DeskOf(m).(aside := None)
  {
    hide US_KEY, US_BAK_KEY, US_OLD_KEY, Unrelated, Keylike;
    DeskApart();
    var m' := m - {US_OLD_KEY};
    assert Children(m', US_KEY) <= Children(m, US_KEY);
    assert Children(m', US_BAK_KEY) <= Children(m, US_BAK_KEY);
    assert Children(m', US_OLD_KEY) <= Children(m, US_OLD_KEY);
  }

  /** The backup moves to `b`, where nothing is. */
  lemma DeskMove(m: Tree, b: string)
    requires PlainDesk(m) && (b == US_KEY || b == US_OLD_KEY) && US_BAK_KEY in m && b !in m
    ensures var m' := (m - {US_BAK_KEY})[b := m[US_BAK_KEY]]; var d := DeskOf(m);
            && PlainDesk(m')
            && DeskOf(m') == if b == US_KEY then Desk(d.bak, None, d.aside) else Desk(d.live, None, d.bak)
  {
    hide US_KEY, US_BAK_KEY, US_OLD_KEY, Plain, Content, Unrelated, Keylike;
    DeskApart(); UnrelatedSymmetric();
    MovePlain(m, US_BAK_KEY, b, US_KEY);
    MovePlain(m, US_BAK_KEY, b, US_BAK_KEY);
    MovePlain(m, US_BAK_KEY, b, US_OLD_KEY);
  }

  // -------------------------------------------------------- the statements

  /** The rest of a state that a statement leaves alone. */
  predicate SameRest(st: State, r: State) { r.vars == st.vars && r.ro == st.ro }

  lemma WriteStops(st: State, path: string, e: Entry)
    requires st.status == Running
    ensures var r := Write(st, path, e);
            SameRest(st, r) && r.m == if r.status == Running then st.m[Norm(path) := e] else st.m
  {
    hide Norm, Kind;
  }

  /** A User-Startup is made only where there is none. */
  lemma MakeDoes(env: Env, st: State)
    requires st.status == Running && !env.pretend && PlainDesk(st.m)
    ensures var r, d := Exec(US_MAKE, env, st), DeskOf(st.m);
            && SameRest(st, r) && PlainDesk(r.m)
            && DeskOf(r.m) == if r.status == Running then d.(live := Some(Told(d))) else d
  {
    hide Norm, Exec, US_KEY, US_BAK_KEY, US_OLD_KEY, Kind, Undo.US_BAK, Undo.US_OLD, Plain, Content, Keylike, Unrelated;
    SKeys(); DeskApart();
    EvalExists(US, env, st);
    ExecIf(US_MAKE.c, US_MAKE.thn, US_MAKE.els, env, st);
    ExecSkip(env, st);
    PlainKind(st.m, US_KEY);
    if Content(st.m, US_KEY).None? {
      TextIs(US, "", env, st);
      WriteStops(st, US, File(""));
      DeskWrite(st.m, US_KEY, "");
    }
  }

  lemma TextIs(path: string, body: string, env: Env, st: State)
    requires st.status == Running && !env.pretend
    ensures Exec(TextFile(L(path), body), env, st) == Write(st, path, File(body))
  {
    hide Norm, Kind, Write;
    assert Eval(L(path), env, st) == Some(Str(path));
  }

  /** #tn-stale says that there is a backup and was no undo script. */
  lemma StaleIs(env: Env, st: State)
    requires st.status == Running && PlainDesk(st.m) && HAD_UNDO in st.vars
    ensures var stale := st.vars[HAD_UNDO] == Int(0) && DeskOf(st.m).bak.Some?;
            Exec(US_STALE, env, Exec(Set(STALE, N(0)), env, st)) == st.(vars := st.vars[STALE := Truth(stale)])
  {
    hide Norm, Exec, Kind, Undo.US_BAK, Undo.US_OLD, STALE, HAD_UNDO, Plain, Content, Keylike, Unrelated,
         US_KEY, US_BAK_KEY, US_OLD_KEY;
    SKeys(); DeskApart(); StaleVars();
    ExecSet(STALE, 0, env, st);
    var s1 := st.(vars := st.vars[STALE := Int(0)]);
    TestExec(HAD_UNDO, 0, US_STALE.thn, env, s1);
    PlainKind(s1.m, US_BAK_KEY);
    EvalExists(US_BAK, env, s1);
    ExecIf(US_STALE.thn.c, US_STALE.thn.thn, US_STALE.thn.els, env, s1);
    ExecSet(STALE, 1, env, s1);
    ExecSkip(env, s1);
    assert st.vars[STALE := Int(0)][STALE := Int(1)] == st.vars[STALE := Int(1)];
  }

  lemma StaleVars()
    ensures STALE != HAD_UNDO && USBAK != HAD_UNDO && USBAK != STALE
  {
    assert STALE[4] == 's' && HAD_UNDO[4] == 'h' && USBAK[4] == 'u';
  }

  /** An older backup set aside before makes room, or the install stops. */
  lemma DropDoes(env: Env, st: State)
    requires st.status == Running && !env.pretend && PlainDesk(st.m) && STALE in st.vars
    ensures var r, d := Exec(US_DROP, env, st), DeskOf(st.m);
            && SameRest(st, r) && PlainDesk(r.m)
            && DeskOf(r.m) == if r.status == Running && st.vars[STALE] == Int(1) then d.(aside := None) else d
  {
    hide Norm, US_KEY, US_OLD_KEY, US_BAK_KEY, Kind, Undo.US_BAK, Undo.US_OLD, STALE, Exec, Writable, Plain, Content,
         Keylike, Unrelated;
    SKeys(); DeskApart();
    TestExec(STALE, 1, US_DROP.thn, env, st);
    PlainKind(st.m, US_OLD_KEY);
    EvalExists(US_OLD, env, st);
    ExecIf(US_DROP.thn.c, US_DROP.thn.thn, US_DROP.thn.els, env, st);
    ExecSkip(env, st);
    if Content(st.m, US_OLD_KEY).Some? {
      DeleteIs(US_OLD, env, st);
      DeskDrop(st.m);
    }
  }

  lemma DeleteIs(path: string, env: Env, st: State)
    requires st.status == Running && !env.pretend
    ensures var r := Exec(Delete(path), env, st);
            SameRest(st, r) && r.m == if r.status == Running then st.m - {Norm(path)} else st.m
  {
    hide Norm, Kind, Writable;
  }

  predicate CanSetAside(ro: set<string>) { Writable(ro, US_BAK_KEY) && Writable(ro, US_OLD_KEY) }

  /** The stale backup is set aside; a rename that fails is passed over. */
  lemma MoveDoes(env: Env, st: State)
    requires st.status == Running && !env.pretend && PlainDesk(st.m) && STALE in st.vars
    requires st.vars[STALE] == Int(1) ==> DeskOf(st.m).bak.Some? && DeskOf(st.m).aside.None?
    ensures var r, d := Exec(US_MOVE, env, st), DeskOf(st.m);
            && SameRest(st, r) && PlainDesk(r.m)
            && DeskOf(r.m) == if r.status == Running && st.vars[STALE] == Int(1) && CanSetAside(st.ro)
                              then Desk(d.live, None, d.bak) else d
  {
    hide Norm, US_KEY, US_OLD_KEY, US_BAK_KEY, Kind, Undo.US_BAK, Undo.US_OLD, STALE, Exec, Writable, Plain, Content,
         Keylike, Unrelated;
    SKeys(); DeskApart();
    TestExec(STALE, 1, Rename(US_BAK, US_OLD), env, st);
    PlainKind(st.m, US_OLD_KEY); PlainKind(st.m, US_BAK_KEY);
    ContentIn(st.m, US_OLD_KEY); ContentIn(st.m, US_BAK_KEY);
    if st.vars[STALE] == Int(1) {
      RenameIs(US_BAK, US_OLD, env, st);
      DeskMove(st.m, US_OLD_KEY);
    }
  }

  lemma RenameIs(src: string, dst: string, env: Env, st: State)
    requires st.status == Running && !env.pretend && Norm(src) in st.m
    requires Kind(st.m, Norm(src)) == FILE && Kind(st.m, Norm(dst)) == ABSENT
    ensures var r, a, b := Exec(Rename(src, dst), env, st), Norm(src), Norm(dst);
            && SameRest(st, r)
            && r.m == if r.status == Running && Writable(st.ro, a) && Writable(st.ro, b) then (st.m - {a})[b := st.m[a]]
                      else st.m
  {
    hide Norm, Writable, Kind;
  }

  lemma AskIs(env: Env, st: State)
    requires st.status == Running && PlainDesk(st.m)
    ensures Exec(US_ASK, env, Exec(Set(USBAK, N(0)), env, st))
            == st.(vars := st.vars[USBAK := Truth(DeskOf(st.m).bak.None?)])
  {
    hide Norm, Exec, Kind, Undo.US_BAK, Undo.US_OLD, USBAK, Plain, Content, Keylike, Unrelated, US_KEY, US_BAK_KEY,
         US_OLD_KEY;
    SKeys(); DeskApart();
    ExecSet(USBAK, 0, env, st);
    var s1 := st.(vars := st.vars[USBAK := Int(0)]);
    PlainKind(s1.m, US_BAK_KEY);
    EvalExists(US_BAK, env, s1);
    ExecIf(US_ASK.c, US_ASK.thn, US_ASK.els, env, s1);
    ExecSet(USBAK, 1, env, s1);
    ExecSkip(env, s1);
    assert st.vars[USBAK := Int(0)][USBAK := Int(1)] == st.vars[USBAK := Int(1)];
  }

  /** The backup that was asked for is a copy of the live file. */
  lemma SaveDoes(env: Env, st: State)
    requires st.status == Running && !env.pretend && PlainDesk(st.m) && USBAK in st.vars && DeskOf(st.m).live.Some?
    ensures var r, d := Exec(US_SAVE, env, st), DeskOf(st.m);
            && SameRest(st, r) && PlainDesk(r.m)
            && DeskOf(r.m) == if r.status == Running && st.vars[USBAK] == Int(1) then d.(bak := d.live) else d
  {
    hide Norm, US_KEY, US_OLD_KEY, US_BAK_KEY, Kind, Undo.US_BAK, Undo.US_OLD, USBAK, Exec, Write, Plain,
         Keylike, Unrelated, InDir;
    SKeys(); BakPath();
    TestExec(USBAK, 1, US_SAVE.thn, env, st);
    if st.vars[USBAK] == Int(1) {
      SaveIs(env, st);
      WriteStops(st, US_BAK, st.m[US_KEY]);
      DeskWrite(st.m, US_BAK_KEY, st.m[US_KEY].data);
    }
  }

  lemma SaveIs(env: Env, st: State)
    requires st.status == Running && !env.pretend && US_KEY in st.m
    ensures Exec(US_SAVE.thn, env, st) == Write(st, US_BAK, st.m[US_KEY])
  {
    hide Norm, US_KEY, US_BAK_KEY, Kind, Undo.US_BAK, Undo.US_OLD, Write, InDir;
    SKeys(); BakPath();
    assert ':' in US by { assert US[1] == ':'; }
    assert Source(US, env, st) == Some(st.m[US_KEY]);
    assert Exec(US_SAVE.thn, env, st) == RunCopyFiles(US_SAVE.thn, env, st);
  }

  lemma CheckPasses(env: Env, st: State)
    requires st.status == Running && !env.pretend && USBAK in st.vars
    requires st.vars[USBAK] == Int(1) ==> DeskOf(st.m).live.Some? && DeskOf(st.m).bak == DeskOf(st.m).live
    ensures Exec(US_CHECK, env, st) == st
  {
    hide Norm, US_KEY, US_BAK_KEY, Kind, Undo.US_BAK, Undo.US_OLD, USBAK, Exec, Content, Eval;
    SKeys();
    TestExec(USBAK, 1, US_CHECK.thn, env, st);
    if st.vars[USBAK] == Int(1) { EqualSizes(US, US_BAK, "Backup of S:User-Startup failed.", env, st); }
  }

  // ----------------------------------------------------------- the section

  /** The desk when PREPARE goes on: with an undo script a backup that is there
      stays; one without an undo script is stale and set aside if it can be. */
  function Prepared(d: Desk, had: bool, can: bool): Desk {
    var text := Some(Told(d));
    if d.bak.None? then Desk(text, text, d.aside)
    else if had then Desk(text, d.bak, d.aside)
    else if can then Desk(text, text, d.bak)
    else Desk(text, d.bak, None)
  }

  /** What holds wherever PREPARE stops: the user's text is live, a new backup is of
      that text, and one that was there is still there, in its place or set aside. */
  predicate Midway(d: Desk, had: bool, e: Desk) {
    && (e.live == d.live || (d.live.None? && e.live == Some("")))
    && (e.bak == d.bak || e.bak.None? || e.bak == Some(Told(d)))
    && (d.bak.Some? ==> e.bak == d.bak || (!had && e.aside == d.bak))
    && (had || d.bak.None? ==> e.aside == d.aside)
  }

  /** From a running state, statement by statement. */
  lemma SectionExec(env: Env, st: State)
    requires st.status == Running && !env.pretend && PlainDesk(st.m) && HAD_UNDO in st.vars
    ensures var r, d, had := Run(PREPARE_STARTUP, env, st), DeskOf(st.m), st.vars[HAD_UNDO] != Int(0);
            && PlainDesk(r.m) && r.ro == st.ro && Midway(d, had, DeskOf(r.m))
            && (r.status == Running ==> DeskOf(r.m) == Prepared(d, had, CanSetAside(st.ro)))
  {
    hide Exec, Run, DeskOf, PlainDesk, Undo.US_BAK, Undo.US_OLD, STALE, USBAK, HAD_UNDO, CanSetAside,
         US_MAKE, US_STALE, US_DROP, US_MOVE, US_ASK, US_SAVE, US_CHECK;
    var p := PREPARE_STARTUP;
    assert p[0..] == p;
    StaleVars();
    RunStep(p, 0, env, st);
    MakeDoes(env, st);
    var s0 := Exec(p[0], env, st);
    RunStays(p[1..], env, s0);
    if s0.status == Running {
      StaleIs(env, s0);
      RunStep(p, 1, env, s0);
      RunStep(p, 2, env, Exec(p[1], env, s0));
      var s2 := Exec(p[2], env, Exec(p[1], env, s0));
      RunStep(p, 3, env, s2);
      DropDoes(env, s2);
      var s3 := Exec(p[3], env, s2);
      RunStays(p[4..], env, s3);
      if s3.status == Running {
        RunStep(p, 4, env, s3);
        MoveDoes(env, s3);
        var s4 := Exec(p[4], env, s3);
        RunStays(p[5..], env, s4);
        if s4.status == Running { LastPart(env, s4); }
      }
    }
  }

  /** The last four statements: a backup where there is none. */
  lemma LastPart(env: Env, st: State)
    requires st.status == Running && !env.pretend && PlainDesk(st.m) && DeskOf(st.m).live.Some?
    ensures var r, d := Run(PREPARE_STARTUP[5..], env, st), DeskOf(st.m);
            && PlainDesk(r.m) && r.ro == st.ro && |PREPARE_STARTUP| == 9
            && DeskOf(r.m) == if r.status == Running && d.bak.None? then d.(bak := d.live) else d
  {
    hide Exec, Run, DeskOf, PlainDesk, Undo.US_BAK, Undo.US_OLD, STALE, USBAK, HAD_UNDO,
         US_MAKE, US_STALE, US_DROP, US_MOVE, US_ASK, US_SAVE, US_CHECK;
    var p := PREPARE_STARTUP;
    RunStep(p, 5, env, st);
    RunStep(p, 6, env, Exec(p[5], env, st));
    AskIs(env, st);
    var s6 := Exec(p[6], env, Exec(p[5], env, st));
    RunStep(p, 7, env, s6);
    SaveDoes(env, s6);
    var s7 := Exec(p[7], env, s6);
    RunStays(p[8..], env, s7);
    if s7.status == Running {
      RunStep(p, 8, env, s7);
      CheckPasses(env, s7);
      assert p[9..] == [];
      RunNone(env, s7);
    }
  }

  // ----------------------------------------------------- the whole install

  lemma {:induction false} RoStaysExec(s: Stmt, env: Env, st: State)
    ensures Exec(s, env, st).ro == st.ro
  {
    hide Norm, Kind, Eval, Writable;
    match s {
      case If(_, thn, els) => RoStaysExec(thn, env, st); RoStaysExec(els, env, st);
      case IfRenameFails(src, dst, thn) => RoStaysExec(thn, env, RunRename(src, dst, env, st).0);
      case _ =>
    }
  }

  lemma {:induction false} RoStays(p: seq<Stmt>, env: Env, st: State)
    ensures Run(p, env, st).ro == st.ro
  {
    hide Exec;
    if p != [] && st.status == Running {
      RoStaysExec(p[0], env, st);
      RoStays(p[1..], env, Exec(p[0], env, st));
    }
  }

  ghost predicate AllKeepHad(p: seq<Stmt>) { forall i :: 0 <= i < |p| ==> KeepsVar(p[i], HAD_UNDO) }

  lemma KeepHadIf(c: Exp, thn: Stmt, els: Stmt)
    requires KeepsVar(thn, HAD_UNDO) && KeepsVar(els, HAD_UNDO)
    ensures KeepsVar(If(c, thn, els), HAD_UNDO)
  {
  }

  lemma SetKeepsHad(v: string, e: Exp)
    requires v != HAD_UNDO
    ensures KeepsVar(Set(v, e), HAD_UNDO)
  {
  }

  lemma {:induction false} OursKeepHad(tags: seq<string>)
    ensures AllKeepHad(OursDirs(tags))
  {
    hide HAD_UNDO, BK;
    if tags != [] {
      EnsureKeepsHad(BK + "/ours/" + tags[0]);
      OursKeepHad(tags[1..]);
    }
  }

  lemma EnsureKeepsHad(d: string)
    ensures KeepsVar(EnsureDir(d), HAD_UNDO)
  {
    assert KeepsVar(MakeDir(d), HAD_UNDO) && KeepsVar(Skip, HAD_UNDO);
  }

  lemma DirsKeepHad()
    ensures AllKeepHad(DIRS)
  {
    hide HAD_UNDO, BK, EnsureDir;
    EnsureKeepsHad("SYS:Storage"); EnsureKeepsHad(BK); EnsureKeepsHad(BK + "/C");
    EnsureKeepsHad(BK + "/Libs"); EnsureKeepsHad(BK + "/new"); EnsureKeepsHad(BK + "/ours");
  }

  lemma DecisionKeepsHad(f: Saved, markNew: bool)
    ensures AllKeepHad(Decision(f, markNew))
  {
    hide HAD_UNDO, ACT, LEGACY, MarkExp;
    HadDiffers();
    var s := Decision(f, markNew)[1];
    SetKeepsHad(ACT, N(0)); SetKeepsHad(ACT, N(1)); SetKeepsHad(ACT, N(2));
    SkipKeepsHad();
    var a := s.thn;
    var b := a.thn;
    KeepHadIf(b.thn.c, b.thn.thn, b.thn.els);
    KeepHadIf(b.c, b.thn, b.els);
    KeepHadIf(a.c, a.thn, a.els);
    KeepHadIf(s.c, s.thn, s.els);
  }

  lemma SkipKeepsHad()
    ensures KeepsVar(Skip, HAD_UNDO)
  {
  }

  lemma HadDiffers()
    ensures ACT != HAD_UNDO && LIBVAR != HAD_UNDO
  {
    assert ACT[4] == 'a' && HAD_UNDO[4] == 'h' && LIBVAR[4] == 'l';
  }

  lemma ActsKeepHad(f: Saved)
    ensures KeepsVar(Act(1, Save(f)), HAD_UNDO) && KeepsVar(Act(1, Verified(f)), HAD_UNDO)
  {
    hide HAD_UNDO;
    SkipKeepsHad();
    var v := Verified(f);
    PlainKeepsHad(v.thn.thn); PlainKeepsHad(Save(f));
    KeepHadIf(v.thn.c, v.thn.thn, Skip);
    KeepHadIf(v.c, v.thn, Skip);
    KeepHadIf(Equal(Var(ACT), N(1)), v, Skip);
    KeepHadIf(Equal(Var(ACT), N(1)), Save(f), Skip);
  }

  lemma PlainKeepsHad(s: Stmt)
    requires !s.If? && !s.IfRenameFails? && !s.Set?
    ensures KeepsVar(s, HAD_UNDO)
  {
  }

  lemma NameKeepsHad(n: string)
    ensures AllKeepHad(PrepareName(n))
  {
    hide HAD_UNDO, Decision, Act, Save, Verified, BK, KeepsVar;
    DecisionKeepsHad(Command(n), true);
    ActsKeepHad(Command(n));
    NewKeepsHad(n);
  }

  lemma NewKeepsHad(n: string)
    ensures KeepsVar(Act(2, TextFile(L(BK + "/new/" + n), "")), HAD_UNDO)
  {
    hide HAD_UNDO, BK;
    SkipKeepsHad();
    PlainKeepsHad(TextFile(L(BK + "/new/" + n), ""));
    KeepHadIf(Equal(Var(ACT), N(2)), TextFile(L(BK + "/new/" + n), ""), Skip);
  }

  lemma {:induction false} NamesKeepHad(names: seq<string>)
    ensures AllKeepHad(PrepareNames(names))
  {
    hide HAD_UNDO, PrepareName, KeepsVar;
    if names != [] {
      NameKeepsHad(names[0]);
      NamesKeepHad(names[1..]);
    }
  }

  lemma UgKeepsHad()
    ensures AllKeepHad(PREPARE_UG)
  {
    hide HAD_UNDO, Decision, Act, Save, Verified, KeepsVar, USERGROUP;
    DecisionKeepsHad(USERGROUP, false);
    ActsKeepHad(USERGROUP);
  }

  lemma ChosenKeepsHad(code: int, s: Stmt)
    requires KeepsVar(s, HAD_UNDO)
    ensures KeepsVar(Chosen(code, s), HAD_UNDO)
  {
    SkipKeepsHad();
    KeepHadIf(Equal(Var(LIBVAR), N(code)), s, Skip);
  }

  lemma ParkKeepsHad(dst: string)
    ensures KeepsVar(Park(dst), HAD_UNDO) && KeepsVar(DropCopy(dst), HAD_UNDO)
  {
    hide HAD_UNDO, LIB, Same;
    SkipKeepsHad();
    var p := Park(dst);
    PlainKeepsHad(p.thn.thn);
    KeepHadIf(p.thn.c, p.thn.thn, Skip);
    PlainKeepsHad(Delete(LIB));
    KeepHadIf(Same(LIB, dst), Delete(LIB), Skip);
    assert KeepsVar(p, HAD_UNDO) == KeepsVar(p.thn, HAD_UNDO);
  }

  lemma ChoiceKeepsHad()
    ensures KeepsVar(LIB_CHOICE, HAD_UNDO)
  {
    hide HAD_UNDO, LIBVAR, Same, LIB, PARKED, NEWER;
    HadDiffers(); SkipKeepsHad();
    SetKeepsHad(LIBVAR, N(1)); SetKeepsHad(LIBVAR, N(2)); SetKeepsHad(LIBVAR, N(3));
    SetKeepsHad(LIBVAR, N(4)); SetKeepsHad(LIBVAR, N(5));
    var a := LIB_CHOICE;
    var b := a.thn.thn;
    KeepHadIf(b.els.thn.c, b.els.thn.thn, b.els.thn.els);
    KeepHadIf(b.els.c, b.els.thn, b.els.els);
    KeepHadIf(b.c, b.thn, b.els);
    KeepHadIf(a.thn.c, b, a.thn.els);
    KeepHadIf(a.c, a.thn, a.els);
  }

  lemma LibKeepsHad()
    ensures AllKeepHad(PREPARE_LIB)
  {
    hide HAD_UNDO, LIBVAR, Chosen, Park, DropCopy, LIB_CHOICE, KeepsVar, PARKED, NEWER;
    HadDiffers();
    SetKeepsHad(LIBVAR, N(0));
    ChoiceKeepsHad();
    var stop := Abort("differs from both saved copies. Nothing was replaced.");
    PlainKeepsHad(stop); ChosenKeepsHad(4, stop);
    ParkKeepsHad(PARKED); ParkKeepsHad(NEWER);
    ChosenKeepsHad(1, Park(PARKED)); ChosenKeepsHad(2, Park(NEWER));
    ChosenKeepsHad(3, DropCopy(PARKED)); ChosenKeepsHad(5, DropCopy(NEWER));
  }

  /** What the script remembers of the undo script until it needs it. */
  lemma HadStays(names: seq<string>, copied: seq<string>, env: Env, st: State)
    requires Undo.ValidNames(names) && st.status == Running
    ensures var r := RunPhases(names, copied, env, st).lib;
            r.ro == st.ro && HAD_UNDO in r.vars && r.vars[HAD_UNDO] == Int(Kind(st.m, UNDO_KEY))
  {
    hide Run, OPENING, DIRS, OursDirs, UndoText, PrepareNames, PREPARE_UG, PREPARE_LIB, HAD_UNDO, KeepsVar, Kind;
    OpeningExec(env, st);
    var r := RunPhases(names, copied, env, st);
    var text, tags := [TextFile(L(Undo.UNDO), UndoText(names))], names + [UG];
    PlainKeepsHad(text[0]);
    KeepsVarRun(text, env, r.start, HAD_UNDO); RoStays(text, env, r.start);
    DirsKeepHad(); OursKeepHad(tags);
    KeepsVarRun(DIRS + OursDirs(tags), env, r.written, HAD_UNDO); RoStays(DIRS + OursDirs(tags), env, r.written);
    NamesKeepHad(names);
    KeepsVarRun(PrepareNames(names), env, r.dirs, HAD_UNDO); RoStays(PrepareNames(names), env, r.dirs);
    UgKeepsHad();
    KeepsVarRun(PREPARE_UG, env, r.names, HAD_UNDO); RoStays(PREPARE_UG, env, r.names);
    LibKeepsHad();
    KeepsVarRun(PREPARE_LIB, env, r.ug, HAD_UNDO); RoStays(PREPARE_LIB, env, r.ug);
  }

  lemma AgreeThrough(p: seq<Stmt>, env: Env, m: Tree, st: State, k: string)
    requires SparesAll(p, k) && AgreeAt(m, st.m, k)
    ensures AgreeAt(m, Run(p, env, st).m, k)
  {
    hide AgreeAt, SparesAll, Run;
    SparesRun(p, env, st, k);
    AgreeTrans(m, st.m, Run(p, env, st).m, k);
  }

  /** Nothing else in the script touches a file beside S:User-Startup. */
  lemma OthersAway(names: seq<string>, copied: seq<string>, k: string, env: Env, st: State)
    requires Undo.ValidNames(names) && InS(k) && k[6] == 'u'
    requires forall i :: 0 <= i < |copied| ==> Undo.ValidName(copied[i])
    ensures var r := RunPhases(names, copied, env, st); AgreeAt(st.m, r.lib.m, k) && AgreeAt(r.prepared.m, r.rest.m, k)
    ensures SparesAll(MarkNames(names) + [Mark(USERGROUP)], k)
  {
    hide Undo.ValidName, Run, SparesAll, OPENING, DIRS, OursDirs, UndoText, PrepareNames, AtOrBelow, BackupKey, NewKey,
         PREPARE_UG, PREPARE_LIB, PREPARE_STARTUP, Norm, BK, CopyCommands, COPY_REST, LiveKey, AgreeAt, MarkNames, Mark;
    OpeningSpares(k);
    UndoTextSpares(names, k);
    DirsSpares(k);
    TagsValid(names);
    var tags := names + [UG];
    forall i | 0 <= i < |tags| ensures Undo.ValidName(tags[i]) && !AtOrBelow(Norm(BK + "/ours/" + tags[i]), k) {
      OursDirApart(tags[i], k);
    }
    OursDirsSpare(tags, k);
    SparesConcat(DIRS, OursDirs(tags), k);
    forall i | 0 <= i < |names| ensures !AtOrBelow(BackupKey(names[i]), k) && !AtOrBelow(NewKey(names[i]), k) {
      NameWritesApart(names[i], k);
    }
    PrepareNamesSpare(names, k);
    UgWriteApart(k); PrepareUgSpares(k);
    LibWritesApart(k); PrepareLibSpares(k);
    forall i | 0 <= i < |copied| ensures !AtOrBelow(LiveKey(copied[i]), k) { LiveApart(copied[i], k); }
    CopiesSpare(copied, k);
    UgLiveApart(k); RestSpares(k);
    MarksSpare(names, k); UgIsName(); MarkSpares(USERGROUP, k);
    OneSpares(Mark(USERGROUP), k);
    SparesConcat(MarkNames(names), [Mark(USERGROUP)], k);
    var r := RunPhases(names, copied, env, st);
    AgreeSelf(st.m, k);
    AgreeThrough(OPENING, env, st.m, st, k);
    AgreeThrough([TextFile(L(Undo.UNDO), UndoText(names))], env, st.m, r.start, k);
    AgreeThrough(DIRS + OursDirs(tags), env, st.m, r.written, k);
    AgreeThrough(PrepareNames(names), env, st.m, r.dirs, k);
    AgreeThrough(PREPARE_UG, env, st.m, r.names, k);
    AgreeThrough(PREPARE_LIB, env, st.m, r.ug, k);
    AgreeSelf(r.prepared.m, k);
    AgreeThrough(CopyCommands(copied), env, r.prepared.m, r.prepared, k);
    AgreeThrough(COPY_REST, env, r.prepared.m, r.copied, k);
  }

  lemma AgreeSelf(m: Tree, k: string)
    ensures AgreeAt(m, m, k)
  {
  }

  lemma DeskKeys()
    ensures InS(US_KEY) && US_KEY[6] == 'u' && InS(US_BAK_KEY) && US_BAK_KEY[6] == 'u'
    ensures InS(US_OLD_KEY) && US_OLD_KEY[6] == 'u'
  {
    UndoRun.StartupShape(); UsSixth();
  }

  lemma DeskKept(m: Tree, m': Tree)
    requires AgreeAt(m, m', US_KEY) && AgreeAt(m, m', US_BAK_KEY) && AgreeAt(m, m', US_OLD_KEY)
    ensures PlainDesk(m) <==> PlainDesk(m')
    ensures DeskOf(m) == DeskOf(m')
  {
    hide AgreeAt, Plain, Content, US_KEY, US_BAK_KEY, US_OLD_KEY;
    AgreePlain(m, m', US_KEY); AgreePlain(m, m', US_BAK_KEY); AgreePlain(m, m', US_OLD_KEY);
  }

  lemma OthersKeepDesk(names: seq<string>, copied: seq<string>, env: Env, st: State)
    requires Undo.ValidNames(names) && forall i :: 0 <= i < |copied| ==> Undo.ValidName(copied[i])
    ensures var r := RunPhases(names, copied, env, st); var last := MarkNames(names) + [Mark(USERGROUP)];
            && (PlainDesk(r.lib.m) <==> PlainDesk(st.m)) && DeskOf(r.lib.m) == DeskOf(st.m)
            && (PlainDesk(r.rest.m) <==> PlainDesk(r.prepared.m)) && DeskOf(r.rest.m) == DeskOf(r.prepared.m)
            && (PlainDesk(Run(last, env, r.rest).m) <==> PlainDesk(r.rest.m))
            && DeskOf(Run(last, env, r.rest).m) == DeskOf(r.rest.m)
  {
    hide RunPhases, DeskOf, PlainDesk, US_KEY, US_BAK_KEY, US_OLD_KEY, AgreeAt, Run, MarkNames, Mark, Undo.ValidName,
         SparesAll;
    DeskKeys();
    var r, last := RunPhases(names, copied, env, st), MarkNames(names) + [Mark(USERGROUP)];
    OthersAway(names, copied, US_KEY, env, st);
    OthersAway(names, copied, US_BAK_KEY, env, st);
    OthersAway(names, copied, US_OLD_KEY, env, st);
    SparesRun(last, env, r.rest, US_KEY); SparesRun(last, env, r.rest, US_BAK_KEY);
    SparesRun(last, env, r.rest, US_OLD_KEY);
    DeskKept(st.m, r.lib.m);
    DeskKept(r.prepared.m, r.rest.m);
    DeskKept(r.rest.m, Run(last, env, r.rest).m);
  }

  /** The boot lines go into the live file, which is the last thing written. */
  lemma BootDoes(env: Env, st: State)
    requires st.status == Running && !env.pretend && PlainDesk(st.m)
    ensures var r, d := Exec(Startup, env, st), DeskOf(st.m);
            && PlainDesk(r.m)
            && DeskOf(r.m) == if r.status == Running then d.(live := Some(env.boot(Told(d)))) else d
  {
    hide Norm, Kind, Write, US_KEY, US_BAK_KEY, US_OLD_KEY, Plain;
    SKeys();
    assert USER_STARTUP == Undo.US;
    var text := env.boot(Told(DeskOf(st.m)));
    assert Exec(Startup, env, st) == Write(st, USER_STARTUP, File(text));
    WriteStops(st, USER_STARTUP, File(text));
    DeskWrite(st.m, US_KEY, text);
  }

  /** The desk after a completed install. */
  function Installed(d: Desk, had: bool, can: bool, boot: string -> string): Desk {
    Prepared(d, had, can).(live := Some(boot(Told(d))))
  }

  /** S:User-Startup through a whole install, at every stopping point and under
      every write protection: a stopped one has only looked at it, or made an empty
      one where there was none; a completed one has merged the boot lines into
      exactly the user's text, which is in the backup unless an older backup had to
      stay there. */
  lemma InstallStartup(names: seq<string>, copied: seq<string>, env: Env, st: State)
    requires Undo.ValidNames(names) && forall i :: 0 <= i < |copied| ==> Undo.ValidName(copied[i])
    requires st.status == Running && !env.pretend && PlainDesk(st.m)
    ensures var r, d, had := Run(Script(names, copied), env, st), DeskOf(st.m), Kind(st.m, UNDO_KEY) != ABSENT;
            && PlainDesk(r.m)
            && (r.status == Running ==> DeskOf(r.m) == Installed(d, had, CanSetAside(st.ro), env.boot))
            && (r.status != Running ==> Midway(d, had, DeskOf(r.m)))
  {
    hide Run, Script, RunPhases, DeskOf, PlainDesk, CanSetAside, Exec, PREPARE_STARTUP, MarkNames, Mark, Kind, HAD_UNDO,
         Undo.ValidName;
    ScriptPhases(names, copied, env, st);
    PhasesRunning(names, copied, env, st);
    var r := RunPhases(names, copied, env, st);
    StartupPhases(names, copied, env, st);
    OthersKeepDesk(names, copied, env, st);
    HadStays(names, copied, env, st);
    if r.lib.status == Running { SectionExec(env, r.lib); } else { RunStays(PREPARE_STARTUP, env, r.lib); }
    var last := Run(MarkNames(names) + [Mark(USERGROUP)], env, r.rest);
    RunStays(MarkNames(names) + [Mark(USERGROUP)], env, r.rest);
    ExecStopped(Startup, env, last);
    if last.status == Running { BootDoes(env, last); }
  }

  lemma StartupPhases(names: seq<string>, copied: seq<string>, env: Env, st: State)
    requires Undo.ValidNames(names)
    ensures var r := RunPhases(names, copied, env, st);
            && r.prepared == Run(PREPARE_STARTUP, env, r.lib)
            && r.end == Exec(Startup, env, Run(MarkNames(names) + [Mark(USERGROUP)], env, r.rest))
            && (r.lib.status != Running ==> r.prepared == r.lib)
            && (r.prepared.status != Running ==> r.rest == r.prepared)
            && (r.rest.status == Running ==> r.prepared.status == Running)
  {
    hide Run, OPENING, DIRS, OursDirs, PrepareNames, PREPARE_UG, PREPARE_LIB, PREPARE_STARTUP, CopyCommands, COPY_REST,
         MarkNames, UndoText, Exec, Mark;
    var r := RunPhases(names, copied, env, st);
    var marks := MarkNames(names) + [Mark(USERGROUP)];
    assert Finish(names) == marks + [Startup];
    RunAppend(marks, [Startup], env, r.rest);
    RunOne(Startup, env, Run(marks, env, r.rest));
    RunStays(PREPARE_STARTUP, env, r.lib);
    RunStays(CopyCommands(copied), env, r.prepared);
    RunStays(COPY_REST, env, r.copied);
  }

  /** The user's text survives every install that stops, and a completed one has it
      in the backup if and only if no backup stood in the way: there was none, or a
      stale one that could be set aside, or the same one. */
  lemma TextKept(names: seq<string>, copied: seq<string>, env: Env, st: State, text: string)
    requires Undo.ValidNames(names) && forall i :: 0 <= i < |copied| ==> Undo.ValidName(copied[i])
    requires st.status == Running && !env.pretend && PlainDesk(st.m) && DeskOf(st.m).live == Some(text)
    ensures var r, d, had := Run(Script(names, copied), env, st), DeskOf(st.m), Kind(st.m, UNDO_KEY) != ABSENT;
            && (r.status != Running ==> DeskOf(r.m).live == Some(text))
            && (r.status == Running ==>
                  && DeskOf(r.m).live == Some(env.boot(text))
                  && (DeskOf(r.m).bak == Some(text) <==>
                        d.bak.None? || (!had && CanSetAside(st.ro)) || d.bak == Some(text)))
  {
    hide Run, Script, DeskOf, PlainDesk, CanSetAside, Kind, Undo.ValidName;
    InstallStartup(names, copied, env, st);
  }
}
