/** One install as seen by one command file: whatever point it stops at, the
    file stays in a state the undo can restore. */
module InstallNames {
  import opened Seqs
  import opened Text
  import opened Files
  import opened Installer
  import opened InstallScript
  import opened InstallSteps
  import opened InstallFrames
  import opened Restore
  import Undo
  import opened Keys

  /** The states between the phases of one install. */
  datatype Phases = Phases(start: State, written: State, dirs: State, names: State, ug: State, lib: State,
                           prepared: State, copied: State, rest: State, end: State)

  ghost function RunPhases(names: seq<string>, copied: seq<string>, env: Env, st: State): Phases
    requires Undo.ValidNames(names)
  {
    var start := Run(OPENING, env, st);
    var written := Run([TextFile(L(Undo.UNDO), UndoText(names))], env, start);
    var dirs := Run(DIRS + OursDirs(names + [UG]), env, written);
    var named := Run(PrepareNames(names), env, dirs);
    var ug := Run(PREPARE_UG, env, named);
    var lib := Run(PREPARE_LIB, env, ug);
    var prepared := Run(PREPARE_STARTUP, env, lib);
    var cp := Run(CopyCommands(copied), env, prepared);
    var rest := Run(COPY_REST, env, cp);
    Phases(start, written, dirs, named, ug, lib, prepared, cp, rest, Run(Finish(names), env, rest))
  }

  lemma ScriptPhases(names: seq<string>, copied: seq<string>, env: Env, st: State)
    requires Undo.ValidNames(names)
    ensures Run(Script(names, copied), env, st) == RunPhases(names, copied, env, st).end
  {
    hide Run, OPENING, DIRS, OursDirs, PrepareNames, PREPARE_UG, PREPARE_LIB, PREPARE_STARTUP, CopyCommands, COPY_REST,
         Finish, UndoText;
    var text := [TextFile(L(Undo.UNDO), UndoText(names))];
    var dirs := DIRS + OursDirs(names + [UG]);
    var p6 := CopyCommands(copied) + COPY_REST + Finish(names);
    var p5 := PREPARE_STARTUP + p6;
    var p4 := PREPARE_LIB + p5;
    var p3 := PREPARE_UG + p4;
    var p2 := PrepareNames(names) + p3;
    var p1 := dirs + p2;
    var p0 := text + p1;
    assert Script(names, copied) == OPENING + p0;
    var r := RunPhases(names, copied, env, st);
    RunAppend(OPENING, p0, env, st);
    RunAppend(text, p1, env, r.start);
    RunAppend(dirs, p2, env, r.written);
    RunAppend(PrepareNames(names), p3, env, r.dirs);
    RunAppend(PREPARE_UG, p4, env, r.names);
    RunAppend(PREPARE_LIB, p5, env, r.ug);
    RunAppend(PREPARE_STARTUP, p6, env, r.lib);
    RunAppend(CopyCommands(copied) + COPY_REST, Finish(names), env, r.prepared);
    RunAppend(CopyCommands(copied), COPY_REST, env, r.prepared);
  }

  /** An install that went on to some phase ran all earlier ones. */
  lemma PhasesRunning(names: seq<string>, copied: seq<string>, env: Env, st: State)
    requires Undo.ValidNames(names)
    ensures var r := RunPhases(names, copied, env, st);
            && (r.end.status == Running ==> r.rest.status == Running)
            && (r.rest.status == Running ==> r.copied.status == Running)
            && (r.copied.status == Running ==> r.prepared.status == Running)
            && (r.prepared.status == Running ==> r.lib.status == Running)
            && (r.lib.status == Running ==> r.ug.status == Running)
            && (r.ug.status == Running ==> r.names.status == Running)
            && (r.names.status == Running ==> r.dirs.status == Running)
            && (r.dirs.status == Running ==> r.written.status == Running)
  {
    hide OPENING, DIRS, OursDirs, PrepareNames, PREPARE_UG, PREPARE_LIB, PREPARE_STARTUP, CopyCommands, COPY_REST,
         Finish, UndoText, Exec;
  }

  // ------------------------------------------------------- the opening

  /** There is an undo script, but not the new/ directory beside the backups. */
  predicate Legacy(m: Tree) { Kind(m, UNDO_KEY) != ABSENT && Kind(m, NEW_DIR_KEY) == ABSENT }

  lemma OpeningExec(env: Env, st: State)
    requires st.status == Running
    ensures var r := Run(OPENING, env, st);
            && r.status == Running && r.m == st.m && r.left == st.left && r.ro == st.ro
            && FlagIs(r.vars, Legacy(st.m)) && HAD_UNDO in r.vars && r.vars[HAD_UNDO] == Int(Kind(st.m, UNDO_KEY))
  {
    hide Norm, Kind, Exec, Undo.BK, Undo.UNDO, Eval;
    OpeningVars();
    SKeys(); DirKeys();
    var a, b, c := OPENING[0], OPENING[1], OPENING[2];
    assert OPENING == [a, b] + [c];
    RunAppend([a, b], [c], env, st);
    RunTwo(a, b, env, st);
    EvalExists(Undo.UNDO, env, st);
    var had := Int(Kind(st.m, UNDO_KEY));
    var s1 := st.(vars := st.vars[HAD_UNDO := had]);
    ExecSetTo(HAD_UNDO, a.e, had, env, st);
    ExecSet(LEGACY, 0, env, s1);
    var s2 := s1.(vars := s1.vars[LEGACY := Int(0)]);
    RunOne(c, env, s2);
    EvalVar(HAD_UNDO, env, s2);
    ExecIf(c.c, c.thn, c.els, env, s2);
    ExecSkip(env, s2);
    EvalExists(BK + "/new", env, s2);
    ExecIf(c.thn.c, c.thn.thn, c.thn.els, env, s2);
    ExecSet(LEGACY, 1, env, s2);
    assert Run(OPENING, env, st) == Exec(c, env, s2);
  }

  lemma OpeningVars()
    ensures HAD_UNDO != LEGACY
  {
    assert HAD_UNDO[4] != LEGACY[4];
  }

  lemma ExecSetTo(v: string, e: Exp, x: Value, env: Env, st: State)
    requires st.status == Running && Eval(e, env, st) == Some(x)
    ensures Exec(Set(v, e), env, st) == st.(vars := st.vars[v := x])
  {
    hide Norm, Kind, Eval;
  }

  // --------------------------------------------------- states of a file

  /** Before the first install. */
  predicate Fresh(m: Tree, n: string, orig: Option<string>, sum: string -> nat) {
    && Plain(m, LiveKey(n)) && Plain(m, BackupKey(n))
    && Content(m, LiveKey(n)) == orig && Content(m, BackupKey(n)).None? && Kind(m, NewKey(n)) == ABSENT
    && (orig.Some? ==> Kind(m, MarkKey(n, sum(orig.value))) == ABSENT)
  }

  /** Ready to be replaced: the original is saved, or marked as absent. */
  predicate Ready(m: Tree, n: string, orig: Option<string>) {
    && Plain(m, LiveKey(n)) && Plain(m, BackupKey(n))
    && (if orig.Some? then Content(m, BackupKey(n)) == orig && Content(m, LiveKey(n)).Some?
        else Content(m, BackupKey(n)).None? && NewKey(n) in m)
  }

  /** After a completed install: ready, and the installed file is known by
      its checksum. */
  predicate Installed(m: Tree, n: string, orig: Option<string>, sum: string -> nat) {
    && Ready(m, n, orig)
    && (Content(m, LiveKey(n)).Some? ==> MarkKey(n, sum(Content(m, LiveKey(n)).value)) in m)
  }

  lemma KindPresent(m: Tree, k: string)
    requires k in m
    ensures Kind(m, k) != ABSENT
  {
  }

  lemma ReadyIsSafe(m: Tree, n: string, orig: Option<string>)
    requires Ready(m, n, orig)
    ensures Safe(m, n, orig)
  {
    if orig.None? { KindPresent(m, NewKey(n)); }
  }

  lemma FreshIsSafe(m: Tree, n: string, orig: Option<string>, sum: string -> nat)
    requires Fresh(m, n, orig, sum)
    ensures Safe(m, n, orig)
  {
  }

  /** Nothing about the file changes while its keys are left alone. */
  lemma ReadyKept(m: Tree, m': Tree, n: string, orig: Option<string>)
    requires AgreeAt(m, m', LiveKey(n)) && AgreeAt(m, m', BackupKey(n)) && AgreeAt(m, m', NewKey(n))
    ensures Ready(m, n, orig) ==> Ready(m', n, orig)
    ensures Safe(m, n, orig) ==> Safe(m', n, orig)
  {
    hide LiveKey, BackupKey, NewKey, Plain, Content, Kind, AgreeAt;
    AgreePlain(m, m', LiveKey(n)); AgreePlain(m, m', BackupKey(n)); AgreePlain(m, m', NewKey(n));
    AgreeKind(m, m', NewKey(n));
  }

  lemma StartKept(m: Tree, m': Tree, n: string, orig: Option<string>, sum: string -> nat)
    requires AgreeAt(m, m', LiveKey(n)) && AgreeAt(m, m', BackupKey(n)) && AgreeAt(m, m', NewKey(n))
    requires Content(m, LiveKey(n)).Some? ==> AgreeAt(m, m', MarkKey(n, sum(Content(m, LiveKey(n)).value)))
    ensures Fresh(m, n, orig, sum) ==> Fresh(m', n, orig, sum)
    ensures Installed(m, n, orig, sum) ==> Installed(m', n, orig, sum)
  {
    hide LiveKey, BackupKey, NewKey, MarkKey, Plain, Content, Kind, AgreeAt;
    ReadyKept(m, m', n, orig);
    AgreePlain(m, m', LiveKey(n)); AgreePlain(m, m', BackupKey(n)); AgreePlain(m, m', NewKey(n));
    if Content(m, LiveKey(n)).Some? {
      AgreeKind(m, m', MarkKey(n, sum(Content(m, LiveKey(n)).value)));
    }
  }

  // ------------------------------------------------------------ PREPARE

  lemma AgreeOther(m: Tree, w: string, e: Entry, k: string)
    requires Unrelated(w, k)
    ensures AgreeAt(m, m[w := e], k)
  {
    AgreeWrite(m, w, e, k);
  }

  /** The decision for one file from either starting state. */
  lemma StartCode(m: Tree, n: string, orig: Option<string>, sum: string -> nat)
    requires Undo.ValidName(n) && (Fresh(m, n, orig, sum) || Installed(m, n, orig, sum))
    ensures var code := Code(m, Command(n), sum, true, false);
            && (Content(m, LiveKey(n)).None? ==> code == 2)
            && (Content(m, LiveKey(n)).Some? ==> code == if Installed(m, n, orig, sum) then 0 else 1)
  {
    hide Norm, Kind, LiveKey, BackupKey, NewKey, MarkKey, Plain, Proper, Command, Keylike;
    CommandProper(n);
    CommandTag(n);
    ProperKeylike(Command(n));
    PlainKind(m, BackupKey(n));
    if Content(m, LiveKey(n)).Some? && Installed(m, n, orig, sum) {
      KindPresent(m, MarkKey(n, sum(Content(m, LiveKey(n)).value)));
    }
  }

  lemma CommandTag(n: string)
    ensures Command(n).tag == n
  {
  }

  /** PREPARE on its own file: afterwards it is ready, and if the install
      stops here it is still safe. */
  lemma PrepareOwn(n: string, orig: Option<string>, env: Env, st: State)
    requires Undo.ValidName(n) && st.status == Running && !env.pretend
    requires FlagIs(st.vars, false)
    requires Fresh(st.m, n, orig, env.sum) || Installed(st.m, n, orig, env.sum)
    ensures var r := Run(PrepareName(n), env, st);
            && Safe(r.m, n, orig) && (r.status == Running ==> Ready(r.m, n, orig))
            && FlagIs(r.vars, false)
  {
    hide Norm, Kind, Run, LiveKey, BackupKey, NewKey, MarkKey, Plain, Code, Content, PrepareName, Command, Unrelated,
         Keylike;
    var m := st.m;
    PrepareNameExec(n, false, env, st);
    StartCode(m, n, orig, env.sum);
    NameUnrelated(n);
    var r := Run(PrepareName(n), env, st);
    if Content(m, LiveKey(n)).None? {
      WrittenNew(m, n, orig, env.sum);
    } else if Installed(m, n, orig, env.sum) {
      ReadyIsSafe(m, n, orig);
    } else {
      WrittenBackup(m, n, orig, env.sum);
      FreshIsSafe(m, n, orig, env.sum);
    }
  }

  lemma WrittenNew(m: Tree, n: string, orig: Option<string>, sum: string -> nat)
    requires Undo.ValidName(n) && (Fresh(m, n, orig, sum) || Installed(m, n, orig, sum))
    requires Content(m, LiveKey(n)).None?
    ensures var m' := m[NewKey(n) := File("")];
            Safe(m, n, orig) && Safe(m', n, orig) && Ready(m', n, orig)
  {
    hide Kind, LiveKey, BackupKey, NewKey, MarkKey, Plain, Content, Unrelated, Keylike;
    var m' := m[NewKey(n) := File("")];
    NameUnrelated(n);
    UnrelatedFlip(BackupKey(n), NewKey(n));
    AgreeOther(m, NewKey(n), File(""), LiveKey(n));
    AgreeOther(m, NewKey(n), File(""), BackupKey(n));
    AgreePlain(m, m', LiveKey(n));
    AgreePlain(m, m', BackupKey(n));
    if Installed(m, n, orig, sum) { ReadyIsSafe(m, n, orig); } else { FreshIsSafe(m, n, orig, sum); }
    ReadyIsSafe(m', n, orig);
  }

  lemma UnrelatedFlip(a: string, b: string)
    requires Unrelated(a, b)
    ensures Unrelated(b, a)
  {
  }

  lemma WrittenBackup(m: Tree, n: string, orig: Option<string>, sum: string -> nat)
    requires Undo.ValidName(n) && Fresh(m, n, orig, sum) && orig.Some?
    ensures var m' := m[BackupKey(n) := File(orig.value)];
            Safe(m', n, orig) && Ready(m', n, orig)
  {
    hide Kind, LiveKey, BackupKey, NewKey, MarkKey, Unrelated, Keylike;
    var m' := m[BackupKey(n) := File(orig.value)];
    NameUnrelated(n);
    AgreeOther(m, BackupKey(n), File(orig.value), LiveKey(n));
    AgreePlain(m, m', LiveKey(n));
    assert Children(m', BackupKey(n)) == Children(m, BackupKey(n));
    ReadyIsSafe(m', n, orig);
  }

  // -------------------------------------------- PREPARE for all commands

  lemma ActKeepsLegacy(code: int, s: Stmt)
    requires KeepsVar(s, LEGACY)
    ensures KeepsVar(Act(code, s), LEGACY)
  {
  }

  lemma PrepareNameKeepsLegacy(n: string)
    ensures forall i :: 0 <= i < |PrepareName(n)| ==> KeepsVar(PrepareName(n)[i], LEGACY)
  {
    hide LEGACY, ACT;
    ActNotLegacy();
    var f := Command(n);
    var d := Decision(f, true)[1];
    assert KeepsVar(Skip, LEGACY);
    assert KeepsVar(d.thn.thn.thn, LEGACY);
    assert KeepsVar(d.thn.thn, LEGACY);
    assert KeepsVar(d.thn, LEGACY);
    assert KeepsVar(d, LEGACY);
    assert KeepsVar(Verified(f).thn, LEGACY);
    assert KeepsVar(Verified(f), LEGACY);
    ActKeepsLegacy(1, Save(f));
    ActKeepsLegacy(1, Verified(f));
    ActKeepsLegacy(2, TextFile(L(BK + "/new/" + n), ""));
  }

  /** The keys of one name that PREPARE looks at. */
  predicate IsKeyOf(k: string, n: string, s: nat) {
    k == LiveKey(n) || k == BackupKey(n) || k == NewKey(n) || k == MarkKey(n, s)
  }

  lemma OtherWritesApart(m: string, n: string, k: string, s: nat)
    requires Undo.ValidName(m) && Undo.ValidName(n) && Lower(m) != Lower(n) && IsKeyOf(k, n, s)
    ensures !AtOrBelow(BackupKey(m), k) && !AtOrBelow(NewKey(m), k)
  {
    hide AtOrBelow, LiveKey, BackupKey, NewKey, MarkKey, Lower;
    NameShape(n); NameShape(m); NameFifth(n); NameFifth(m); MarkShape(n, s); OtherName(m, n);
    if k == BackupKey(n) {
      UnrelatedNot(BackupKey(m), k);
      ApartAt(NewKey(m), k, 28);
    } else if k == NewKey(n) {
      UnrelatedNot(NewKey(m), k);
      ApartAt(BackupKey(m), k, 28);
    } else {
      NameWritesApart(m, k);
    }
  }

  lemma UnrelatedNot(w: string, k: string)
    requires Unrelated(w, k)
    ensures !AtOrBelow(w, k)
  {
  }

  lemma NameFifth(n: string)
    requires Undo.ValidName(n)
    ensures BackupKey(n)[5] == 't' && NewKey(n)[5] == 't' && |LiveKey(n)| > 6 && LiveKey(n)[5] == '/'
    ensures |BackupKey(n)| > 30 && |NewKey(n)| > 32
  {
    assert BACKUP_KEY[5] == 't';
  }

  lemma OtherKeeps(m: string, n: string, k: string, s: nat, env: Env, st: State)
    requires Undo.ValidName(m) && Undo.ValidName(n) && Lower(m) != Lower(n) && IsKeyOf(k, n, s)
    ensures AgreeAt(st.m, Run(PrepareName(m), env, st).m, k)
  {
    hide *;
    OtherWritesApart(m, n, k, s);
    PrepareNameSpares(m, k);
    SparesRun(PrepareName(m), env, st, k);
  }

  lemma {:induction false} OthersKeep(ms: seq<string>, n: string, k: string, s: nat, env: Env, st: State)
    requires Undo.ValidName(n) && IsKeyOf(k, n, s)
    requires forall i :: 0 <= i < |ms| ==> Undo.ValidName(ms[i]) && Lower(ms[i]) != Lower(n)
    ensures AgreeAt(st.m, Run(PrepareNames(ms), env, st).m, k)
  {
    hide AtOrBelow, LiveKey, BackupKey, NewKey, MarkKey, Lower, Run, PrepareNames, Undo.ValidName, IsKeyOf;
    forall i | 0 <= i < |ms|
      ensures !AtOrBelow(BackupKey(ms[i]), k) && !AtOrBelow(NewKey(ms[i]), k)
    {
      OtherWritesApart(ms[i], n, k, s);
    }
    PrepareNamesSpare(ms, k);
    SparesRun(PrepareNames(ms), env, st, k);
  }

  lemma SelfKeys(n: string, s: nat)
    ensures IsKeyOf(LiveKey(n), n, s) && IsKeyOf(BackupKey(n), n, s) && IsKeyOf(NewKey(n), n, s)
    ensures IsKeyOf(MarkKey(n, s), n, s)
  {
  }

  /** Preparing another command changes nothing for this one. */
  lemma OtherKeepsStart(m: string, n: string, orig: Option<string>, env: Env, st: State)
    requires Undo.ValidName(m) && Undo.ValidName(n) && Lower(m) != Lower(n)
    requires Fresh(st.m, n, orig, env.sum) || Installed(st.m, n, orig, env.sum)
    ensures var r := Run(PrepareName(m), env, st).m; Fresh(r, n, orig, env.sum) || Installed(r, n, orig, env.sum)
  {
    hide Fresh, Installed, Run, PrepareName, LiveKey, BackupKey, NewKey, MarkKey, Lower, IsKeyOf, AgreeAt,
         Undo.ValidName;
    var r := Run(PrepareName(m), env, st).m;
    var c := Content(st.m, LiveKey(n));
    var s := if c.Some? then env.sum(c.value) else 0;
    SelfKeys(n, s);
    OtherKeeps(m, n, LiveKey(n), s, env, st);
    OtherKeeps(m, n, BackupKey(n), s, env, st);
    OtherKeeps(m, n, NewKey(n), s, env, st);
    OtherKeeps(m, n, MarkKey(n, s), s, env, st);
    StartKept(st.m, r, n, orig, env.sum);
  }

  /** Preparing a command leaves every live file plain. */
  lemma PrepareKeepsPlain(m: string, x: string, env: Env, st: State)
    requires Undo.ValidName(m) && Undo.ValidName(x) && Plain(st.m, LiveKey(x))
    ensures Plain(Run(PrepareName(m), env, st).m, LiveKey(x))
  {
    hide *;
    NameShape(x); NameFifth(x);
    NameWritesApart(m, LiveKey(x));
    PrepareNameSpares(m, LiveKey(x));
    SparesRun(PrepareName(m), env, st, LiveKey(x));
    AgreePlain(st.m, Run(PrepareName(m), env, st).m, LiveKey(x));
  }

  lemma StartIsSafe(m: Tree, n: string, orig: Option<string>, sum: string -> nat)
    requires Fresh(m, n, orig, sum) || Installed(m, n, orig, sum)
    ensures Safe(m, n, orig)
  {
    hide Fresh, Safe, Ready;
    if Installed(m, n, orig, sum) { ReadyIsSafe(m, n, orig); } else { FreshIsSafe(m, n, orig, sum); }
  }

  lemma {:induction false} NamesPrepare(names: seq<string>, n: string, orig: Option<string>, env: Env, st: State)
    requires Undo.ValidNames(names) && n in names && st.status == Running && !env.pretend
    requires FlagIs(st.vars, false)
    requires forall i :: 0 <= i < |names| ==> Plain(st.m, LiveKey(names[i]))
    requires Fresh(st.m, n, orig, env.sum) || Installed(st.m, n, orig, env.sum)
    ensures var r := Run(PrepareNames(names), env, st);
            Safe(r.m, n, orig) && (r.status == Running ==> Ready(r.m, n, orig))
  {
    hide Fresh, Installed, Safe, Ready, Run, PrepareName, LiveKey, Plain, Lower, Undo.ValidName, LEGACY, AgreeAt;
    var x, rest := names[0], names[1..];
    var mid := Run(PrepareName(x), env, st);
    RunAppend(PrepareName(x), PrepareNames(rest), env, st);
    assert PrepareNames(names) == PrepareName(x) + PrepareNames(rest);
    assert forall j :: 0 <= j < |rest| ==> rest[j] == names[j + 1];
    if x == n {
      PrepareOwn(n, orig, env, st);
      SelfKeys(n, 0);
      OthersKeep(rest, n, LiveKey(n), 0, env, mid);
      OthersKeep(rest, n, BackupKey(n), 0, env, mid);
      OthersKeep(rest, n, NewKey(n), 0, env, mid);
      ReadyKept(mid.m, Run(PrepareNames(rest), env, mid).m, n, orig);
      RunStays(PrepareNames(rest), env, mid);
    } else {
      var i :| 0 <= i < |names| && names[i] == n;
      assert Lower(names[0]) != Lower(names[i]);
      OtherKeepsStart(x, n, orig, env, st);
      StartIsSafe(mid.m, n, orig, env.sum);
      assert rest[i - 1] == n;
      if mid.status == Running {
        PrepareNameKeepsLegacy(x);
        KeepsVarRun(PrepareName(x), env, st, LEGACY);
        forall j | 0 <= j < |rest| ensures Plain(mid.m, LiveKey(rest[j])) {
          PrepareKeepsPlain(x, rest[j], env, st);
        }
        NamesPrepare(rest, n, orig, env, mid);
      } else {
        RunStays(PrepareNames(rest), env, mid);
      }
    }
  }

  /** A stopped install does nothing more. */
  lemma RunStays(p: seq<Stmt>, env: Env, st: State)
    ensures st.status != Running ==> Run(p, env, st) == st
    ensures Run(p, env, st).status == Running ==> st.status == Running
  {
    hide Exec;
  }
}
