/** What the generated statements do to one saved file. */
module InstallSteps {
  import opened Seqs
  import opened Text
  import opened Files
  import opened Installer
  import opened InstallScript
  import opened Restore
  import Undo
  import opened Keys

  // --------------------------------------------------------- evaluation

  lemma EvalExists(p: string, env: Env, st: State)
    ensures Eval(Exists(L(p)), env, st) == Some(Int(Kind(st.m, Norm(p))))
    ensures Eval(Not(Exists(L(p))), env, st) == Some(Truth(Kind(st.m, Norm(p)) == ABSENT))
  {
    hide Norm, Kind;
    assert Eval(L(p), env, st) == Some(Str(p));
    assert Eval(Exists(L(p)), env, st) == Some(Int(Kind(st.m, Norm(p))));
  }

  lemma EvalFile(p: string, env: Env, st: State)
    requires Content(st.m, Norm(p)).Some?
    ensures Eval(GetSum(L(p)), env, st) == Some(Int(env.sum(Content(st.m, Norm(p)).value)))
    ensures Eval(GetSize(L(p)), env, st) == Some(Int(|Content(st.m, Norm(p)).value|))
  {
    hide Norm, Kind;
    assert Eval(L(p), env, st) == Some(Str(p));
  }

  function MarkPath(tag: string, sum: nat): string { BK + "/ours/" + tag + "/" + Decimal(sum) }

  function MarkKey(tag: string, sum: nat): string { OursKey(tag) + "/" + Decimal(sum) }

  lemma {:induction false} LowerDigits(s: string)
    requires forall i :: 0 <= i < |s| ==> IsDigit(s[i])
    ensures Lower(s) == s
  {
  }

  lemma LowerOurs()
    ensures Lower("/ours/") == "/ours/" && Lower("/") == "/"
  {
  }

  lemma MarkNorm(tag: string, sum: nat)
    ensures Norm(MarkPath(tag, sum)) == MarkKey(tag, sum)
  {
    hide Norm, Lower;
    var d := Decimal(sum);
    var sub := "/ours/" + tag + "/" + d;
    LowerOurs();
    LowerDigits(d);
    LowerConcat("/ours/" + tag + "/", d);
    LowerConcat("/ours/" + tag, "/");
    LowerConcat("/ours/", tag);
    assert IsDigit(sub[|sub| - 1]);
    BkPath(sub);
    assert BK + sub == MarkPath(tag, sum);
    assert BACKUP_KEY + ("/ours/" + Lower(tag) + "/" + d) == MarkKey(tag, sum);
  }

  lemma EvalMark(f: Saved, env: Env, st: State)
    requires Content(st.m, Norm(f.live)).Some?
    ensures var s := env.sum(Content(st.m, Norm(f.live)).value);
            && Eval(MarkExp(f), env, st) == Some(Str(MarkPath(f.tag, s)))
            && Eval(Exists(MarkExp(f)), env, st) == Some(Int(Kind(st.m, MarkKey(f.tag, s))))
            && Eval(Not(Exists(MarkExp(f))), env, st) == Some(Truth(Kind(st.m, MarkKey(f.tag, s)) == ABSENT))
  {
    hide Norm, Kind, OursKey;
    var s := env.sum(Content(st.m, Norm(f.live)).value);
    EvalFile(f.live, env, st);
    var prefix := BK + "/ours/" + f.tag + "/";
    assert Eval(L(prefix), env, st) == Some(Str(prefix));
    assert Eval(MarkExp(f), env, st) == Some(Str(MarkPath(f.tag, s)));
    MarkNorm(f.tag, s);
    assert Eval(Exists(MarkExp(f)), env, st) == Some(Int(Kind(st.m, MarkKey(f.tag, s))));
  }

  // ----------------------------------------------------------- decision

  /** The decision for one file, from the file system and the legacy flag, which
      takes an unknown file for one of an install from before the markers. */
  function Code(m: Tree, f: Saved, sum: string -> nat, markNew: bool, legacy: bool): int {
    match Content(m, Norm(f.live))
    case None => if markNew then 2 else 0
    case Some(c) =>
      if Kind(m, MarkKey(f.tag, sum(c))) != ABSENT || Kind(m, Norm(BackupOf(f))) != ABSENT then 0
      else if !legacy then 1
      else if markNew then 2 else 0
  }

  predicate FlagIs(vars: map<string, Value>, legacy: bool) {
    LEGACY in vars && vars[LEGACY] == Truth(legacy)
  }

  lemma ExecIf(c: Exp, thn: Stmt, els: Stmt, env: Env, st: State)
    requires st.status == Running && Eval(c, env, st).Some?
    ensures Exec(If(c, thn, els), env, st)
            == if Truthy(Eval(c, env, st).value) then Exec(thn, env, st) else Exec(els, env, st)
  {
    hide Norm, Kind, Eval;
  }

  lemma ExecSet(v: string, i: int, env: Env, st: State)
    requires st.status == Running
    ensures Exec(Set(v, N(i)), env, st) == st.(vars := st.vars[v := Int(i)])
  {
    hide Norm, Kind;
    assert Eval(N(i), env, st) == Some(Int(i));
  }

  lemma RunTwo(a: Stmt, b: Stmt, env: Env, st: State)
    ensures Run([a, b], env, st) == Exec(b, env, Exec(a, env, st))
  {
    hide Exec;
    ExecStopped(a, env, st);
    ExecStopped(b, env, Exec(a, env, st));
    if st.status == Running {
      assert [a, b][1..] == [b];
      RunOne(b, env, Exec(a, env, st));
    }
  }

  lemma ExecStopped(s: Stmt, env: Env, st: State)
    ensures st.status != Running || s.Skip? ==> Exec(s, env, st) == st
  {
  }

  lemma DecisionExec(f: Saved, markNew: bool, legacy: bool, env: Env, st: State)
    requires st.status == Running && FlagIs(st.vars, legacy)
    requires Plain(st.m, Norm(f.live)) && Keylike(Norm(f.live))
    ensures Run(Decision(f, markNew), env, st)
            == st.(vars := st.vars[ACT := Int(Code(st.m, f, env.sum, markNew, legacy))])
  {
    ActNotLegacy();
    hide Norm, Kind, Eval, Exec, MarkKey, BackupOf, MarkExp, Plain, Keylike;
    var zero := Set(ACT, N(0));
    var st1 := st.(vars := st.vars[ACT := Int(0)]);
    var d := Decision(f, markNew)[1];
    RunTwo(zero, d, env, st);
    ExecSet(ACT, 0, env, st);
    PlainKind(st.m, Norm(f.live));
    EvalExists(f.live, env, st1);
    ExecIf(d.c, d.thn, d.els, env, st1);
    if Content(st.m, Norm(f.live)).Some? {
      DecisionPresent(f, markNew, legacy, env, st1);
    } else {
      ExecSet(ACT, 2, env, st1);
      ExecSkip(env, st1);
      assert st.vars[ACT := Int(0)][ACT := Int(2)] == st.vars[ACT := Int(2)];
    }
    assert st.vars[ACT := Int(0)][ACT := Int(1)] == st.vars[ACT := Int(1)];
    assert st.vars[ACT := Int(0)][ACT := Int(2)] == st.vars[ACT := Int(2)];
  }

  lemma ExecSkip(env: Env, st: State)
    ensures Exec(Skip, env, st) == st
  {
  }

  lemma DecisionPresent(f: Saved, markNew: bool, legacy: bool, env: Env, st: State)
    requires st.status == Running && FlagIs(st.vars, legacy)
    requires ACT in st.vars && st.vars[ACT] == Int(0)
    requires Content(st.m, Norm(f.live)).Some?
    ensures Exec(Decision(f, markNew)[1].thn, env, st)
            == st.(vars := st.vars[ACT := Int(Code(st.m, f, env.sum, markNew, legacy))])
  {
    hide Norm, Kind, Eval, Exec, MarkKey, BackupOf, MarkExp;
    var d := Decision(f, markNew)[1].thn;
    EvalMark(f, env, st);
    ExecIf(d.c, d.thn, d.els, env, st);
    ExecSkip(env, st);
    var b := d.thn;
    EvalExists(BackupOf(f), env, st);
    ExecIf(b.c, b.thn, b.els, env, st);
    var g := b.thn;
    EvalVar(LEGACY, env, st);
    ExecIf(g.c, g.thn, g.els, env, st);
    ExecSet(ACT, 1, env, st);
    ExecSet(ACT, if markNew then 2 else 0, env, st);
    assert st.vars[ACT := Int(0)] == st.vars;
  }

  lemma EvalVar(v: string, env: Env, st: State)
    requires v in st.vars
    ensures Eval(Var(v), env, st) == Some(st.vars[v])
  {
  }

  lemma ActExec(code: int, s: Stmt, env: Env, st: State)
    requires st.status == Running ==> ACT in st.vars
    ensures Exec(Act(code, s), env, st)
            == if st.status == Running && st.vars[ACT] == Int(code) then Exec(s, env, st) else st
  {
    hide Norm, Kind, Exec;
    if st.status == Running {
      assert Eval(Var(ACT), env, st) == Some(st.vars[ACT]);
      assert Eval(N(code), env, st) == Some(Int(code));
      assert Eval(Equal(Var(ACT), N(code)), env, st) == Some(Truth(st.vars[ACT] == Int(code)));
      ExecIf(Equal(Var(ACT), N(code)), s, Skip, env, st);
      ExecSkip(env, st);
    } else {
      ExecStopped(Act(code, s), env, st);
    }
  }

  // ------------------------------------------------------- saving a file

  /** A write either stops the install without changing anything, or is done. */
  lemma WriteOutcome(st: State, path: string, e: Entry)
    requires st.status == Running
    ensures var r := Write(st, path, e);
            && r.vars == st.vars && r.ro == st.ro
            && (r.m == st.m || r.m == st.m[Norm(path) := e])
            && (r.status == Running <==> r.m == st.m[Norm(path) := e] && r.left < st.left)
  {
    hide Norm, Kind;
  }

  /** The install stopped with `m` unchanged or with `e` written at `k`; if it
      goes on, `e` was written. */
  predicate Wrote(m: Tree, r: State, k: string, e: Entry) {
    (r.m == m || r.m == m[k := e]) && (r.status == Running ==> r.m == m[k := e])
  }

  /** A file whose paths are well formed. */
  predicate Proper(f: Saved) {
    && ':' in f.live && f.dir != [] && f.dir[|f.dir| - 1] != ':'
    && Keylike(Norm(f.live)) && Keylike(Norm(BackupOf(f)))
    && Unrelated(Norm(f.live), Norm(BackupOf(f)))
  }

  lemma SaveExec(f: Saved, env: Env, st: State)
    requires Proper(f) && st.status == Running && !env.pretend && Content(st.m, Norm(f.live)).Some?
    ensures var r, k := Exec(Save(f), env, st), Norm(BackupOf(f));
            r.vars == st.vars && Wrote(st.m, r, k, File(Content(st.m, Norm(f.live)).value))
  {
    hide Norm, Kind, Write;
    var kl := Norm(f.live);
    assert Source(f.live, env, st) == Some(st.m[kl]);
    assert InDir(f.dir, f.tag) == BackupOf(f);
    WriteOutcome(st, BackupOf(f), st.m[kl]);
  }

  lemma VerifiedExec(f: Saved, env: Env, st: State)
    ensures var r := Exec(Verified(f), env, st); r.m == st.m && r.vars == st.vars
  {
    hide Norm, Kind, Eval;
    var inner := Verified(f).thn;
    var r := Exec(inner, env, st);
    assert Exec(inner.thn, env, st).m == st.m && Exec(inner.thn, env, st).vars == st.vars;
    ExecSkip(env, st);
    assert r.m == st.m && r.vars == st.vars;
  }

  /** Saving by decision: nothing, or the live content under the backup name. */
  lemma SavePair(f: Saved, env: Env, st: State, code: int)
    requires Proper(f) && st.status == Running && !env.pretend
    requires ACT in st.vars && st.vars[ACT] == Int(code)
    requires code == 1 ==> Content(st.m, Norm(f.live)).Some?
    ensures var r, k := Run([Act(1, Save(f)), Act(1, Verified(f))], env, st), Norm(BackupOf(f));
            && r.vars == st.vars
            && (code != 1 ==> r == st)
            && (code == 1 ==> Wrote(st.m, r, k, File(Content(st.m, Norm(f.live)).value)))
  {
    hide Norm, Kind, Exec, Act, Save, Verified, Proper, BackupOf;
    RunTwo(Act(1, Save(f)), Act(1, Verified(f)), env, st);
    ActExec(1, Save(f), env, st);
    var s1 := Exec(Act(1, Save(f)), env, st);
    if code == 1 {
      SaveExec(f, env, st);
      ActExec(1, Verified(f), env, s1);
      VerifiedExec(f, env, s1);
      ExecStopped(Verified(f), env, s1);
    } else {
      ActExec(1, Verified(f), env, st);
    }
  }

  lemma CommandProper(n: string)
    requires Undo.ValidName(n)
    ensures Proper(Command(n))
    ensures Norm(Command(n).live) == LiveKey(n) && Norm(BackupOf(Command(n))) == BackupKey(n)
    ensures Norm(BK + "/new/" + n) == NewKey(n)
  {
    hide Norm, Unrelated, LiveKey, BackupKey, NewKey;
    NameKeys(n);
    NameUnrelated(n);
    assert Command(n).live[3] == ':';
    assert BackupOf(Command(n)) == Undo.BackupPath(n) by { assert (BK + "/C") + "/" + n == BK + "/C/" + n; }
  }

  lemma MarkNewExec(path: string, env: Env, st: State)
    requires st.status == Running && !env.pretend
    ensures var r := Exec(TextFile(L(path), ""), env, st);
            r.vars == st.vars && Wrote(st.m, r, Norm(path), File(""))
  {
    hide Norm, Kind, Write;
    assert Eval(L(path), env, st) == Some(Str(path));
    WriteOutcome(st, path, File(""));
  }

  /** PREPARE for one command: what it may write, and what it has written if
      the install goes on. */
  lemma PrepareNameExec(n: string, legacy: bool, env: Env, st: State)
    requires Undo.ValidName(n) && st.status == Running && !env.pretend
    requires FlagIs(st.vars, legacy)
    requires Plain(st.m, LiveKey(n))
    ensures var code := Code(st.m, Command(n), env.sum, true, legacy);
            var r := Run(PrepareName(n), env, st);
            && FlagIs(r.vars, legacy)
            && (code == 0 ==> r.m == st.m)
            && (code == 1 ==> Content(st.m, LiveKey(n)).Some?
                              && Wrote(st.m, r, BackupKey(n), File(Content(st.m, LiveKey(n)).value)))
            && (code == 2 ==> Wrote(st.m, r, NewKey(n), File("")))
  {
    hide *;
    var f := Command(n);
    CommandProper(n);
    var code := Code(st.m, f, env.sum, true, legacy);
    CodeMeans(st.m, f, env.sum, true, legacy);
    PrepareNameUnfold(n, legacy, env, st);
    var s1 := st.(vars := st.vars[ACT := Int(code)]);
    FlagStays(st.vars, legacy, Int(code));
    SavePair(f, env, s1, code);
    var s2 := Run([Act(1, Save(f)), Act(1, Verified(f))], env, s1);
    ActExec(2, TextFile(L(BK + "/new/" + n), ""), env, s2);
    if code == 2 {
      MarkNewExec(BK + "/new/" + n, env, s2);
    }
  }

  lemma ActNotLegacy()
    ensures ACT != LEGACY
  {
    assert ACT[4] != LEGACY[4];
  }

  lemma FlagStays(vars: map<string, Value>, legacy: bool, act: Value)
    requires FlagIs(vars, legacy)
    ensures FlagIs(vars[ACT := act], legacy)
  {
    ActNotLegacy();
  }

  lemma CodeMeans(m: Tree, f: Saved, sum: string -> nat, markNew: bool, legacy: bool)
    ensures var code := Code(m, f, sum, markNew, legacy);
            0 <= code <= 2 && (code == 1 ==> Content(m, Norm(f.live)).Some?)
  {
  }

  lemma PrepareNameUnfold(n: string, legacy: bool, env: Env, st: State)
    requires Undo.ValidName(n) && st.status == Running
    requires FlagIs(st.vars, legacy)
    requires Plain(st.m, LiveKey(n))
    ensures var f := Command(n);
            var s1 := st.(vars := st.vars[ACT := Int(Code(st.m, f, env.sum, true, legacy))]);
            var s2 := Run([Act(1, Save(f)), Act(1, Verified(f))], env, s1);
            Run(PrepareName(n), env, st) == Exec(Act(2, TextFile(L(BK + "/new/" + n), "")), env, s2)
  {
    hide Norm, Kind, Exec, Run, Decision, Act, Save, Verified, BackupOf, MarkKey, LiveKey, BackupKey, NewKey, Plain,
         Command, Content, Code, Proper, FlagIs;
    var f := Command(n);
    CommandProper(n);
    ProperKeylike(f);
    var save := [Act(1, Save(f)), Act(1, Verified(f))];
    var last := [Act(2, TextFile(L(BK + "/new/" + n), ""))];
    assert PrepareName(n) == Decision(f, true) + (save + last);
    RunAppend(Decision(f, true), save + last, env, st);
    DecisionExec(f, true, legacy, env, st);
    var s1 := st.(vars := st.vars[ACT := Int(Code(st.m, f, env.sum, true, legacy))]);
    RunAppend(save, last, env, s1);
    RunOne(last[0], env, Run(save, env, s1));
  }

  lemma ProperKeylike(f: Saved)
    requires Proper(f)
    ensures Keylike(Norm(f.live)) && Keylike(Norm(BackupOf(f)))
  {
  }

  lemma RunOne(s: Stmt, env: Env, st: State)
    ensures Run([s], env, st) == Exec(s, env, st)
  {
    hide Exec;
    assert [s][1..] == [];
    ExecStopped(s, env, st);
  }

  // ------------------------------------------------------------ markers

  /** FINISH for one file: the checksum marker of its content. */
  lemma MarkExec(f: Saved, env: Env, st: State)
    requires st.status == Running && !env.pretend
    requires Plain(st.m, Norm(f.live)) && Keylike(Norm(f.live))
    ensures var r := Exec(Mark(f), env, st);
            && (Content(st.m, Norm(f.live)).None? ==> r == st)
            && (Content(st.m, Norm(f.live)).Some? ==>
                  Wrote(st.m, r, MarkKey(f.tag, env.sum(Content(st.m, Norm(f.live)).value)), File("")))
  {
    hide Norm, Kind, Exec, MarkExp, MarkKey, MarkPath, Plain, Keylike, Eval;
    PlainKind(st.m, Norm(f.live));
    EvalExists(f.live, env, st);
    ExecIf(Exists(L(f.live)), TextFile(MarkExp(f), ""), Skip, env, st);
    ExecSkip(env, st);
    if Content(st.m, Norm(f.live)).Some? {
      var s := env.sum(Content(st.m, Norm(f.live)).value);
      EvalMark(f, env, st);
      MarkNorm(f.tag, s);
      ExecText(MarkExp(f), MarkPath(f.tag, s), env, st);
    }
  }

  lemma ExecText(e: Exp, path: string, env: Env, st: State)
    requires st.status == Running && !env.pretend && Eval(e, env, st) == Some(Str(path))
    ensures Wrote(st.m, Exec(TextFile(e, ""), env, st), Norm(path), File(""))
  {
    hide Norm, Kind, Write, Eval;
    WriteOutcome(st, path, File(""));
  }
}
