/** The generated PREPARE and FINISH sections of the install script around
    its copy phase, and which files each statement can reach. */
module InstallScript {
  import opened Seqs
  import opened Text
  import opened Files
  import opened Installer
  import Undo

  function L(s: string): Exp { Lit(Str(s)) }
  function N(i: int): Exp { Lit(Int(i)) }

  const BK := Undo.BK
  const UG := Undo.UG

  const HAD_UNDO := "#tn-had-undo"
  const LEGACY := "#tn-legacy"
  const ACT := "#tn-act"
  const LIBVAR := "#tn-lib"
  const STALE := "#tn-stale"
  const USBAK := "#tn-usbak"

  /** One file that PREPARE saves: where it lives, where its backup goes. */
  datatype Saved = Saved(live: string, dir: string, tag: string)

  function Command(n: string): Saved { Saved("SYS:C/" + n, BK + "/C", n) }
  const USERGROUP := Saved("SYS:Libs/" + UG, BK + "/Libs", UG)

  function BackupOf(f: Saved): string { f.dir + "/" + f.tag }

  /** The checksum marker of the live file's current content. */
  function MarkExp(f: Saved): Exp {
    Cat(L(BK + "/ours/" + f.tag + "/"), GetSum(L(f.live)))
  }

  function Save(f: Saved): Stmt { CopyFiles(f.live, f.dir, f.tag, false) }

  /** Sets #tn-act: 1 back the live file up, 2 mark it as new, 0 nothing. */
  function Decision(f: Saved, markNew: bool): seq<Stmt> {
    [Set(ACT, N(0)),
     If(Exists(L(f.live)),
        If(Not(Exists(MarkExp(f))),
           If(Not(Exists(L(BackupOf(f)))),
              If(Var(LEGACY), Set(ACT, N(if markNew then 2 else 0)), Set(ACT, N(1))),
              Skip),
           Skip),
        if markNew then Set(ACT, N(2)) else Skip)]
  }

  function Act(code: int, s: Stmt): Stmt { If(Equal(Var(ACT), N(code)), s, Skip) }

  function AbortUnless(bad: Exp, message: string): Stmt {
    If(Equal(Pretend, N(0)), If(bad, Abort(message), Skip), Skip)
  }

  function Verified(f: Saved): Stmt {
    AbortUnless(Differ(GetSize(L(f.live)), GetSize(L(BackupOf(f)))), "Backup failed - nothing was replaced yet.")
  }

  function PrepareName(n: string): seq<Stmt> {
    Decision(Command(n), true)
    + [Act(1, Save(Command(n))), Act(1, Verified(Command(n))), Act(2, TextFile(L(BK + "/new/" + n), ""))]
  }

  const PREPARE_UG: seq<Stmt> :=
    Decision(USERGROUP, false) + [Act(1, Save(USERGROUP)), Act(1, Verified(USERGROUP))]

  function PrepareNames(names: seq<string>): seq<Stmt> {
    if names == [] then [] else PrepareName(names[0]) + PrepareNames(names[1..])
  }

  function EnsureDir(d: string): Stmt { If(Not(Exists(L(d))), MakeDir(d), Skip) }

  function OursDirs(tags: seq<string>): seq<Stmt> {
    if tags == [] then [] else [EnsureDir(BK + "/ours/" + tags[0])] + OursDirs(tags[1..])
  }

  const DIRS: seq<Stmt> :=
    [EnsureDir("SYS:Storage"), EnsureDir(BK), EnsureDir(BK + "/C"), EnsureDir(BK + "/Libs"), EnsureDir(BK + "/new"),
     EnsureDir(BK + "/ours")]

  const OPENING: seq<Stmt> :=
    [Set(HAD_UNDO, Exists(L(Undo.UNDO))),
     Set(LEGACY, N(0)),
     If(Var(HAD_UNDO), If(Not(Exists(L(BK + "/new"))), Set(LEGACY, N(1)), Skip), Skip)]

  function UndoText(names: seq<string>): string
    requires Undo.ValidNames(names)
  {
    JoinLines(Undo.UndoLines(names))
  }

  // -------------------------------------------------- the stack library

  const LIB := Undo.LIB
  const PARKED := Undo.PARKED
  const NEWER := Undo.NEWER

  function Same(a: string, b: string): Exp {
    And(Equal(GetSum(L(a)), GetSum(L(b))), Equal(GetSize(L(a)), GetSize(L(b))))
  }

  function Choose(code: int): Stmt { Set(LIBVAR, N(code)) }
  function Chosen(code: int, s: Stmt): Stmt { If(Equal(Var(LIBVAR), N(code)), s, Skip) }

  const LIB_CHOICE: Stmt :=
    If(Exists(L(LIB)),
       If(Exists(L(PARKED)),
          If(Same(LIB, PARKED),
             Choose(3),
             If(Exists(L(NEWER)), If(Same(LIB, NEWER), Choose(5), Choose(4)), Choose(2))),
          Choose(1)),
       Skip)

  function Park(dst: string): Stmt {
    IfRenameFails(LIB, dst, If(Equal(Pretend, N(0)), Abort("Could not rename. Nothing was replaced."), Skip))
  }

  function DropCopy(dst: string): Stmt { If(Same(LIB, dst), Delete(LIB), Skip) }

  const PREPARE_LIB: seq<Stmt> :=
    [Choose(0), LIB_CHOICE, Chosen(4, Abort("differs from both saved copies. Nothing was replaced.")),
     Chosen(1, Park(PARKED)), Chosen(2, Park(NEWER)), Chosen(3, DropCopy(PARKED)), Chosen(5, DropCopy(NEWER))]

  // -------------------------------------------------------- User-Startup

  const US := Undo.US
  const US_BAK := Undo.US_BAK
  const US_OLD := Undo.US_OLD

  const US_MAKE := If(Not(Exists(L(US))), TextFile(L(US), ""), Skip)
  const US_STALE := If(Equal(Var(HAD_UNDO), N(0)), If(Exists(L(US_BAK)), Set(STALE, N(1)), Skip), Skip)
  const US_DROP := If(Equal(Var(STALE), N(1)), If(Exists(L(US_OLD)), Delete(US_OLD), Skip), Skip)
  const US_MOVE := If(Equal(Var(STALE), N(1)), Rename(US_BAK, US_OLD), Skip)
  const US_ASK := If(Not(Exists(L(US_BAK))), Set(USBAK, N(1)), Skip)
  const US_SAVE := If(Equal(Var(USBAK), N(1)), CopyFiles(US, "S:", "User-Startup.tolunnet-bak", false), Skip)
  const US_CHECK :=
    If(Equal(Var(USBAK), N(1)),
       AbortUnless(Differ(GetSize(L(US)), GetSize(L(US_BAK))), "Backup of S:User-Startup failed."), Skip)

  const PREPARE_STARTUP: seq<Stmt> :=
    [US_MAKE, Set(STALE, N(0)), US_STALE, US_DROP, US_MOVE, Set(USBAK, N(0)), US_ASK, US_SAVE, US_CHECK]

  function Prepare(names: seq<string>): seq<Stmt>
    requires Undo.ValidNames(names)
  {
    OPENING + [TextFile(L(Undo.UNDO), UndoText(names))] + DIRS + OursDirs(names + [UG])
    + PrepareNames(names) + PREPARE_UG + PREPARE_LIB + PREPARE_STARTUP
  }

  // --------------------------------------------------- copies and FINISH

  function CopyCommand(n: string): Stmt { CopyFiles("C/" + n, "SYS:C", n, false) }

  function CopyCommands(copied: seq<string>): seq<Stmt> {
    if copied == [] then [] else [CopyCommand(copied[0])] + CopyCommands(copied[1..])
  }

  const COPY_REST: seq<Stmt> :=
    [CopyFiles("Libs/usergroup.library", "SYS:Libs", UG, false),
     CopyFiles("TolunnetPrefs", "SYS:Prefs", "TolunnetPrefs", true),
     CopyFiles("TolunnetSetup", "SYS:Prefs", "TolunnetSetup", true)]

  function Mark(f: Saved): Stmt { If(Exists(L(f.live)), TextFile(MarkExp(f), ""), Skip) }

  function MarkNames(names: seq<string>): seq<Stmt> {
    if names == [] then [] else [Mark(Command(names[0]))] + MarkNames(names[1..])
  }

  function Finish(names: seq<string>): seq<Stmt> {
    MarkNames(names) + [Mark(USERGROUP), Startup]
  }

  /** The whole install: the copy phase may take the commands in any order. */
  function Script(names: seq<string>, copied: seq<string>): seq<Stmt>
    requires Undo.ValidNames(names)
  {
    Prepare(names) + (CopyCommands(copied) + COPY_REST) + Finish(names)
  }

  /** The loops of the generator. */
  method GenerateNameSections(names: seq<string>) returns (prepare: seq<Stmt>, finish: seq<Stmt>)
    ensures prepare == PrepareNames(names)
    ensures finish == MarkNames(names)
  {
    prepare, finish := [], [];
    var i := 0;
    assert names[i..] == names;
    while i < |names|
      invariant 0 <= i <= |names|
      invariant prepare + PrepareNames(names[i..]) == PrepareNames(names)
      invariant finish + MarkNames(names[i..]) == MarkNames(names)
    {
      assert names[i..][0] == names[i] && names[i..][1..] == names[i + 1..];
      prepare := prepare + PrepareName(names[i]);
      finish := finish + [Mark(Command(names[i]))];
      i := i + 1;
    }
    assert names[i..] == [];
  }

  // ------------------------------------------------------------- frames

  /** A text an expression can evaluate to: itself for a literal, a literal
      and a decimal number for a checksum marker. */
  ghost predicate CanBe(e: Exp, t: string) {
    match e
    case Lit(Str(s)) => t == s
    case Cat(Lit(Str(p)), GetSum(_)) => exists d: nat :: t == p + Decimal(d)
    case _ => true
  }

  /** No write of the statement lands at `k` or below. */
  ghost predicate Spares(s: Stmt, k: string) {
    match s
    case If(_, thn, els) => Spares(thn, k) && Spares(els, k)
    case IfRenameFails(src, dst, thn) =>
      !AtOrBelow(Norm(src), k) && !AtOrBelow(Norm(dst), k) && Spares(thn, k)
    case Rename(src, dst) => !AtOrBelow(Norm(src), k) && !AtOrBelow(Norm(dst), k)
    case CopyFiles(_, dest, name, infos) =>
      !AtOrBelow(Norm(InDir(dest, name)), k) && (infos ==> !AtOrBelow(Norm(InDir(dest, name + ".info")), k))
    case TextFile(path, _) => forall t :: CanBe(path, t) ==> !AtOrBelow(Norm(t), k)
    case MakeDir(dir) => !AtOrBelow(Norm(dir), k)
    case Delete(target) => !AtOrBelow(Norm(target), k)
    case Startup => !AtOrBelow(Norm(USER_STARTUP), k)
    case _ => true
  }

  ghost predicate SparesAll(p: seq<Stmt>, k: string) {
    forall i :: 0 <= i < |p| ==> Spares(p[i], k)
  }

  /** A statement that computes and decides, but touches no file. */
  predicate Quiet(s: Stmt) {
    match s
    case If(_, thn, els) => Quiet(thn) && Quiet(els)
    case Set(_, _) => true
    case Skip => true
    case Abort(_) => true
    case _ => false
  }

  lemma {:induction false} QuietSpares(s: Stmt, k: string)
    requires Quiet(s)
    ensures Spares(s, k)
  {
    if s.If? { QuietSpares(s.thn, k); QuietSpares(s.els, k); }
  }

  lemma QuietTests()
    ensures Quiet(US_STALE) && Quiet(US_ASK) && Quiet(US_CHECK)
  {
    hide Undo.US_BAK, Undo.US_OLD, Undo.US;
    QuietWhen(US_STALE.thn.c, Set(STALE, N(1)));
    QuietWhen(US_STALE.c, US_STALE.thn);
    QuietWhen(US_ASK.c, Set(USBAK, N(1)));
    var a := US_CHECK.thn;
    QuietWhen(a.thn.c, a.thn.thn);
    QuietWhen(a.c, a.thn);
    QuietWhen(US_CHECK.c, a);
  }

  lemma QuietWhen(c: Exp, s: Stmt)
    requires Quiet(s)
    ensures Quiet(If(c, s, Skip))
  {
  }

  lemma EvalCanBe(e: Exp, env: Env, st: State)
    ensures var v := Eval(e, env, st); v.Some? && v.value.Str? ==> CanBe(e, v.value.s)
  {
    hide Norm, Kind;
    var v := Eval(e, env, st);
    if v.Some? && v.value.Str? {
      match e {
        case Cat(Lit(Str(p)), GetSum(q)) =>
          assert Eval(Lit(Str(p)), env, st) == Some(Str(p));
          var d := Eval(GetSum(q), env, st).value.i;
          assert d >= 0;
          assert v.value.s == p + Decimal(d);
        case _ =>
      }
    }
  }

  lemma AgreeRemove(m: Tree, a: string, k: string)
    requires !AtOrBelow(a, k)
    ensures AgreeAt(m, m - {a}, k)
  {
  }

  lemma WriteSpares(st: State, path: string, e: Entry, k: string)
    requires !AtOrBelow(Norm(path), k)
    ensures AgreeAt(st.m, Write(st, path, e).m, k)
  {
    hide Norm, Kind;
    AgreeWrite(st.m, Norm(path), e, k);
  }

  lemma RenameSpares(src: string, dst: string, env: Env, st: State, k: string)
    requires !AtOrBelow(Norm(src), k) && !AtOrBelow(Norm(dst), k)
    ensures AgreeAt(st.m, RunRename(src, dst, env, st).0.m, k)
  {
    hide Norm;
    AgreeRemove(st.m, Norm(src), k);
    if !env.pretend && !RenameRefused(st, Norm(src), Norm(dst)) {
      AgreeWrite(st.m - {Norm(src)}, Norm(dst), st.m[Norm(src)], k);
    }
  }

  lemma CopySpares(s: Stmt, env: Env, st: State, k: string)
    requires s.CopyFiles? && Spares(s, k)
    ensures AgreeAt(st.m, RunCopyFiles(s, env, st).m, k)
  {
    hide Norm, Write, AtOrBelow;
    var data := Source(s.source, env, st);
    if data.Some? {
      var st1 := Write(st, InDir(s.dest, s.newname), data.value);
      WriteSpares(st, InDir(s.dest, s.newname), data.value, k);
      var icon := Source(s.source + ".info", env, st1);
      if s.infos && icon.Some? {
        WriteSpares(st1, InDir(s.dest, s.newname + ".info"), icon.value, k);
        AgreeTrans(st.m, st1.m, Write(st1, InDir(s.dest, s.newname + ".info"), icon.value).m, k);
      }
    }
  }

  lemma {:induction false} SparesExec(s: Stmt, env: Env, st: State, k: string)
    requires Spares(s, k)
    ensures AgreeAt(st.m, Exec(s, env, st).m, k)
  {
    hide Norm, Kind, AtOrBelow, RunRename, RunCopyFiles, Write;
    match s {
      case If(_, thn, els) => SparesExec(thn, env, st, k); SparesExec(els, env, st, k);
      case IfRenameFails(src, dst, thn) =>
        RenameSpares(src, dst, env, st, k);
        var st1 := RunRename(src, dst, env, st).0;
        SparesExec(thn, env, st1, k);
      case Rename(src, dst) => RenameSpares(src, dst, env, st, k);
      case CopyFiles(_, _, _, _) => CopySpares(s, env, st, k);
      case TextFile(path, body) =>
        EvalCanBe(path, env, st);
        var p := Eval(path, env, st);
        if p.Some? && p.value.Str? { WriteSpares(st, p.value.s, File(body), k); }
      case MakeDir(dir) => AgreeWrite(st.m, Norm(dir), Dir, k);
      case Delete(target) => AgreeRemove(st.m, Norm(target), k);
      case Startup =>
        var key := Norm(USER_STARTUP);
        var us := if key in st.m && st.m[key].File? then st.m[key].data else "";
        WriteSpares(st, USER_STARTUP, File(env.boot(us)), k);
      case _ =>
    }
  }

  lemma {:induction false} SparesRun(p: seq<Stmt>, env: Env, st: State, k: string)
    requires SparesAll(p, k)
    ensures AgreeAt(st.m, Run(p, env, st).m, k)
  {
    hide Exec, Spares;
    if p != [] && st.status == Running {
      var mid := Exec(p[0], env, st);
      SparesExec(p[0], env, st, k);
      SparesRun(p[1..], env, mid, k);
      AgreeTrans(st.m, mid.m, Run(p[1..], env, mid).m, k);
    }
  }

  /** The statement never sets the variable. */
  predicate KeepsVar(s: Stmt, v: string) {
    match s
    case Set(name, _) => name != v
    case If(_, thn, els) => KeepsVar(thn, v) && KeepsVar(els, v)
    case IfRenameFails(_, _, thn) => KeepsVar(thn, v)
    case _ => true
  }

  lemma {:induction false} KeepsVarExec(s: Stmt, env: Env, st: State, v: string)
    requires KeepsVar(s, v) && v in st.vars
    ensures v in Exec(s, env, st).vars && Exec(s, env, st).vars[v] == st.vars[v]
  {
    hide Norm, Kind, Eval;
    match s {
      case If(_, thn, els) => KeepsVarExec(thn, env, st, v); KeepsVarExec(els, env, st, v);
      case IfRenameFails(src, dst, thn) => KeepsVarExec(thn, env, RunRename(src, dst, env, st).0, v);
      case _ =>
    }
  }

  lemma {:induction false} KeepsVarRun(p: seq<Stmt>, env: Env, st: State, v: string)
    requires (forall i :: 0 <= i < |p| ==> KeepsVar(p[i], v)) && v in st.vars
    ensures v in Run(p, env, st).vars && Run(p, env, st).vars[v] == st.vars[v]
  {
    hide Exec, KeepsVar;
    if p != [] && st.status == Running {
      KeepsVarExec(p[0], env, st, v);
      KeepsVarRun(p[1..], env, Exec(p[0], env, st), v);
    }
  }
}
