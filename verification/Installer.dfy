/** The subset of the Installer language that the install script uses, with
    the simulator's semantics over the dictionary file system. An install can
    be interrupted before any of its writes. */
module Installer {
  import opened Seqs
  import opened Text
  import opened Files

  datatype Value = Int(i: int) | Str(s: string)

  datatype Exp =
    | Lit(v: Value)
    | Var(name: string)
    | Cat(l: Exp, r: Exp)
    | Exists(path: Exp)
    | GetSum(path: Exp)
    | GetSize(path: Exp)
    | Not(e: Exp)
    | And(l: Exp, r: Exp)
    | Equal(l: Exp, r: Exp)
    | Differ(l: Exp, r: Exp)
    | Pretend

  datatype Stmt =
    | Skip
    | Set(name: string, e: Exp)
    | If(c: Exp, thn: Stmt, els: Stmt)
    | IfRenameFails(src: string, dst: string, thn: Stmt)
    | Rename(src: string, dst: string)
    | CopyFiles(source: string, dest: string, newname: string, infos: bool)
    | TextFile(path: Exp, body: string)
    | MakeDir(dir: string)
    | Delete(target: string)
    | Startup
    | Abort(message: string)

  /** What the environment decides: the package, PRETEND mode, the checksum,
      and how the boot block is merged into S:User-Startup. */
  datatype Env = Env(package: map<string, string>, pretend: bool, sum: string -> nat, boot: string -> string)

  /** Crashed: an evaluation error, such as the checksum of a missing file. */
  datatype Status = Running | Interrupted | Aborted | Crashed

  /** `left` is the number of writes before the install is interrupted. */
  datatype State = State(m: Tree, ro: set<string>, vars: map<string, Value>, left: nat, status: Status)

  // -------------------------------------------------------- expressions

  function Show(v: Value): string {
    match v
    case Int(i) => if i < 0 then "-" + Decimal(-i) else Decimal(i)
    case Str(s) => s
  }

  predicate Truthy(v: Value) {
    v != Int(0) && v != Str("")
  }

  function Truth(b: bool): Value { Int(if b then 1 else 0) }

  /** The value of an expression; None where evaluation raises an error. */
  function Eval(e: Exp, env: Env, st: State): Option<Value> {
    match e
    case Lit(v) => Some(v)
    case Var(name) => if name in st.vars then Some(st.vars[name]) else None
    case Cat(l, r) =>
      (match (Eval(l, env, st), Eval(r, env, st))
       case (Some(a), Some(b)) => Some(Str(Show(a) + Show(b)))
       case _ => None)
    case Exists(path) =>
      (match Eval(path, env, st)
       case Some(Str(p)) => Some(Int(Kind(st.m, Norm(p))))
       case _ => None)
    case GetSum(path) =>
      (match Eval(path, env, st)
       case Some(Str(p)) =>
         if Norm(p) in st.m && st.m[Norm(p)].File? then Some(Int(env.sum(st.m[Norm(p)].data))) else None
       case _ => None)
    case GetSize(path) =>
      (match Eval(path, env, st)
       case Some(Str(p)) => if Norm(p) in st.m && st.m[Norm(p)].File? then Some(Int(|st.m[Norm(p)].data|)) else None
       case _ => None)
    case Not(a) =>
      (match Eval(a, env, st)
       case Some(v) => Some(Truth(!Truthy(v)))
       case None => None)
    case And(l, r) =>
      (match Eval(l, env, st)
       case Some(a) =>
         if !Truthy(a) then Some(Int(0))
         else (match Eval(r, env, st) case Some(b) => Some(Truth(Truthy(b))) case None => None)
       case None => None)
    case Equal(l, r) =>
      (match (Eval(l, env, st), Eval(r, env, st))
       case (Some(a), Some(b)) => Some(Truth(a == b))
       case _ => None)
    case Differ(l, r) =>
      (match (Eval(l, env, st), Eval(r, env, st))
       case (Some(a), Some(b)) => Some(Truth(a != b))
       case _ => None)
    case Pretend => Some(Truth(env.pretend))
  }

  // ------------------------------------------------------------ actions

  /** The key up to its last slash; the whole key without one. */
  function ParentFrom(k: string, i: nat): string
    requires i <= |k|
  {
    if i == 0 then k else if k[i - 1] == '/' then k[..i - 1] else ParentFrom(k, i - 1)
  }

  function Stop(st: State, why: Status): State { st.(status := why) }

  /** One write to the file system, unless the install is interrupted here. */
  function Change(st: State, m: Tree): State {
    if st.left == 0 then Stop(st, Interrupted) else st.(m := m, left := st.left - 1)
  }

  function Write(st: State, path: string, e: Entry): State {
    var k := Norm(path);
    if !Writable(st.ro, k) then Stop(st, Aborted)
    else if '/' in k && Kind(st.m, ParentFrom(k, |k|)) != DIRECTORY then Stop(st, Aborted)
    else Change(st, st.m[k := e])
  }

  function InDir(dest: string, name: string): string {
    if dest != [] && dest[|dest| - 1] == ':' then dest + name else dest + "/" + name
  }

  /** A source with a colon is on the system, one without in the package. */
  function Source(path: string, env: Env, st: State): Option<Entry> {
    if ':' in path then (if Norm(path) in st.m then Some(st.m[Norm(path)]) else None)
    else if path in env.package then Some(File(env.package[path])) else None
  }

  function RunCopyFiles(s: Stmt, env: Env, st: State): State
    requires s.CopyFiles?
  {
    match Source(s.source, env, st)
    case None => Stop(st, Aborted)
    case Some(data) =>
      if env.pretend then st
      else
        var st1 := Write(st, InDir(s.dest, s.newname), data);
        var icon := Source(s.source + ".info", env, st1);
        if st1.status != Running || !s.infos || icon.None? then st1
        else Write(st1, InDir(s.dest, s.newname + ".info"), icon.value)
  }

  predicate RenameRefused(st: State, a: string, b: string) {
    Kind(st.m, a) != FILE || Kind(st.m, b) != ABSENT || !Writable(st.ro, a) || !Writable(st.ro, b)
  }

  /** The rename and its result: 1 for done, 0 for refused. */
  function RunRename(src: string, dst: string, env: Env, st: State): (State, bool) {
    var a, b := Norm(src), Norm(dst);
    if env.pretend || RenameRefused(st, a, b) then (st, false)
    else (Change(st, (st.m - {a})[b := st.m[a]]), true)
  }

  const USER_STARTUP := "S:User-Startup"

  function Exec(s: Stmt, env: Env, st: State): State
    decreases s
  {
    if st.status != Running then st
    else
      match s
      case Skip => st
      case Set(name, e) =>
        (match Eval(e, env, st)
         case Some(v) => st.(vars := st.vars[name := v])
         case None => Stop(st, Crashed))
      case If(c, thn, els) =>
        (match Eval(c, env, st)
         case Some(v) => if Truthy(v) then Exec(thn, env, st) else Exec(els, env, st)
         case None => Stop(st, Crashed))
      case IfRenameFails(src, dst, thn) =>
        var (st1, done) := RunRename(src, dst, env, st);
        if done then st1 else Exec(thn, env, st1)
      case Rename(src, dst) => RunRename(src, dst, env, st).0
      case CopyFiles(_, _, _, _) => RunCopyFiles(s, env, st)
      case TextFile(path, body) =>
        (match Eval(path, env, st)
         case Some(Str(p)) => if env.pretend then st else Write(st, p, File(body))
         case _ => Stop(st, Crashed))
      case MakeDir(dir) =>
        if env.pretend then st
        else if !Writable(st.ro, Norm(dir)) then Stop(st, Aborted)
        else Change(st, st.m[Norm(dir) := Dir])
      case Delete(target) =>
        if env.pretend then st
        else if Kind(st.m, Norm(target)) != FILE || !Writable(st.ro, Norm(target)) then Stop(st, Aborted)
        else Change(st, st.m - {Norm(target)})
      case Startup =>
        if env.pretend then st
        else
          var k := Norm(USER_STARTUP);
          var us := if k in st.m && st.m[k].File? then st.m[k].data else "";
          Write(st, USER_STARTUP, File(env.boot(us)))
      case Abort(_) => Stop(st, Aborted)
  }

  function Run(p: seq<Stmt>, env: Env, st: State): State {
    if p == [] || st.status != Running then st else Run(p[1..], env, Exec(p[0], env, st))
  }

  lemma {:induction false} RunAppend(a: seq<Stmt>, b: seq<Stmt>, env: Env, st: State)
    ensures Run(a + b, env, st) == Run(b, env, Run(a, env, st))
  {
    if a == [] {
      assert a + b == b;
    } else if st.status == Running {
      assert (a + b)[1..] == a[1..] + b;
      RunAppend(a[1..], b, env, Exec(a[0], env, st));
    }
  }

  /** PRETEND mode changes no file, whatever the script. */
  lemma {:induction false} PretendExec(s: Stmt, env: Env, st: State)
    requires env.pretend
    ensures Exec(s, env, st).m == st.m
  {
    hide Norm, Kind;
    match s {
      case If(_, thn, els) => PretendExec(thn, env, st); PretendExec(els, env, st);
      case IfRenameFails(_, _, thn) => PretendExec(thn, env, st);
      case _ =>
    }
  }

  lemma {:induction false} PretendRun(p: seq<Stmt>, env: Env, st: State)
    requires env.pretend
    ensures Run(p, env, st).m == st.m
  {
    if p != [] && st.status == Running {
      PretendExec(p[0], env, st);
      PretendRun(p[1..], env, Exec(p[0], env, st));
    }
  }

  /** The Installer object: its file system and variables change in place. */
  class Interpreter {
    const env: Env
    var files: Tree
    var protected: set<string>
    var vars: map<string, Value>
    var left: nat
    var status: Status

    function Now(): State
      reads this
    {
      State(files, protected, vars, left, status)
    }

    constructor (env: Env, m: Tree, ro: set<string>, left: nat)
      ensures this.env == env && Now() == State(m, ro, map[], left, Running)
    {
      this.env := env;
      files, protected, vars, this.left, status := m, ro, map[], left, Running;
    }

    method Alter(m: Tree)
      modifies this
      ensures Now() == Change(old(Now()), m)
    {
      if left == 0 { status := Interrupted; } else { files := m; left := left - 1; }
    }

    method WriteEntry(path: string, e: Entry)
      modifies this
      ensures Now() == Write(old(Now()), path, e)
      ensures status != old(status) ==> files == old(files)
      ensures old(status) == Running == status ==> files == old(files)[Norm(path) := e]
      ensures old(status) == Running ==>
                var k := Norm(path);
                status == if !Writable(old(protected), k) then Aborted
                          else if '/' in k && Kind(old(files), ParentFrom(k, |k|)) != DIRECTORY then Aborted
                          else if old(left) == 0 then Interrupted else Running
    {
      var k := Norm(path);
      if !Writable(protected, k) {
        status := Aborted;
      } else if '/' in k && Kind(files, ParentFrom(k, |k|)) != DIRECTORY {
        status := Aborted;
      } else {
        Alter(files[k := e]);
      }
    }

    method Copy(s: Stmt)
      requires s.CopyFiles?
      modifies this
      ensures Now() == RunCopyFiles(s, env, old(Now()))
      ensures env.pretend || Source(s.source, env, old(Now())).None? ==> files == old(files)
      ensures old(status) == Running == status && !env.pretend ==>
                && Source(s.source, env, old(Now())).Some?
                && var one := old(files)[Norm(InDir(s.dest, s.newname)) := Source(s.source, env, old(Now())).value];
                   var icon := Source(s.source + ".info", env, old(Now()).(m := one));
                   files == if s.infos && icon.Some? then one[Norm(InDir(s.dest, s.newname + ".info")) := icon.value]
                            else one
    {
      var data := Source(s.source, env, Now());
      if data.None? {
        status := Aborted;
      } else if !env.pretend {
        WriteEntry(InDir(s.dest, s.newname), data.value);
        var icon := Source(s.source + ".info", env, Now());
        if status == Running && s.infos && icon.Some? {
          WriteEntry(InDir(s.dest, s.newname + ".info"), icon.value);
        }
      }
    }

    method TryRename(src: string, dst: string) returns (done: bool)
      modifies this
      ensures (Now(), done) == RunRename(src, dst, env, old(Now()))
      ensures done <==>
                && !env.pretend && Kind(old(files), Norm(src)) == FILE && Kind(old(files), Norm(dst)) == ABSENT
                && Writable(old(protected), Norm(src)) && Writable(old(protected), Norm(dst))
      ensures !done || status != old(status) ==> files == old(files)
      ensures done && old(status) == Running == status ==>
                Norm(src) in old(files) && Norm(dst) !in old(files)
                  && files == (old(files) - {Norm(src)})[Norm(dst) := old(files)[Norm(src)]]
    {
      var a, b := Norm(src), Norm(dst);
      done := !(env.pretend || RenameRefused(Now(), a, b));
      if done { Alter((files - {a})[b := files[a]]); }
    }

    method Execute(s: Stmt)
      modifies this
      ensures Now() == Exec(s, env, old(Now()))
      decreases s
    {
      if status != Running { return; }
      match s {
        case Skip =>
        case Set(name, e) =>
          var v := Eval(e, env, Now());
          if v.Some? { vars := vars[name := v.value]; } else { status := Crashed; }
        case If(c, thn, els) =>
          var v := Eval(c, env, Now());
          if v.None? { status := Crashed; }
          else if Truthy(v.value) { Execute(thn); }
          else { Execute(els); }
        case IfRenameFails(src, dst, thn) =>
          var done := TryRename(src, dst);
          if !done { Execute(thn); }
        case Rename(src, dst) => var _ := TryRename(src, dst);
        case CopyFiles(_, _, _, _) => Copy(s);
        case TextFile(path, body) =>
          var p := Eval(path, env, Now());
          if p.Some? && p.value.Str? {
            if !env.pretend { WriteEntry(p.value.s, File(body)); }
          } else {
            status := Crashed;
          }
        case MakeDir(dir) =>
          if !env.pretend {
            if !Writable(protected, Norm(dir)) { status := Aborted; } else { Alter(files[Norm(dir) := Dir]); }
          }
        case Delete(target) =>
          if !env.pretend {
            if Kind(files, Norm(target)) != FILE || !Writable(protected, Norm(target)) { status := Aborted; }
            else { Alter(files - {Norm(target)}); }
          }
        case Startup =>
          if !env.pretend {
            var k := Norm(USER_STARTUP);
            var us := if k in files && files[k].File? then files[k].data else "";
            WriteEntry(USER_STARTUP, File(env.boot(us)));
          }
        case Abort(_) => status := Aborted;
      }
    }

    /** The loop over the top-level statements. */
    method RunScript(p: seq<Stmt>)
      modifies this
      ensures Now() == Run(p, env, old(Now()))
    {
      var i := 0;
      while i < |p| && status == Running
        invariant 0 <= i <= |p|
        invariant Run(p, env, old(Now())) == Run(p[i..], env, Now())
      {
        assert p[i..][0] == p[i] && p[i..][1..] == p[i + 1..];
        Execute(p[i]);
        i := i + 1;
      }
    }
  }
}
