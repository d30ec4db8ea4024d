/** Two ways in which a stopped install, a completed one and the undo do not
    give the system back: stopped before new/ exists, the next install takes the
    system's own commands for tolunnet's; stopped after the copies, it takes
    tolunnet's for the system's. */
module Stopped {
  import opened Seqs
  import opened Files
  import opened Installer
  import opened InstallScript
  import opened InstallSteps
  import opened InstallFrames
  import opened InstallNames
  import opened InstallRun
  import InstallLib
  import opened InstallUg
  import opened InstallDirs
  import opened InstallGoes
  import opened InstallCompletes
  import opened HistoryCompletes
  import opened History
  import opened Versions
  import opened Retry
  import opened Restore
  import opened UndoLibs
  import Undo
  import UndoRun
  import opened Keys

  // -------------------------------------------------- counting the writes

  lemma {:induction false} NoWriteExec(s: Stmt, env: Env, st: State)
    requires st.left == 0
    ensures Exec(s, env, st).m == st.m && Exec(s, env, st).left == 0
  {
    hide Norm, Kind, Eval, Writable, ParentFrom;
    match s {
      case If(_, thn, els) => NoWriteExec(thn, env, st); NoWriteExec(els, env, st);
      case IfRenameFails(src, dst, thn) => NoWriteExec(thn, env, RunRename(src, dst, env, st).0);
      case _ =>
    }
  }

  /** With no writes left nothing changes any more. */
  lemma {:induction false} NoWriteRun(p: seq<Stmt>, env: Env, st: State)
    requires st.left == 0
    ensures Run(p, env, st).m == st.m && Run(p, env, st).left == 0
  {
    hide Exec;
    if p != [] && st.status == Running {
      NoWriteExec(p[0], env, st);
      NoWriteRun(p[1..], env, Exec(p[0], env, st));
    }
  }

  function Fewer(st: State, d: nat): State
    requires d <= st.left
  {
    st.(left := st.left - d)
  }

  lemma FewerWrite(st: State, path: string, e: Entry, d: nat)
    requires d <= st.left && st.status == Running && Write(st, path, e).status == Running
    requires d <= Write(st, path, e).left
    ensures Write(Fewer(st, d), path, e) == Fewer(Write(st, path, e), d)
  {
    hide Norm, Kind, Writable, ParentFrom;
  }

  lemma SameEval(e: Exp, env: Env, st: State, d: nat)
    requires d <= st.left
    ensures Eval(e, env, Fewer(st, d)) == Eval(e, env, st)
  {
    hide Norm, Kind, Show;
  }

  lemma LeftFalls(s: Stmt, env: Env, st: State)
    ensures Exec(s, env, st).left <= st.left
  {
    hide Norm, Kind, Eval, Writable, ParentFrom;
  }

  lemma FewerCopy(s: Stmt, env: Env, st: State, d: nat)
    requires s.CopyFiles? && d <= st.left && st.status == Running
    requires RunCopyFiles(s, env, st).status == Running && d <= RunCopyFiles(s, env, st).left
    ensures RunCopyFiles(s, env, Fewer(st, d)) == Fewer(RunCopyFiles(s, env, st), d)
  {
    hide Norm, Write, InDir;
    var data := Source(s.source, env, st);
    if data.Some? && !env.pretend {
      WriteOutcome(st, InDir(s.dest, s.newname), data.value);
      var st1 := Write(st, InDir(s.dest, s.newname), data.value);
      var icon := Source(s.source + ".info", env, st1);
      if st1.status == Running && s.infos && icon.Some? {
        WriteOutcome(st1, InDir(s.dest, s.newname + ".info"), icon.value);
        FewerWrite(st1, InDir(s.dest, s.newname + ".info"), icon.value, d);
      }
      FewerWrite(st, InDir(s.dest, s.newname), data.value, d);
    }
  }

  /** An install that goes on does the same with just the writes it needs. */
  lemma {:induction false} FewerExec(s: Stmt, env: Env, st: State, d: nat)
    requires d <= st.left && st.status == Running && Exec(s, env, st).status == Running && d <= Exec(s, env, st).left
    ensures Exec(s, env, Fewer(st, d)) == Fewer(Exec(s, env, st), d)
  {
    hide Norm, Kind, Writable, Write, RunCopyFiles, Eval;
    match s {
      case Set(_, e) => SameEval(e, env, st, d);
      case If(c, thn, els) =>
        SameEval(c, env, st, d);
        if Truthy(Eval(c, env, st).value) { FewerExec(thn, env, st, d); } else { FewerExec(els, env, st, d); }
      case IfRenameFails(src, dst, thn) =>
        if !RunRename(src, dst, env, st).1 { FewerExec(thn, env, st, d); }
      case CopyFiles(_, _, _, _) => FewerCopy(s, env, st, d);
      case TextFile(path, body) =>
        SameEval(path, env, st, d);
        if !env.pretend { FewerWrite(st, Eval(path, env, st).value.s, File(body), d); }
      case Startup =>
        if !env.pretend {
          var k := Norm(USER_STARTUP);
          var us := if k in st.m && st.m[k].File? then st.m[k].data else "";
          FewerWrite(st, USER_STARTUP, File(env.boot(us)), d);
        }
      case _ =>
    }
  }

  lemma {:induction false} FewerRun(p: seq<Stmt>, env: Env, st: State, d: nat)
    requires d <= st.left && Run(p, env, st).status == Running && d <= Run(p, env, st).left
    ensures Run(p, env, Fewer(st, d)) == Fewer(Run(p, env, st), d)
  {
    hide Exec;
    RunStays(p, env, st);
    if p != [] {
      var mid := Exec(p[0], env, st);
      RunStays(p[1..], env, mid);
      LeftFallsRun(p[1..], env, mid);
      FewerExec(p[0], env, st, d);
      FewerRun(p[1..], env, mid, d);
    }
  }

  lemma {:induction false} LeftFallsRun(p: seq<Stmt>, env: Env, st: State)
    ensures Run(p, env, st).left <= st.left
  {
    hide Exec;
    if p != [] && st.status == Running {
      LeftFalls(p[0], env, st);
      LeftFallsRun(p[1..], env, Exec(p[0], env, st));
    }
  }

  // ------------------------------------------- stopped after the undo script

  /** An install with one write writes its undo script and nothing else. */
  lemma FirstWriteOnly(names: seq<string>, copied: seq<string>, env: Env, st: State)
    requires Undo.ValidNames(names) && Able(st, env) && st.left == 1 && HostDirs(st.m)
    ensures Run(Script(names, copied), env, st).m == st.m[UNDO_KEY := File(UndoText(names))]
  {
    hide Run, Script, OPENING, DIRS, OursDirs, UndoText, PrepareNames, PREPARE_UG, PREPARE_LIB, PREPARE_STARTUP,
         CopyCommands, COPY_REST, Finish, UNDO_KEY, Slot, Norm, Undo.UNDO, HostDirs, Legacy, FlagIs, Undo.ValidName,
         Undo.UG;
    ScriptPhases(names, copied, env, st);
    var r := RunPhases(names, copied, env, st);
    OpeningExec(env, st);
    SKeys(); UndoSlot(); HostHas(st.m);
    RunOne(TextFile(L(Undo.UNDO), UndoText(names)), env, r.start);
    TextGoes(Undo.UNDO, UndoText(names), env, r.start, "sys:s");
    NoWriteRun(DIRS + OursDirs(names + [UG]), env, r.written);
    NoWriteRun(PrepareNames(names), env, r.dirs);
    NoWriteRun(PREPARE_UG, env, r.names);
    NoWriteRun(PREPARE_LIB, env, r.ug);
    NoWriteRun(PREPARE_STARTUP, env, r.lib);
    NoWriteRun(CopyCommands(copied), env, r.prepared);
    NoWriteRun(COPY_REST, env, r.copied);
    NoWriteRun(Finish(names), env, r.rest);
  }

  /** The undo script is away from all other keys. */
  lemma UndoAgrees(m: Tree, e: Entry, k: string)
    requires |k| > 6 && (!InS(k) || k[6] != 't')
    ensures AgreeAt(m, m[UNDO_KEY := e], k)
  {
    hide Norm, AtOrBelow, UNDO_KEY;
    SKeys();
    UndoWriteApart(k);
    AgreeWrite(m, UNDO_KEY, e, k);
  }

  lemma NameAgrees(m: Tree, e: Entry, n: string, s: nat)
    requires Undo.ValidName(n)
    ensures var m' := m[UNDO_KEY := e];
            && AgreeAt(m, m', LiveKey(n)) && AgreeAt(m, m', BackupKey(n)) && AgreeAt(m, m', NewKey(n))
            && AgreeAt(m, m', MarkKey(n, s))
  {
    hide LiveKey, BackupKey, NewKey, MarkKey, AgreeAt, UNDO_KEY, DeepKey;
    NameDeep(n); MarkDeep(n, s);
    var keys := [LiveKey(n), BackupKey(n), NewKey(n)];
    assert LiveKey(n) in keys && BackupKey(n) in keys && NewKey(n) in keys;
    DeepLong(LiveKey(n)); DeepLong(BackupKey(n)); DeepLong(NewKey(n)); DeepLong(MarkKey(n, s));
    UndoAgrees(m, e, LiveKey(n)); UndoAgrees(m, e, BackupKey(n)); UndoAgrees(m, e, NewKey(n));
    UndoAgrees(m, e, MarkKey(n, s));
  }

  /** The system with nothing but an undo script added. */
  lemma UndoAddedFacts(m: Tree, e: Entry, names: seq<string>)
    requires Undo.ValidNames(names) && Pristine(m, names) && HostDirs(m)
    ensures var m' := m[UNDO_KEY := e];
            && Legacy(m') && Kind(m', STACKS_KEY) == ABSENT && NEW_DIR_KEY !in m' && PlainFiles(m', names)
            && HostDirs(m') && AllOpen(m', names + [UG])
            && Plain(m', LIVE_UG_KEY) && PlainShelf(m') && ShelfOf(m') == ShelfOf(m)
  {
    hide Kind, Plain, LiveKey, BackupKey, NewKey, MarkKey, Undo.ValidName, UNDO_KEY, STACKS_KEY, NEW_DIR_KEY,
         HostDirs, AllOpen, LIVE_UG_KEY, LIB_KEY, PARKED_KEY, NEWER_KEY, AgreeAt, Fresh, Undo.UG, AtOrBelow, NoFiles,
         Content;
    var m' := m[UNDO_KEY := e];
    PristineDirs(m, names);
    NewDirShape();
    UndoAgrees(m, e, NEW_DIR_KEY); AgreeKind(m, m', NEW_DIR_KEY);
    KindPresent(m', UNDO_KEY);
    if NEW_DIR_KEY in m { KindPresent(m, NEW_DIR_KEY); }
    StacksAgrees(m, e); AgreeKind(m, m', STACKS_KEY);
    forall i | 0 <= i < |names| ensures Plain(m', LiveKey(names[i])) && Plain(m', BackupKey(names[i])) {
      PristineFresh(m, names, i, (x: string) => 0);
      FreshPlain(m, names[i], Content(m, LiveKey(names[i])), (x: string) => 0);
      NameAgrees(m, e, names[i], 0);
      AgreePlain(m, m', LiveKey(names[i])); AgreePlain(m, m', BackupKey(names[i]));
    }
    PristineOpen(m, names); TagsValid(names);
    UndoKeepsOpen(m, e, names + [UG]);
    LibAgrees(m, e);
    AgreePlain(m, m', LIVE_UG_KEY);
    InstallLib.ShelfKept(m, m');
  }

  lemma FreshPlain(m: Tree, n: string, orig: Option<string>, sum: string -> nat)
    requires Fresh(m, n, orig, sum)
    ensures Plain(m, LiveKey(n)) && Plain(m, BackupKey(n))
  {
  }

  lemma StacksAgrees(m: Tree, e: Entry)
    ensures AgreeAt(m, m[UNDO_KEY := e], STACKS_KEY)
  {
    hide AgreeAt;
    ShorterNotBelow(UNDO_KEY, STACKS_KEY);
    AgreeWrite(m, UNDO_KEY, e, STACKS_KEY);
  }

  lemma LibAgrees(m: Tree, e: Entry)
    ensures var m' := m[UNDO_KEY := e];
            AgreeAt(m, m', LIVE_UG_KEY) && AgreeAt(m, m', LIB_KEY) && AgreeAt(m, m', PARKED_KEY)
              && AgreeAt(m, m', NEWER_KEY)
  {
    hide AgreeAt, LIVE_UG_KEY, LIB_KEY, PARKED_KEY, NEWER_KEY, UNDO_KEY;
    UndoRun.LibsShape();
    UndoAgrees(m, e, LIVE_UG_KEY); UndoAgrees(m, e, LIB_KEY); UndoAgrees(m, e, PARKED_KEY); UndoAgrees(m, e, NEWER_KEY);
  }

  lemma StartupAgrees(m: Tree, e: Entry)
    requires Plain(m, US_KEY) && Plain(m, US_OLD_KEY)
    ensures var m' := m[UNDO_KEY := e]; Kind(m', US_KEY) != DIRECTORY && Kind(m', US_OLD_KEY) != DIRECTORY
  {
    hide AgreeAt, US_KEY, US_OLD_KEY, UNDO_KEY, Plain, Kind, Keylike;
    var m' := m[UNDO_KEY := e];
    UsShape(); UsKeylike();
    UndoAgrees(m, e, US_KEY); UndoAgrees(m, e, US_OLD_KEY);
    AgreePlain(m, m', US_KEY); AgreePlain(m, m', US_OLD_KEY);
    NotDirectory(m', US_KEY); NotDirectory(m', US_OLD_KEY);
  }

  /** Stopped right after its undo script, the install leaves the legacy flag
      on: the next one completes, takes the system's own command for an older
      tolunnet's, and after the undo the command is nowhere. */
  lemma EarlyStopLoses(pc: Machine, first: Install, next: Install, n: string, m0: Tree)
    requires Sound(first) && first.ro == {} && first.writes == 1 && Sound(next) && Undisturbed(next)
    requires ShortSums(pc.sum)
    requires Pristine(m0, next.names) && HostDirs(m0) && Plain(m0, US_KEY) && Plain(m0, US_OLD_KEY)
    requires n in next.names && Content(m0, LiveKey(n)).Some?
    ensures var r1 := RunInstall(pc, first, m0); var r2 := RunInstall(pc, next, r1.m); var end := UndoOf(r2.m, {}).m;
            && r1.status != Running && r2.status == Running
            && Content(end, LiveKey(n)).None? && Content(end, BackupKey(n)).None?
  {
    hide Run, Script, LiveKey, BackupKey, NewKey, MarkKey, Plain, Content, Undo.ValidName, UndoOf, Kind, UNDO_KEY,
         UndoText, PlainShelf, ShelfOf, STACKS_KEY, NEW_DIR_KEY, HostDirs, LIVE_UG_KEY, US_KEY, US_OLD_KEY, AllOpen,
         ShortSums, Packed, Legacy, KeptOf, PreparedOf, AtOrBelow;
    var e := File(UndoText(first.names));
    var m1 := m0[UNDO_KEY := e];
    FirstWriteOnly(first.names, first.copied, Env(first.package, false, pc.sum, pc.boot),
                   State(m0, {}, map[], 1, Running));
    UndoAddedFacts(m0, e, next.names);
    StartupAgrees(m0, e);
    ParkableShelf(ShelfOf(m1), ShelfOf(m0), pc.sum);
    CopiedValid(next);
    InstallCompletes.InstallCompletes(next.names, next.copied, Env(next.package, false, pc.sum, pc.boot),
                                      State(m1, {}, map[], next.writes, Running));
    PristineDirs(m0, next.names);
    MustMakeNew(pc, first, m0);
    RetryOutcome(pc, next, n, m1);
    TakenForOurs(m0, e, n, next.names, pc.sum);
  }

  lemma MustMakeNew(pc: Machine, first: Install, m0: Tree)
    requires Sound(first) && Kind(m0, NEW_DIR_KEY) == ABSENT && NEW_DIR_KEY !in RunInstall(pc, first, m0).m
    ensures RunInstall(pc, first, m0).status != Running
  {
    hide Run, Script, Kind, NEW_DIR_KEY, Undo.ValidName;
    NewDirThere(first.names, first.copied, Env(first.package, false, pc.sum, pc.boot),
                State(m0, first.ro, map[], first.writes, Running));
  }

  lemma TakenForOurs(m: Tree, e: Entry, n: string, names: seq<string>, sum: string -> nat)
    requires Undo.ValidNames(names) && n in names && Pristine(m, names) && Content(m, LiveKey(n)).Some?
    ensures var k := PreparedOf(m[UNDO_KEY := e], n, sum, true); k.saved.None? && k.marked
  {
    hide LiveKey, BackupKey, NewKey, MarkKey, Plain, Undo.ValidName, Kind, UNDO_KEY, AgreeAt, AtOrBelow, PlainShelf,
         ShelfOf, Content;
    var i :| 0 <= i < |names| && names[i] == n;
    PristineFresh(m, names, i, sum);
    NameAgrees(m, e, n, sum(Content(m, LiveKey(n)).value));
    KeptSame(m, m[UNDO_KEY := e], n, sum, true);
  }

  // ------------------------------------------------ stopped after the copies

  /** The phases up to the copies, with just the writes they need. */
  lemma FewerPhases(names: seq<string>, copied: seq<string>, env: Env, st: State, d: nat)
    requires Undo.ValidNames(names) && d <= st.left
    requires var r := RunPhases(names, copied, env, st); r.copied.status == Running && d <= r.copied.left
    ensures var r := RunPhases(names, copied, env, st);
            RunPhases(names, copied, env, Fewer(st, d)).copied == Fewer(r.copied, d)
    ensures var r := RunPhases(names, copied, env, st);
            r.names.status == Running && d <= r.names.left
              && RunPhases(names, copied, env, Fewer(st, d)).names == Fewer(r.names, d)
  {
    hide Run, OPENING, DIRS, OursDirs, UndoText, PrepareNames, PREPARE_UG, PREPARE_LIB, PREPARE_STARTUP, CopyCommands,
         COPY_REST, Finish, Undo.ValidName, Undo.UG;
    var r := RunPhases(names, copied, env, st);
    PhasesRunning(names, copied, env, st);
    LeftFallsRun(OPENING, env, st);
    LeftFallsRun([TextFile(L(Undo.UNDO), UndoText(names))], env, r.start);
    LeftFallsRun(DIRS + OursDirs(names + [UG]), env, r.written);
    LeftFallsRun(PrepareNames(names), env, r.dirs);
    LeftFallsRun(PREPARE_UG, env, r.names);
    LeftFallsRun(PREPARE_LIB, env, r.ug);
    LeftFallsRun(PREPARE_STARTUP, env, r.lib);
    LeftFallsRun(CopyCommands(copied), env, r.prepared);
    RunStays([TextFile(L(Undo.UNDO), UndoText(names))], env, r.start);
    FewerRun(OPENING, env, st, d);
    FewerRun([TextFile(L(Undo.UNDO), UndoText(names))], env, r.start, d);
    FewerRun(DIRS + OursDirs(names + [UG]), env, r.written, d);
    FewerRun(PrepareNames(names), env, r.dirs, d);
    FewerRun(PREPARE_UG, env, r.names, d);
    FewerRun(PREPARE_LIB, env, r.ug, d);
    FewerRun(PREPARE_STARTUP, env, r.lib, d);
    FewerRun(CopyCommands(copied), env, r.prepared, d);
  }

  /** A write with no writes left is where the install is interrupted. */
  lemma CopyRestStops(env: Env, st: State)
    requires Able(st, env) && st.left == 0 && HostDirs(st.m) && "Libs/usergroup.library" in env.package
    ensures Run(COPY_REST, env, st).status == Interrupted
  {
    hide Norm, Slot, LIVE_UG_KEY, Write, InDir, Run;
    RestPaths(); UgKeys(); UgLiveSlot(); UgSourceInPackage(env, st); HostLibs(st.m);
    var s := COPY_REST[0];
    assert RunCopyFiles(s, env, st).status == Interrupted by {
      WriteStops(st, InDir("SYS:Libs", UG), File(env.package["Libs/usergroup.library"]), "sys:libs");
    }
    assert Exec(s, env, st) == RunCopyFiles(s, env, st);
    assert COPY_REST[0..] == COPY_REST;
    RunStep(COPY_REST, 0, env, st);
    RunStays(COPY_REST[1..], env, Exec(s, env, st));
  }

  lemma HostLibs(m: Tree)
    requires HostDirs(m)
    ensures HasDir(m, "sys:libs")
  {
  }

  lemma WriteStops(st: State, path: string, e: Entry, d: string)
    requires st.status == Running && st.ro == {} && st.left == 0 && Slot(Norm(path), d) && HasDir(st.m, d)
    ensures Write(st, path, e) == st.(status := Interrupted)
  {
    hide Norm, Writable;
    var k := Norm(path);
    var x := k[|d| + 1..];
    assert k == d + "/" + x;
    ParentBack(d, x, |k|);
    assert Kind(st.m, d) == DIRECTORY;
  }

  /** The install up to the copies and not further: stopped there, it leaves what
      the copies left. */
  lemma StopsAfterCopies(names: seq<string>, copied: seq<string>, env: Env, st: State)
    requires Undo.ValidNames(names) && (forall i :: 0 <= i < |copied| ==> Undo.ValidName(copied[i]))
    requires Able(st, env) && st.left > Enough(names, copied) && Installable(st.m, names, env.sum)
    requires Packed(env.package, copied)
    ensures var c := RunPhases(names, copied, env, st).copied;
            && c.status == Running && c.left <= st.left && HostDirs(c.m) && OwnDirs(c.m, names + [UG])
            && (forall i :: 0 <= i < |names| ==> Plain(c.m, LiveKey(names[i]))) && Plain(c.m, LIVE_UG_KEY)
    ensures var c := RunPhases(names, copied, env, st).copied; var few := Fewer(st, c.left);
            var r := Run(Script(names, copied), env, few);
            r.status == Interrupted && r.m == c.m && RunPhases(names, copied, env, few).names.status == Running
  {
    hide Run, Script, LiveKey, Plain, Undo.ValidName, HostDirs, OwnDirs, Goes, Undo.UG, Kind, OPENING, DIRS, OursDirs,
         UndoText, PrepareNames, PREPARE_UG, PREPARE_LIB, PREPARE_STARTUP, CopyCommands, COPY_REST, Finish,
         LIVE_UG_KEY, ShortSums, HAD_UNDO;
    var r := RunPhases(names, copied, env, st);
    TagsValid(names);
    PrepareGoes(names, copied, env, st);
    CopiesGo(copied, names, names + [UG], env, r.prepared);
    GoesIs(CopyCommands(copied), env, r.prepared);
    UgPlainThrough(names, copied, env, st);
    CopiedLeft(names, copied, env, st);
    var d := r.copied.left;
    var few := Fewer(st, d);
    FewerPhases(names, copied, env, st, d);
    ScriptPhases(names, copied, env, few);
    var q := RunPhases(names, copied, env, few);
    CopyRestStops(env, q.copied);
    NoWriteRun(COPY_REST, env, q.copied);
    NoWriteRun(Finish(names), env, q.rest);
    RunStays(Finish(names), env, q.rest);
  }

  lemma CopiedLeft(names: seq<string>, copied: seq<string>, env: Env, st: State)
    requires Undo.ValidNames(names)
    ensures RunPhases(names, copied, env, st).copied.left <= st.left
  {
    hide Run, OPENING, DIRS, OursDirs, UndoText, PrepareNames, PREPARE_UG, PREPARE_LIB, PREPARE_STARTUP, CopyCommands,
         COPY_REST, Finish;
    var r := RunPhases(names, copied, env, st);
    LeftFallsRun(OPENING, env, st);
    LeftFallsRun([TextFile(L(Undo.UNDO), UndoText(names))], env, r.start);
    LeftFallsRun(DIRS + OursDirs(names + [UG]), env, r.written);
    LeftFallsRun(PrepareNames(names), env, r.dirs);
    LeftFallsRun(PREPARE_UG, env, r.names);
    LeftFallsRun(PREPARE_LIB, env, r.ug);
    LeftFallsRun(PREPARE_STARTUP, env, r.lib);
    LeftFallsRun(CopyCommands(copied), env, r.prepared);
  }

  /** Up to the copies no checksum marker is written. */
  lemma NoMarksYet(names: seq<string>, copied: seq<string>, n: string, s: nat, env: Env, st: State)
    requires Undo.ValidNames(names) && Undo.ValidName(n)
             && (forall i :: 0 <= i < |copied| ==> Undo.ValidName(copied[i]))
    ensures Kind(RunPhases(names, copied, env, st).copied.m, MarkKey(n, s)) == Kind(st.m, MarkKey(n, s))
  {
    hide MarkKey, AgreeAt, Undo.ValidName, Run, SparesAll, OPENING, DIRS, OursDirs, UndoText, PrepareNames, AtOrBelow,
         BackupKey, NewKey, LiveKey, PREPARE_UG, PREPARE_LIB, PREPARE_STARTUP, CopyCommands, COPY_REST, Finish, Kind,
         Plain, DeepKey;
    var k := MarkKey(n, s);
    var r := RunPhases(names, copied, env, st);
    KeyThroughOpening(names, copied, n, k, s, env, st);
    AgreeKind(st.m, r.dirs.m, k);
    MarkShape(n, s); MarkDeep(n, s);
    forall i | 0 <= i < |names| ensures !AtOrBelow(BackupKey(names[i]), k) && !AtOrBelow(NewKey(names[i]), k) {
      NameWritesApart(names[i], k);
    }
    PrepareNamesSpare(names, k);
    LateSpares(k);
    forall i | 0 <= i < |copied| ensures !AtOrBelow(LiveKey(copied[i]), k) { LiveApart(copied[i], k); }
    CopiesSpare(copied, k);
    PlainThrough(PrepareNames(names), env, r.dirs, k);
    PlainThrough(PREPARE_UG, env, r.names, k);
    PlainThrough(PREPARE_LIB, env, r.ug, k);
    PlainThrough(PREPARE_STARTUP, env, r.lib, k);
    PlainThrough(CopyCommands(copied), env, r.prepared, k);
  }

  lemma ShelfNotRefused(l: UndoLibs.Shelf, l0: UndoLibs.Shelf, sum: string -> nat)
    requires InstallLib.LibCode(l0, sum) != 4 && (l == l0 || l == InstallLib.ParkShelf(l0, sum))
    ensures InstallLib.LibCode(l, sum) != 4
  {
  }

  lemma OwnIsOpen(m: Tree, tags: seq<string>, fewer: seq<string>)
    requires OwnDirs(m, tags) && forall i :: 0 <= i < |fewer| ==> fewer[i] in tags
    ensures AllOpen(m, fewer)
  {
    hide HasDir, OursKey, Kind;
    forall i | 0 <= i < |fewer| ensures Open(m, OursKey(fewer[i])) {
      var j :| 0 <= j < |tags| && tags[j] == fewer[i];
      assert HasDir(m, OursKey(tags[j]));
    }
  }

  /** The next install can run on what the stopped one left. */
  lemma StoppedInstallable(names: seq<string>, copied: seq<string>, next: seq<string>, env: Env, st: State, c: Tree)
    requires Undo.ValidNames(names) && (forall i :: 0 <= i < |copied| ==> Undo.ValidName(copied[i]))
             && st.status == Running && !env.pretend
    requires forall i :: 0 <= i < |next| ==> next[i] in names
    requires Installable(st.m, names, env.sum) && Plain(st.m, US_KEY) && Plain(st.m, US_OLD_KEY)
    requires Run(Script(names, copied), env, st).m == c && HostDirs(c) && OwnDirs(c, names + [UG])
    requires (forall i :: 0 <= i < |names| ==> Plain(c, LiveKey(names[i]))) && Plain(c, LIVE_UG_KEY)
    ensures Installable(c, next, env.sum)
  {
    hide Run, Script, LiveKey, Plain, Undo.ValidName, HostDirs, OwnDirs, Undo.UG, Kind, LIVE_UG_KEY, ShortSums,
         US_KEY, US_OLD_KEY, PlainShelf, ShelfOf, InstallLib.LibCode, InstallLib.ParkShelf, Keylike, AllOpen;
    StartupStaysPlain(names, copied, US_KEY, env, st);
    StartupStaysPlain(names, copied, US_OLD_KEY, env, st);
    UsKeylike();
    NotDirectory(c, US_KEY); NotDirectory(c, US_OLD_KEY);
    InstallLib.InstallLibrary(names, copied, env, st);
    ShelfNotRefused(ShelfOf(c), ShelfOf(st.m), env.sum);
    var tags, fewer := names + [UG], next + [UG];
    forall i | 0 <= i < |fewer| ensures fewer[i] in tags {
      if i < |next| { assert next[i] in names; } else { assert tags[|names|] == UG; }
    }
    OwnIsOpen(c, tags, fewer);
    forall i | 0 <= i < |next| ensures Plain(c, LiveKey(next[i])) {
      var j :| 0 <= j < |names| && names[j] == next[i];
    }
  }

  lemma PristinePlain(m: Tree, names: seq<string>)
    requires Pristine(m, names)
    ensures PlainFiles(m, names) && !Legacy(m) && Kind(m, STACKS_KEY) == ABSENT
  {
    hide Kind, Plain, LiveKey, BackupKey, Fresh, AtOrBelow, PlainShelf, ShelfOf, UNDO_KEY, NEW_DIR_KEY, STACKS_KEY,
         Content;
    forall i | 0 <= i < |names| ensures Plain(m, LiveKey(names[i])) && Plain(m, BackupKey(names[i])) {
      PristineFresh(m, names, i, (x: string) => 0);
      FreshPlain(m, names[i], Content(m, LiveKey(names[i])), (x: string) => 0);
    }
  }

  /** The state of one command that the system did not have, after the copies. */
  lemma CopiedUnmarked(names: seq<string>, copied: seq<string>, n: string, env: Env, st: State)
    requires Undo.ValidNames(names) && n in names && n in copied
             && (forall i :: 0 <= i < |copied| ==> copied[i] in names)
    requires st.status == Running && !env.pretend && Pristine(st.m, names) && Content(st.m, LiveKey(n)).None?
    requires var r := RunPhases(names, copied, env, st); r.copied.status == Running && HasDir(r.copied.m, NEW_DIR_KEY)
    ensures "C/" + n in env.package
    ensures var c := RunPhases(names, copied, env, st).copied.m; var data := env.package["C/" + n];
            && Content(c, LiveKey(n)) == Some(data) && Kind(c, MarkKey(n, env.sum(data))) == ABSENT && !Legacy(c)
  {
    hide RunPhases, Run, LiveKey, BackupKey, NewKey, MarkKey, Plain, Undo.ValidName, Kind, UNDO_KEY, NEW_DIR_KEY,
         CopyCommands, AtOrBelow, PlainShelf, ShelfOf, Content, Fresh;
    var r := RunPhases(names, copied, env, st);
    LastPhases(names, copied, env, st);
    CopiesPut(names, copied, n, env, r.prepared);
    var data := env.package["C/" + n];
    NoMarksYet(names, copied, n, env.sum(data), env, st);
    PristineMark(st.m, names, n, env.sum(data));
    DirKind(r.copied.m, NEW_DIR_KEY);
  }

  lemma DirKind(m: Tree, k: string)
    requires HasDir(m, k)
    ensures Kind(m, k) != ABSENT
  {
  }

  lemma PristineMark(m: Tree, names: seq<string>, n: string, s: nat)
    requires Pristine(m, names) && Undo.ValidName(n)
    ensures Kind(m, MarkKey(n, s)) == ABSENT
  {
    hide Kind, Plain, Content, AtOrBelow, PlainShelf, ShelfOf, MarkKey, LiveKey, Keylike;
    MarkUnderBackup(n, s);
    NothingThere(m, MarkKey(n, s));
  }

  ghost function StartOf(i: Install, m: Tree): State { State(m, i.ro, map[], i.writes, Running) }

  function EnvOf(pc: Machine, i: Install): Env { Env(i.package, false, pc.sum, pc.boot) }

  /** The install at the end of its copies. */
  ghost function CopiedState(pc: Machine, i: Install, m: Tree): State
    requires Sound(i)
  {
    RunPhases(i.names, i.copied, EnvOf(pc, i), StartOf(i, m)).copied
  }

  /** The machine, the two installs and the system of this failure. */
  ghost predicate Setting(pc: Machine, first: Install, next: Install, m0: Tree) {
    && Sound(first) && Undisturbed(first) && Sound(next) && Undisturbed(next) && ShortSums(pc.sum)
    && (forall i :: 0 <= i < |next.names| ==> next.names[i] in first.names)
    && Pristine(m0, first.names) && HostDirs(m0) && Plain(m0, US_KEY) && Plain(m0, US_OLD_KEY)
  }

  lemma StopThere(pc: Machine, first: Install, next: Install, m0: Tree)
    requires Setting(pc, first, next, m0)
    ensures var c := CopiedState(pc, first, m0);
            c.status == Running && c.left <= first.writes && HasDir(c.m, NEW_DIR_KEY)
              && Installable(c.m, next.names, pc.sum)
    ensures var c := CopiedState(pc, first, m0); var r1 := RunInstall(pc, first.(writes := first.writes - c.left), m0);
            && r1.status == Interrupted && r1.m == c.m
            && RunPhases(first.names, first.copied, EnvOf(pc, first),
                         Fewer(StartOf(first, m0), c.left)).names.status == Running
  {
    hide Run, Script, RunPhases, LiveKey, Plain, Undo.ValidName, HostDirs, OwnDirs, LIVE_UG_KEY, US_KEY, US_OLD_KEY,
         ShortSums, Undo.UG, Pristine, NEW_DIR_KEY, HasDir, Installable, Packed;
    var env, st := EnvOf(pc, first), StartOf(first, m0);
    CopiedValid(first);
    PristineInstallable(first.names, m0, pc.sum);
    StopsAfterCopies(first.names, first.copied, env, st);
    var c := CopiedState(pc, first, m0);
    var few := Fewer(st, c.left);
    assert few == StartOf(first.(writes := first.writes - c.left), m0);
    StoppedInstallable(first.names, first.copied, next.names, env, few, c.m);
    OwnHas(c.m, first.names + [UG], |first.names|);
  }

  lemma StoppedFiles(pc: Machine, first: Install, next: Install, m0: Tree)
    requires Setting(pc, first, next, m0)
    ensures var c := CopiedState(pc, first, m0).m;
            && Kind(c, STACKS_KEY) == ABSENT && PlainFiles(c, first.names)
            && forall n :: n in first.names ==> KeptOf(c, n) == PreparedOf(m0, n, pc.sum, false)
  {
    hide Run, Script, RunPhases, LiveKey, BackupKey, Plain, Undo.ValidName, KeptOf, PreparedOf, Kind, STACKS_KEY,
         Legacy, Undisturbed, HostDirs, US_KEY, US_OLD_KEY, ShortSums, Pristine, Installable, HasDir, PlainFiles;
    var env, st := EnvOf(pc, first), StartOf(first, m0);
    StopThere(pc, first, next, m0);
    CopiedValid(first);
    PristinePlain(m0, first.names);
    var c := CopiedState(pc, first, m0);
    var few := Fewer(st, c.left);
    assert few == StartOf(first.(writes := first.writes - c.left), m0);
    ScriptPhases(first.names, first.copied, env, few);
    StacksStayAbsent(first.names, first.copied, env, few);
    forall x | x in first.names
      ensures Plain(c.m, LiveKey(x)) && Plain(c.m, BackupKey(x)) && KeptOf(c.m, x) == PreparedOf(m0, x, pc.sum, false)
    {
      PlainFile(m0, first.names, x);
      PreparedKeeps(first.names, first.copied, x, env, few);
    }
    AllPlain(c.m, first.names);
  }

  lemma AllPlain(m: Tree, names: seq<string>)
    requires forall x :: x in names ==> Plain(m, LiveKey(x)) && Plain(m, BackupKey(x))
    ensures PlainFiles(m, names)
  {
    hide Plain, LiveKey, BackupKey;
  }

  lemma FewerPlain(m: Tree, names: seq<string>, fewer: seq<string>)
    requires PlainFiles(m, names) && forall i :: 0 <= i < |fewer| ==> fewer[i] in names
    ensures PlainFiles(m, fewer)
  {
    hide Plain, LiveKey, BackupKey;
    forall i | 0 <= i < |fewer| ensures Plain(m, LiveKey(fewer[i])) && Plain(m, BackupKey(fewer[i])) {
      var j :| 0 <= j < |names| && names[j] == fewer[i];
    }
  }

  /** Stopped after the copies, the install leaves tolunnet's file unmarked: the
      next one completes, saves it as the system's, and the undo gives it back. */
  lemma LateStopKeeps(pc: Machine, first: Install, next: Install, n: string, m0: Tree)
    requires Setting(pc, first, next, m0) && n in first.copied && n in next.names && Content(m0, LiveKey(n)).None?
    ensures "C/" + n in first.package
    ensures CopiedState(pc, first, m0).left <= first.writes
    ensures var w := first.writes - CopiedState(pc, first, m0).left;
            var r1 := RunInstall(pc, first.(writes := w), m0); var r2 := RunInstall(pc, next, r1.m);
            && r1.status == Interrupted && r2.status == Running
            && Content(UndoOf(r2.m, {}).m, LiveKey(n)) == Some(first.package["C/" + n]) != Content(m0, LiveKey(n))
  {
    hide Run, Script, RunPhases, LiveKey, BackupKey, MarkKey, Plain, Content, Undo.ValidName, UndoOf, Kind,
         STACKS_KEY, NEW_DIR_KEY, HostDirs, US_KEY, US_OLD_KEY, ShortSums, Legacy, KeptOf, PreparedOf, Pristine,
         Installable, HasDir, PlainFiles, Packed;
    var env, st := EnvOf(pc, first), StartOf(first, m0);
    var c := CopiedState(pc, first, m0);
    CopiedValid(next);
    StopThere(pc, first, next, m0);
    StoppedFiles(pc, first, next, m0);
    FewerPlain(c.m, first.names, next.names);
    InstallCompletes.InstallCompletes(next.names, next.copied, EnvOf(pc, next), StartOf(next, c.m));
    assert n in first.names;
    CopiedUnmarked(first.names, first.copied, n, env, st);
    RetryOutcome(pc, next, n, c.m);
    PristineKept(m0, first.names, n);
    SavedAsTheirs(c.m, n, pc.sum, first.package["C/" + n]);
  }

  lemma PlainFile(m: Tree, names: seq<string>, n: string)
    requires PlainFiles(m, names) && n in names
    ensures Plain(m, LiveKey(n)) && Plain(m, BackupKey(n))
    ensures forall i :: 0 <= i < |names| ==> Plain(m, LiveKey(names[i]))
  {
  }

  lemma PristineKept(m: Tree, names: seq<string>, n: string)
    requires Pristine(m, names) && n in names && Content(m, LiveKey(n)).None?
    ensures forall sum: string -> nat, legacy :: PreparedOf(m, n, sum, legacy).saved.None?
  {
    hide Kind, Plain, LiveKey, BackupKey, NewKey, AtOrBelow, PlainShelf, ShelfOf, Content;
    var i :| 0 <= i < |names| && names[i] == n;
    PristineFresh(m, names, i, (x: string) => 0);
  }

  lemma SavedAsTheirs(m: Tree, n: string, sum: string -> nat, data: string)
    requires Content(m, LiveKey(n)) == Some(data) && KeptOf(m, n).saved.None?
    requires Kind(m, MarkKey(n, sum(data))) == ABSENT
    ensures PreparedOf(m, n, sum, false).saved == Some(data)
  {
  }

  lemma PristineInstallable(names: seq<string>, m0: Tree, sum: string -> nat)
    requires Undo.ValidNames(names) && Pristine(m0, names) && HostDirs(m0) && Plain(m0, US_KEY)
    requires Plain(m0, US_OLD_KEY) && ShortSums(sum)
    ensures Installable(m0, names, sum)
  {
    hide Kind, Plain, LiveKey, HostDirs, US_KEY, US_OLD_KEY, ShortSums, AllOpen, AtOrBelow, PlainShelf, ShelfOf,
         Keylike, LIVE_UG_KEY, UNDO_KEY, STACKS_KEY, Undo.ValidName, Undo.UG;
    PristineOpen(m0, names);
    UsKeylike();
    NotDirectory(m0, US_KEY); NotDirectory(m0, US_OLD_KEY);
    ParkableShelf(ShelfOf(m0), ShelfOf(m0), sum);
  }
}
