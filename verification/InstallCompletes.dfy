/** An install with enough writes, nothing protected, its directories in place
    and its package complete runs to its end. */
module InstallCompletes {
  import opened Seqs
  import opened Text
  import opened Files
  import opened Installer
  import opened InstallScript
  import opened InstallSteps
  import opened InstallFrames
  import opened InstallNames
  import opened InstallRun
  import opened InstallUg
  import opened InstallLib
  import opened InstallDirs
  import opened InstallGoes
  import opened Restore
  import opened UndoLibs
  import Undo
  import UndoRun
  import opened Keys

  // -------------------------------------------------------- User-Startup

  /** No statement forgets a variable. */
  lemma {:induction false} VarStaysExec(s: Stmt, env: Env, st: State, v: string)
    requires v in st.vars
    ensures v in Exec(s, env, st).vars
  {
    hide Norm, Kind, Eval;
    match s {
      case If(_, thn, els) => VarStaysExec(thn, env, st, v); VarStaysExec(els, env, st, v);
      case IfRenameFails(src, dst, thn) => VarStaysExec(thn, env, RunRename(src, dst, env, st).0, v);
      case _ =>
    }
  }

  lemma {:induction false} VarStays(p: seq<Stmt>, env: Env, st: State, v: string)
    requires v in st.vars
    ensures v in Run(p, env, st).vars
  {
    hide Exec;
    if p != [] && st.status == Running {
      VarStaysExec(p[0], env, st, v);
      VarStays(p[1..], env, Exec(p[0], env, st), v);
    }
  }

  lemma EvalTest(v: string, i: int, env: Env, st: State)
    requires v in st.vars
    ensures Eval(Equal(Var(v), N(i)), env, st) == Some(Truth(st.vars[v] == Int(i)))
  {
    assert Eval(Var(v), env, st) == Some(st.vars[v]) && Eval(N(i), env, st) == Some(Int(i));
  }

  /** A test of a variable and one statement under it. */
  lemma TestExec(v: string, i: int, s: Stmt, env: Env, st: State)
    requires st.status == Running && v in st.vars
    ensures Exec(If(Equal(Var(v), N(i)), s, Skip), env, st) == if st.vars[v] == Int(i) then Exec(s, env, st) else st
  {
    hide Exec, Eval;
    EvalTest(v, i, env, st);
    ExecIf(Equal(Var(v), N(i)), s, Skip, env, st);
    ExecSkip(env, st);
  }

  /** S:User-Startup is there, and the install can go on writing in S:. */
  predicate UsThere(st: State, env: Env) {
    Able(st, env) && HasDir(st.m, "sys:s") && Content(st.m, US_KEY).Some?
  }

  lemma FirstStartup(env: Env, st: State)
    requires Able(st, env) && st.left > 0 && HasDir(st.m, "sys:s")
    requires Kind(st.m, US_KEY) != DIRECTORY && Kind(st.m, US_OLD_KEY) != DIRECTORY
    ensures var r := Exec(PREPARE_STARTUP[0], env, st);
            UsThere(r, env) && Kind(r.m, US_OLD_KEY) != DIRECTORY && r.vars == st.vars && r.left + 1 >= st.left
  {
    hide Norm, Exec, US_KEY, US_OLD_KEY, Slot, Kind, Undo.US_BAK, Undo.US_OLD;
    SKeys(); DirSlots();
    var s := PREPARE_STARTUP[0];
    EvalExists(US, env, st);
    ExecIf(s.c, s.thn, s.els, env, st);
    ExecSkip(env, st);
    FileOrAbsent(st.m, US_KEY);
    if Kind(st.m, US_KEY) == ABSENT {
      TextGoes(US, "", env, st, "sys:s");
      StartupApart();
      AgreeWrite(st.m, US_KEY, File(""), US_OLD_KEY);
      AgreeKind(st.m, st.m[US_KEY := File("")], US_OLD_KEY);
    }
  }

  lemma FileOrAbsent(m: Tree, k: string)
    requires Kind(m, k) != DIRECTORY
    ensures Kind(m, k) == ABSENT <==> Content(m, k).None?
    ensures Kind(m, k) == FILE <==> Content(m, k).Some?
  {
  }

  lemma StartupApart()
    ensures US_KEY != "sys:s" && US_BAK_KEY != "sys:s" && US_OLD_KEY != "sys:s" && US_KEY != US_BAK_KEY
    ensures US_KEY != US_OLD_KEY
    ensures !AtOrBelow(US_KEY, US_OLD_KEY)
  {
    assert |US_KEY| == 18 && |US_BAK_KEY| > 18 && |US_OLD_KEY| > 18;
  }

  lemma TextGoes(path: string, body: string, env: Env, st: State, d: string)
    requires Able(st, env) && st.left > 0 && Slot(Norm(path), d) && HasDir(st.m, d)
    ensures Exec(TextFile(L(path), body), env, st) == st.(m := st.m[Norm(path) := File(body)], left := st.left - 1)
  {
    hide Norm, Kind, Write, Slot, HasDir;
    assert Eval(L(path), env, st) == Some(Str(path));
    WriteGoes(st, path, File(body), d);
  }

  /** The second and third statement only set #tn-stale. */
  lemma StaleSet(env: Env, st: State)
    requires st.status == Running && HAD_UNDO in st.vars
    ensures var r := Exec(PREPARE_STARTUP[2], env, Exec(PREPARE_STARTUP[1], env, st));
            r == st.(vars := r.vars) && STALE in r.vars
  {
    hide Norm, Exec, Kind, Undo.US_BAK, Undo.US_OLD, STALE, HAD_UNDO;
    var b := PREPARE_STARTUP[2];
    ExecSet(STALE, 0, env, st);
    var s1 := st.(vars := st.vars[STALE := Int(0)]);
    TestExec(HAD_UNDO, 0, b.thn, env, s1);
    EvalExists(US_BAK, env, s1);
    ExecIf(b.thn.c, b.thn.thn, b.thn.els, env, s1);
    ExecSet(STALE, 1, env, s1);
    ExecSkip(env, s1);
  }

  lemma OldDropped(env: Env, st: State)
    requires UsThere(st, env) && st.left > 0 && STALE in st.vars && Kind(st.m, US_OLD_KEY) != DIRECTORY
    ensures var r := Exec(PREPARE_STARTUP[3], env, st); UsThere(r, env) && r.vars == st.vars && r.left + 1 >= st.left
  {
    hide Norm, US_KEY, US_OLD_KEY, US_BAK_KEY, Kind, Undo.US_BAK, Undo.US_OLD, STALE, Exec, Writable;
    SKeys(); StartupApart();
    var s := PREPARE_STARTUP[3];
    TestExec(STALE, 1, s.thn, env, st);
    EvalExists(US_OLD, env, st);
    ExecIf(s.thn.c, s.thn.thn, s.thn.els, env, st);
    ExecSkip(env, st);
    if Kind(st.m, US_OLD_KEY) == FILE {
      OldWritable();
      DeleteGoes(US_OLD, env, st);
    }
    FileOrAbsent(st.m, US_OLD_KEY);
  }

  lemma SlotWritable(k: string, d: string)
    requires Slot(k, d)
    ensures Writable({}, k)
  {
  }

  lemma OldWritable()
    ensures Writable({}, US_OLD_KEY)
  {
    hide Slot, Writable;
    var x := "user-startup" + ".tolunnet-old";
    assert NoSlash(x);
    SSlot(x);
    assert US_OLD_KEY == "sys:s/" + "user-startup" + ".tolunnet-old";
    assert "sys:s/" + x == US_OLD_KEY;
    SlotWritable(US_OLD_KEY, "sys:s");
  }

  lemma DeleteGoes(path: string, env: Env, st: State)
    requires Able(st, env) && st.left > 0 && Kind(st.m, Norm(path)) == FILE && Writable({}, Norm(path))
    ensures Exec(Delete(path), env, st) == st.(m := st.m - {Norm(path)}, left := st.left - 1)
  {
    hide Norm, Kind, Writable;
  }

  lemma BakMoved(env: Env, st: State)
    requires UsThere(st, env) && st.left > 0 && STALE in st.vars
    ensures var r := Exec(PREPARE_STARTUP[4], env, st); UsThere(r, env) && r.vars == st.vars && r.left + 1 >= st.left
  {
    hide Norm, US_KEY, US_OLD_KEY, US_BAK_KEY, Kind, Undo.US_BAK, Undo.US_OLD, STALE, Exec;
    SKeys(); StartupApart();
    TestExec(STALE, 1, Rename(US_BAK, US_OLD), env, st);
    RenameGoes(US_BAK, US_OLD, env, st);
  }

  lemma RenameGoes(src: string, dst: string, env: Env, st: State)
    requires Able(st, env) && st.left > 0
    ensures var r, a, b := Exec(Rename(src, dst), env, st), Norm(src), Norm(dst);
            r == st || (a in st.m && r == st.(m := (st.m - {a})[b := st.m[a]], left := st.left - 1))
  {
    hide Norm, Writable;
  }

  /** #tn-usbak asks for a backup exactly when there is none. */
  lemma BakAsked(env: Env, st: State)
    requires st.status == Running
    ensures var r := Exec(PREPARE_STARTUP[6], env, Exec(PREPARE_STARTUP[5], env, st));
            r == st.(vars := r.vars) && USBAK in r.vars
  {
    hide Norm, Exec, Kind, Undo.US_BAK, Undo.US_OLD, USBAK;
    var b := PREPARE_STARTUP[6];
    ExecSet(USBAK, 0, env, st);
    var s1 := st.(vars := st.vars[USBAK := Int(0)]);
    EvalExists(US_BAK, env, s1);
    ExecIf(b.c, b.thn, b.els, env, s1);
    ExecSet(USBAK, 1, env, s1);
    ExecSkip(env, s1);
  }

  lemma BakMade(env: Env, st: State)
    requires UsThere(st, env) && st.left > 0 && USBAK in st.vars
    ensures var r := Exec(PREPARE_STARTUP[8], env, Exec(PREPARE_STARTUP[7], env, st));
            Able(r, env) && r.left + 1 >= st.left
  {
    hide Norm, US_KEY, US_OLD_KEY, US_BAK_KEY, Kind, Undo.US_BAK, Undo.US_OLD, USBAK, Exec, Content;
    SKeys(); StartupApart();
    var copy, test := PREPARE_STARTUP[7].thn, PREPARE_STARTUP[8].thn;
    TestExec(USBAK, 1, copy, env, st);
    var s1 := Exec(PREPARE_STARTUP[7], env, st);
    if st.vars[USBAK] == Int(1) {
      BakCopied(env, st);
      TestExec(USBAK, 1, test, env, s1);
      EqualSizes(US, US_BAK, "Backup of S:User-Startup failed.", env, s1);
    } else {
      TestExec(USBAK, 1, test, env, st);
    }
  }

  lemma BakCopied(env: Env, st: State)
    requires UsThere(st, env) && st.left > 0
    ensures var r := Exec(PREPARE_STARTUP[7].thn, env, st);
            && Able(r, env) && r.vars == st.vars && r.left + 1 == st.left
            && Content(r.m, Norm(US)) == Content(r.m, Norm(US_BAK)) && Content(r.m, Norm(US)).Some?
  {
    hide Norm, US_KEY, US_BAK_KEY, Kind, Undo.US_BAK, Undo.US_OLD, Slot, Write, InDir;
    SKeys(); StartupApart(); DirSlots(); BakPath();
    var c := PREPARE_STARTUP[7].thn;
    assert ':' in US by { assert US[1] == ':'; }
    assert Source(US, env, st) == Some(st.m[US_KEY]);
    WriteGoes(st, US_BAK, st.m[US_KEY], "sys:s");
    assert Exec(c, env, st) == RunCopyFiles(c, env, st);
  }

  lemma EqualSizes(a: string, b: string, message: string, env: Env, st: State)
    requires st.status == Running && !env.pretend
    requires Content(st.m, Norm(a)).Some? && Content(st.m, Norm(b)) == Content(st.m, Norm(a))
    ensures Exec(AbortUnless(Differ(GetSize(L(a)), GetSize(L(b))), message), env, st) == st
  {
    hide Norm, Kind, Eval, Exec, Content;
    var v := AbortUnless(Differ(GetSize(L(a)), GetSize(L(b))), message);
    EvalPretend(env, st);
    ExecIf(v.c, v.thn, v.els, env, st);
    EvalSizes(a, b, env, st);
    ExecIf(v.thn.c, v.thn.thn, v.thn.els, env, st);
    ExecSkip(env, st);
  }

  lemma {:induction false} RunStep(p: seq<Stmt>, i: nat, env: Env, st: State)
    requires i < |p|
    ensures Run(p[i..], env, st) == Run(p[i + 1..], env, Exec(p[i], env, st))
  {
    hide Exec;
    assert p[i..][0] == p[i] && p[i..][1..] == p[i + 1..];
    ExecStopped(p[i], env, st);
  }

  lemma StartupGoes(env: Env, st: State)
    requires Able(st, env) && st.left > 4 && HasDir(st.m, "sys:s") && HAD_UNDO in st.vars
    requires Kind(st.m, US_KEY) != DIRECTORY && Kind(st.m, US_OLD_KEY) != DIRECTORY
    ensures Goes(PREPARE_STARTUP, env, st) && |PREPARE_STARTUP| == 9
  {
    hide Exec, US_KEY, US_OLD_KEY, Kind, Undo.US_BAK, Undo.US_OLD, Run, STALE, USBAK, HAD_UNDO, Content, HasDir;
    var p := PREPARE_STARTUP;
    assert p[0..] == p;
    FirstStartup(env, st);
    var s0 := Exec(p[0], env, st);
    StaleSet(env, s0);
    var s1 := Exec(p[1], env, s0);
    var s2 := Exec(p[2], env, s1);
    OldDropped(env, s2);
    var s3 := Exec(p[3], env, s2);
    BakMoved(env, s3);
    var s4 := Exec(p[4], env, s3);
    BakAsked(env, s4);
    var s5 := Exec(p[5], env, s4);
    var s6 := Exec(p[6], env, s5);
    BakMade(env, s6);
    var s7 := Exec(p[7], env, s6);
    RunStep(p, 0, env, st); RunStep(p, 1, env, s0); RunStep(p, 2, env, s1); RunStep(p, 3, env, s2);
    RunStep(p, 4, env, s3);
    RunStep(p, 5, env, s4); RunStep(p, 6, env, s5); RunStep(p, 7, env, s6); RunStep(p, 8, env, s7);
    assert p[9..] == [];
    RunNone(env, Exec(p[8], env, s7));
  }

  // --------------------------------------------------------- the copies

  lemma CopyGoes(n: string, env: Env, st: State)
    requires Undo.ValidName(n) && Able(st, env) && st.left > 0 && HasDir(st.m, "sys:c") && "C/" + n in env.package
    ensures Exec(CopyCommand(n), env, st) == st.(m := st.m[LiveKey(n) := File(env.package["C/" + n])],
                                                 left := st.left - 1)
  {
    hide Norm, Kind, LiveKey, Write, InDir, Slot;
    CopyPath(n); NameSlots(n);
    assert ':' !in "C/" + n;
    WriteGoes(st, InDir("SYS:C", n), File(env.package["C/" + n]), "sys:c");
  }

  /** Writing a command leaves every live file a file. */
  lemma LivePlain(m: Tree, x: string, n: string, data: string)
    requires Undo.ValidName(x) && Undo.ValidName(n) && Plain(m, LiveKey(n))
    ensures Plain(m[LiveKey(x) := File(data)], LiveKey(n))
  {
    hide LiveKey, AtOrBelow;
    var m' := m[LiveKey(x) := File(data)];
    if LiveKey(x) == LiveKey(n) {
      assert Children(m', LiveKey(n)) == Children(m, LiveKey(n));
    } else {
      LiveKeysApart(x, n);
      AgreeWrite(m, LiveKey(x), File(data), LiveKey(n));
      AgreePlain(m, m', LiveKey(n));
    }
  }

  lemma {:induction false} CopiesGo(copied: seq<string>, names: seq<string>, tags: seq<string>, env: Env, st: State)
    requires Able(st, env) && st.left > |copied| && HostDirs(st.m) && OwnDirs(st.m, tags)
    requires forall i :: 0 <= i < |copied| ==> Undo.ValidName(copied[i]) && "C/" + copied[i] in env.package
    requires forall i :: 0 <= i < |names| ==> Undo.ValidName(names[i]) && Plain(st.m, LiveKey(names[i]))
    requires forall i :: 0 <= i < |tags| ==> Undo.ValidName(tags[i])
    ensures var p := CopyCommands(copied); var r := Run(p, env, st);
            && Goes(p, env, st) && |p| == |copied| && HostDirs(r.m) && OwnDirs(r.m, tags)
            && (forall i :: 0 <= i < |names| ==> Plain(r.m, LiveKey(names[i])))
  {
    hide Run, CopyCommand, LiveKey, Plain, Undo.ValidName, Goes, AllFilesAway, HasDir, OursKey;
    if copied == [] {
      RunNone(env, st);
      GoesIs([], env, st);
    } else {
      var x, rest := copied[0], copied[1..];
      CopyGoes(x, env, st);
      var mid := Exec(CopyCommand(x), env, st);
      RunOne(CopyCommand(x), env, st);
      CopiesAway([x]);
      assert [x][1..] == [] && CopyCommands([]) == [];
      assert CopyCommands([x]) == [CopyCommand(x)];
      HostStays([CopyCommand(x)], env, st, tags);
      forall i | 0 <= i < |names| ensures Plain(mid.m, LiveKey(names[i])) {
        LivePlain(st.m, x, names[i], env.package["C/" + x]);
      }
      CopiesGo(rest, names, tags, env, mid);
      GoesIs([CopyCommand(x)], env, st);
      RunAppend([CopyCommand(x)], CopyCommands(rest), env, st);
      GoesConcat([CopyCommand(x)], CopyCommands(rest), env, st);
    }
  }

  /** A copy from the package, with its icon if there is one. */
  lemma PackageGoes(s: Stmt, env: Env, st: State, d: string)
    requires s.CopyFiles? && Able(st, env) && st.left > 1 && HasDir(st.m, d) && ':' !in s.source
    requires s.source in env.package
    requires var k := Norm(InDir(s.dest, s.newname)); Slot(k, d)
    requires var k := Norm(InDir(s.dest, s.newname + ".info")); s.infos ==> Slot(k, d)
    ensures var r := Exec(s, env, st); Able(r, env) && r.left + 2 >= st.left
  {
    hide Norm, Kind, Write, InDir, Slot;
    var k := Norm(InDir(s.dest, s.newname));
    WriteGoes(st, InDir(s.dest, s.newname), File(env.package[s.source]), d);
    var st1 := Write(st, InDir(s.dest, s.newname), File(env.package[s.source]));
    SlotOther(k, d);
    var icon := Source(s.source + ".info", env, st1);
    if s.infos && icon.Some? { WriteGoes(st1, InDir(s.dest, s.newname + ".info"), icon.value, d); }
    assert Exec(s, env, st) == RunCopyFiles(s, env, st);
  }

  lemma SlotOther(k: string, d: string)
    requires Slot(k, d)
    ensures k != d
  {
  }

  lemma PrefsSlot(x: string)
    requires 0 < |x| <= NAME_LIMIT && NoSlash(x)
    ensures Slot("sys:prefs/" + x, "sys:prefs")
  {
    hide ShortNames, AfterColon;
    var k := "sys:prefs/" + x;
    assert k[..10] == "sys:prefs" + "/" && k[10..] == x;
    AfterSys(k);
    ShortIn("prefs/", x);
    assert k[4..] == "prefs/" + x;
  }

  lemma RestGoes(env: Env, st: State)
    requires Able(st, env) && st.left > 6 && HostDirs(st.m)
    requires "Libs/usergroup.library" in env.package && "TolunnetPrefs" in env.package && "TolunnetSetup" in env.package
    ensures Goes(COPY_REST, env, st) && |COPY_REST| == 3
  {
    hide Exec, Run, AllFilesAway, HostDirs, COPY_REST;
    RestAway(); RestSize();
    var p := COPY_REST;
    var s0 := Exec(p[0], env, st);
    FirstRestGoes(env, st);
    HostStep(p, 0, env, st);
    var s1 := Exec(p[1], env, s0);
    ToolGoes(1, env, s0);
    HostStep(p, 1, env, s0);
    ToolGoes(2, env, s1);
    assert p[0..] == p && p[3..] == [];
    RunStep(p, 0, env, st); RunStep(p, 1, env, s0); RunStep(p, 2, env, s1);
    RunNone(env, Exec(p[2], env, s1));
  }

  lemma RestSize()
    ensures |COPY_REST| == 3
  {
  }

  lemma FirstRestGoes(env: Env, st: State)
    requires Able(st, env) && st.left > 1 && HostDirs(st.m) && "Libs/usergroup.library" in env.package
    ensures var r := Exec(COPY_REST[0], env, st); Able(r, env) && r.left + 2 >= st.left
  {
    hide Norm, Exec, InDir, Slot, LIVE_UG_KEY, HasDir, Undo.UG;
    RestPaths(); UgKeys(); UgLiveSlot();
    PackageGoes(COPY_REST[0], env, st, "sys:libs");
  }

  /** One of the two preference tools, with its icon. */
  lemma ToolGoes(i: nat, env: Env, st: State)
    requires (i == 1 || i == 2) && Able(st, env) && st.left > 1 && HostDirs(st.m)
    requires "TolunnetPrefs" in env.package && "TolunnetSetup" in env.package
    ensures var r := Exec(COPY_REST[i], env, st); Able(r, env) && r.left + 2 >= st.left
  {
    hide Norm, Exec, InDir, Slot, HasDir, Undo.UG, LIVE_UG_KEY;
    RestPaths(); OwnKeys(); RestSlots();
    PackageGoes(COPY_REST[i], env, st, "sys:prefs");
  }

  lemma HostStep(p: seq<Stmt>, i: nat, env: Env, st: State)
    requires AllFilesAway(p) && i < |p| && HostDirs(st.m)
    ensures HostDirs(Exec(p[i], env, st).m)
  {
    hide FilesAway, Exec, HostDirs, Run;
    HostStays([p[i]], env, st, []);
    RunOne(p[i], env, st);
  }

  lemma RestSlots()
    ensures Slot(LIVE_UG_KEY, "sys:libs")
    ensures Slot("sys:prefs/tolunnetprefs", "sys:prefs") && Slot("sys:prefs/tolunnetprefs.info", "sys:prefs")
    ensures Slot("sys:prefs/tolunnetsetup", "sys:prefs") && Slot("sys:prefs/tolunnetsetup.info", "sys:prefs")
  {
    hide Slot;
    UgLiveSlot();
    PrefsSlot("tolunnetprefs"); PrefsSlot("tolunnetprefs.info"); PrefsSlot("tolunnetsetup");
    PrefsSlot("tolunnetsetup.info");
    assert "sys:prefs/tolunnetprefs" == "sys:prefs/" + "tolunnetprefs";
    assert "sys:prefs/tolunnetprefs.info" == "sys:prefs/" + "tolunnetprefs.info";
    assert "sys:prefs/tolunnetsetup" == "sys:prefs/" + "tolunnetsetup";
    assert "sys:prefs/tolunnetsetup.info" == "sys:prefs/" + "tolunnetsetup.info";
  }

  // ------------------------------------------------------------ FINISH

  /** Every checksum is a file name the file system takes. */
  ghost predicate ShortSums(sum: string -> nat) {
    forall s :: |Decimal(sum(s))| <= NAME_LIMIT
  }

  lemma MarkGoes(f: Saved, env: Env, st: State)
    requires Undo.ValidName(f.tag) && Able(st, env) && st.left > 0 && ShortSums(env.sum)
    requires Plain(st.m, Norm(f.live)) && Keylike(Norm(f.live)) && HasDir(st.m, OursKey(f.tag))
    ensures var r := Exec(Mark(f), env, st); Able(r, env) && r.left + 1 >= st.left
  {
    hide Norm, Kind, Exec, MarkExp, MarkKey, MarkPath, Plain, Keylike, Eval, HasDir, OursKey, Slot, Undo.ValidName,
         Decimal;
    PlainKind(st.m, Norm(f.live));
    EvalExists(f.live, env, st);
    ExecIf(Exists(L(f.live)), TextFile(MarkExp(f), ""), Skip, env, st);
    ExecSkip(env, st);
    if Content(st.m, Norm(f.live)).Some? {
      var c := Content(st.m, Norm(f.live)).value;
      var s := env.sum(c);
      EvalMark(f, env, st);
      MarkNorm(f.tag, s);
      assert |Decimal(env.sum(c))| <= NAME_LIMIT;
      MarkSlot(f.tag, s);
      TextAt(MarkExp(f), MarkPath(f.tag, s), env, st);
      WriteGoes(st, MarkPath(f.tag, s), File(""), OursKey(f.tag));
    }
  }

  lemma TextAt(e: Exp, path: string, env: Env, st: State)
    requires Able(st, env) && Eval(e, env, st) == Some(Str(path))
    ensures Exec(TextFile(e, ""), env, st) == Write(st, path, File(""))
  {
    hide Norm, Kind, Write, Eval;
  }

  lemma {:induction false} MarksGo(names: seq<string>, tags: seq<string>, env: Env, st: State)
    requires Able(st, env) && st.left > |names| && ShortSums(env.sum) && HostDirs(st.m) && OwnDirs(st.m, tags)
    requires forall i :: 0 <= i < |names| ==>
               Undo.ValidName(names[i]) && Plain(st.m, LiveKey(names[i])) && names[i] in tags
    requires forall i :: 0 <= i < |tags| ==> Undo.ValidName(tags[i])
    ensures var p := MarkNames(names);
            Goes(p, env, st) && |p| == |names| && HostDirs(Run(p, env, st).m) && OwnDirs(Run(p, env, st).m, tags)
  {
    hide Run, Mark, Command, LiveKey, Plain, Undo.ValidName, Goes, AllFilesAway, HasDir, OursKey, ShortSums, Spares,
         SparesAll, AgreeAt, Exec, Keylike, Norm, Proper;
    if names == [] {
      RunNone(env, st);
      GoesIs([], env, st);
    } else {
      var x, rest := names[0], names[1..];
      var f := Command(x);
      var one := [Mark(f)];
      CommandTag(x); CommandProper(x); ProperKeylike(f);
      MarkGoes(f, env, st);
      var mid := Exec(Mark(f), env, st);
      RunOne(Mark(f), env, st);
      MarkAway(f);
      OneAway(Mark(f));
      HostStays(one, env, st, tags);
      forall i | 0 <= i < |rest| ensures Plain(mid.m, LiveKey(rest[i])) {
        assert rest[i] == names[i + 1];
        MarkKeepsPlain(f, rest[i], env, st);
      }
      MarksGo(rest, tags, env, mid);
      GoesIs(one, env, st);
      RunAppend(one, MarkNames(rest), env, st);
      GoesConcat(one, MarkNames(rest), env, st);
    }
  }

  lemma OneAway(s: Stmt)
    requires FilesAway(s)
    ensures AllFilesAway([s])
  {
  }

  lemma MarkKeepsPlain(f: Saved, n: string, env: Env, st: State)
    requires Undo.ValidName(f.tag) && Undo.ValidName(n) && Plain(st.m, LiveKey(n))
    ensures Plain(Exec(Mark(f), env, st).m, LiveKey(n))
  {
    hide Mark, LiveKey, Plain, Exec, Spares, AgreeAt, Undo.ValidName;
    KeysNotMarks(n);
    assert LiveKey(n) in [LiveKey(n), BackupKey(n), NewKey(n)];
    MarkSpares(f, LiveKey(n));
    SparesExec(Mark(f), env, st, LiveKey(n));
    AgreePlain(st.m, Exec(Mark(f), env, st).m, LiveKey(n));
  }

  lemma BootGoes(env: Env, st: State)
    requires Able(st, env) && st.left > 0 && HasDir(st.m, "sys:s")
    ensures Able(Exec(Startup, env, st), env) && Exec(Startup, env, st).left + 1 == st.left
  {
    hide Norm, Kind, Write, US_KEY, Slot;
    SKeys(); DirSlots();
    assert USER_STARTUP == Undo.US;
    var us := if US_KEY in st.m && st.m[US_KEY].File? then st.m[US_KEY].data else "";
    WriteGoes(st, USER_STARTUP, File(env.boot(us)), "sys:s");
  }

  lemma FinishGoes(names: seq<string>, env: Env, st: State)
    requires Able(st, env) && st.left > 2 * |names| + 2 && ShortSums(env.sum) && HostDirs(st.m)
    requires OwnDirs(st.m, names + [UG])
    requires forall i :: 0 <= i < |names| ==> Undo.ValidName(names[i]) && Plain(st.m, LiveKey(names[i]))
    requires Plain(st.m, LIVE_UG_KEY)
    ensures Goes(Finish(names), env, st) && |Finish(names)| == |names| + 2
  {
    hide Run, Mark, LiveKey, Plain, Undo.ValidName, Goes, AllFilesAway, HasDir, OursKey, ShortSums, Spares, SparesAll,
         AgreeAt, Exec, Keylike, Norm, Proper, MarkNames, LIVE_UG_KEY, USERGROUP, HostDirs, OwnDirs;
    var tags := names + [UG];
    UgIsName(); UgTag(); UgProper(); ProperKeylike(USERGROUP); UgShape();
    forall i | 0 <= i < |names| ensures names[i] in tags { assert tags[i] == names[i]; }
    MarksGo(names, tags, env, st);
    GoesIs(MarkNames(names), env, st);
    var s1 := Run(MarkNames(names), env, st);
    PlainMarks(names, env, st);
    OwnHas(s1.m, tags, |names|); HostHas(s1.m);
    MarkGoes(USERGROUP, env, s1);
    var s2 := Exec(Mark(USERGROUP), env, s1);
    MarkAway(USERGROUP); OneAway(Mark(USERGROUP));
    HostStays([Mark(USERGROUP)], env, s1, []);
    RunOne(Mark(USERGROUP), env, s1);
    HostHas(s2.m);
    BootGoes(env, s2);
    RunTwo(Mark(USERGROUP), Startup, env, s1);
    var last := [Mark(USERGROUP), Startup];
    GoesIs(last, env, s1);
    GoesConcat(MarkNames(names), last, env, st);
  }

  lemma OwnHas(m: Tree, tags: seq<string>, i: nat)
    requires OwnDirs(m, tags) && i < |tags|
    ensures HasDir(m, OursKey(tags[i])) && HasDir(m, C_DIR_KEY) && HasDir(m, LIBS_DIR_KEY) && HasDir(m, NEW_DIR_KEY)
  {
  }

  lemma HostHas(m: Tree)
    ensures HostDirs(m) ==> HasDir(m, "sys:s") && HasDir(m, "sys:c")
  {
  }

  lemma PlainThrough(p: seq<Stmt>, env: Env, st: State, k: string)
    requires SparesAll(p, k)
    ensures Plain(st.m, k) ==> Plain(Run(p, env, st).m, k)
    ensures Kind(st.m, k) == Kind(Run(p, env, st).m, k)
  {
    hide Run, Plain, SparesAll, AgreeAt, Kind;
    SparesRun(p, env, st, k);
    AgreePlain(st.m, Run(p, env, st).m, k);
  }

  lemma PlainMarks(names: seq<string>, env: Env, st: State)
    requires (forall i :: 0 <= i < |names| ==> Undo.ValidName(names[i])) && Plain(st.m, LIVE_UG_KEY)
    ensures Plain(Run(MarkNames(names), env, st).m, LIVE_UG_KEY)
  {
    hide Run, Plain, SparesAll, MarkNames, LIVE_UG_KEY;
    UgShape();
    MarksSpare(names, LIVE_UG_KEY);
    PlainThrough(MarkNames(names), env, st, LIVE_UG_KEY);
  }

  // ------------------------------------------------- the whole install

  /** A system the install of `names` can run on: its directories are there,
      the paths of its files hold files, if anything, and the stack library
      can be parked. */
  ghost predicate Installable(m: Tree, names: seq<string>, sum: string -> nat) {
    && HostDirs(m) && AllOpen(m, names + [UG])
    && (forall i :: 0 <= i < |names| ==> Plain(m, LiveKey(names[i])))
    && Plain(m, LIVE_UG_KEY) && PlainShelf(m) && LibCode(ShelfOf(m), sum) != 4
    && Kind(m, US_KEY) != DIRECTORY && Kind(m, US_OLD_KEY) != DIRECTORY
    && ShortSums(sum)
  }

  predicate Packed(package: map<string, string>, copied: seq<string>) {
    && (forall i :: 0 <= i < |copied| ==> "C/" + copied[i] in package)
    && "Libs/usergroup.library" in package && "TolunnetPrefs" in package && "TolunnetSetup" in package
  }

  /** More writes than any install makes. */
  function Enough(names: seq<string>, copied: seq<string>): nat { 72 + 14 * |names| + 2 * |copied| }

  lemma UndoKeepsOpen(m: Tree, e: Entry, tags: seq<string>)
    requires HostDirs(m) && AllOpen(m, tags) && forall i :: 0 <= i < |tags| ==> Undo.ValidName(tags[i])
    ensures var m' := m[UNDO_KEY := e]; HostDirs(m') && AllOpen(m', tags)
  {
    hide Kind, UNDO_KEY, C_DIR_KEY, LIBS_DIR_KEY, NEW_DIR_KEY, OursKey, Undo.ValidName, HasDir;
    UndoRun.BackupShape(); DirFifth(); UndoNotHost(m, e);
    OpenKept(m, e, C_DIR_KEY); OpenKept(m, e, LIBS_DIR_KEY); OpenKept(m, e, NEW_DIR_KEY);
    forall i | 0 <= i < |tags| ensures Open(m[UNDO_KEY := e], OursKey(tags[i])) {
      OursNorm(tags[i]);
      OpenKept(m, e, OursKey(tags[i]));
    }
  }

  lemma UndoNotHost(m: Tree, e: Entry)
    ensures HostDirs(m) ==> HostDirs(m[UNDO_KEY := e])
  {
    assert |UNDO_KEY| > 9;
  }

  lemma OpenKept(m: Tree, e: Entry, k: string)
    requires Open(m, k) && |k| > 6 && k[4] == 's' && k[5] == 't'
    ensures Open(m[UNDO_KEY := e], k)
  {
    hide Kind, UNDO_KEY, AtOrBelow;
    SKeys();
    UndoWriteApart(k);
    AgreeWrite(m, UNDO_KEY, e, k);
    AgreeKind(m, m[UNDO_KEY := e], k);
  }

  lemma TagsValid(names: seq<string>)
    requires Undo.ValidNames(names)
    ensures forall i :: 0 <= i < |names + [UG]| ==> Undo.ValidName((names + [UG])[i])
  {
    hide Undo.ValidName;
    UgIsName();
  }

  /** Up to the directories. */
  lemma EarlyGoes(names: seq<string>, copied: seq<string>, env: Env, st: State)
    requires Undo.ValidNames(names) && Able(st, env) && Installable(st.m, names, env.sum)
    requires st.left > Enough(names, copied)
    ensures var r := RunPhases(names, copied, env, st).dirs;
            && Able(r, env) && r.left + 22 + 2 * |names| > st.left && HostDirs(r.m) && OwnDirs(r.m, names + [UG])
            && FlagIs(r.vars, Legacy(st.m)) && HAD_UNDO in r.vars
            && (forall i :: 0 <= i < |names| ==> Plain(r.m, LiveKey(names[i])))
  {
    hide Run, OPENING, OursDirs, DIRS, UndoText, LEGACY, HAD_UNDO, Kind, LiveKey, Plain, Undo.ValidName, UNDO_KEY,
         NEW_DIR_KEY, HostDirs, OwnDirs, AllOpen, Goes, ShortSums, PlainShelf, LibCode, ShelfOf, US_KEY, US_OLD_KEY,
         LIVE_UG_KEY, Undo.UG;
    var r := RunPhases(names, copied, env, st);
    var tags := names + [UG];
    TagsValid(names);
    OpeningExec(env, st);
    UndoGoes(names, env, r.start);
    GoesIs([TextFile(L(Undo.UNDO), UndoText(names))], env, r.start);
    UndoKeepsOpen(st.m, File(UndoText(names)), tags);
    DirsPhase(tags, env, r.written);
    GoesIs(DIRS + OursDirs(tags), env, r.written);
    forall i | 0 <= i < |names| ensures Plain(r.dirs.m, LiveKey(names[i])) {
      LiveThroughOpening(names, copied, i, env, st);
    }
  }

  lemma LiveThroughOpening(names: seq<string>, copied: seq<string>, i: nat, env: Env, st: State)
    requires Undo.ValidNames(names) && i < |names| && Plain(st.m, LiveKey(names[i]))
    ensures Plain(RunPhases(names, copied, env, st).dirs.m, LiveKey(names[i]))
  {
    hide RunPhases, Plain, LiveKey, Undo.ValidName;
    var n := names[i];
    assert LiveKey(n) in [LiveKey(n), BackupKey(n), NewKey(n)];
    KeyThroughOpening(names, copied, n, LiveKey(n), 0, env, st);
    AgreePlain(st.m, RunPhases(names, copied, env, st).dirs.m, LiveKey(n));
  }

  /** What every part of PREPARE after the directories keeps. */
  ghost predicate Underway(st: State, env: Env, names: seq<string>, left: int) {
    && Able(st, env) && st.left > left && HostDirs(st.m) && OwnDirs(st.m, names + [UG]) && HAD_UNDO in st.vars
    && (forall i :: 0 <= i < |names| ==> Plain(st.m, LiveKey(names[i])))
  }

  /** One more part, which leaves directories and live files alone. */
  lemma PartGoes(p: seq<Stmt>, env: Env, st: State, names: seq<string>, left: int)
    requires Undo.ValidNames(names) && Underway(st, env, names, left + 2 * |p|) && Goes(p, env, st) && AllFilesAway(p)
    requires forall i :: 0 <= i < |names| ==> SparesAll(p, LiveKey(names[i]))
    ensures Underway(Run(p, env, st), env, names, left)
  {
    hide Run, LiveKey, Plain, Undo.ValidName, HAD_UNDO, HostDirs, OwnDirs, Goes, AllFilesAway, SparesAll, Undo.UG, Kind;
    GoesIs(p, env, st);
    TagsValid(names);
    HostStays(p, env, st, names + [UG]);
    VarStays(p, env, st, HAD_UNDO);
    forall i | 0 <= i < |names| ensures Plain(Run(p, env, st).m, LiveKey(names[i])) {
      PlainThrough(p, env, st, LiveKey(names[i]));
    }
  }

  lemma LiveSpared(names: seq<string>, n: string)
    requires Undo.ValidNames(names) && Undo.ValidName(n)
    ensures SparesAll(PrepareNames(names), LiveKey(n)) && SparesAll(PREPARE_UG, LiveKey(n))
    ensures SparesAll(PREPARE_LIB, LiveKey(n))
    ensures SparesAll(PREPARE_STARTUP, LiveKey(n)) && SparesAll(COPY_REST, LiveKey(n))
  {
    hide LiveKey, SparesAll, PrepareNames, BackupKey, NewKey, AtOrBelow, Undo.ValidName, PREPARE_UG, PREPARE_LIB,
         PREPARE_STARTUP, COPY_REST;
    NameDeep(n);
    assert LiveKey(n) in [LiveKey(n), BackupKey(n), NewKey(n)];
    DeepLong(LiveKey(n));
    LateSpares(LiveKey(n));
    LiveArea(n);
    forall i | 0 <= i < |names|
      ensures !AtOrBelow(BackupKey(names[i]), LiveKey(n)) && !AtOrBelow(NewKey(names[i]), LiveKey(n))
    {
      NameWritesApart(names[i], LiveKey(n));
    }
    PrepareNamesSpare(names, LiveKey(n));
  }

  lemma LiveArea(n: string)
    requires Undo.ValidName(n)
    ensures |LiveKey(n)| > 6 && LiveKey(n)[4] == 'c'
  {
    NameShape(n); NameFifth(n);
  }

  /** The keys in S: that the section on User-Startup looks at. */
  lemma UsThrough(names: seq<string>, copied: seq<string>, k: string, env: Env, st: State)
    requires Undo.ValidNames(names) && InS(k) && k[6] == 'u'
    ensures var r := RunPhases(names, copied, env, st).lib;
            Kind(st.m, k) == Kind(r.m, k) && (Plain(st.m, k) ==> Plain(r.m, k))
  {
    hide Undo.ValidName, Run, SparesAll, OPENING, DIRS, OursDirs, UndoText, PrepareNames, AtOrBelow, BackupKey, NewKey,
         PREPARE_UG, PREPARE_LIB, Norm, BK, Plain, Kind;
    OpeningSpares(k);
    UndoTextSpares(names, k);
    DirsSpares(k);
    TagsValid(names);
    var tags := names + [UG];
    forall i | 0 <= i < |tags| ensures Undo.ValidName(tags[i]) && !AtOrBelow(Norm(BK + "/ours/" + tags[i]), k) {
      OursDirApart(tags[i], k);
    }
    OursDirsSpare(tags, k);
    SparesConcat(DIRS, OursDirs(tags), k);
    forall i | 0 <= i < |names| ensures !AtOrBelow(BackupKey(names[i]), k) && !AtOrBelow(NewKey(names[i]), k) {
      NameWritesApart(names[i], k);
    }
    PrepareNamesSpare(names, k);
    UgWriteApart(k); PrepareUgSpares(k);
    LibWritesApart(k); PrepareLibSpares(k);
    var r := RunPhases(names, copied, env, st);
    PlainThrough(OPENING, env, st, k);
    PlainThrough([TextFile(L(Undo.UNDO), UndoText(names))], env, r.start, k);
    PlainThrough(DIRS + OursDirs(tags), env, r.written, k);
    PlainThrough(PrepareNames(names), env, r.dirs, k);
    PlainThrough(PREPARE_UG, env, r.names, k);
    PlainThrough(PREPARE_LIB, env, r.ug, k);
  }

  lemma UsShape()
    ensures InS(US_KEY) && US_KEY[6] == 'u' && InS(US_OLD_KEY) && US_OLD_KEY[6] == 'u'
  {
    UndoRun.StartupShape(); UsSixth();
  }

  /** The shelf is untouched until the library section. */
  lemma ShelfThrough(names: seq<string>, copied: seq<string>, env: Env, st: State)
    requires Undo.ValidNames(names)
    ensures var r := RunPhases(names, copied, env, st);
            (PlainShelf(st.m) ==> PlainShelf(r.ug.m)) && ShelfOf(r.ug.m) == ShelfOf(st.m)
  {
    hide RunPhases, PlainShelf, ShelfOf, LIB_KEY, PARKED_KEY, NEWER_KEY, Undo.ValidName, AgreeAt;
    UndoRun.LibsShape();
    var r := RunPhases(names, [], env, st);
    LibKeyThrough(names, [], LIB_KEY, env, st);
    LibKeyThrough(names, [], PARKED_KEY, env, st);
    LibKeyThrough(names, [], NEWER_KEY, env, st);
    ShelfKept(st.m, r.ug.m);
    SamePrepare(names, copied, env, st);
  }

  lemma SamePrepare(names: seq<string>, copied: seq<string>, env: Env, st: State)
    requires Undo.ValidNames(names)
    ensures RunPhases(names, copied, env, st).ug == RunPhases(names, [], env, st).ug
  {
    hide Run;
  }

  lemma UgPlainThrough(names: seq<string>, copied: seq<string>, env: Env, st: State)
    requires Undo.ValidNames(names) && Plain(st.m, LIVE_UG_KEY)
    requires forall i :: 0 <= i < |copied| ==> Undo.ValidName(copied[i])
    ensures var r := RunPhases(names, copied, env, st); Plain(r.names.m, LIVE_UG_KEY) && Plain(r.copied.m, LIVE_UG_KEY)
  {
    hide Run, Plain, LIVE_UG_KEY, Undo.ValidName, AgreeAt, SparesAll, OPENING, DIRS, OursDirs, UndoText, PrepareNames,
         PREPARE_UG, PREPARE_LIB, PREPARE_STARTUP, CopyCommands, COPY_REST, Finish, Kind, AtOrBelow;
    UgShape();
    UgKeyThroughNames(names, copied, LIVE_UG_KEY, 0, env, st);
    var r := RunPhases(names, copied, env, st);
    AgreePlain(st.m, r.names.m, LIVE_UG_KEY);
    UgWriteApart(LIVE_UG_KEY); PrepareUgSpares(LIVE_UG_KEY);
    MiddleSparesUg(copied, LIVE_UG_KEY);
    PlainThrough(PREPARE_UG, env, r.names, LIVE_UG_KEY);
    PlainThrough(PREPARE_LIB, env, r.ug, LIVE_UG_KEY);
    PlainThrough(PREPARE_STARTUP, env, r.lib, LIVE_UG_KEY);
    PlainThrough(CopyCommands(copied), env, r.prepared, LIVE_UG_KEY);
  }

  lemma RestKeepsUgPlain(env: Env, st: State)
    requires Plain(st.m, LIVE_UG_KEY)
    ensures Plain(Run(COPY_REST, env, st).m, LIVE_UG_KEY)
  {
    hide Plain, LIVE_UG_KEY, Exec, SparesAll, Kind;
    CopyUgExec(env, st);
    var mid := Exec(COPY_REST[0], env, st);
    UgFilePlain(st.m, env);
    UgShape();
    PrefsCopiesSpare(LIVE_UG_KEY);
    PlainThrough(COPY_REST[1..], env, mid, LIVE_UG_KEY);
  }

  lemma UgFilePlain(m: Tree, env: Env)
    requires Plain(m, LIVE_UG_KEY)
    ensures "Libs/usergroup.library" in env.package ==>
              Plain(m[LIVE_UG_KEY := File(env.package["Libs/usergroup.library"])], LIVE_UG_KEY)
  {
    if "Libs/usergroup.library" in env.package {
      var m' := m[LIVE_UG_KEY := File(env.package["Libs/usergroup.library"])];
      assert Children(m', LIVE_UG_KEY) == Children(m, LIVE_UG_KEY);
    }
  }

  lemma PrepareGoes(names: seq<string>, copied: seq<string>, env: Env, st: State)
    requires Undo.ValidNames(names) && Able(st, env) && Installable(st.m, names, env.sum)
    requires st.left > Enough(names, copied)
    requires forall i :: 0 <= i < |copied| ==> Undo.ValidName(copied[i])
    ensures Underway(RunPhases(names, copied, env, st).prepared, env, names, 10 + 2 * |names| + 2 * |copied|)
  {
    hide Run, LiveKey, Plain, Undo.ValidName, HAD_UNDO, LEGACY, HostDirs, OwnDirs, Goes, AllFilesAway, SparesAll,
         Undo.UG, Kind, OPENING, DIRS, OursDirs, UndoText, PrepareNames, PREPARE_UG, PREPARE_LIB, PREPARE_STARTUP,
         CopyCommands, COPY_REST, Finish, LIVE_UG_KEY, PlainShelf, ShelfOf, LibCode, US_KEY, US_OLD_KEY, UNDO_KEY,
         NEW_DIR_KEY, ShortSums, AllOpen, KeepsVar;
    var rest := 10 + 2 * |names| + 2 * |copied|;
    var r := RunPhases(names, copied, env, st);
    EarlyGoes(names, copied, env, st);
    TagsValid(names);
    forall i | 0 <= i < |names|
      ensures SparesAll(PrepareNames(names), LiveKey(names[i])) && SparesAll(PREPARE_UG, LiveKey(names[i]))
      ensures SparesAll(PREPARE_LIB, LiveKey(names[i])) && SparesAll(PREPARE_STARTUP, LiveKey(names[i]))
    {
      LiveSpared(names, names[i]);
    }
    PrepareNamesAway(names); PrepareUgAway(); PrepareLibAway(); PrepareStartupAway();
    NamesGo(names, Legacy(st.m), env, r.dirs, names + [UG]);
    PartGoes(PrepareNames(names), env, r.dirs, names, rest + 40);
    UgPlainThrough(names, copied, env, st);
    OwnHas(r.names.m, names + [UG], |names|);
    UgGoes(Legacy(st.m), env, r.names);
    PartGoes(PREPARE_UG, env, r.names, names, rest + 32);
    ShelfThrough(names, copied, env, st);
    LibGoes(env, r.ug);
    PartGoes(PREPARE_LIB, env, r.ug, names, rest + 18);
    UsShape(); HostHas(r.lib.m);
    UsThrough(names, copied, US_KEY, env, st); UsThrough(names, copied, US_OLD_KEY, env, st);
    StartupGoes(env, r.lib);
    PartGoes(PREPARE_STARTUP, env, r.lib, names, rest);
  }

  /** An install completes, whatever is installed already, on every system it
      can run on, with a full package, nothing write-protected and no
      interruption before its last write. */
  lemma InstallCompletes(names: seq<string>, copied: seq<string>, env: Env, st: State)
    requires Undo.ValidNames(names) && (forall i :: 0 <= i < |copied| ==> Undo.ValidName(copied[i]))
    requires st.status == Running && st.ro == {} && !env.pretend && st.left > Enough(names, copied)
    requires Installable(st.m, names, env.sum) && Packed(env.package, copied)
    ensures var r := Run(Script(names, copied), env, st);
            r.status == Running && HostDirs(r.m) && OwnDirs(r.m, names + [UG])
  {
    hide Run, Script, LiveKey, Plain, Undo.ValidName, HAD_UNDO, HostDirs, OwnDirs, Goes, AllFilesAway, SparesAll,
         Undo.UG, Kind, OPENING, DIRS, OursDirs, UndoText, PrepareNames, PREPARE_UG, PREPARE_LIB, PREPARE_STARTUP,
         CopyCommands, COPY_REST, Finish, LIVE_UG_KEY, ShortSums;
    ScriptPhases(names, copied, env, st);
    var r := RunPhases(names, copied, env, st);
    TagsValid(names);
    PrepareGoes(names, copied, env, st);
    CopiesGo(copied, names, names + [UG], env, r.prepared);
    GoesIs(CopyCommands(copied), env, r.prepared);
    RestGoes(env, r.copied);
    GoesIs(COPY_REST, env, r.copied);
    RestAway();
    HostStays(COPY_REST, env, r.copied, names + [UG]);
    forall i | 0 <= i < |names| ensures Plain(r.rest.m, LiveKey(names[i])) {
      LiveSpared(names, names[i]);
      PlainThrough(COPY_REST, env, r.copied, LiveKey(names[i]));
    }
    UgPlainThrough(names, copied, env, st);
    RestKeepsUgPlain(env, r.copied);
    FinishGoes(names, env, r.rest);
    GoesIs(Finish(names), env, r.rest);
    FinishAway(names);
    HostStays(Finish(names), env, r.rest, names + [UG]);
  }
}
