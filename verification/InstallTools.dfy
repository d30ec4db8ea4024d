/** What an install puts on the system beside the commands, and what it does when
    a backup is not what was saved. */
module InstallTools {
  import opened Seqs
  import opened Files
  import opened Installer
  import opened InstallScript
  import opened InstallSteps
  import opened InstallFrames
  import opened InstallNames
  import opened InstallGoes
  import opened InstallCompletes
  import opened Versions
  import opened Restore
  import opened UndoReports
  import Undo
  import UndoLibs
  import UndoRun
  import H = History
  import opened Keys

  // ------------------------------------------------------------- the package

  /** A copy from the package that goes on has put the file there, and its icon. */
  lemma CopyPut(s: Stmt, env: Env, st: State)
    requires s.CopyFiles? && ':' !in s.source && ':' !in s.source + ".info" && st.status == Running && !env.pretend
    requires Exec(s, env, st).status == Running
    requires s.infos ==> Norm(InDir(s.dest, s.newname)) != Norm(InDir(s.dest, s.newname + ".info"))
    ensures s.source in env.package
    ensures var m := Exec(s, env, st).m;
            && Content(m, Norm(InDir(s.dest, s.newname))) == Some(env.package[s.source])
            && (s.infos && s.source + ".info" in env.package ==>
                  Content(m, Norm(InDir(s.dest, s.newname + ".info"))) == Some(env.package[s.source + ".info"]))
  {
    hide Norm, Kind, Writable, InDir;
  }

  /** A later copy to another place leaves a file as it is. */
  lemma CopyLeaves(s: Stmt, env: Env, st: State, k: string)
    requires s.CopyFiles? && Unrelated(Norm(InDir(s.dest, s.newname)), k)
    requires s.infos ==> Unrelated(Norm(InDir(s.dest, s.newname + ".info")), k)
    ensures Content(Exec(s, env, st).m, k) == Content(st.m, k)
  {
    hide Norm, InDir, Exec;
    SparesExec(s, env, st, k);
    AgreePlain(st.m, Exec(s, env, st).m, k);
  }

  /** The preference tools with their icons, and usergroup.library. */
  ghost predicate ToolsPut(m: Tree, package: map<string, string>) {
    && "Libs/usergroup.library" in package && Content(m, LIVE_UG_KEY) == Some(package["Libs/usergroup.library"])
    && "TolunnetPrefs" in package && Content(m, "sys:prefs/tolunnetprefs") == Some(package["TolunnetPrefs"])
    && "TolunnetSetup" in package && Content(m, "sys:prefs/tolunnetsetup") == Some(package["TolunnetSetup"])
    && ("TolunnetPrefs" + ".info" in package ==>
          Content(m, "sys:prefs/tolunnetprefs.info") == Some(package["TolunnetPrefs" + ".info"]))
    && ("TolunnetSetup" + ".info" in package ==>
          Content(m, "sys:prefs/tolunnetsetup.info") == Some(package["TolunnetSetup" + ".info"]))
  }

  lemma PackagePaths()
    ensures ':' !in "Libs/usergroup.library" && ':' !in "TolunnetPrefs" && ':' !in "TolunnetSetup"
    ensures ':' !in "Libs/usergroup.library" + ".info" && ':' !in "TolunnetPrefs" + ".info"
    ensures ':' !in "TolunnetSetup" + ".info"
  {
  }

  lemma ToolKeysApart()
    ensures Unrelated("sys:prefs/tolunnetprefs", "sys:prefs/tolunnetprefs.info")
    ensures Unrelated("sys:prefs/tolunnetsetup", "sys:prefs/tolunnetsetup.info")
    ensures forall i, j :: i in [0, 1] && j in [2, 3] ==> Unrelated(OWN_KEYS[j], OWN_KEYS[i])
    ensures forall i :: i in [0, 1, 2, 3] ==> Unrelated(OWN_KEYS[i], LIVE_UG_KEY)
  {
    hide Unrelated, LIVE_UG_KEY;
    UndoLibs.UnrelatedSymmetric();
    OwnApart(0, 1); OwnApart(2, 3);
    OwnApart(0, 2); OwnApart(0, 3); OwnApart(1, 2); OwnApart(1, 3);
    UndoRun.LibsShape();
    ToolArea();
    AreasApart(OWN_KEYS[0], LIVE_UG_KEY); AreasApart(OWN_KEYS[1], LIVE_UG_KEY);
    AreasApart(OWN_KEYS[2], LIVE_UG_KEY); AreasApart(OWN_KEYS[3], LIVE_UG_KEY);
  }

  lemma ToolArea()
    ensures forall i :: i in [0, 1, 2, 3] ==> |OWN_KEYS[i]| > 6 && OWN_KEYS[i][4] == 'p'
  {
    assert |OWN_KEYS[0]| == 23 && |OWN_KEYS[1]| == 28 && |OWN_KEYS[2]| == 23 && |OWN_KEYS[3]| == 28;
  }

  lemma RestPuts(env: Env, st: State)
    requires st.status == Running && !env.pretend && Run(COPY_REST, env, st).status == Running
    ensures ToolsPut(Run(COPY_REST, env, st).m, env.package)
  {
    hide Norm, Exec, InDir, LIVE_UG_KEY, Run, Unrelated, Content;
    RestPaths(); UgKeys(); OwnKeys(); PackagePaths(); ToolKeysApart(); KeysDiffer();
    var p := COPY_REST;
    var s0 := Exec(p[0], env, st);
    var s1 := Exec(p[1], env, s0);
    var s2 := Exec(p[2], env, s1);
    assert p[0..] == p && p[3..] == [];
    RunStep(p, 0, env, st); RunStep(p, 1, env, s0); RunStep(p, 2, env, s1);
    RunNone(env, s2);
    ExecStopped(p[2], env, s1); ExecStopped(p[1], env, s0);
    CopyPut(p[0], env, st);
    CopyPut(p[1], env, s0);
    CopyPut(p[2], env, s1);
    ToolKeys();
    CopyLeaves(p[1], env, s0, LIVE_UG_KEY);
    CopyLeaves(p[2], env, s1, LIVE_UG_KEY);
    CopyLeaves(p[2], env, s1, OWN_KEYS[0]);
    CopyLeaves(p[2], env, s1, OWN_KEYS[1]);
  }

  lemma ToolKeys()
    ensures OWN_KEYS[0] == "sys:prefs/tolunnetprefs" && OWN_KEYS[1] == "sys:prefs/tolunnetprefs.info"
    ensures OWN_KEYS[2] == "sys:prefs/tolunnetsetup" && OWN_KEYS[3] == "sys:prefs/tolunnetsetup.info"
  {
  }

  lemma KeysDiffer()
    ensures "sys:prefs/tolunnetprefs" != "sys:prefs/tolunnetprefs.info"
    ensures "sys:prefs/tolunnetsetup" != "sys:prefs/tolunnetsetup.info"
  {
    assert |"sys:prefs/tolunnetprefs"| == 23 && |"sys:prefs/tolunnetprefs.info"| == 28;
    assert |"sys:prefs/tolunnetsetup"| == 23 && |"sys:prefs/tolunnetsetup.info"| == 28;
  }

  /** A completed install has put the package's usergroup.library, preference tools
      and icons on the system. */
  lemma InstallPutsTools(pc: H.Machine, i: H.Install, m: Tree)
    requires H.Sound(i) && H.RunInstall(pc, i, m).status == Running
    ensures ToolsPut(H.RunInstall(pc, i, m).m, i.package)
  {
    hide Run, Script, Content, Undo.ValidName, RunPhases, AgreeAt, CopyCommands, COPY_REST, Finish, SparesAll,
         LIVE_UG_KEY;
    var env := Env(i.package, false, pc.sum, pc.boot);
    var st := State(m, i.ro, map[], i.writes, Running);
    ScriptPhases(i.names, i.copied, env, st);
    PhasesRunning(i.names, i.copied, env, st);
    var r := RunPhases(i.names, i.copied, env, st);
    LastPhases(i.names, i.copied, env, st);
    RestPuts(env, r.copied);
    UndoRun.LibsShape(); ToolArea(); ToolKeys();
    FinishLeaves(i.names, env, r.rest, LIVE_UG_KEY);
    FinishLeaves(i.names, env, r.rest, OWN_KEYS[0]); FinishLeaves(i.names, env, r.rest, OWN_KEYS[1]);
    FinishLeaves(i.names, env, r.rest, OWN_KEYS[2]); FinishLeaves(i.names, env, r.rest, OWN_KEYS[3]);
  }

  lemma FinishLeaves(names: seq<string>, env: Env, st: State, k: string)
    requires Undo.ValidNames(names) && |k| > 6 && k[4] != 's'
    ensures Content(Run(Finish(names), env, st).m, k) == Content(st.m, k)
  {
    hide Run, Finish, Content, SparesAll, AgreeAt, Undo.ValidName;
    FinishSpares(names, k);
    SparesRun(Finish(names), env, st, k);
    AgreePlain(st.m, Run(Finish(names), env, st).m, k);
  }

  // ------------------------------------------------------------- bad backups

  /** Live file and backup differ in size. */
  predicate BadCopy(m: Tree, live: string, backup: string) {
    var a, b := Content(m, Norm(live)), Content(m, Norm(backup));
    a.Some? && b.Some? && |a.value| != |b.value|
  }

  lemma SizesDiffer(a: string, b: string, message: string, env: Env, st: State)
    requires st.status == Running && !env.pretend && BadCopy(st.m, a, b)
    ensures Exec(AbortUnless(Differ(GetSize(L(a)), GetSize(L(b))), message), env, st) == st.(status := Aborted)
  {
    hide Norm, Kind, Eval, Exec, Content;
    var v := AbortUnless(Differ(GetSize(L(a)), GetSize(L(b))), message);
    EvalPretend(env, st);
    ExecIf(v.c, v.thn, v.els, env, st);
    EvalSizes(a, b, env, st);
    ExecIf(v.thn.c, v.thn.thn, v.thn.els, env, st);
    AbortIs(message, env, st);
  }

  lemma AbortIs(message: string, env: Env, st: State)
    requires st.status == Running
    ensures Exec(Abort(message), env, st) == st.(status := Aborted)
  {
  }

  /** Whatever made a saved command differ in size from the live one, the install
      stops right after saving it, with nothing replaced. */
  lemma BadBackupStops(n: string, more: seq<Stmt>, env: Env, st: State)
    requires st.status == Running && !env.pretend && ACT in st.vars && st.vars[ACT] == Int(1)
    requires BadCopy(st.m, "SYS:C/" + n, BK + "/C/" + n)
    ensures Run(PrepareName(n)[3..] + more, env, st) == st.(status := Aborted)
  {
    hide Norm, Kind, Eval, Exec, Content, Run, Verified, Act, Save, Decision, BK, ACT;
    var f := Command(n);
    var p := PrepareName(n)[3..] + more;
    DecisionLength(f, true);
    SavedAs(n);
    assert p[0] == Act(1, Verified(f)) && p[0..] == p;
    RunStep(p, 0, env, st);
    ActExec(1, Verified(f), env, st);
    VerifiedStops(f, env, st);
    RunStays(p[1..], env, st.(status := Aborted));
  }

  lemma SavedAs(n: string)
    ensures BackupOf(Command(n)) == BK + "/C/" + n
  {
    hide BK;
    assert (BK + "/C") + "/" + n == BK + "/C/" + n;
  }

  lemma DecisionLength(f: Saved, markNew: bool)
    ensures |Decision(f, markNew)| == 2
  {
  }

  lemma VerifiedStops(f: Saved, env: Env, st: State)
    requires st.status == Running && !env.pretend && BadCopy(st.m, f.live, BackupOf(f))
    ensures Exec(Verified(f), env, st) == st.(status := Aborted)
  {
    hide Norm, Kind, Eval, Exec, Content, BackupOf, AbortUnless;
    SizesDiffer(f.live, BackupOf(f), "Backup failed - nothing was replaced yet.", env, st);
  }

  /** The same for usergroup.library. */
  lemma BadUgBackupStops(more: seq<Stmt>, env: Env, st: State)
    requires st.status == Running && !env.pretend && ACT in st.vars && st.vars[ACT] == Int(1)
    requires BadCopy(st.m, "SYS:Libs/usergroup.library", BK + "/Libs/usergroup.library")
    ensures Run(PREPARE_UG[3..] + more, env, st) == st.(status := Aborted)
  {
    hide Norm, Kind, Eval, Exec, Content, Run, Verified, Act, Save, Decision, Undo.BK, ACT, USERGROUP, BackupOf,
         Undo.UG;
    DecisionLength(USERGROUP, false);
    var p := PREPARE_UG[3..] + more;
    UgPaths();
    assert p[0] == Act(1, Verified(USERGROUP)) && p[0..] == p;
    RunStep(p, 0, env, st);
    ActExec(1, Verified(USERGROUP), env, st);
    VerifiedStops(USERGROUP, env, st);
    RunStays(p[1..], env, st.(status := Aborted));
  }

  /** And for S:User-Startup. */
  lemma BadStartupBackupStops(more: seq<Stmt>, env: Env, st: State)
    requires st.status == Running && !env.pretend && USBAK in st.vars && st.vars[USBAK] == Int(1)
    requires BadCopy(st.m, US, US_BAK)
    ensures Run(PREPARE_STARTUP[8..] + more, env, st) == st.(status := Aborted)
  {
    hide Norm, Kind, Eval, Exec, Content, Run, Undo.US_BAK, Undo.US, USBAK, AbortUnless, US_MAKE, US_STALE, US_DROP,
         US_MOVE, US_ASK, US_SAVE;
    var p := PREPARE_STARTUP[8..] + more;
    assert p[0] == US_CHECK && p[0..] == p;
    RunStep(p, 0, env, st);
    TestExec(USBAK, 1, US_CHECK.thn, env, st);
    SizesDiffer(US, US_BAK, "Backup of S:User-Startup failed.", env, st);
    RunStays(p[1..], env, st.(status := Aborted));
  }
}
