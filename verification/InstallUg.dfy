/** One install as seen by usergroup.library. */
module InstallUg {
  import opened Seqs
  import opened Files
  import opened Installer
  import opened InstallScript
  import opened InstallSteps
  import opened InstallFrames
  import opened InstallNames
  import opened InstallRun
  import opened Restore
  import Undo
  import UndoRun
  import UndoLibs
  import opened Keys

  predicate UgFresh(m: Tree, orig: Option<string>, sum: string -> nat) {
    && Plain(m, LIVE_UG_KEY) && Plain(m, BACKUP_UG_KEY)
    && Content(m, LIVE_UG_KEY) == orig && Content(m, BACKUP_UG_KEY).None?
    && (orig.Some? ==> Kind(m, MarkKey(UG, sum(orig.value))) == ABSENT)
  }

  predicate UgReady(m: Tree, orig: Option<string>) {
    Plain(m, LIVE_UG_KEY) && Plain(m, BACKUP_UG_KEY) && Content(m, BACKUP_UG_KEY) == orig
  }

  predicate UgInstalled(m: Tree, orig: Option<string>, sum: string -> nat) {
    && UgReady(m, orig)
    && (Content(m, LIVE_UG_KEY).Some? ==> MarkKey(UG, sum(Content(m, LIVE_UG_KEY).value)) in m)
  }

  lemma UgStartSafe(m: Tree, orig: Option<string>, sum: string -> nat)
    ensures UgFresh(m, orig, sum) ==> UndoLibs.UgSafe(m, orig)
    ensures UgReady(m, orig) ==> UndoLibs.UgSafe(m, orig)
  {
  }

  lemma UgKept(m: Tree, m': Tree, orig: Option<string>)
    requires AgreeAt(m, m', LIVE_UG_KEY) && AgreeAt(m, m', BACKUP_UG_KEY)
    ensures UgReady(m, orig) ==> UgReady(m', orig)
    ensures UndoLibs.UgSafe(m, orig) ==> UndoLibs.UgSafe(m', orig)
    ensures Content(m', LIVE_UG_KEY) == Content(m, LIVE_UG_KEY)
  {
    hide Plain, Content, LIVE_UG_KEY, BACKUP_UG_KEY, AgreeAt;
    AgreePlain(m, m', LIVE_UG_KEY); AgreePlain(m, m', BACKUP_UG_KEY);
  }

  lemma UgStartKept(m: Tree, m': Tree, orig: Option<string>, sum: string -> nat)
    requires AgreeAt(m, m', LIVE_UG_KEY) && AgreeAt(m, m', BACKUP_UG_KEY)
    requires Content(m, LIVE_UG_KEY).Some? ==> AgreeAt(m, m', MarkKey(UG, sum(Content(m, LIVE_UG_KEY).value)))
    ensures UgFresh(m, orig, sum) ==> UgFresh(m', orig, sum)
    ensures UgInstalled(m, orig, sum) ==> UgInstalled(m', orig, sum)
  {
    hide Plain, Content, LIVE_UG_KEY, BACKUP_UG_KEY, AgreeAt, MarkKey, Kind;
    AgreePlain(m, m', LIVE_UG_KEY); AgreePlain(m, m', BACKUP_UG_KEY);
    if Content(m, LIVE_UG_KEY).Some? {
      AgreeKind(m, m', MarkKey(UG, sum(Content(m, LIVE_UG_KEY).value)));
    }
  }

  // ------------------------------------------------------------ PREPARE

  lemma UgStartCode(m: Tree, orig: Option<string>, sum: string -> nat)
    requires UgFresh(m, orig, sum) || UgInstalled(m, orig, sum)
    ensures Code(m, USERGROUP, sum, false, false)
            == if Content(m, LIVE_UG_KEY).Some? && !UgInstalled(m, orig, sum) then 1 else 0
  {
    hide Norm, Kind, LIVE_UG_KEY, BACKUP_UG_KEY, MarkKey, Plain, Proper, Keylike;
    UgProper();
    ProperKeylike(USERGROUP);
    PlainKind(m, BACKUP_UG_KEY);
    if Content(m, LIVE_UG_KEY).Some? && UgInstalled(m, orig, sum) {
      KindPresent(m, MarkKey(UG, sum(Content(m, LIVE_UG_KEY).value)));
    }
  }

  lemma WrittenUgBackup(m: Tree, orig: Option<string>, sum: string -> nat)
    requires UgFresh(m, orig, sum) && orig.Some?
    ensures UgReady(m[BACKUP_UG_KEY := File(orig.value)], orig)
  {
    hide Kind, LIVE_UG_KEY, BACKUP_UG_KEY, MarkKey, Unrelated, Keylike;
    var m' := m[BACKUP_UG_KEY := File(orig.value)];
    UndoLibs.UgFacts();
    AgreeOther(m, BACKUP_UG_KEY, File(orig.value), LIVE_UG_KEY);
    AgreePlain(m, m', LIVE_UG_KEY);
    assert Children(m', BACKUP_UG_KEY) == Children(m, BACKUP_UG_KEY);
  }

  lemma PrepareUgExec(orig: Option<string>, env: Env, st: State)
    requires st.status == Running && !env.pretend
    requires FlagIs(st.vars, false)
    requires UgFresh(st.m, orig, env.sum) || UgInstalled(st.m, orig, env.sum)
    ensures var r := Run(PREPARE_UG, env, st);
            UndoLibs.UgSafe(r.m, orig) && (r.status == Running ==> UgReady(r.m, orig))
  {
    hide Norm, Kind, Run, LIVE_UG_KEY, BACKUP_UG_KEY, MarkKey, Plain, Code, Content, USERGROUP, Decision, Act, Save,
         Verified, Proper, UgFresh, UgReady, LEGACY, ACT, BackupOf;
    var save := [Act(1, Save(USERGROUP)), Act(1, Verified(USERGROUP))];
    RunAppend(Decision(USERGROUP, false), save, env, st);
    UgProper();
    ProperKeylike(USERGROUP);
    UgPlain(st.m, orig, env.sum);
    DecisionExec(USERGROUP, false, false, env, st);
    UgStartCode(st.m, orig, env.sum);
    var code := Code(st.m, USERGROUP, env.sum, false, false);
    var s1 := st.(vars := st.vars[ACT := Int(code)]);
    SavePair(USERGROUP, env, s1, code);
    UgStartSafe(st.m, orig, env.sum);
    if code == 1 {
      UgFreshContent(st.m, orig, env.sum);
      WrittenUgBackup(st.m, orig, env.sum);
      UgStartSafe(st.m[BACKUP_UG_KEY := File(orig.value)], orig, env.sum);
    } else {
      UgUntouched(st.m, orig, env.sum);
    }
  }

  lemma UgPlain(m: Tree, orig: Option<string>, sum: string -> nat)
    requires UgFresh(m, orig, sum) || UgInstalled(m, orig, sum)
    ensures Plain(m, LIVE_UG_KEY)
  {
  }

  lemma UgFreshContent(m: Tree, orig: Option<string>, sum: string -> nat)
    requires UgFresh(m, orig, sum)
    ensures Content(m, LIVE_UG_KEY) == orig
  {
  }

  /** Without a live original there is nothing to save. */
  lemma UgUntouched(m: Tree, orig: Option<string>, sum: string -> nat)
    requires UgFresh(m, orig, sum) || UgInstalled(m, orig, sum)
    requires Content(m, LIVE_UG_KEY).None? || UgInstalled(m, orig, sum)
    ensures UgReady(m, orig)
  {
  }

  // ---------------------------------------------------- copy and FINISH

  lemma CopyUgExec(env: Env, st: State)
    ensures var r := Exec(COPY_REST[0], env, st);
            r.m == st.m
            || ("Libs/usergroup.library" in env.package
                && r.m == st.m[LIVE_UG_KEY := File(env.package["Libs/usergroup.library"])])
  {
    hide Norm, Kind, Write, InDir, LIVE_UG_KEY, Undo.LIVE_UG;
    RestPaths(); UgKeys();
    UgSourceInPackage(env, st);
    if st.status == Running && "Libs/usergroup.library" in env.package {
      WriteOutcome(st, InDir("SYS:Libs", UG), File(env.package["Libs/usergroup.library"]));
    }
  }

  lemma UgSourceInPackage(env: Env, st: State)
    ensures var p := "Libs/usergroup.library";
            Source(p, env, st) == if p in env.package then Some(File(env.package[p])) else None
  {
    hide Norm;
    assert ':' !in "Libs/usergroup.library";
  }

  lemma WrittenUgLive(m: Tree, orig: Option<string>, data: string)
    requires UgReady(m, orig)
    ensures UgReady(m[LIVE_UG_KEY := File(data)], orig)
  {
    hide Kind, LIVE_UG_KEY, BACKUP_UG_KEY, Unrelated, Keylike;
    var m' := m[LIVE_UG_KEY := File(data)];
    UndoLibs.UgFacts();
    UnrelatedFlip(BACKUP_UG_KEY, LIVE_UG_KEY);
    AgreeOther(m, LIVE_UG_KEY, File(data), BACKUP_UG_KEY);
    AgreePlain(m, m', BACKUP_UG_KEY);
    assert Children(m', LIVE_UG_KEY) == Children(m, LIVE_UG_KEY);
  }

  lemma UgThrough(p: seq<Stmt>, orig: Option<string>, env: Env, st: State)
    requires SparesAll(p, LIVE_UG_KEY) && SparesAll(p, BACKUP_UG_KEY)
    ensures var r := Run(p, env, st).m;
            && (UgReady(st.m, orig) ==> UgReady(r, orig))
            && (UndoLibs.UgSafe(st.m, orig) ==> UndoLibs.UgSafe(r, orig))
            && Content(r, LIVE_UG_KEY) == Content(st.m, LIVE_UG_KEY)
  {
    hide UgReady, UndoLibs.UgSafe, LIVE_UG_KEY, BACKUP_UG_KEY, Run, SparesAll, AgreeAt, Content;
    SparesRun(p, env, st, LIVE_UG_KEY); SparesRun(p, env, st, BACKUP_UG_KEY);
    UgKept(st.m, Run(p, env, st).m, orig);
  }

  lemma UgShape()
    ensures |LIVE_UG_KEY| > 9 && LIVE_UG_KEY[4] == 'l' && LIVE_UG_KEY[9] == 'u' && DeepKey(LIVE_UG_KEY)
    ensures InStorage(BACKUP_UG_KEY) && BACKUP_UG_KEY[28] == 'l' && DeepKey(BACKUP_UG_KEY)
    ensures !InS(LIVE_UG_KEY) && !InS(BACKUP_UG_KEY)
  {
    hide LIVE_UG_KEY, BACKUP_UG_KEY;
    UndoRun.BackupShape(); UndoRun.LibsShape();
    UgLength();
  }

  lemma UgLength()
    ensures |BACKUP_UG_KEY| > 32
  {
  }

  lemma RestKeepsUg(orig: Option<string>, env: Env, st: State)
    requires UgReady(st.m, orig)
    ensures UgReady(Run(COPY_REST, env, st).m, orig)
  {
    hide UgReady, LIVE_UG_KEY, BACKUP_UG_KEY, Exec, SparesAll;
    var tail := COPY_REST[1..];
    CopyUgExec(env, st);
    var mid := Exec(COPY_REST[0], env, st);
    if mid.m != st.m {
      WrittenUgLive(st.m, orig, env.package["Libs/usergroup.library"]);
    }
    UgShape();
    PrefsCopiesSpare(LIVE_UG_KEY); PrefsCopiesSpare(BACKUP_UG_KEY);
    UgThrough(tail, orig, env, mid);
  }

  lemma PrefsCopiesSpare(k: string)
    requires |k| > 6 && k[4] != 'p'
    ensures SparesAll(COPY_REST[1..], k)
  {
    hide Norm, AtOrBelow, InDir;
    RestPaths(); OwnKeys();
    PrefsApart(k);
    assert Spares(COPY_REST[1], k) && Spares(COPY_REST[2], k);
  }

  lemma FinishUg(names: seq<string>, orig: Option<string>, env: Env, st: State)
    requires (forall i :: 0 <= i < |names| ==> Undo.ValidName(names[i]))
    requires st.status == Running && !env.pretend && UgReady(st.m, orig)
    ensures var r := Run(Finish(names), env, st);
            UgReady(r.m, orig) && (r.status == Running ==> UgInstalled(r.m, orig, env.sum))
  {
    hide UgReady, LIVE_UG_KEY, BACKUP_UG_KEY, Run, MarkNames, Mark, SparesAll, Exec, MarkKey, USERGROUP, Content,
         Norm, Proper, Plain;
    var last := [Mark(USERGROUP), Startup];
    UgShape();
    RunAppend(MarkNames(names), last, env, st);
    MarksSpare(names, LIVE_UG_KEY); MarksSpare(names, BACKUP_UG_KEY);
    UgThrough(MarkNames(names), orig, env, st);
    var mid := Run(MarkNames(names), env, st);
    RunStays(last, env, mid);
    if mid.status == Running {
      LastUg(orig, env, mid);
    }
  }

  lemma UgReadyPlain(m: Tree, orig: Option<string>)
    requires UgReady(m, orig)
    ensures Plain(m, LIVE_UG_KEY)
  {
  }

  lemma LastUg(orig: Option<string>, env: Env, st: State)
    requires st.status == Running && !env.pretend && UgReady(st.m, orig)
    ensures var r := Run([Mark(USERGROUP), Startup], env, st);
            UgReady(r.m, orig) && (r.status == Running ==> UgInstalled(r.m, orig, env.sum))
  {
    hide UgReady, LIVE_UG_KEY, BACKUP_UG_KEY, Run, Mark, SparesAll, Exec, MarkKey, USERGROUP, Content, Norm, Proper,
         Plain;
    var last := [Mark(USERGROUP), Startup];
    UgShape();
    LastSpares(LIVE_UG_KEY); LastSpares(BACKUP_UG_KEY);
    UgThrough(last, orig, env, st);
    RunTwo(Mark(USERGROUP), Startup, env, st);
    var mid := Exec(Mark(USERGROUP), env, st);
    UgProper(); UgTag(); ProperKeylike(USERGROUP);
    UgReadyPlain(st.m, orig);
    MarkExec(USERGROUP, env, st);
    ExecStopped(Startup, env, mid);
    var c := Content(st.m, LIVE_UG_KEY);
    if c.Some? {
      LastRemovesNothing(MarkKey(UG, env.sum(c.value)));
      NeverRemovesExec(Startup, env, mid, MarkKey(UG, env.sum(c.value)));
    }
  }

  lemma UgTag()
    ensures USERGROUP.tag == UG
  {
  }

  // ------------------------------------------------- the whole install

  lemma PrepareNamesKeepLegacy(names: seq<string>)
    ensures forall i :: 0 <= i < |PrepareNames(names)| ==> KeepsVar(PrepareNames(names)[i], LEGACY)
  {
    hide PrepareName, KeepsVar;
    if names != [] {
      PrepareNameKeepsLegacy(names[0]);
      PrepareNamesKeepLegacy(names[1..]);
    }
  }

  lemma UgKeyThroughNames(names: seq<string>, copied: seq<string>, k: string, s: nat, env: Env, st: State)
    requires Undo.ValidNames(names)
    requires k == LIVE_UG_KEY || k == BACKUP_UG_KEY || k == MarkKey(UG, s)
    ensures AgreeAt(st.m, RunPhases(names, copied, env, st).names.m, k)
  {
    hide LIVE_UG_KEY, BACKUP_UG_KEY, MarkKey, AgreeAt, Undo.ValidName, Run, SparesAll, OPENING, DIRS, OursDirs,
         UndoText, DeepKey, PrepareNames, AtOrBelow, BackupKey, NewKey;
    UgShape(); UgIsName();
    MarkDeep(UG, s); MarkShape(UG, s);
    EarlySpares(names, k);
    OpeningSpares(k);
    forall i | 0 <= i < |names| ensures !AtOrBelow(BackupKey(names[i]), k) && !AtOrBelow(NewKey(names[i]), k) {
      NameWritesApart(names[i], k);
    }
    PrepareNamesSpare(names, k);
    var r := RunPhases(names, copied, env, st);
    SparesRun(OPENING, env, st, k);
    SparesRun([TextFile(L(Undo.UNDO), UndoText(names))], env, r.start, k);
    SparesRun(DIRS + OursDirs(names + [UG]), env, r.written, k);
    SparesRun(PrepareNames(names), env, r.dirs, k);
    AgreeTrans(st.m, r.start.m, r.written.m, k);
    AgreeTrans(st.m, r.written.m, r.dirs.m, k);
    AgreeTrans(st.m, r.dirs.m, r.names.m, k);
  }

  lemma UgStartThrough(names: seq<string>, copied: seq<string>, orig: Option<string>, env: Env, st: State)
    requires Undo.ValidNames(names)
    requires UgFresh(st.m, orig, env.sum) || UgInstalled(st.m, orig, env.sum)
    ensures var r := RunPhases(names, copied, env, st).names.m;
            UgFresh(r, orig, env.sum) || UgInstalled(r, orig, env.sum)
  {
    hide UgFresh, UgInstalled, LIVE_UG_KEY, BACKUP_UG_KEY, MarkKey, AgreeAt, Content;
    var r := RunPhases(names, copied, env, st).names.m;
    var c := Content(st.m, LIVE_UG_KEY);
    var s := if c.Some? then env.sum(c.value) else 0;
    UgKeyThroughNames(names, copied, LIVE_UG_KEY, s, env, st);
    UgKeyThroughNames(names, copied, BACKUP_UG_KEY, s, env, st);
    UgKeyThroughNames(names, copied, MarkKey(UG, s), s, env, st);
    UgStartKept(st.m, r, orig, env.sum);
  }

  lemma MiddleSparesUg(copied: seq<string>, k: string)
    requires forall i :: 0 <= i < |copied| ==> Undo.ValidName(copied[i])
    requires k == LIVE_UG_KEY || k == BACKUP_UG_KEY
    ensures SparesAll(PREPARE_LIB, k) && SparesAll(PREPARE_STARTUP, k) && SparesAll(CopyCommands(copied), k)
  {
    hide SparesAll, LIVE_UG_KEY, BACKUP_UG_KEY, AtOrBelow, LiveKey, PREPARE_LIB, PREPARE_STARTUP, CopyCommands;
    UgShape();
    LibWritesApart(k);
    PrepareLibSpares(k);
    StartupWritesApart(k);
    PrepareStartupSpares(k);
    forall i | 0 <= i < |copied| ensures !AtOrBelow(LiveKey(copied[i]), k) { LiveApart(copied[i], k); }
    CopiesSpare(copied, k);
  }

  /** One install leaves usergroup.library safe; completed, installed. */
  lemma InstallUgrp(names: seq<string>, copied: seq<string>, orig: Option<string>, env: Env, st: State)
    requires Undo.ValidNames(names) && st.status == Running && !env.pretend
    requires forall i :: 0 <= i < |copied| ==> Undo.ValidName(copied[i])
    requires !Legacy(st.m)
    requires UgFresh(st.m, orig, env.sum) || UgInstalled(st.m, orig, env.sum)
    ensures var r := Run(Script(names, copied), env, st);
            && UndoLibs.UgSafe(r.m, orig)
            && (r.status == Running ==> UgInstalled(r.m, orig, env.sum))
  {
    hide UgFresh, UgReady, UgInstalled, UndoLibs.UgSafe, Run, SparesAll, Kind, PrepareNames, PREPARE_UG, PREPARE_LIB,
         PREPARE_STARTUP, CopyCommands, COPY_REST, Finish, LEGACY, Script, LIVE_UG_KEY, BACKUP_UG_KEY, KeepsVar,
         Undo.ValidName;
    ScriptPhases(names, copied, env, st);
    PhasesRunning(names, copied, env, st);
    var r := RunPhases(names, copied, env, st);
    UgStartThrough(names, copied, orig, env, st);
    LegacyFlag(names, copied, env, st);
    PrepareNamesKeepLegacy(names);
    KeepsVarRun(PrepareNames(names), env, r.dirs, LEGACY);
    UgSafeOf(r.names.m, orig, env.sum);
    if r.names.status == Running {
      PrepareUgExec(orig, env, r.names);
    } else {
      RunStays(PREPARE_UG, env, r.names);
    }
    MiddleSparesUg(copied, LIVE_UG_KEY); MiddleSparesUg(copied, BACKUP_UG_KEY);
    UgThrough(PREPARE_LIB, orig, env, r.ug);
    UgThrough(PREPARE_STARTUP, orig, env, r.lib);
    UgThrough(CopyCommands(copied), orig, env, r.prepared);
    if r.copied.status == Running {
      RestKeepsUg(orig, env, r.copied);
      RunStays(Finish(names), env, r.rest);
      if r.rest.status == Running { FinishUg(names, orig, env, r.rest); }
      UgStartSafe(r.end.m, orig, env.sum);
    } else {
      RunStays(COPY_REST, env, r.copied);
      RunStays(Finish(names), env, r.rest);
    }
  }

  lemma UgSafeOf(m: Tree, orig: Option<string>, sum: string -> nat)
    requires UgFresh(m, orig, sum) || UgInstalled(m, orig, sum)
    ensures UndoLibs.UgSafe(m, orig)
  {
    hide UgFresh, UgReady, UndoLibs.UgSafe;
    UgStartSafe(m, orig, sum);
  }
}
