/** Copies, FINISH and the whole install for one command file. */
module InstallRun {
  import opened Seqs
  import opened Text
  import opened Files
  import opened Installer
  import opened InstallScript
  import opened InstallSteps
  import opened InstallFrames
  import opened InstallNames
  import opened Restore
  import Undo
  import opened Keys

  // -------------------------------------------------------- copy phase

  lemma CopyExec(m: string, env: Env, st: State)
    requires Undo.ValidName(m)
    ensures var r := Exec(CopyCommand(m), env, st);
            r.m == st.m || ("C/" + m in env.package && r.m == st.m[LiveKey(m) := File(env.package["C/" + m])])
  {
    hide Norm, Kind, LiveKey, Write;
    CopyPath(m);
    assert ':' !in "C/" + m;
    if st.status == Running && "C/" + m in env.package {
      WriteOutcome(st, InDir("SYS:C", m), File(env.package["C/" + m]));
    }
  }

  lemma WrittenLive(m: Tree, n: string, orig: Option<string>, data: string)
    requires Undo.ValidName(n) && Ready(m, n, orig)
    ensures Ready(m[LiveKey(n) := File(data)], n, orig)
  {
    hide Kind, LiveKey, BackupKey, NewKey, Unrelated, Keylike;
    var m' := m[LiveKey(n) := File(data)];
    NameUnrelated(n);
    AgreeOther(m, LiveKey(n), File(data), BackupKey(n));
    AgreePlain(m, m', BackupKey(n));
    assert Children(m', LiveKey(n)) == Children(m, LiveKey(n));
  }

  lemma CopyKeepsReady(m: string, n: string, orig: Option<string>, env: Env, st: State)
    requires Undo.ValidName(m) && Undo.ValidName(n) && Ready(st.m, n, orig)
    ensures Ready(Exec(CopyCommand(m), env, st).m, n, orig)
  {
    hide Exec, Ready, LiveKey, BackupKey, NewKey, AtOrBelow, AgreeAt, CopyCommand, Undo.ValidName;
    CopyExec(m, env, st);
    var r := Exec(CopyCommand(m), env, st).m;
    if r != st.m {
      var data := env.package["C/" + m];
      if LiveKey(m) == LiveKey(n) {
        WrittenLive(st.m, n, orig, data);
      } else {
        LiveKeysApart(m, n);
        NameShape(n); NameFifth(n); NameShape(m);
        ApartAt(LiveKey(m), BackupKey(n), 4);
        ApartAt(LiveKey(m), NewKey(n), 4);
        AgreeWrite(st.m, LiveKey(m), File(data), LiveKey(n));
        AgreeWrite(st.m, LiveKey(m), File(data), BackupKey(n));
        AgreeWrite(st.m, LiveKey(m), File(data), NewKey(n));
        ReadyKept(st.m, r, n, orig);
      }
    }
  }

  lemma LiveKeysApart(m: string, n: string)
    requires Undo.ValidName(m) && Undo.ValidName(n) && LiveKey(m) != LiveKey(n)
    ensures !AtOrBelow(LiveKey(m), LiveKey(n))
  {
    hide Lower, Unrelated;
    NameShape(m); NameShape(n);
    SiblingNames("sys:c/", Lower(m), Lower(n));
    UnrelatedNot(LiveKey(m), LiveKey(n));
  }

  lemma {:induction false} CopiesKeepReady(copied: seq<string>, n: string, orig: Option<string>, env: Env, st: State)
    requires forall i :: 0 <= i < |copied| ==> Undo.ValidName(copied[i])
    requires Undo.ValidName(n) && Ready(st.m, n, orig)
    ensures Ready(Run(CopyCommands(copied), env, st).m, n, orig)
  {
    hide Exec, Ready, CopyCommand, Undo.ValidName;
    if copied != [] && st.status == Running {
      CopyKeepsReady(copied[0], n, orig, env, st);
      assert CopyCommands(copied)[1..] == CopyCommands(copied[1..]);
      CopiesKeepReady(copied[1..], n, orig, env, Exec(CopyCommand(copied[0]), env, st));
    }
  }

  // ------------------------------------------------------------ FINISH

  lemma KeysNotMarks(n: string)
    requires Undo.ValidName(n)
    ensures forall k :: k in [LiveKey(n), BackupKey(n), NewKey(n)] ==>
              |k| > 6 && (k[4] != 's' || k[5] != 't' || (InStorage(k) && k[28] != 'o')) && !InS(k)
  {
    hide LiveKey, BackupKey, NewKey;
    NameShape(n); NameFifth(n);
  }

  /** Statements that leave ours/ only touched leave the file ready. */
  lemma ReadyThrough(p: seq<Stmt>, n: string, orig: Option<string>, env: Env, st: State)
    requires SparesAll(p, LiveKey(n)) && SparesAll(p, BackupKey(n)) && SparesAll(p, NewKey(n))
    ensures var r := Run(p, env, st).m;
            && (Ready(st.m, n, orig) ==> Ready(r, n, orig)) && (Safe(st.m, n, orig) ==> Safe(r, n, orig))
            && Content(r, LiveKey(n)) == Content(st.m, LiveKey(n))
  {
    hide Ready, Safe, LiveKey, BackupKey, NewKey, Run, SparesAll, AgreeAt, Content;
    SparesRun(p, env, st, LiveKey(n)); SparesRun(p, env, st, BackupKey(n)); SparesRun(p, env, st, NewKey(n));
    ReadyKept(st.m, Run(p, env, st).m, n, orig);
    AgreePlain(st.m, Run(p, env, st).m, LiveKey(n));
  }

  lemma MarkOwn(n: string, orig: Option<string>, env: Env, st: State)
    requires Undo.ValidName(n) && st.status == Running && !env.pretend && Ready(st.m, n, orig)
    ensures var r := Exec(Mark(Command(n)), env, st);
            && Ready(r.m, n, orig)
            && (r.status == Running ==> Installed(r.m, n, orig, env.sum))
  {
    hide Exec, LiveKey, BackupKey, NewKey, MarkKey, Mark, Command, Run, SparesAll, Spares, Proper, Norm, Keylike,
         Plain, Content;
    var f := Command(n);
    var r := Exec(Mark(f), env, st);
    CommandProper(n); CommandTag(n); ProperKeylike(f);
    MarkExec(f, env, st);
    KeysNotMarks(n);
    forall k | k in [LiveKey(n), BackupKey(n), NewKey(n)] ensures SparesAll([Mark(f)], k) {
      MarkSpares(f, k);
      OneSpares(Mark(f), k);
    }
    assert LiveKey(n) in [LiveKey(n), BackupKey(n), NewKey(n)] && BackupKey(n) in [LiveKey(n), BackupKey(n), NewKey(n)];
    assert NewKey(n) in [LiveKey(n), BackupKey(n), NewKey(n)];
    ReadyThrough([Mark(f)], n, orig, env, st);
    RunOne(Mark(f), env, st);
  }

  lemma OneSpares(s: Stmt, k: string)
    requires Spares(s, k)
    ensures SparesAll([s], k)
  {
  }

  /** Marking other files keeps this one installed. */
  lemma InstalledThrough(p: seq<Stmt>, n: string, orig: Option<string>, env: Env, st: State)
    requires SparesAll(p, LiveKey(n)) && SparesAll(p, BackupKey(n)) && SparesAll(p, NewKey(n))
    requires forall k, i :: 0 <= i < |p| && |k| > 34 && k[28] == 'o' ==> NeverRemoves(p[i], k)
    requires Undo.ValidName(n) && Installed(st.m, n, orig, env.sum)
    ensures Installed(Run(p, env, st).m, n, orig, env.sum)
  {
    hide Ready, LiveKey, BackupKey, NewKey, Run, SparesAll, NeverRemoves, MarkKey, Content;
    ReadyThrough(p, n, orig, env, st);
    var c := Content(st.m, LiveKey(n));
    if c.Some? {
      var k := MarkKey(n, env.sum(c.value));
      MarkShape(n, env.sum(c.value));
      NeverRemovesRun(p, env, st, k);
    }
  }

  lemma {:induction false} MarksDo(names: seq<string>, n: string, orig: Option<string>, env: Env, st: State)
    requires (forall i :: 0 <= i < |names| ==> Undo.ValidName(names[i])) && n in names
    requires st.status == Running && !env.pretend && Ready(st.m, n, orig)
    ensures var r := Run(MarkNames(names), env, st);
            && Ready(r.m, n, orig)
            && (r.status == Running ==> Installed(r.m, n, orig, env.sum))
  {
    hide Ready, Installed, LiveKey, BackupKey, NewKey, Exec, Mark, Command, SparesAll, Spares, NeverRemoves;
    var x, rest := names[0], names[1..];
    var mid := Exec(Mark(Command(x)), env, st);
    assert MarkNames(names)[1..] == MarkNames(rest);
    KeysNotMarks(n);
    forall k | k in [LiveKey(n), BackupKey(n), NewKey(n)]
      ensures SparesAll(MarkNames(rest), k) && SparesAll([Mark(Command(x))], k)
    {
      MarksSpare(rest, k);
      CommandTag(x);
      MarkSpares(Command(x), k);
      OneSpares(Mark(Command(x)), k);
    }
    assert LiveKey(n) in [LiveKey(n), BackupKey(n), NewKey(n)] && BackupKey(n) in [LiveKey(n), BackupKey(n), NewKey(n)];
    assert NewKey(n) in [LiveKey(n), BackupKey(n), NewKey(n)];
    if x == n {
      MarkOwn(n, orig, env, st);
      ReadyThrough(MarkNames(rest), n, orig, env, mid);
      if mid.status == Running {
        forall k, i | 0 <= i < |MarkNames(rest)| && |k| > 34 && k[28] == 'o'
          ensures NeverRemoves(MarkNames(rest)[i], k)
        {
          MarksRemoveNothing(rest, k);
        }
        InstalledThrough(MarkNames(rest), n, orig, env, mid);
      }
    } else {
      RunOne(Mark(Command(x)), env, st);
      ReadyThrough([Mark(Command(x))], n, orig, env, st);
      assert n in rest;
      if mid.status == Running { MarksDo(rest, n, orig, env, mid); }
    }
  }

  lemma LastSpares(k: string)
    requires |k| > 6 && (k[4] != 's' || k[5] != 't' || (InStorage(k) && k[28] != 'o')) && (!InS(k) || k[6] != 'u')
    ensures SparesAll([Mark(USERGROUP), Startup], k)
  {
    hide Mark, Norm, AtOrBelow;
    UgIsName();
    MarkSpares(USERGROUP, k);
    SKeys();
    StartupWritesApart(k);
    assert USER_STARTUP == Undo.US;
  }

  lemma FinishDoes(names: seq<string>, n: string, orig: Option<string>, env: Env, st: State)
    requires (forall i :: 0 <= i < |names| ==> Undo.ValidName(names[i])) && n in names
    requires st.status == Running && !env.pretend && Ready(st.m, n, orig)
    ensures var r := Run(Finish(names), env, st);
            && Ready(r.m, n, orig)
            && (r.status == Running ==> Installed(r.m, n, orig, env.sum))
  {
    hide Ready, Installed, LiveKey, BackupKey, NewKey, Run, MarkNames, Mark, SparesAll, Exec;
    var last := [Mark(USERGROUP), Startup];
    RunAppend(MarkNames(names), last, env, st);
    MarksDo(names, n, orig, env, st);
    var mid := Run(MarkNames(names), env, st);
    KeysNotMarks(n);
    forall k | k in [LiveKey(n), BackupKey(n), NewKey(n)] ensures SparesAll(last, k) { LastSpares(k); }
    assert LiveKey(n) in [LiveKey(n), BackupKey(n), NewKey(n)] && BackupKey(n) in [LiveKey(n), BackupKey(n), NewKey(n)];
    assert NewKey(n) in [LiveKey(n), BackupKey(n), NewKey(n)];
    ReadyThrough(last, n, orig, env, mid);
    RunStays(last, env, mid);
    if mid.status == Running {
      forall k, i | 0 <= i < |last| && |k| > 34 && k[28] == 'o' ensures NeverRemoves(last[i], k) {
        LastRemovesNothing(k);
      }
      InstalledThrough(last, n, orig, env, mid);
    }
  }

  lemma LastRemovesNothing(k: string)
    ensures NeverRemoves(Mark(USERGROUP), k) && NeverRemoves(Startup, k)
  {
    assert NeverRemoves(TextFile(MarkExp(USERGROUP), ""), k) && NeverRemoves(Skip, k);
  }

  // ------------------------------------------------- the whole install

  /** What the phases before and after the command files leave alone. */
  lemma EarlySpares(names: seq<string>, k: string)
    requires Undo.ValidNames(names) && DeepKey(k) && !InS(k)
    requires k[4] != 's' || k[5] != 't' || (InStorage(k) && k[28] != 'o')
             || (exists n, s :: Undo.ValidName(n) && k == MarkKey(n, s))
    ensures SparesAll([TextFile(L(Undo.UNDO), UndoText(names))], k)
    ensures SparesAll(DIRS + OursDirs(names + [UG]), k)
  {
    hide Norm, AtOrBelow, DIRS, OursDirs, UndoText, Spares, BK, MarkKey, OursKey, Undo.ValidName;
    UndoTextSpares(names, k);
    DirsSpares(k);
    UgIsName();
    var tags := names + [UG];
    forall i | 0 <= i < |tags| ensures Undo.ValidName(tags[i]) && !AtOrBelow(Norm(BK + "/ours/" + tags[i]), k) {
      if k[4] != 's' || k[5] != 't' || (InStorage(k) && k[28] != 'o') {
        OursDirApart(tags[i], k);
      } else {
        var n, s :| Undo.ValidName(n) && k == MarkKey(n, s);
        OursNorm(tags[i]);
        OursDirNotMark(tags[i], n, s);
      }
    }
    OursDirsSpare(tags, k);
    SparesConcat(DIRS, OursDirs(tags), k);
  }

  lemma LateSpares(k: string)
    requires |k| > 6 && k[4] != 'p' && k[4] != 'l' && !InS(k)
    requires k[4] != 's' || k[5] != 't' || (InStorage(k) && k[28] != 'l')
    ensures SparesAll(PREPARE_UG, k) && SparesAll(PREPARE_LIB, k) && SparesAll(PREPARE_STARTUP, k)
    ensures SparesAll(COPY_REST, k)
  {
    hide SparesAll;
    UgWriteApart(k);
    PrepareUgSpares(k);
    LibWritesApart(k);
    PrepareLibSpares(k);
    StartupWritesApart(k);
    PrepareStartupSpares(k);
    UgLiveApart(k);
    RestSpares(k);
  }

  lemma NameDeep(n: string)
    requires Undo.ValidName(n)
    ensures forall k :: k in [LiveKey(n), BackupKey(n), NewKey(n)] ==>
              DeepKey(k) && !InS(k) && k[4] != 'p' && k[4] != 'l'
              && (k[4] != 's' || k[5] != 't' || (InStorage(k) && k[28] != 'o' && k[28] != 'l'))
  {
    hide LiveKey, BackupKey, NewKey;
    NameShape(n); NameFifth(n);
  }

  lemma MarkDeep(n: string, s: nat)
    requires Undo.ValidName(n)
    ensures DeepKey(MarkKey(n, s)) && !InS(MarkKey(n, s))
  {
    hide MarkKey;
    MarkShape(n, s);
  }

  /** Up to the command files, one file's starting state does not change. */
  lemma StartThroughOpening(names: seq<string>, copied: seq<string>, n: string, orig: Option<string>, env: Env,
                            st: State)
    requires Undo.ValidNames(names) && Undo.ValidName(n)
    requires Fresh(st.m, n, orig, env.sum) || Installed(st.m, n, orig, env.sum)
    ensures var r := RunPhases(names, copied, env, st).dirs.m;
            Fresh(r, n, orig, env.sum) || Installed(r, n, orig, env.sum)
  {
    hide Fresh, Installed, LiveKey, BackupKey, NewKey, MarkKey, AgreeAt, Content, Undo.ValidName, IsKeyOf, DeepKey;
    var r := RunPhases(names, copied, env, st).dirs.m;
    var c := Content(st.m, LiveKey(n));
    var s := if c.Some? then env.sum(c.value) else 0;
    KeyThroughOpening(names, copied, n, LiveKey(n), s, env, st);
    KeyThroughOpening(names, copied, n, BackupKey(n), s, env, st);
    KeyThroughOpening(names, copied, n, NewKey(n), s, env, st);
    KeyThroughOpening(names, copied, n, MarkKey(n, s), s, env, st);
    StartKept(st.m, r, n, orig, env.sum);
  }

  lemma KeyThroughOpening(names: seq<string>, copied: seq<string>, n: string, k: string, s: nat, env: Env, st: State)
    requires Undo.ValidNames(names) && Undo.ValidName(n)
    requires k in [LiveKey(n), BackupKey(n), NewKey(n)] || k == MarkKey(n, s)
    ensures AgreeAt(st.m, RunPhases(names, copied, env, st).dirs.m, k)
  {
    hide LiveKey, BackupKey, NewKey, MarkKey, AgreeAt, Undo.ValidName, Run, SparesAll, OPENING, DIRS, OursDirs,
         UndoText, DeepKey;
    NameDeep(n);
    MarkDeep(n, s);
    EarlySpares(names, k);
    OpeningSpares(k);
    var r := RunPhases(names, copied, env, st);
    SparesRun(OPENING, env, st, k);
    SparesRun([TextFile(L(Undo.UNDO), UndoText(names))], env, r.start, k);
    SparesRun(DIRS + OursDirs(names + [UG]), env, r.written, k);
    AgreeTrans(st.m, r.start.m, r.written.m, k);
    AgreeTrans(st.m, r.written.m, r.dirs.m, k);
  }

  lemma {:induction false} DirsKeepLegacy(tags: seq<string>)
    ensures forall i :: 0 <= i < |OursDirs(tags)| ==> KeepsVar(OursDirs(tags)[i], LEGACY)
  {
    if tags != [] {
      EnsureKeepsLegacy(BK + "/ours/" + tags[0]);
      DirsKeepLegacy(tags[1..]);
    }
  }

  lemma EnsureKeepsLegacy(d: string)
    ensures KeepsVar(EnsureDir(d), LEGACY)
  {
    assert KeepsVar(MakeDir(d), LEGACY) && KeepsVar(Skip, LEGACY);
  }

  /** The legacy flag when the command files are prepared. */
  lemma LegacyFlag(names: seq<string>, copied: seq<string>, env: Env, st: State)
    requires Undo.ValidNames(names) && st.status == Running
    ensures var r := RunPhases(names, copied, env, st).dirs; FlagIs(r.vars, Legacy(st.m))
  {
    hide Run, OPENING, OursDirs, UndoText, EnsureDir, LEGACY, Legacy, BK;
    OpeningExec(env, st);
    var r := RunPhases(names, copied, env, st);
    var text := [TextFile(L(Undo.UNDO), UndoText(names))];
    assert KeepsVar(text[0], LEGACY);
    KeepsVarRun(text, env, r.start, LEGACY);
    EnsureKeepsLegacy("SYS:Storage"); EnsureKeepsLegacy(BK); EnsureKeepsLegacy(BK + "/C");
    EnsureKeepsLegacy(BK + "/Libs"); EnsureKeepsLegacy(BK + "/new"); EnsureKeepsLegacy(BK + "/ours");
    DirsKeepLegacy(names + [UG]);
    KeepsVarRun(DIRS + OursDirs(names + [UG]), env, r.written, LEGACY);
  }

  /** One install, stopped anywhere or completed, leaves every command file
      safe; completed, it leaves it installed. */
  lemma InstallName(names: seq<string>, copied: seq<string>, n: string, orig: Option<string>, env: Env, st: State)
    requires Undo.ValidNames(names) && n in names && st.status == Running && !env.pretend
    requires forall i :: 0 <= i < |copied| ==> Undo.ValidName(copied[i])
    requires !Legacy(st.m)
    requires forall i :: 0 <= i < |names| ==> Plain(st.m, LiveKey(names[i]))
    requires Fresh(st.m, n, orig, env.sum) || Installed(st.m, n, orig, env.sum)
    ensures var r := Run(Script(names, copied), env, st);
            && Safe(r.m, n, orig)
            && (r.status == Running ==> Installed(r.m, n, orig, env.sum))
  {
    hide Fresh, Installed, Safe, Ready, Plain, LiveKey, BackupKey, NewKey, Run, SparesAll, Kind, Undo.ValidName,
         PrepareNames, PREPARE_UG, PREPARE_LIB, PREPARE_STARTUP, CopyCommands, COPY_REST, Finish, LEGACY, Script,
         RunPhases;
    ScriptPhases(names, copied, env, st);
    PhasesRunning(names, copied, env, st);
    var r := RunPhases(names, copied, env, st);
    PhasesAre(names, copied, env, st);
    StartThroughOpening(names, copied, n, orig, env, st);
    LegacyFlag(names, copied, env, st);
    StartIsSafe(r.dirs.m, n, orig, env.sum);
    forall i | 0 <= i < |names| ensures Plain(r.dirs.m, LiveKey(names[i])) {
      assert LiveKey(names[i]) in [LiveKey(names[i]), BackupKey(names[i]), NewKey(names[i])];
      KeyThroughOpening(names, copied, names[i], LiveKey(names[i]), 0, env, st);
      AgreePlain(st.m, r.dirs.m, LiveKey(names[i]));
    }
    if r.dirs.status == Running {
      NamesPrepare(names, n, orig, env, r.dirs);
    } else {
      RunStays(PrepareNames(names), env, r.dirs);
    }
    AfterPrepare(names, copied, n, orig, env, st);
  }

  lemma PhasesAre(names: seq<string>, copied: seq<string>, env: Env, st: State)
    requires Undo.ValidNames(names)
    ensures RunPhases(names, copied, env, st).names == Run(PrepareNames(names), env,
                                                           RunPhases(names, copied, env, st).dirs)
  {
  }

  lemma AfterPrepare(names: seq<string>, copied: seq<string>, n: string, orig: Option<string>, env: Env, st: State)
    requires Undo.ValidNames(names) && n in names && !env.pretend
    requires forall i :: 0 <= i < |copied| ==> Undo.ValidName(copied[i])
    requires var r := RunPhases(names, copied, env, st).names;
             Safe(r.m, n, orig) && (r.status == Running ==> Ready(r.m, n, orig))
    ensures var r := RunPhases(names, copied, env, st).end;
            && Safe(r.m, n, orig)
            && (r.status == Running ==> Installed(r.m, n, orig, env.sum))
  {
    hide Fresh, Installed, Safe, Ready, Plain, LiveKey, BackupKey, NewKey, Run, SparesAll, Kind, Undo.ValidName,
         PrepareNames, PREPARE_UG, PREPARE_LIB, PREPARE_STARTUP, CopyCommands, COPY_REST, Finish, DeepKey;
    var r := RunPhases(names, copied, env, st);
    NameDeep(n);
    forall k | k in [LiveKey(n), BackupKey(n), NewKey(n)]
      ensures SparesAll(PREPARE_UG, k) && SparesAll(PREPARE_LIB, k) && SparesAll(PREPARE_STARTUP, k)
      ensures SparesAll(COPY_REST, k)
    {
      DeepLong(k);
      LateSpares(k);
    }
    assert LiveKey(n) in [LiveKey(n), BackupKey(n), NewKey(n)] && BackupKey(n) in [LiveKey(n), BackupKey(n), NewKey(n)];
    assert NewKey(n) in [LiveKey(n), BackupKey(n), NewKey(n)];
    ReadyThrough(PREPARE_UG, n, orig, env, r.names);
    ReadyThrough(PREPARE_LIB, n, orig, env, r.ug);
    ReadyThrough(PREPARE_STARTUP, n, orig, env, r.lib);
    PhasesRunning(names, copied, env, st);
    if r.prepared.status == Running {
      CopiesKeepReady(copied, n, orig, env, r.prepared);
      ReadyThrough(COPY_REST, n, orig, env, r.copied);
      if r.rest.status == Running {
        FinishDoes(names, n, orig, env, r.rest);
        ReadyIsSafe(r.end.m, n, orig);
      } else {
        RunStays(Finish(names), env, r.rest);
        ReadyIsSafe(r.end.m, n, orig);
      }
    } else {
      RunStays(CopyCommands(copied), env, r.prepared);
      RunStays(COPY_REST, env, r.copied);
      RunStays(Finish(names), env, r.rest);
    }
  }

  lemma DeepLong(k: string)
    requires DeepKey(k)
    ensures |k| > 6
  {
  }
}
