/** No install ever puts a file where the backup directories belong, and
    which scripts and directories a completed one leaves. */
module InstallDirs {
  import opened Seqs
  import opened Text
  import opened Files
  import opened Installer
  import opened InstallScript
  import opened InstallSteps
  import opened InstallFrames
  import opened InstallNames
  import opened InstallRun
  import opened InstallUg
  import opened Restore
  import Undo
  import UndoRun
  import opened Keys

  // ------------------------------------- no file where a directory belongs

  ghost predicate IsMark(w: string) {
    exists n: string, d: nat :: Undo.ValidName(n) && w == MarkKey(n, d)
  }

  /** A key of a file the install handles: none of the directories it needs. */
  ghost predicate Away(w: string) {
    && |w| > 6
    && (w[4] == 'l' || w[4] == 'p' ==> |w| > 9)
    && (w[4] == 's' && w[5] == 't' ==>
      |w| > 29 && (w[28] == 'l' || w[28] == 'n' ==> |w| > 32) && (w[28] == 'o' ==> IsMark(w)))
  }

  /** Every file the statement writes or takes away is none of the directories. */
  ghost predicate FilesAway(s: Stmt) {
    match s
    case If(_, thn, els) => FilesAway(thn) && FilesAway(els)
    case IfRenameFails(src, dst, thn) => Away(Norm(src)) && Away(Norm(dst)) && FilesAway(thn)
    case Rename(src, dst) => Away(Norm(src)) && Away(Norm(dst))
    case Delete(target) => Away(Norm(target))
    case CopyFiles(_, dest, name, infos) =>
      Away(Norm(InDir(dest, name))) && (infos ==> Away(Norm(InDir(dest, name + ".info"))))
    case TextFile(path, _) => forall t :: CanBe(path, t) ==> Away(Norm(t))
    case Startup => Away(Norm(USER_STARTUP))
    case _ => true
  }

  ghost predicate AllFilesAway(p: seq<Stmt>) {
    forall i :: 0 <= i < |p| ==> FilesAway(p[i])
  }

  /** No file appears where a directory belongs, and no directory goes. */
  ghost predicate DirsStay(m: Tree, m': Tree) {
    && (forall k :: k in m' && !Away(k) && m'[k].File? ==> k in m && m[k].File?)
    && (forall k :: k in m && !Away(k) && m[k].Dir? ==> k in m' && m'[k].Dir?)
  }

  lemma WriteAway(st: State, path: string, e: Entry)
    requires Away(Norm(path))
    ensures DirsStay(st.m, Write(st, path, e).m)
  {
    hide Norm, Kind, Away;
  }

  lemma CopyAway(s: Stmt, env: Env, st: State)
    requires s.CopyFiles? && FilesAway(s)
    ensures DirsStay(st.m, RunCopyFiles(s, env, st).m)
  {
    hide Norm, Write, Away, InDir;
    var data := Source(s.source, env, st);
    if data.Some? {
      var st1 := Write(st, InDir(s.dest, s.newname), data.value);
      WriteAway(st, InDir(s.dest, s.newname), data.value);
      var icon := Source(s.source + ".info", env, st1);
      if s.infos && icon.Some? { WriteAway(st1, InDir(s.dest, s.newname + ".info"), icon.value); }
    }
  }

  lemma {:induction false} AwayExec(s: Stmt, env: Env, st: State)
    requires FilesAway(s)
    ensures DirsStay(st.m, Exec(s, env, st).m)
  {
    hide Norm, Kind, Away, RunCopyFiles, Write;
    match s {
      case If(_, thn, els) => AwayExec(thn, env, st); AwayExec(els, env, st);
      case IfRenameFails(src, dst, thn) => AwayExec(thn, env, RunRename(src, dst, env, st).0);
      case CopyFiles(_, _, _, _) => CopyAway(s, env, st);
      case TextFile(path, body) =>
        EvalCanBe(path, env, st);
        var p := Eval(path, env, st);
        if p.Some? && p.value.Str? { WriteAway(st, p.value.s, File(body)); }
      case Startup =>
        var key := Norm(USER_STARTUP);
        var us := if key in st.m && st.m[key].File? then st.m[key].data else "";
        WriteAway(st, USER_STARTUP, File(env.boot(us)));
      case _ =>
    }
  }

  lemma {:induction false} AwayRun(p: seq<Stmt>, env: Env, st: State)
    requires AllFilesAway(p)
    ensures DirsStay(st.m, Run(p, env, st).m)
  {
    hide Exec, FilesAway, Away;
    if p != [] && st.status == Running {
      AwayExec(p[0], env, st);
      AwayRun(p[1..], env, Exec(p[0], env, st));
    }
  }

  lemma AwayConcat(a: seq<Stmt>, b: seq<Stmt>)
    requires AllFilesAway(a) && AllFilesAway(b)
    ensures AllFilesAway(a + b)
  {
  }

  lemma TextAway(path: string, body: string)
    requires Away(Norm(path))
    ensures FilesAway(TextFile(L(path), body))
  {
    hide Norm, Away;
    LitCanBe(path);
  }

  lemma DecisionAway(f: Saved, markNew: bool)
    ensures AllFilesAway(Decision(f, markNew))
  {
    var d := Decision(f, markNew)[1];
    assert FilesAway(Skip);
    assert FilesAway(d.thn.thn.thn);
    assert FilesAway(d.thn.thn);
    assert FilesAway(d.thn);
    assert FilesAway(d);
  }

  lemma SavePairAway(f: Saved)
    requires Proper(f) && Away(Norm(BackupOf(f)))
    ensures AllFilesAway([Act(1, Save(f)), Act(1, Verified(f))])
  {
    hide Norm, Away, Keylike, Unrelated;
    assert InDir(f.dir, f.tag) == BackupOf(f);
    assert FilesAway(Save(f)) && FilesAway(Skip);
    assert FilesAway(Verified(f).thn);
    assert FilesAway(Verified(f));
  }

  lemma PrepareNameAway(n: string)
    requires Undo.ValidName(n)
    ensures AllFilesAway(PrepareName(n))
  {
    hide Norm, BackupKey, NewKey, LiveKey, Decision, Act, Save, Verified, FilesAway;
    var f := Command(n);
    CommandProper(n);
    NameShape(n); NameFifth(n);
    DecisionAway(f, true);
    SavePairAway(f);
    var t := TextFile(L(BK + "/new/" + n), "");
    TextAway(BK + "/new/" + n, "");
    ActAway(2, t);
    AwayConcat([Act(1, Save(f)), Act(1, Verified(f))], [Act(2, t)]);
    AwayConcat(Decision(f, true), [Act(1, Save(f)), Act(1, Verified(f))] + [Act(2, t)]);
    assert PrepareName(n) == Decision(f, true) + ([Act(1, Save(f)), Act(1, Verified(f))] + [Act(2, t)]);
  }

  lemma ActAway(code: int, s: Stmt)
    requires FilesAway(s)
    ensures FilesAway(Act(code, s))
  {
  }

  lemma {:induction false} PrepareNamesAway(names: seq<string>)
    requires forall i :: 0 <= i < |names| ==> Undo.ValidName(names[i])
    ensures AllFilesAway(PrepareNames(names))
  {
    hide PrepareName, FilesAway;
    if names != [] {
      PrepareNameAway(names[0]);
      PrepareNamesAway(names[1..]);
      AwayConcat(PrepareName(names[0]), PrepareNames(names[1..]));
    }
  }

  lemma PrepareUgAway()
    ensures AllFilesAway(PREPARE_UG)
  {
    hide Norm, Decision, Act, Save, Verified, FilesAway, Proper, BACKUP_UG_KEY;
    UgProper(); UgShape(); UgLength();
    DecisionAway(USERGROUP, false);
    SavePairAway(USERGROUP);
    AwayConcat(Decision(USERGROUP, false), [Act(1, Save(USERGROUP)), Act(1, Verified(USERGROUP))]);
  }

  lemma ParkAway(dst: string, code: int)
    requires Away(Norm(dst)) && Away(LIB_KEY)
    ensures FilesAway(Chosen(code, Park(dst))) && FilesAway(Chosen(code, DropCopy(dst)))
  {
    hide Norm, Away, LIB_KEY;
    LibKeys();
    var p := Park(dst);
    assert FilesAway(p.thn.thn) && FilesAway(Skip);
    assert FilesAway(p.thn);
    assert FilesAway(p);
    assert FilesAway(DropCopy(dst).thn);
    assert FilesAway(DropCopy(dst));
  }

  lemma PrepareLibAway()
    ensures AllFilesAway(PREPARE_LIB)
  {
    hide Norm, Chosen, Park, DropCopy, Undo.PARKED, Undo.NEWER, Undo.LIB, PARKED_KEY, NEWER_KEY;
    LibKeys(); UndoRun.LibsShape();
    ParkAway(PARKED, 1); ParkAway(NEWER, 2); ParkAway(PARKED, 3); ParkAway(NEWER, 5);
    LibChoiceAway();
    AbortAway(4, "differs from both saved copies. Nothing was replaced.");
  }

  lemma AbortAway(code: int, message: string)
    ensures FilesAway(Chosen(code, Abort(message)))
  {
    assert FilesAway(Abort(message)) && FilesAway(Skip);
  }

  lemma LibChoiceAway()
    ensures FilesAway(LIB_CHOICE)
  {
    hide Undo.LIB, Undo.PARKED, Undo.NEWER;
    var a := LIB_CHOICE.thn;
    assert FilesAway(Skip) && FilesAway(a.thn.els.thn.thn) && FilesAway(a.thn.els.thn.els);
    assert FilesAway(a.thn.els.thn);
    assert FilesAway(a.thn.els);
    assert FilesAway(a.thn);
    assert FilesAway(a);
  }

  lemma {:induction false} QuietAway(s: Stmt)
    requires Quiet(s)
    ensures FilesAway(s)
  {
    if s.If? { QuietAway(s.thn); QuietAway(s.els); }
  }

  lemma WhenAway(c: Exp, s: Stmt)
    requires FilesAway(s)
    ensures FilesAway(If(c, s, Skip))
  {
  }

  lemma StartupKeysAway()
    ensures Away(US_KEY) && Away(US_BAK_KEY) && Away(US_OLD_KEY)
  {
    UndoRun.StartupShape(); UsSixth();
  }

  lemma StartupWritesAway()
    ensures FilesAway(US_MAKE) && FilesAway(US_DROP) && FilesAway(US_MOVE) && FilesAway(US_SAVE) && FilesAway(Startup)
  {
    hide Norm, Undo.US_BAK, Undo.US_OLD, US_KEY, US_BAK_KEY, US_OLD_KEY, InDir, Away;
    SKeys(); BakPath(); StartupKeysAway();
    assert USER_STARTUP == Undo.US;
    TextAway(US, "");
    WhenAway(US_MAKE.c, TextFile(L(US), ""));
    WhenAway(US_DROP.thn.c, Delete(US_OLD));
    WhenAway(US_DROP.c, US_DROP.thn);
    WhenAway(US_MOVE.c, Rename(US_BAK, US_OLD));
    WhenAway(US_SAVE.c, US_SAVE.thn);
  }

  lemma PrepareStartupAway()
    ensures AllFilesAway(PREPARE_STARTUP) && FilesAway(Startup)
  {
    hide FilesAway, US_MAKE, US_STALE, US_DROP, US_MOVE, US_ASK, US_SAVE, US_CHECK, Quiet;
    StartupWritesAway();
    QuietTests();
    QuietAway(US_STALE); QuietAway(US_ASK); QuietAway(US_CHECK);
    SetAway(STALE, N(0)); SetAway(USBAK, N(0));
  }

  lemma SetAway(v: string, e: Exp)
    ensures FilesAway(Set(v, e))
  {
  }

  lemma {:induction false} CopiesAway(copied: seq<string>)
    requires forall i :: 0 <= i < |copied| ==> Undo.ValidName(copied[i])
    ensures AllFilesAway(CopyCommands(copied))
  {
    hide Norm, LiveKey, InDir;
    if copied != [] {
      CopyPath(copied[0]); NameShape(copied[0]); NameFifth(copied[0]);
      CopiesAway(copied[1..]);
    }
  }

  lemma RestAway()
    ensures AllFilesAway(COPY_REST)
  {
    hide Norm, InDir, LIVE_UG_KEY;
    RestPaths(); UgKeys(); OwnKeys(); UgShape();
  }

  lemma MarkAwayKey(n: string, d: nat)
    requires Undo.ValidName(n)
    ensures Away(MarkKey(n, d))
  {
    hide MarkKey;
    MarkShape(n, d);
    assert IsMark(MarkKey(n, d));
  }

  lemma MarkAway(f: Saved)
    requires Undo.ValidName(f.tag)
    ensures FilesAway(Mark(f))
  {
    hide Norm, MarkKey;
    forall t | CanBe(MarkExp(f), t) ensures Away(Norm(t)) {
      var d: nat :| t == BK + "/ours/" + f.tag + "/" + Decimal(d);
      assert t == MarkPath(f.tag, d);
      MarkNorm(f.tag, d);
      MarkShape(f.tag, d);
      MarkAwayKey(f.tag, d);
    }
    assert FilesAway(TextFile(MarkExp(f), "")) && FilesAway(Skip);
  }

  lemma {:induction false} FinishAway(names: seq<string>)
    requires forall i :: 0 <= i < |names| ==> Undo.ValidName(names[i])
    ensures AllFilesAway(MarkNames(names)) && AllFilesAway(Finish(names))
  {
    hide Mark, FilesAway;
    if names != [] {
      CommandTag(names[0]);
      MarkAway(Command(names[0]));
      FinishAway(names[1..]);
    }
    UgIsName(); UgTag();
    MarkAway(USERGROUP);
    PrepareStartupAway();
    AwayConcat(MarkNames(names), [Mark(USERGROUP), Startup]);
  }

  lemma {:induction false} OursDirsAway(tags: seq<string>)
    ensures AllFilesAway(OursDirs(tags))
  {
    if tags != [] {
      EnsureAway(BK + "/ours/" + tags[0]);
      OursDirsAway(tags[1..]);
    }
  }

  lemma EnsureAway(d: string)
    ensures FilesAway(EnsureDir(d))
  {
    assert FilesAway(MakeDir(d)) && FilesAway(Skip);
  }

  lemma EarlyAway(names: seq<string>)
    requires Undo.ValidNames(names)
    ensures AllFilesAway(OPENING) && AllFilesAway([TextFile(L(Undo.UNDO), UndoText(names))])
    ensures AllFilesAway(DIRS + OursDirs(names + [UG]))
  {
    hide Norm, EnsureDir, OursDirs, UndoText, BK, UNDO_KEY;
    var inner := If(Not(Exists(L(BK + "/new"))), Set(LEGACY, N(1)), Skip);
    assert FilesAway(Skip) && FilesAway(Set(LEGACY, N(1)));
    assert FilesAway(inner);
    assert FilesAway(OPENING[0]) && FilesAway(OPENING[1]) && FilesAway(OPENING[2]);
    SKeys(); UndoRun.StartupShape(); SShape();
    TextAway(Undo.UNDO, UndoText(names));
    EnsureAway("SYS:Storage"); EnsureAway(BK); EnsureAway(BK + "/C"); EnsureAway(BK + "/Libs");
    EnsureAway(BK + "/new"); EnsureAway(BK + "/ours");
    OursDirsAway(names + [UG]);
    AwayConcat(DIRS, OursDirs(names + [UG]));
  }

  lemma InstallDirsStay(names: seq<string>, copied: seq<string>, env: Env, st: State)
    requires Undo.ValidNames(names)
    requires forall i :: 0 <= i < |copied| ==> Undo.ValidName(copied[i])
    ensures DirsStay(st.m, Run(Script(names, copied), env, st).m)
  {
    hide Run, OPENING, DIRS, OursDirs, UndoText, PrepareNames, PREPARE_UG, PREPARE_LIB, PREPARE_STARTUP, CopyCommands,
         COPY_REST, Finish, AllFilesAway, Away, Script, Undo.ValidName;
    ScriptPhases(names, copied, env, st);
    var r := RunPhases(names, copied, env, st);
    EarlyAway(names); PrepareNamesAway(names); PrepareUgAway(); PrepareLibAway(); PrepareStartupAway();
    CopiesAway(copied); RestAway(); FinishAway(names);
    AwayRun(OPENING, env, st);
    AwayRun([TextFile(L(Undo.UNDO), UndoText(names))], env, r.start);
    AwayRun(DIRS + OursDirs(names + [UG]), env, r.written);
    AwayRun(PrepareNames(names), env, r.dirs);
    AwayRun(PREPARE_UG, env, r.names);
    AwayRun(PREPARE_LIB, env, r.ug);
    AwayRun(PREPARE_STARTUP, env, r.lib);
    AwayRun(CopyCommands(copied), env, r.prepared);
    AwayRun(COPY_REST, env, r.copied);
    AwayRun(Finish(names), env, r.rest);
  }

  // --------------------------------------------- the scripts in S:

  lemma SKeyThrough(names: seq<string>, copied: seq<string>, k: string, env: Env, st: State)
    requires Undo.ValidNames(names) && InS(k) && k[6] == 't'
    requires forall i :: 0 <= i < |copied| ==> Undo.ValidName(copied[i])
    ensures var r := RunPhases(names, copied, env, st);
            AgreeAt(st.m, r.start.m, k) && AgreeAt(r.written.m, r.end.m, k)
  {
    hide AgreeAt, Undo.ValidName, Run, SparesAll, OPENING, DIRS, OursDirs, UndoText, PrepareNames, AtOrBelow,
         BackupKey, NewKey, PREPARE_UG, PREPARE_LIB, PREPARE_STARTUP, CopyCommands, COPY_REST, Finish, LiveKey, Norm,
         BK;
    OpeningSpares(k);
    DirsSpares(k);
    UgIsName();
    var tags := names + [UG];
    forall i | 0 <= i < |tags| ensures Undo.ValidName(tags[i]) && !AtOrBelow(Norm(BK + "/ours/" + tags[i]), k) {
      OursDirApart(tags[i], k);
    }
    OursDirsSpare(tags, k);
    SparesConcat(DIRS, OursDirs(tags), k);
    forall i | 0 <= i < |names| ensures !AtOrBelow(BackupKey(names[i]), k) && !AtOrBelow(NewKey(names[i]), k) {
      NameWritesApart(names[i], k);
    }
    PrepareNamesSpare(names, k);
    UgWriteApart(k);
    PrepareUgSpares(k);
    LibWritesApart(k);
    PrepareLibSpares(k);
    StartupWritesApart(k);
    PrepareStartupSpares(k);
    forall i | 0 <= i < |copied| ensures !AtOrBelow(LiveKey(copied[i]), k) { LiveApart(copied[i], k); }
    CopiesSpare(copied, k);
    UgLiveApart(k);
    RestSpares(k);
    FinishSpares(names, k);
    SKeyPhases(names, copied, k, env, st);
  }

  lemma SKeyPhases(names: seq<string>, copied: seq<string>, k: string, env: Env, st: State)
    requires Undo.ValidNames(names)
    requires SparesAll(OPENING, k) && SparesAll(DIRS + OursDirs(names + [UG]), k) && SparesAll(PrepareNames(names), k)
    requires SparesAll(PREPARE_UG, k) && SparesAll(PREPARE_LIB, k) && SparesAll(PREPARE_STARTUP, k)
    requires SparesAll(CopyCommands(copied), k) && SparesAll(COPY_REST, k) && SparesAll(Finish(names), k)
    ensures var r := RunPhases(names, copied, env, st);
            AgreeAt(st.m, r.start.m, k) && AgreeAt(r.written.m, r.end.m, k)
  {
    hide AgreeAt, Run, SparesAll, OPENING, DIRS, OursDirs, UndoText, PrepareNames,
         PREPARE_UG, PREPARE_LIB, PREPARE_STARTUP, CopyCommands, COPY_REST, Finish;
    var r := RunPhases(names, copied, env, st);
    SparesRun(OPENING, env, st, k);
    SparesRun(DIRS + OursDirs(names + [UG]), env, r.written, k);
    SparesRun(PrepareNames(names), env, r.dirs, k);
    AgreeTrans(r.written.m, r.dirs.m, r.names.m, k);
    SparesRun(PREPARE_UG, env, r.names, k);
    AgreeTrans(r.written.m, r.names.m, r.ug.m, k);
    SparesRun(PREPARE_LIB, env, r.ug, k);
    AgreeTrans(r.written.m, r.ug.m, r.lib.m, k);
    SparesRun(PREPARE_STARTUP, env, r.lib, k);
    AgreeTrans(r.written.m, r.lib.m, r.prepared.m, k);
    SparesRun(CopyCommands(copied), env, r.prepared, k);
    AgreeTrans(r.written.m, r.prepared.m, r.copied.m, k);
    SparesRun(COPY_REST, env, r.copied, k);
    AgreeTrans(r.written.m, r.copied.m, r.rest.m, k);
    SparesRun(Finish(names), env, r.rest, k);
    AgreeTrans(r.written.m, r.rest.m, r.end.m, k);
  }

  lemma SShape()
    ensures InS(UNDO_KEY) && UNDO_KEY[6] == 't' && InS(STACKS_KEY) && STACKS_KEY[6] == 't'
  {
  }

  /** The undo script is written before anything else: an install either
      changed nothing at all, or the undo script is there. */
  lemma UndoFirst(names: seq<string>, copied: seq<string>, env: Env, st: State)
    requires Undo.ValidNames(names) && st.status == Running && !env.pretend
    requires forall i :: 0 <= i < |copied| ==> Undo.ValidName(copied[i])
    ensures var r := Run(Script(names, copied), env, st);
            && (r.m == st.m || Content(r.m, UNDO_KEY) == Some(UndoText(names)))
            && (r.status == Running ==> Content(r.m, UNDO_KEY) == Some(UndoText(names)))
  {
    hide AgreeAt, Run, Script, UNDO_KEY, Kind, UndoText, OPENING, Undo.ValidName, Norm, RunPhases, Undo.UNDO;
    ScriptPhases(names, copied, env, st);
    PhasesRunning(names, copied, env, st);
    var r := RunPhases(names, copied, env, st);
    SShape();
    SKeyThrough(names, copied, UNDO_KEY, env, st);
    OpeningExec(env, st);
    FirstPhases(names, copied, env, st);
    RunOne(TextFile(L(Undo.UNDO), UndoText(names)), env, r.start);
    SKeys();
    UndoWrite(UndoText(names), env, r.start);
    AgreePlain(r.written.m, r.end.m, UNDO_KEY);
    if r.written.status != Running {
      StoppedEarly(names, copied, env, st);
    }
  }

  lemma FirstPhases(names: seq<string>, copied: seq<string>, env: Env, st: State)
    requires Undo.ValidNames(names)
    ensures var r := RunPhases(names, copied, env, st);
            r.start == Run(OPENING, env, st)
              && r.written == Run([TextFile(L(Undo.UNDO), UndoText(names))], env, r.start)
  {
  }

  lemma UndoWrite(text: string, env: Env, st: State)
    requires st.status == Running && !env.pretend
    ensures var r := Exec(TextFile(L(Undo.UNDO), text), env, st);
            && (r.m == st.m || Content(r.m, Norm(Undo.UNDO)) == Some(text))
            && (r.status == Running ==> Content(r.m, Norm(Undo.UNDO)) == Some(text))
  {
    hide Norm, Kind, Write, Undo.UNDO;
    assert Eval(L(Undo.UNDO), env, st) == Some(Str(Undo.UNDO));
    WriteOutcome(st, Undo.UNDO, File(text));
  }

  lemma StoppedEarly(names: seq<string>, copied: seq<string>, env: Env, st: State)
    requires Undo.ValidNames(names) && RunPhases(names, copied, env, st).written.status != Running
    ensures RunPhases(names, copied, env, st).end == RunPhases(names, copied, env, st).written
  {
    hide Run, OPENING, DIRS, OursDirs, UndoText, PrepareNames, PREPARE_UG, PREPARE_LIB, PREPARE_STARTUP, CopyCommands,
         COPY_REST, Finish;
    var r := RunPhases(names, copied, env, st);
    RunStays(DIRS + OursDirs(names + [UG]), env, r.written);
    RunStays(PrepareNames(names), env, r.dirs);
    RunStays(PREPARE_UG, env, r.names);
    RunStays(PREPARE_LIB, env, r.ug);
    RunStays(PREPARE_STARTUP, env, r.lib);
    RunStays(CopyCommands(copied), env, r.prepared);
    RunStays(COPY_REST, env, r.copied);
    RunStays(Finish(names), env, r.rest);
  }

  /** The install never creates the wizard's script. */
  lemma StacksStayAbsent(names: seq<string>, copied: seq<string>, env: Env, st: State)
    requires Undo.ValidNames(names)
    requires forall i :: 0 <= i < |copied| ==> Undo.ValidName(copied[i])
    ensures Kind(Run(Script(names, copied), env, st).m, STACKS_KEY) == Kind(st.m, STACKS_KEY)
  {
    hide AgreeAt, Run, Script, STACKS_KEY, Kind, UndoText, OPENING, Undo.ValidName, RunPhases;
    ScriptPhases(names, copied, env, st);
    var r := RunPhases(names, copied, env, st);
    SShape();
    SKeyThrough(names, copied, STACKS_KEY, env, st);
    UndoTextSparesStacks(names);
    FirstPhases(names, copied, env, st);
    SparesRun([TextFile(L(Undo.UNDO), UndoText(names))], env, r.start, STACKS_KEY);
    AgreeKind(st.m, r.start.m, STACKS_KEY);
    AgreeKind(r.start.m, r.written.m, STACKS_KEY);
    AgreeKind(r.written.m, r.end.m, STACKS_KEY);
  }

  // ------------------------------------------------- the marker directory

  ghost predicate AllKeep(p: seq<Stmt>, k: string) {
    forall i :: 0 <= i < |p| ==> NeverRemoves(p[i], k)
  }

  lemma KeepConcat(a: seq<Stmt>, b: seq<Stmt>, k: string)
    requires AllKeep(a, k) && AllKeep(b, k)
    ensures AllKeep(a + b, k)
  {
  }

  lemma ActKeeps(code: int, s: Stmt, k: string)
    requires NeverRemoves(s, k)
    ensures NeverRemoves(Act(code, s), k)
  {
  }

  lemma DecisionKeeps(f: Saved, markNew: bool, k: string)
    ensures AllKeep(Decision(f, markNew), k)
    ensures AllKeep([Act(1, Save(f)), Act(1, Verified(f))], k)
  {
    var d := Decision(f, markNew)[1];
    IfKeeps(d.thn.thn.thn, k);
    IfKeeps(d.thn.thn, k);
    IfKeeps(d.thn, k);
    IfKeeps(d, k);
    IfKeeps(Verified(f).thn, k);
    IfKeeps(Verified(f), k);
    ActKeeps(1, Save(f), k);
    ActKeeps(1, Verified(f), k);
  }

  predicate Harmless(s: Stmt) { s.Set? || s.Skip? || s.Abort? }

  lemma IfKeeps(s: Stmt, k: string)
    requires s.If? && (Harmless(s.thn) || NeverRemoves(s.thn, k)) && (Harmless(s.els) || NeverRemoves(s.els, k))
    ensures NeverRemoves(s, k)
  {
  }

  lemma {:induction false} PrepareNamesKeep(names: seq<string>, k: string)
    ensures AllKeep(PrepareNames(names), k)
  {
    hide Decision, Act, Save, Verified, NeverRemoves, BK;
    if names != [] {
      var n := names[0];
      var f := Command(n);
      var t := TextFile(L(BK + "/new/" + n), "");
      DecisionKeeps(f, true, k);
      TextKeeps(L(BK + "/new/" + n), "", k);
      ActKeeps(2, t, k);
      KeepConcat([Act(1, Save(f)), Act(1, Verified(f))], [Act(2, t)], k);
      KeepConcat(Decision(f, true), [Act(1, Save(f)), Act(1, Verified(f))] + [Act(2, t)], k);
      assert PrepareName(n) == Decision(f, true) + ([Act(1, Save(f)), Act(1, Verified(f))] + [Act(2, t)]);
      PrepareNamesKeep(names[1..], k);
      KeepConcat(PrepareName(n), PrepareNames(names[1..]), k);
    }
  }

  lemma TextKeeps(path: Exp, body: string, k: string)
    ensures NeverRemoves(TextFile(path, body), k)
  {
  }

  lemma PrepareUgKeeps(k: string)
    ensures AllKeep(PREPARE_UG, k)
  {
    hide Decision, Act, Save, Verified, NeverRemoves;
    DecisionKeeps(USERGROUP, false, k);
    KeepConcat(Decision(USERGROUP, false), [Act(1, Save(USERGROUP)), Act(1, Verified(USERGROUP))], k);
  }

  lemma LibActionsKeep(dst: string, code: int, k: string)
    requires LIB_KEY != k
    ensures NeverRemoves(Chosen(code, Park(dst)), k) && NeverRemoves(Chosen(code, DropCopy(dst)), k)
  {
    hide Norm, LIB_KEY;
    LibKeys();
    var p := Park(dst);
    assert NeverRemoves(p.thn.thn, k) && NeverRemoves(Skip, k);
    assert NeverRemoves(p.thn, k);
    assert NeverRemoves(p, k);
    assert NeverRemoves(DropCopy(dst).thn, k);
    assert NeverRemoves(DropCopy(dst), k);
  }

  lemma LibChoiceKeeps(k: string)
    ensures NeverRemoves(LIB_CHOICE, k)
    ensures NeverRemoves(Chosen(4, Abort("differs from both saved copies. Nothing was replaced.")), k)
  {
    hide Undo.LIB, Undo.PARKED, Undo.NEWER;
    var a := LIB_CHOICE.thn;
    assert NeverRemoves(Skip, k) && NeverRemoves(a.thn.els.thn.thn, k) && NeverRemoves(a.thn.els.thn.els, k);
    assert NeverRemoves(a.thn.els.thn, k);
    assert NeverRemoves(a.thn.els, k);
    assert NeverRemoves(a.thn, k);
    assert NeverRemoves(a, k);
  }

  lemma PrepareLibKeeps(k: string)
    requires LIB_KEY != k
    ensures AllKeep(PREPARE_LIB, k)
  {
    hide Chosen, Park, DropCopy, LIB_CHOICE, Undo.PARKED, Undo.NEWER, LIB_KEY;
    LibChoiceKeeps(k);
    LibActionsKeep(PARKED, 1, k); LibActionsKeep(NEWER, 2, k); LibActionsKeep(PARKED, 3, k);
    LibActionsKeep(NEWER, 5, k);
  }

  lemma {:induction false} QuietKeeps(s: Stmt, k: string)
    requires Quiet(s)
    ensures NeverRemoves(s, k)
  {
    if s.If? { QuietKeeps(s.thn, k); QuietKeeps(s.els, k); }
  }

  lemma WhenKeeps(c: Exp, s: Stmt, k: string)
    requires NeverRemoves(s, k)
    ensures NeverRemoves(If(c, s, Skip), k)
  {
  }

  lemma StartupWritesKeep(k: string)
    requires US_OLD_KEY != k && US_BAK_KEY != k
    ensures NeverRemoves(US_MAKE, k) && NeverRemoves(US_DROP, k) && NeverRemoves(US_MOVE, k) && NeverRemoves(US_SAVE, k)
  {
    hide Norm, Undo.US_BAK, Undo.US_OLD, US_BAK_KEY, US_OLD_KEY;
    SKeys();
    WhenKeeps(US_MAKE.c, TextFile(L(US), ""), k);
    WhenKeeps(US_DROP.thn.c, Delete(US_OLD), k);
    WhenKeeps(US_DROP.c, US_DROP.thn, k);
    WhenKeeps(US_MOVE.c, Rename(US_BAK, US_OLD), k);
    WhenKeeps(US_SAVE.c, US_SAVE.thn, k);
  }

  lemma PrepareStartupKeeps(k: string)
    requires US_OLD_KEY != k && US_BAK_KEY != k
    ensures AllKeep(PREPARE_STARTUP, k)
  {
    hide NeverRemoves, US_MAKE, US_STALE, US_DROP, US_MOVE, US_ASK, US_SAVE, US_CHECK, Quiet;
    StartupWritesKeep(k);
    QuietTests();
    QuietKeeps(US_STALE, k); QuietKeeps(US_ASK, k); QuietKeeps(US_CHECK, k);
    SetKeeps(STALE, N(0), k); SetKeeps(USBAK, N(0), k);
  }

  lemma SetKeeps(v: string, e: Exp, k: string)
    ensures NeverRemoves(Set(v, e), k)
  {
  }

  lemma {:induction false} CopiesKeep(copied: seq<string>, k: string)
    ensures AllKeep(CopyCommands(copied), k) && AllKeep(COPY_REST, k)
  {
    if copied != [] { CopiesKeep(copied[1..], k); }
  }

  lemma FinishKeeps(names: seq<string>, k: string)
    ensures AllKeep(Finish(names), k)
  {
    hide Mark, NeverRemoves;
    MarksRemoveNothing(names, k);
    LastRemovesNothing(k);
    KeepConcat(MarkNames(names), [Mark(USERGROUP), Startup], k);
  }

  lemma {:induction false} OursDirsKeep(tags: seq<string>, k: string)
    ensures AllKeep(OursDirs(tags), k)
  {
    if tags != [] {
      EnsureKeeps(BK + "/ours/" + tags[0], k);
      OursDirsKeep(tags[1..], k);
    }
  }

  lemma EnsureKeeps(d: string, k: string)
    ensures NeverRemoves(EnsureDir(d), k)
  {
    assert NeverRemoves(MakeDir(d), k) && NeverRemoves(Skip, k);
  }

  const DIRS_BEFORE: seq<Stmt> :=
    [EnsureDir("SYS:Storage"), EnsureDir(BK), EnsureDir(BK + "/C"), EnsureDir(BK + "/Libs")]

  lemma DirsBeforeSpare()
    ensures SparesAll(DIRS_BEFORE, NEW_DIR_KEY)
  {
    hide Norm, AtOrBelow, EnsureDir, Spares, Undo.BK, NEW_DIR_KEY, BACKUP_KEY, C_DIR_KEY, LIBS_DIR_KEY;
    DirKeys(); StorageKey(); UndoRun.BackupShape(); DirFifth();
    ShorterNotBelow("sys:storage", NEW_DIR_KEY);
    ShorterNotBelow(BACKUP_KEY, NEW_DIR_KEY);
    ShorterNotBelow(C_DIR_KEY, NEW_DIR_KEY);
    ApartAt(LIBS_DIR_KEY, NEW_DIR_KEY, 28);
    EnsureSpares("SYS:Storage", NEW_DIR_KEY); EnsureSpares(BK, NEW_DIR_KEY);
    EnsureSpares(BK + "/C", NEW_DIR_KEY); EnsureSpares(BK + "/Libs", NEW_DIR_KEY);
  }

  lemma EnsureExec(d: string, env: Env, st: State)
    requires st.status == Running && !env.pretend
    ensures var r := Exec(EnsureDir(d), env, st);
            r.status == Running && (Norm(d) in st.m || Kind(st.m, Norm(d)) == ABSENT) ==> Norm(d) in r.m
  {
    hide Norm, Kind;
    EvalExists(d, env, st);
    ExecIf(Not(Exists(L(d))), MakeDir(d), Skip, env, st);
    if Norm(d) in st.m { KindPresent(st.m, Norm(d)); }
  }

  lemma DirsCreateNew(tags: seq<string>, env: Env, st: State)
    requires st.status == Running && !env.pretend
    requires NEW_DIR_KEY in st.m || Kind(st.m, NEW_DIR_KEY) == ABSENT
    ensures var r := Run(DIRS + OursDirs(tags), env, st); r.status == Running ==> NEW_DIR_KEY in r.m
  {
    hide Norm, Kind, Run, Exec, EnsureDir, OursDirs, Undo.BK, NEW_DIR_KEY, SparesAll, NeverRemoves;
    var mid := EnsureDir(BK + "/new");
    var tail := [EnsureDir(BK + "/ours")] + OursDirs(tags);
    assert DIRS + OursDirs(tags) == DIRS_BEFORE + ([mid] + tail);
    RunAppend(DIRS_BEFORE, [mid] + tail, env, st);
    var s1 := Run(DIRS_BEFORE, env, st);
    DirsBeforeSpare();
    SparesRun(DIRS_BEFORE, env, st, NEW_DIR_KEY);
    AgreeKind(st.m, s1.m, NEW_DIR_KEY);
    RunAppend([mid], tail, env, s1);
    RunOne(mid, env, s1);
    DirKeys();
    var s2 := Exec(mid, env, s1);
    RunStays(tail, env, s2);
    RunStays([mid], env, s1);
    if s1.status == Running { EnsureExec(BK + "/new", env, s1); }
    EnsureKeeps(BK + "/ours", NEW_DIR_KEY);
    OursDirsKeep(tags, NEW_DIR_KEY);
    KeepConcat([EnsureDir(BK + "/ours")], OursDirs(tags), NEW_DIR_KEY);
    NeverRemovesRun(tail, env, s2, NEW_DIR_KEY);
  }

  /** A completed install leaves the new/ directory. */
  lemma NewDirThere(names: seq<string>, copied: seq<string>, env: Env, st: State)
    requires Undo.ValidNames(names) && st.status == Running && !env.pretend
    requires NEW_DIR_KEY in st.m || Kind(st.m, NEW_DIR_KEY) == ABSENT
    ensures var r := Run(Script(names, copied), env, st); r.status == Running ==> NEW_DIR_KEY in r.m
  {
    hide Kind, Run, Script, NEW_DIR_KEY, UNDO_KEY, OPENING, DIRS, OursDirs, UndoText, PrepareNames, PREPARE_UG,
         PREPARE_LIB, PREPARE_STARTUP, CopyCommands, COPY_REST, Finish, AllKeep, SparesAll, NeverRemoves, LIB_KEY,
         US_OLD_KEY, US_BAK_KEY;
    ScriptPhases(names, copied, env, st);
    PhasesRunning(names, copied, env, st);
    var r := RunPhases(names, copied, env, st);
    var k := NEW_DIR_KEY;
    NewDirShape();
    OpeningExec(env, st);
    UndoTextSpares(names, k);
    SparesRun([TextFile(L(Undo.UNDO), UndoText(names))], env, r.start, k);
    AgreeKind(r.start.m, r.written.m, k);
    if r.end.status == Running {
      DirsCreateNew(names + [UG], env, r.written);
      PrepareNamesKeep(names, k); KeepRun(PrepareNames(names), env, r.dirs, k);
      PrepareUgKeeps(k); KeepRun(PREPARE_UG, env, r.names, k);
      PrepareLibKeeps(k); KeepRun(PREPARE_LIB, env, r.ug, k);
      PrepareStartupKeeps(k); KeepRun(PREPARE_STARTUP, env, r.lib, k);
      CopiesKeep(copied, k); KeepRun(CopyCommands(copied), env, r.prepared, k); KeepRun(COPY_REST, env, r.copied, k);
      FinishKeeps(names, k); KeepRun(Finish(names), env, r.rest, k);
    }
  }

  lemma KeepRun(p: seq<Stmt>, env: Env, st: State, k: string)
    requires AllKeep(p, k)
    ensures k in st.m ==> k in Run(p, env, st).m
  {
    hide Run, NeverRemoves;
    NeverRemovesRun(p, env, st, k);
  }

  lemma NewDirShape()
    ensures LIB_KEY != NEW_DIR_KEY && US_OLD_KEY != NEW_DIR_KEY && US_BAK_KEY != NEW_DIR_KEY
    ensures |NEW_DIR_KEY| > 6 && !InS(NEW_DIR_KEY)
  {
    UndoRun.LibsShape(); UndoRun.StartupShape(); UndoRun.BackupShape(); DirFifth();
  }
}
