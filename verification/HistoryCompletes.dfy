/** Installs of full packages, with nothing protected and no interruption,
    complete one after the other. */
module HistoryCompletes {
  import opened Seqs
  import opened Text
  import opened Files
  import opened Installer
  import opened InstallScript
  import opened InstallSteps
  import opened InstallFrames
  import opened InstallNames
  import opened InstallRun
  import opened InstallUg
  import opened InstallLib
  import opened InstallOthers
  import opened InstallGoes
  import opened InstallCompletes
  import opened History
  import opened Restore
  import opened UndoLibs
  import Undo
  import opened Keys

  // ------------------------------------------ files that stay plain files

  /** The statement puts no directory at `k` and nothing below it. */
  ghost predicate KeepsPlain(s: Stmt, k: string) {
    match s
    case If(_, thn, els) => KeepsPlain(thn, k) && KeepsPlain(els, k)
    case IfRenameFails(_, dst, thn) => !Below(Norm(dst), k) && KeepsPlain(thn, k)
    case Rename(_, dst) => !Below(Norm(dst), k)
    case TextFile(path, _) => forall t :: CanBe(path, t) ==> !Below(Norm(t), k)
    case Startup => !Below(Norm(USER_STARTUP), k)
    case Delete(_) => true
    case _ => Spares(s, k)
  }

  lemma FilePlain(m: Tree, w: string, data: string, k: string)
    requires Plain(m, k) && !Below(w, k)
    ensures Plain(m[w := File(data)], k)
  {
    assert Children(m[w := File(data)], k) == Children(m, k);
  }

  lemma LessPlain(m: Tree, w: string, k: string)
    requires Plain(m, k)
    ensures Plain(m - {w}, k)
  {
    assert Children(m - {w}, k) <= Children(m, k);
  }

  lemma WritePlain(st: State, path: string, data: string, k: string)
    requires Plain(st.m, k) && !Below(Norm(path), k)
    ensures Plain(Write(st, path, File(data)).m, k)
  {
    hide Norm, Kind, Plain;
    FilePlain(st.m, Norm(path), data, k);
  }

  lemma RenamePlain(src: string, dst: string, env: Env, st: State, k: string)
    requires Plain(st.m, k) && !Below(Norm(dst), k)
    ensures Plain(RunRename(src, dst, env, st).0.m, k)
  {
    hide Norm, Plain, Below, Writable;
    var a, b := Norm(src), Norm(dst);
    if !env.pretend && !RenameRefused(st, a, b) {
      LessPlain(st.m, a, k);
      FilePlain(st.m - {a}, b, st.m[a].data, k);
    }
  }

  lemma {:induction false} KeepsPlainExec(s: Stmt, env: Env, st: State, k: string)
    requires KeepsPlain(s, k) && Plain(st.m, k)
    ensures Plain(Exec(s, env, st).m, k)
  {
    hide Norm, Kind, Plain, Below, Write, RunRename, RunCopyFiles, AtOrBelow, AgreeAt;
    match s {
      case If(_, thn, els) => KeepsPlainExec(thn, env, st, k); KeepsPlainExec(els, env, st, k);
      case IfRenameFails(src, dst, thn) =>
        RenamePlain(src, dst, env, st, k);
        KeepsPlainExec(thn, env, RunRename(src, dst, env, st).0, k);
      case Rename(src, dst) => RenamePlain(src, dst, env, st, k);
      case TextFile(path, body) =>
        EvalCanBe(path, env, st);
        var p := Eval(path, env, st);
        if p.Some? && p.value.Str? { WritePlain(st, p.value.s, body, k); }
      case Startup =>
        var key := Norm(USER_STARTUP);
        var us := if key in st.m && st.m[key].File? then st.m[key].data else "";
        WritePlain(st, USER_STARTUP, env.boot(us), k);
      case Delete(target) => LessPlain(st.m, Norm(target), k);
      case _ =>
        SparesExec(s, env, st, k);
        AgreePlain(st.m, Exec(s, env, st).m, k);
    }
  }

  lemma {:induction false} KeepsPlainRun(p: seq<Stmt>, env: Env, st: State, k: string)
    requires (forall i :: 0 <= i < |p| ==> KeepsPlain(p[i], k)) && Plain(st.m, k)
    ensures Plain(Run(p, env, st).m, k)
  {
    hide Exec, KeepsPlain, Plain;
    if p != [] && st.status == Running {
      KeepsPlainExec(p[0], env, st, k);
      KeepsPlainRun(p[1..], env, Exec(p[0], env, st), k);
    }
  }

  lemma NoneBelowStartup(k: string)
    requires k == US_KEY || k == US_OLD_KEY
    ensures !Below(US_KEY, k) && !Below(US_BAK_KEY, k) && !Below(US_OLD_KEY, k) && US_BAK_KEY != k
  {
    assert |US_KEY| == 18 && US_BAK_KEY[18] == '.' && US_OLD_KEY[18] == '.' && (US_KEY + "/")[18] == '/';
    assert US_BAK_KEY[28] == 'b' && US_OLD_KEY[28] == 'o';
  }

  lemma {:induction false} QuietKeepsPlain(s: Stmt, k: string)
    requires Quiet(s)
    ensures KeepsPlain(s, k)
  {
    if s.If? { QuietKeepsPlain(s.thn, k); QuietKeepsPlain(s.els, k); }
  }

  lemma WhenKeepsPlain(c: Exp, s: Stmt, k: string)
    requires KeepsPlain(s, k)
    ensures KeepsPlain(If(c, s, Skip), k)
  {
    QuietKeepsPlain(Skip, k);
  }

  lemma StartupWritesPlain(k: string)
    requires k == US_KEY || k == US_OLD_KEY
    ensures KeepsPlain(US_MAKE, k) && KeepsPlain(US_DROP, k) && KeepsPlain(US_MOVE, k) && KeepsPlain(US_SAVE, k)
    ensures KeepsPlain(Startup, k)
  {
    hide Norm, Undo.US_BAK, Undo.US_OLD, US_KEY, US_BAK_KEY, US_OLD_KEY, InDir, Below;
    SKeys(); BakPath(); NoneBelowStartup(k);
    assert USER_STARTUP == Undo.US;
    LitCanBe(US);
    WhenKeepsPlain(US_MAKE.c, TextFile(L(US), ""), k);
    WhenKeepsPlain(US_DROP.thn.c, Delete(US_OLD), k);
    WhenKeepsPlain(US_DROP.c, US_DROP.thn, k);
    WhenKeepsPlain(US_MOVE.c, Rename(US_BAK, US_OLD), k);
    WhenKeepsPlain(US_SAVE.c, US_SAVE.thn, k);
  }

  lemma StartupKeepsPlain(k: string)
    requires k == US_KEY || k == US_OLD_KEY
    ensures forall i :: 0 <= i < |PREPARE_STARTUP| ==> KeepsPlain(PREPARE_STARTUP[i], k)
    ensures KeepsPlain(Startup, k)
  {
    hide KeepsPlain, US_MAKE, US_STALE, US_DROP, US_MOVE, US_ASK, US_SAVE, US_CHECK, Quiet, US_KEY, US_OLD_KEY;
    StartupWritesPlain(k);
    QuietTests();
    QuietKeepsPlain(US_STALE, k); QuietKeepsPlain(US_ASK, k); QuietKeepsPlain(US_CHECK, k);
    SetKeepsPlain(STALE, N(0), k); SetKeepsPlain(USBAK, N(0), k);
  }

  lemma SetKeepsPlain(v: string, e: Exp, k: string)
    ensures KeepsPlain(Set(v, e), k)
  {
    QuietKeepsPlain(Set(v, e), k);
  }

  /** S:User-Startup and its old backup stay files, if anything. */
  lemma StartupStaysPlain(names: seq<string>, copied: seq<string>, k: string, env: Env, st: State)
    requires Undo.ValidNames(names) && (k == US_KEY || k == US_OLD_KEY) && Plain(st.m, k)
    requires forall i :: 0 <= i < |copied| ==> Undo.ValidName(copied[i])
    ensures Plain(Run(Script(names, copied), env, st).m, k)
  {
    hide Run, Plain, US_KEY, US_OLD_KEY, Undo.ValidName, SparesAll, OPENING, DIRS, OursDirs, UndoText, PrepareNames,
         PREPARE_UG, PREPARE_LIB, PREPARE_STARTUP, CopyCommands, COPY_REST, MarkNames, Mark, Kind, AtOrBelow, LiveKey,
         KeepsPlain, Script, Spares;
    ScriptPhases(names, copied, env, st);
    var r := RunPhases(names, copied, env, st);
    UsShape();
    UsThrough(names, copied, k, env, st);
    StartupKeepsPlain(k);
    KeepsPlainRun(PREPARE_STARTUP, env, r.lib, k);
    forall i | 0 <= i < |copied| ensures !AtOrBelow(LiveKey(copied[i]), k) { LiveApart(copied[i], k); }
    CopiesSpare(copied, k);
    PlainThrough(CopyCommands(copied), env, r.prepared, k);
    UgLiveApart(k); RestSpares(k);
    PlainThrough(COPY_REST, env, r.copied, k);
    MarksSpare(names, k);
    RunAppend(MarkNames(names), [Mark(USERGROUP), Startup], env, r.rest);
    var s1 := Run(MarkNames(names), env, r.rest);
    PlainThrough(MarkNames(names), env, r.rest, k);
    RunTwo(Mark(USERGROUP), Startup, env, s1);
    UgIsName(); UgTag();
    MarkSpares(USERGROUP, k);
    OneSpares(Mark(USERGROUP), k);
    RunOne(Mark(USERGROUP), env, s1);
    PlainThrough([Mark(USERGROUP)], env, s1, k);
    KeepsPlainExec(Startup, env, Exec(Mark(USERGROUP), env, s1), k);
  }

  // ---------------------------------------------- directories of others

  lemma MarkNotOurs(x: string, n: string, d: nat)
    requires Undo.ValidName(x) && Undo.ValidName(n) && Lower(x) != Lower(n)
    ensures !AtOrBelow(MarkKey(x, d), OursKey(n))
  {
    hide Lower, Decimal, Unrelated, MarkKey, OursKey;
    MarkBelow(x, d);
    OursApart(x, n);
    if AtOrBelow(MarkKey(x, d), OursKey(n)) { CommonDescendant(MarkKey(x, d), OursKey(x), OursKey(n)); }
  }

  lemma OursApart(x: string, n: string)
    requires Undo.ValidName(x) && Undo.ValidName(n) && Lower(x) != Lower(n)
    ensures Unrelated(OursKey(x), OursKey(n))
  {
    hide Lower, Unrelated;
    OursNorm(x); OursNorm(n);
    SiblingNames(BACKUP_KEY + "/ours/", Lower(x), Lower(n));
  }

  lemma MarkSparesOurs(f: Saved, n: string)
    requires Undo.ValidName(f.tag) && Undo.ValidName(n) && Lower(f.tag) != Lower(n)
    ensures Spares(Mark(f), OursKey(n))
  {
    hide Norm, AtOrBelow, MarkKey, Lower, OursKey;
    forall t | CanBe(MarkExp(f), t) ensures !AtOrBelow(Norm(t), OursKey(n)) {
      var d: nat :| t == BK + "/ours/" + f.tag + "/" + Decimal(d);
      assert t == MarkPath(f.tag, d);
      MarkNorm(f.tag, d);
      MarkNotOurs(f.tag, n, d);
    }
    assert Spares(TextFile(MarkExp(f), ""), OursKey(n)) && Spares(Skip, OursKey(n));
  }

  lemma {:induction false} MarkNamesSpareOurs(names: seq<string>, n: string)
    requires Undo.ValidName(n) && forall i :: 0 <= i < |names| ==>
               Undo.ValidName(names[i]) && Lower(names[i]) != Lower(n)
    ensures SparesAll(MarkNames(names), OursKey(n))
  {
    hide Mark, Spares, OursKey, Lower, Undo.ValidName;
    if names != [] {
      CommandTag(names[0]);
      MarkSparesOurs(Command(names[0]), n);
      MarkNamesSpareOurs(names[1..], n);
    }
  }

  lemma FinishSparesOurs(names: seq<string>, n: string)
    requires Undo.ValidName(n) && Lower(n) != Lower(UG)
    requires forall i :: 0 <= i < |names| ==> Undo.ValidName(names[i]) && Lower(names[i]) != Lower(n)
    ensures SparesAll(Finish(names), OursKey(n))
  {
    hide Mark, Norm, AtOrBelow, OursKey, Lower, MarkNames;
    MarkNamesSpareOurs(names, n);
    UgIsName(); UgTag();
    MarkSparesOurs(USERGROUP, n);
    SKeys(); OursNorm(n);
    StartupWritesApart(OursKey(n));
    assert USER_STARTUP == Undo.US;
    assert Spares(Startup, OursKey(n));
    SparesConcat(MarkNames(names), [Mark(USERGROUP), Startup], OursKey(n));
  }

  /** An install leaves the marker directory of a command it does not name. */
  lemma OursUntouched(names: seq<string>, copied: seq<string>, n: string, env: Env, st: State)
    requires Undo.ValidNames(names) && Undo.ValidName(n) && !Named(names, n) && Lower(n) != Lower(UG)
    requires forall i :: 0 <= i < |copied| ==> Undo.ValidName(copied[i])
    ensures AgreeAt(st.m, Run(Script(names, copied), env, st).m, OursKey(n))
  {
    hide OursKey, AgreeAt, Undo.ValidName, Run, SparesAll, PREPARE_UG, PREPARE_LIB, PREPARE_STARTUP, CopyCommands,
         COPY_REST, Finish, PrepareNames, Script, Lower, DeepKey, AtOrBelow, LiveKey, BackupKey, NewKey, DIRS,
         OPENING, OursDirs, UndoText, Norm, Undo.BK, Undo.UG;
    var k := OursKey(n);
    ScriptPhases(names, copied, env, st);
    OursNorm(n);
    OpeningSpares(k); UndoTextSpares(names, k);
    OursIsDeep(n); DirsSpares(k);
    TagsValid(names);
    var tags := names + [UG];
    forall i | 0 <= i < |tags| ensures Undo.ValidName(tags[i]) && !AtOrBelow(Norm(BK + "/ours/" + tags[i]), k) {
      OtherTag(names, tags, n, i);
      OursNorm(tags[i]);
      OursApart(tags[i], n);
      UnrelatedNot(OursKey(tags[i]), k);
    }
    OursDirsSpare(tags, k);
    SparesConcat(DIRS, OursDirs(tags), k);
    var r := RunPhases(names, copied, env, st);
    SparesRun(OPENING, env, st, k);
    SparesRun([TextFile(L(Undo.UNDO), UndoText(names))], env, r.start, k);
    SparesRun(DIRS + OursDirs(tags), env, r.written, k);
    AgreeTrans(st.m, r.start.m, r.written.m, k);
    AgreeTrans(st.m, r.written.m, r.dirs.m, k);
    forall i | 0 <= i < |names| ensures !AtOrBelow(BackupKey(names[i]), k) && !AtOrBelow(NewKey(names[i]), k) {
      NameWritesApart(names[i], k);
    }
    PrepareNamesSpare(names, k);
    LateSpares(k);
    forall i | 0 <= i < |copied| ensures !AtOrBelow(LiveKey(copied[i]), k) { LiveApart(copied[i], k); }
    CopiesSpare(copied, k);
    forall i | 0 <= i < |names| ensures Lower(names[i]) != Lower(n) {
      OtherTag(names, tags, n, i); assert tags[i] == names[i];
    }
    FinishSparesOurs(names, n);
    RestOfPhases(names, copied, k, env, st);
  }

  lemma OursIsDeep(n: string)
    requires Undo.ValidName(n)
    ensures DeepKey(OursKey(n))
  {
    hide OursKey;
    OursNorm(n);
  }

  lemma OtherTag(names: seq<string>, tags: seq<string>, n: string, i: nat)
    requires !Named(names, n) && Lower(n) != Lower(UG) && tags == names + [UG] && i < |tags|
    ensures Lower(tags[i]) != Lower(n)
  {
    hide Lower;
  }

  // -------------------------------------------------------- the history

  /** The system's own directories are there, nothing stands in the way of the
      marker directories of any version, and User-Startup is a file. */
  predicate Hosts(m: Tree, all: seq<string>) {
    HostDirs(m) && AllOpen(m, all + [UG]) && Plain(m, US_KEY) && Plain(m, US_OLD_KEY)
  }

  /** A full package, nothing protected and no interruption. */
  predicate Undisturbed(i: Install) {
    i.ro == {} && i.writes > Enough(i.names, i.copied) && Packed(i.package, i.copied)
  }

  lemma HostsInstallable(all: seq<string>, pc: Machine, i: Install, m: Tree, m0: Tree)
    requires Sound(i) && Fits(all, i) && Pristine(m0, all) && Startable(m, m0, all, pc) && Hosts(m, all)
    requires ShortSums(pc.sum)
    ensures Installable(m, i.names, pc.sum)
  {
    hide Kind, Plain, LiveKey, Fresh, Installed, UgFresh, UgInstalled, PlainShelf, ShelfOf, Content, NEW_DIR_KEY,
         UNDO_KEY, STACKS_KEY, LIVE_UG_KEY, US_KEY, US_OLD_KEY, Undo.ValidName, AtOrBelow, NoFiles, ShortSums,
         HostDirs, Keylike, C_DIR_KEY, LIBS_DIR_KEY, OursKey, Open, Undo.UG;
    StartFacts(m, m0, all, pc);
    forall k | 0 <= k < |i.names| ensures Plain(m, LiveKey(i.names[k])) && Open(m, OursKey(i.names[k])) {
      assert i.names[k] in all;
      var a :| 0 <= a < |all| && all[a] == i.names[k];
      StartedPlain(m, all[a], Content(m0, LiveKey(all[a])), pc.sum);
      assert (all + [UG])[a] == all[a];
    }
    assert (all + [UG])[|all|] == UG;
    var tags := i.names + [UG];
    forall k | 0 <= k < |tags| ensures Open(m, OursKey(tags[k])) {}
    UgStartPlain(m, Content(m0, LIVE_UG_KEY), pc.sum);
    ParkableShelf(ShelfOf(m), ShelfOf(m0), pc.sum);
    UsKeylike();
    PlainKind(m, US_KEY); PlainKind(m, US_OLD_KEY);
    NotDirectory(m, US_KEY); NotDirectory(m, US_OLD_KEY);
  }

  lemma UsKeylike()
    ensures Keylike(US_KEY) && Keylike(US_OLD_KEY)
  {
  }

  lemma NotDirectory(m: Tree, k: string)
    requires Plain(m, k) && Keylike(k)
    ensures Kind(m, k) != DIRECTORY
  {
  }

  lemma UgStartPlain(m: Tree, orig: Option<string>, sum: string -> nat)
    requires UgFresh(m, orig, sum) || UgInstalled(m, orig, sum)
    ensures Plain(m, LIVE_UG_KEY)
  {
  }

  lemma ParkableShelf(l: Shelf, l0: Shelf, sum: string -> nat)
    requires (l == l0 || l == Shelf(None, l0.live, None)) && l0.parked.None?
    ensures LibCode(l, sum) != 4
  {
  }

  /** A completed install leaves a system that the next one can run on. */
  lemma HostsStay(all: seq<string>, pc: Machine, i: Install, m: Tree)
    requires Sound(i) && (forall k :: 0 <= k < |all| ==> Undo.ValidName(all[k])) && Hosts(m, all)
    requires Undisturbed(i) && Installable(m, i.names, pc.sum)
    ensures var r := RunInstall(pc, i, m); r.status == Running && Hosts(r.m, all)
  {
    hide Run, Script, Kind, Plain, LiveKey, PlainShelf, ShelfOf, NEW_DIR_KEY, UNDO_KEY, LIVE_UG_KEY, US_KEY,
         US_OLD_KEY, Undo.ValidName, ShortSums, HostDirs, C_DIR_KEY, LIBS_DIR_KEY, OursKey, HasDir, Undo.UG, LibCode,
         Lower;
    var env := Env(i.package, false, pc.sum, pc.boot);
    var st := State(m, i.ro, map[], i.writes, Running);
    CopiedValid(i);
    InstallCompletes.InstallCompletes(i.names, i.copied, env, st);
    StartupStaysPlain(i.names, i.copied, US_KEY, env, st);
    StartupStaysPlain(i.names, i.copied, US_OLD_KEY, env, st);
    var r := Run(Script(i.names, i.copied), env, st).m;
    var tags, mine := all + [UG], i.names + [UG];
    UgIsName();
    forall k | 0 <= k < |tags| ensures Open(r, OursKey(tags[k])) {
      if Named(mine, tags[k]) {
        var j :| 0 <= j < |mine| && Lower(mine[j]) == Lower(tags[k]);
        SameOurs(mine[j], tags[k]);
        assert HasDir(r, OursKey(mine[j]));
      } else {
        NotMine(i.names, tags[k]);
        OursUntouched(i.names, i.copied, tags[k], env, st);
        OpenAgrees(m, r, OursKey(tags[k]));
      }
    }
  }

  lemma SameOurs(x: string, n: string)
    requires Lower(x) == Lower(n)
    ensures OursKey(x) == OursKey(n)
  {
  }

  lemma NotMine(names: seq<string>, n: string)
    requires !Named(names + [UG], n)
    ensures !Named(names, n) && Lower(n) != Lower(UG)
  {
    hide Lower;
    var mine := names + [UG];
    assert mine[|names|] == UG;
    assert forall i :: 0 <= i < |names| ==> mine[i] == names[i];
  }

  lemma OpenAgrees(m: Tree, m': Tree, k: string)
    requires AgreeAt(m, m', k) && Open(m, k)
    ensures Open(m', k)
  {
    hide Kind, AgreeAt;
    AgreeKind(m, m', k);
  }

  lemma PristineOpen(m: Tree, all: seq<string>)
    requires Pristine(m, all)
    ensures AllOpen(m, all + [UG])
  {
    hide Kind, Plain, LiveKey, PlainShelf, ShelfOf, UNDO_KEY, STACKS_KEY, LIVE_UG_KEY, Undo.ValidName, AtOrBelow,
         OursKey, Undo.UG, C_DIR_KEY, LIBS_DIR_KEY, NEW_DIR_KEY, BACKUP_KEY;
    BackupParts();
    NothingThere(m, C_DIR_KEY); NothingThere(m, LIBS_DIR_KEY); NothingThere(m, NEW_DIR_KEY);
    var tags := all + [UG];
    UgIsName();
    forall k | 0 <= k < |tags| ensures Open(m, OursKey(tags[k])) {
      OursUnder(tags[k]);
      NothingThere(m, OursKey(tags[k]));
    }
  }

  lemma BackupParts()
    ensures forall d :: d in [C_DIR_KEY, LIBS_DIR_KEY, NEW_DIR_KEY] ==>
              |d| > 28 && d[..27] == BACKUP_KEY && d[27] == '/' && Keylike(d)
    ensures C_DIR_KEY in [C_DIR_KEY, LIBS_DIR_KEY, NEW_DIR_KEY]
    ensures LIBS_DIR_KEY in [C_DIR_KEY, LIBS_DIR_KEY, NEW_DIR_KEY]
    ensures NEW_DIR_KEY in [C_DIR_KEY, LIBS_DIR_KEY, NEW_DIR_KEY]
  {
    assert |BACKUP_KEY| == 27;
  }

  lemma OursUnder(n: string)
    requires Undo.ValidName(n)
    ensures var k := OursKey(n); |k| > 28 && k[..27] == BACKUP_KEY && k[27] == '/' && Keylike(k)
  {
    OursNorm(n); OursLast(n);
    assert |BACKUP_KEY| == 27;
  }

  /** On a system without any trace of tolunnet, all installs of a history of
      full packages complete if none is disturbed. */
  lemma {:induction false} HistoryCompletes(all: seq<string>, pc: Machine, history: seq<Install>, m0: Tree)
    requires AllSound(history) && Covers(all, history) && Pristine(m0, all) && ShortSums(pc.sum)
    requires HostDirs(m0) && Plain(m0, US_KEY) && Plain(m0, US_OLD_KEY)
    requires forall j :: 0 <= j < |history| ==> Undisturbed(history[j])
    ensures Complete(pc, history, m0) && Hosts(After(pc, history, m0), all)
  {
    hide RunInstall, Pristine, Sound, Fits, Undo.ValidName, Undisturbed, Hosts, ShortSums, HostDirs, Plain, Startable,
         US_KEY, US_OLD_KEY;
    if history == [] {
      PristineHosts(m0, all);
    } else {
      var front, last := history[..|history| - 1], history[|history| - 1];
      HistoryCompletes(all, pc, front, m0);
      HistoryStartable(all, pc, front, m0);
      var m := After(pc, front, m0);
      HostsInstallable(all, pc, last, m, m0);
      HostsStay(all, pc, last, m);
      forall j | 0 <= j < |history| ensures RunInstall(pc, history[j], After(pc, history[..j], m0)).status == Running {
        if j < |front| { assert front[..j] == history[..j] && front[j] == history[j]; }
      }
    }
  }

  lemma PristineHosts(m: Tree, all: seq<string>)
    requires Pristine(m, all) && HostDirs(m) && Plain(m, US_KEY) && Plain(m, US_OLD_KEY)
    ensures Hosts(m, all)
  {
    hide Pristine, HostDirs, Plain, AllOpen;
    PristineOpen(m, all);
  }
}
