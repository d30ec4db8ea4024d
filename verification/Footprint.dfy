/** Every key that an install writes or takes away. */
module Footprint {
  import opened Seqs
  import opened Text
  import opened Files
  import opened Installer
  import opened InstallScript
  import opened InstallSteps
  import opened InstallFrames
  import opened InstallNames
  import opened InstallOthers
  import opened Restore
  import Undo
  import opened Keys

  // ------------------------------------------------------ the footprint

  /** The backup directory and what belongs into it. */
  predicate Stored(k: string, names: seq<string>) {
    || k == BACKUP_KEY || k == C_DIR_KEY || k == LIBS_DIR_KEY || k == BACKUP_UG_KEY
    || AtOrBelow(k, NEW_DIR_KEY) || AtOrBelow(k, OURS_DIR_KEY)
    || (exists i :: 0 <= i < |names| && k == BackupKey(names[i]))
  }

  /** The files that are replaced, parked or added. */
  predicate Owned(k: string, names: seq<string>) {
    || k == "sys:storage" || k == UNDO_KEY || k == US_KEY || k == US_BAK_KEY || k == US_OLD_KEY
    || k == LIB_KEY || k == PARKED_KEY || k == NEWER_KEY || k == LIVE_UG_KEY
    || k == "sys:prefs/tolunnetprefs" || k == "sys:prefs/tolunnetprefs.info"
    || k == "sys:prefs/tolunnetsetup" || k == "sys:prefs/tolunnetsetup.info"
    || (exists i :: 0 <= i < |names| && k == LiveKey(names[i]))
  }

  predicate Foot(k: string, names: seq<string>) { Stored(k, names) || Owned(k, names) }

  /** Only keys of the footprint differ, and new ones have short names. */
  ghost predicate Within(m: Tree, m': Tree, names: seq<string>) {
    && (forall k :: !Foot(k, names) ==> (k in m <==> k in m') && (k in m ==> m[k] == m'[k]))
    && (forall k :: k in m' && k !in m ==> Writable({}, k))
  }

  lemma WithinTrans(a: Tree, b: Tree, c: Tree, names: seq<string>)
    requires Within(a, b, names) && Within(b, c, names)
    ensures Within(a, c, names)
  {
    hide Foot, Writable;
  }

  /** Everything the statement writes or takes away is of the footprint. */
  ghost predicate LandsIn(s: Stmt, names: seq<string>) {
    match s
    case If(_, thn, els) => LandsIn(thn, names) && LandsIn(els, names)
    case IfRenameFails(src, dst, thn) => Foot(Norm(src), names) && Foot(Norm(dst), names) && LandsIn(thn, names)
    case Rename(src, dst) => Foot(Norm(src), names) && Foot(Norm(dst), names)
    case CopyFiles(_, dest, name, infos) =>
      Foot(Norm(InDir(dest, name)), names) && (infos ==> Foot(Norm(InDir(dest, name + ".info")), names))
    case TextFile(path, _) => forall t :: CanBe(path, t) ==> Foot(Norm(t), names)
    case MakeDir(dir) => Foot(Norm(dir), names)
    case Delete(target) => Foot(Norm(target), names)
    case Startup => Foot(Norm(USER_STARTUP), names)
    case _ => true
  }

  ghost predicate AllLand(p: seq<Stmt>, names: seq<string>) {
    forall i :: 0 <= i < |p| ==> LandsIn(p[i], names)
  }

  lemma WriteLands(st: State, path: string, e: Entry, names: seq<string>)
    requires Foot(Norm(path), names)
    ensures Within(st.m, Write(st, path, e).m, names)
  {
    hide Norm, Kind, Foot, ShortNames, AfterColon, ParentFrom;
  }

  lemma CopyLands(s: Stmt, env: Env, st: State, names: seq<string>)
    requires s.CopyFiles? && LandsIn(s, names)
    ensures Within(st.m, RunCopyFiles(s, env, st).m, names)
  {
    hide Norm, Write, Foot, InDir, Within;
    WithinSelf(st.m, names);
    var data := Source(s.source, env, st);
    if data.Some? {
      var st1 := Write(st, InDir(s.dest, s.newname), data.value);
      WriteLands(st, InDir(s.dest, s.newname), data.value, names);
      var icon := Source(s.source + ".info", env, st1);
      if s.infos && icon.Some? {
        WriteLands(st1, InDir(s.dest, s.newname + ".info"), icon.value, names);
        WithinTrans(st.m, st1.m, Write(st1, InDir(s.dest, s.newname + ".info"), icon.value).m, names);
      }
    }
  }

  lemma WithinSelf(m: Tree, names: seq<string>)
    ensures Within(m, m, names)
  {
    hide Foot;
  }

  lemma RenameLands(src: string, dst: string, env: Env, st: State, names: seq<string>)
    requires Foot(Norm(src), names) && Foot(Norm(dst), names)
    ensures Within(st.m, RunRename(src, dst, env, st).0.m, names)
  {
    hide Norm, Kind, Foot, ShortNames, AfterColon;
  }

  lemma {:induction false} LandsExec(s: Stmt, env: Env, st: State, names: seq<string>)
    requires LandsIn(s, names)
    ensures Within(st.m, Exec(s, env, st).m, names)
  {
    hide Norm, Kind, Foot, RunCopyFiles, Write, RunRename, ShortNames, AfterColon, Eval;
    WithinSelf(st.m, names);
    match s {
      case If(_, thn, els) => LandsExec(thn, env, st, names); LandsExec(els, env, st, names);
      case IfRenameFails(src, dst, thn) =>
        RenameLands(src, dst, env, st, names);
        var st1 := RunRename(src, dst, env, st).0;
        LandsExec(thn, env, st1, names);
        WithinTrans(st.m, st1.m, Exec(thn, env, st1).m, names);
      case Rename(src, dst) => RenameLands(src, dst, env, st, names);
      case CopyFiles(_, _, _, _) => CopyLands(s, env, st, names);
      case TextFile(path, body) =>
        EvalCanBe(path, env, st);
        var p := Eval(path, env, st);
        if p.Some? && p.value.Str? { WriteLands(st, p.value.s, File(body), names); }
      case Startup =>
        var key := Norm(USER_STARTUP);
        var us := if key in st.m && st.m[key].File? then st.m[key].data else "";
        WriteLands(st, USER_STARTUP, File(env.boot(us)), names);
      case _ =>
    }
  }

  lemma {:induction false} LandsRun(p: seq<Stmt>, env: Env, st: State, names: seq<string>)
    requires AllLand(p, names)
    ensures Within(st.m, Run(p, env, st).m, names)
  {
    hide Exec, LandsIn, Within;
    WithinSelf(st.m, names);
    if p != [] && st.status == Running {
      var mid := Exec(p[0], env, st);
      LandsExec(p[0], env, st, names);
      LandsRun(p[1..], env, mid, names);
      WithinTrans(st.m, mid.m, Run(p[1..], env, mid).m, names);
    }
  }

  // --------------------------------------------------- statement by statement

  lemma {:induction false} QuietLands(s: Stmt, names: seq<string>)
    requires Quiet(s)
    ensures LandsIn(s, names)
  {
    if s.If? { QuietLands(s.thn, names); QuietLands(s.els, names); }
  }

  lemma WhenLands(c: Exp, s: Stmt, names: seq<string>)
    requires LandsIn(s, names)
    ensures LandsIn(If(c, s, Skip), names)
  {
  }

  lemma TextLands(path: string, body: string, names: seq<string>)
    requires Foot(Norm(path), names)
    ensures LandsIn(TextFile(L(path), body), names)
  {
    hide Norm, Foot;
    LitCanBe(path);
  }

  lemma LandConcat(a: seq<Stmt>, b: seq<Stmt>, names: seq<string>)
    requires AllLand(a, names) && AllLand(b, names)
    ensures AllLand(a + b, names)
  {
    hide LandsIn;
  }

  lemma LandOne(s: Stmt, names: seq<string>)
    requires LandsIn(s, names)
    ensures AllLand([s], names)
  {
    hide LandsIn;
  }

  lemma EnsureLands(d: string, names: seq<string>)
    requires Foot(Norm(d), names)
    ensures LandsIn(EnsureDir(d), names)
  {
    WhenLands(Not(Exists(L(d))), MakeDir(d), names);
  }

  lemma SelfBelow(k: string)
    ensures AtOrBelow(k, k)
  {
  }

  lemma DirsLand(names: seq<string>)
    ensures AllLand(DIRS, names)
  {
    hide Norm, EnsureDir, LandsIn, Undo.BK, AtOrBelow;
    DirKeys(); StorageKey();
    SelfBelow(NEW_DIR_KEY); SelfBelow(OURS_DIR_KEY);
    EnsureLands("SYS:Storage", names); EnsureLands(BK, names); EnsureLands(BK + "/C", names);
    EnsureLands(BK + "/Libs", names);
    EnsureLands(BK + "/new", names); EnsureLands(BK + "/ours", names);
  }

  lemma OursBelow(tag: string, names: seq<string>)
    ensures Foot(OursKey(tag), names)
  {
    assert OursKey(tag) == (OURS_DIR_KEY + "/") + Lower(tag) by { assert OURS_DIR_KEY + "/" == BACKUP_KEY + "/ours/"; }
    assert Below(OursKey(tag), OURS_DIR_KEY);
  }

  lemma MarkBelowOurs(tag: string, s: nat, names: seq<string>)
    ensures Foot(MarkKey(tag, s), names)
  {
    assert OURS_DIR_KEY + "/" == BACKUP_KEY + "/ours/";
    assert MarkKey(tag, s) == (OURS_DIR_KEY + "/") + (Lower(tag) + "/" + Decimal(s));
    assert Below(MarkKey(tag, s), OURS_DIR_KEY);
  }

  lemma {:induction false} OursDirsLand(tags: seq<string>, names: seq<string>)
    requires forall i :: 0 <= i < |tags| ==> Undo.ValidName(tags[i])
    ensures AllLand(OursDirs(tags), names)
  {
    hide Norm, EnsureDir, LandsIn, Foot, OursKey, Undo.ValidName, Undo.BK;
    if tags != [] {
      OursNorm(tags[0]);
      OursBelow(tags[0], names);
      EnsureLands(BK + "/ours/" + tags[0], names);
      OursDirsLand(tags[1..], names);
    }
  }

  lemma NameFoot(n: string, names: seq<string>)
    requires Named(names, n)
    ensures Foot(LiveKey(n), names) && Foot(BackupKey(n), names) && Foot(NewKey(n), names)
  {
    var i :| 0 <= i < |names| && Lower(names[i]) == Lower(n);
    assert LiveKey(n) == LiveKey(names[i]) && BackupKey(n) == BackupKey(names[i]);
    assert NEW_DIR_KEY + "/" == BACKUP_KEY + "/new/";
    assert Below(NewKey(n), NEW_DIR_KEY);
  }

  lemma SavePairLands(f: Saved, names: seq<string>)
    requires Proper(f) && Foot(Norm(BackupOf(f)), names)
    ensures AllLand([Act(1, Save(f)), Act(1, Verified(f))], names)
  {
    hide Norm, Foot, Keylike, Unrelated;
    assert InDir(f.dir, f.tag) == BackupOf(f);
    WhenLands(Equal(Var(ACT), N(1)), Save(f), names);
    QuietVerified(f);
    QuietLands(Act(1, Verified(f)), names);
  }

  lemma QuietVerified(f: Saved)
    ensures Quiet(Act(1, Verified(f)))
  {
    var a := Verified(f);
    QuietWhen(a.thn.c, a.thn.thn);
    QuietWhen(a.c, a.thn);
    QuietWhen(Equal(Var(ACT), N(1)), a);
  }

  lemma QuietDecision(f: Saved, markNew: bool, names: seq<string>)
    ensures AllLand(Decision(f, markNew), names)
  {
    var d := Decision(f, markNew)[1];
    assert Quiet(Skip);
    assert Quiet(d.thn.thn.thn);
    assert Quiet(d.thn.thn);
    assert Quiet(d.thn);
    assert Quiet(d);
    QuietLands(d, names);
    QuietLands(Decision(f, markNew)[0], names);
  }

  lemma PrepareNameLands(n: string, names: seq<string>)
    requires Undo.ValidName(n) && Named(names, n)
    ensures AllLand(PrepareName(n), names)
  {
    hide Norm, Foot, BackupKey, NewKey, LiveKey, Decision, Act, Save, Verified, LandsIn, Proper, Named;
    var f := Command(n);
    CommandProper(n); NameFoot(n, names);
    QuietDecision(f, true, names);
    SavePairLands(f, names);
    var t := TextFile(L(BK + "/new/" + n), "");
    TextLands(BK + "/new/" + n, "", names);
    ActLands(2, t, names);
    LandOne(Act(2, t), names);
    LandConcat([Act(1, Save(f)), Act(1, Verified(f))], [Act(2, t)], names);
    LandConcat(Decision(f, true), [Act(1, Save(f)), Act(1, Verified(f))] + [Act(2, t)], names);
    assert PrepareName(n) == Decision(f, true) + ([Act(1, Save(f)), Act(1, Verified(f))] + [Act(2, t)]);
  }

  lemma ActLands(code: int, s: Stmt, names: seq<string>)
    requires LandsIn(s, names)
    ensures LandsIn(Act(code, s), names)
  {
  }

  lemma {:induction false} PrepareNamesLand(ns: seq<string>, names: seq<string>)
    requires forall i :: 0 <= i < |ns| ==> Undo.ValidName(ns[i]) && Named(names, ns[i])
    ensures AllLand(PrepareNames(ns), names)
  {
    hide PrepareName, LandsIn, Named, Undo.ValidName;
    if ns != [] {
      PrepareNameLands(ns[0], names);
      PrepareNamesLand(ns[1..], names);
      LandConcat(PrepareName(ns[0]), PrepareNames(ns[1..]), names);
    }
  }

  lemma PrepareUgLands(names: seq<string>)
    ensures AllLand(PREPARE_UG, names)
  {
    hide Norm, Decision, Act, Save, Verified, LandsIn, Proper;
    UgProper();
    QuietDecision(USERGROUP, false, names);
    SavePairLands(USERGROUP, names);
    LandConcat(Decision(USERGROUP, false), [Act(1, Save(USERGROUP)), Act(1, Verified(USERGROUP))], names);
  }

  lemma ParkLands(dst: string, code: int, names: seq<string>)
    requires Foot(Norm(dst), names)
    ensures LandsIn(Chosen(code, Park(dst)), names) && LandsIn(Chosen(code, DropCopy(dst)), names)
  {
    hide Norm, Undo.LIB, LIB_KEY;
    LibKeys();
    var p := Park(dst);
    QuietWhen(p.thn.c, p.thn.thn);
    QuietLands(p.thn, names);
    WhenLands(Equal(Var(LIBVAR), N(code)), p, names);
    WhenLands(Same(LIB, dst), Delete(LIB), names);
    WhenLands(Equal(Var(LIBVAR), N(code)), DropCopy(dst), names);
  }

  lemma ChoiceLands(names: seq<string>)
    ensures LandsIn(LIB_CHOICE, names) && LandsIn(Choose(0), names)
    ensures LandsIn(Chosen(4, Abort("differs from both saved copies. Nothing was replaced.")), names)
  {
    hide Undo.LIB, Undo.PARKED, Undo.NEWER;
    var a := LIB_CHOICE.thn;
    assert Quiet(Skip) && Quiet(a.thn.els.thn.thn) && Quiet(a.thn.els.thn.els);
    assert Quiet(a.thn.els.thn);
    assert Quiet(a.thn.els);
    assert Quiet(a.thn);
    assert Quiet(a);
    QuietLands(LIB_CHOICE, names);
    var b := Abort("differs from both saved copies. Nothing was replaced.");
    QuietWhen(Equal(Var(LIBVAR), N(4)), b);
    QuietLands(Chosen(4, b), names);
    QuietLands(Choose(0), names);
  }

  lemma PrepareLibLands(names: seq<string>)
    ensures AllLand(PREPARE_LIB, names)
  {
    hide Norm, Chosen, Park, DropCopy, LIB_CHOICE, Undo.PARKED, Undo.NEWER, LIB_KEY, PARKED_KEY, NEWER_KEY, LandsIn,
         Choose;
    LibKeys();
    ChoiceLands(names);
    ParkLands(PARKED, 1, names); ParkLands(NEWER, 2, names); ParkLands(PARKED, 3, names); ParkLands(NEWER, 5, names);
  }

  lemma StartupWritesLand(names: seq<string>)
    ensures LandsIn(US_MAKE, names) && LandsIn(US_DROP, names) && LandsIn(US_MOVE, names) && LandsIn(US_SAVE, names)
    ensures LandsIn(Startup, names)
  {
    hide Norm, Undo.US_BAK, Undo.US_OLD, US_KEY, US_BAK_KEY, US_OLD_KEY, InDir, Stored;
    SKeys(); BakPath();
    assert USER_STARTUP == Undo.US;
    TextLands(US, "", names);
    WhenLands(US_MAKE.c, TextFile(L(US), ""), names);
    WhenLands(US_DROP.thn.c, Delete(US_OLD), names);
    WhenLands(US_DROP.c, US_DROP.thn, names);
    WhenLands(US_MOVE.c, Rename(US_BAK, US_OLD), names);
    WhenLands(US_SAVE.c, US_SAVE.thn, names);
  }

  lemma PrepareStartupLands(names: seq<string>)
    ensures AllLand(PREPARE_STARTUP, names)
  {
    hide LandsIn, US_MAKE, US_STALE, US_DROP, US_MOVE, US_ASK, US_SAVE, US_CHECK, Quiet;
    StartupWritesLand(names);
    QuietTests();
    QuietLands(US_STALE, names); QuietLands(US_ASK, names); QuietLands(US_CHECK, names);
    SetLands(STALE, N(0), names); SetLands(USBAK, N(0), names);
  }

  lemma SetLands(v: string, e: Exp, names: seq<string>)
    ensures LandsIn(Set(v, e), names)
  {
  }

  lemma {:induction false} CopiesLand(copied: seq<string>, names: seq<string>)
    requires forall i :: 0 <= i < |copied| ==> Undo.ValidName(copied[i]) && Named(names, copied[i])
    ensures AllLand(CopyCommands(copied), names)
  {
    hide Norm, LiveKey, InDir, Foot, Named, Undo.ValidName;
    if copied != [] {
      CopyPath(copied[0]); NameFoot(copied[0], names);
      CopiesLand(copied[1..], names);
    }
  }

  lemma RestLands(names: seq<string>)
    ensures AllLand(COPY_REST, names)
  {
    hide Norm, InDir, LIVE_UG_KEY, Stored;
    RestPaths(); UgKeys(); OwnKeys();
  }

  lemma MarkLands(f: Saved, names: seq<string>)
    ensures LandsIn(Mark(f), names)
  {
    hide Norm, MarkKey, Foot;
    forall t | CanBe(MarkExp(f), t) ensures Foot(Norm(t), names) {
      var d: nat :| t == BK + "/ours/" + f.tag + "/" + Decimal(d);
      assert t == MarkPath(f.tag, d);
      MarkNorm(f.tag, d);
      MarkBelowOurs(f.tag, d, names);
    }
    WhenLands(Exists(L(f.live)), TextFile(MarkExp(f), ""), names);
  }

  lemma {:induction false} FinishLands(ns: seq<string>, names: seq<string>)
    ensures AllLand(MarkNames(ns), names) && AllLand(Finish(ns), names)
  {
    hide Mark, LandsIn;
    if ns != [] {
      MarkLands(Command(ns[0]), names);
      FinishLands(ns[1..], names);
    }
    MarkLands(USERGROUP, names);
    StartupWritesLand(names);
    LandConcat(MarkNames(ns), [Mark(USERGROUP), Startup], names);
  }

  lemma OpeningLands(ns: seq<string>, names: seq<string>)
    requires Undo.ValidNames(ns)
    ensures AllLand(OPENING, names) && AllLand([TextFile(L(Undo.UNDO), UndoText(ns))], names)
  {
    hide Norm, UndoText, UNDO_KEY, Stored, Undo.BK, Undo.UNDO;
    var c := OPENING[2];
    QuietWhen(c.thn.c, c.thn.thn);
    QuietWhen(c.c, c.thn);
    QuietLands(OPENING[0], names); QuietLands(OPENING[1], names); QuietLands(c, names);
    SKeys();
    TextLands(Undo.UNDO, UndoText(ns), names);
  }

  /** An install of `ns`, stopped anywhere or completed, changes nothing outside
      the footprint of a list that has all its names. */
  lemma InstallWithin(ns: seq<string>, copied: seq<string>, names: seq<string>, env: Env, st: State)
    requires Undo.ValidNames(ns) && (forall i :: 0 <= i < |ns| ==> Named(names, ns[i]))
    requires forall i :: 0 <= i < |copied| ==> Undo.ValidName(copied[i]) && Named(names, copied[i])
    ensures Within(st.m, Run(Script(ns, copied), env, st).m, names)
  {
    hide Run, OPENING, DIRS, OursDirs, UndoText, PrepareNames, PREPARE_UG, PREPARE_LIB, PREPARE_STARTUP, CopyCommands,
         COPY_REST, Finish, AllLand, Within, Script, Undo.ValidName, Named, Undo.UG;
    ScriptPhases(ns, copied, env, st);
    var r := RunPhases(ns, copied, env, st);
    OpeningLands(ns, names); DirsLand(names); UgIsName(); OursDirsLand(ns + [UG], names);
    LandConcat(DIRS, OursDirs(ns + [UG]), names);
    PrepareNamesLand(ns, names); PrepareUgLands(names); PrepareLibLands(names); PrepareStartupLands(names);
    CopiesLand(copied, names); RestLands(names); FinishLands(ns, names);
    LandsRun(OPENING, env, st, names);
    LandsRun([TextFile(L(Undo.UNDO), UndoText(ns))], env, r.start, names);
    WithinTrans(st.m, r.start.m, r.written.m, names);
    LandsRun(DIRS + OursDirs(ns + [UG]), env, r.written, names); WithinTrans(st.m, r.written.m, r.dirs.m, names);
    LandsRun(PrepareNames(ns), env, r.dirs, names); WithinTrans(st.m, r.dirs.m, r.names.m, names);
    LandsRun(PREPARE_UG, env, r.names, names); WithinTrans(st.m, r.names.m, r.ug.m, names);
    LandsRun(PREPARE_LIB, env, r.ug, names); WithinTrans(st.m, r.ug.m, r.lib.m, names);
    LandsRun(PREPARE_STARTUP, env, r.lib, names); WithinTrans(st.m, r.lib.m, r.prepared.m, names);
    LandsRun(CopyCommands(copied), env, r.prepared, names); WithinTrans(st.m, r.prepared.m, r.copied.m, names);
    LandsRun(COPY_REST, env, r.copied, names); WithinTrans(st.m, r.copied.m, r.rest.m, names);
    LandsRun(Finish(ns), env, r.rest, names); WithinTrans(st.m, r.rest.m, r.end.m, names);
  }
}
