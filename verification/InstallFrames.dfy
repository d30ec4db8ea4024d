/** Which parts of the install script can reach which keys. The tests are on
    single characters of the key: the area after `sys:`, and the part right
    after the backup directory. */
module InstallFrames {
  import opened Text
  import opened Files
  import opened Installer
  import opened InstallScript
  import opened InstallSteps
  import opened Restore
  import Undo
  import UndoRun
  import opened Keys

  predicate InStorage(k: string) { |k| > 28 && k[4] == 's' && k[5] == 't' }
  predicate InS(k: string) { |k| > 6 && k[4] == 's' && k[5] == '/' }

  lemma ApartAt(w: string, k: string, i: nat)
    requires i < |w| && i < |k| && w[i] != k[i]
    ensures !AtOrBelow(w, k)
  {
    DifferAt(w, k, i);
  }

  lemma ShorterNotBelow(w: string, k: string)
    requires |w| < |k|
    ensures !AtOrBelow(w, k)
  {
  }

  lemma LitCanBe(s: string)
    ensures forall t :: CanBe(L(s), t) ==> t == s
  {
  }

  lemma TextSpares(path: string, body: string, k: string)
    requires !AtOrBelow(Norm(path), k)
    ensures Spares(TextFile(L(path), body), k)
  {
    hide Norm, AtOrBelow;
    LitCanBe(path);
  }

  /** A statement that only computes, or runs one of two others. */
  lemma IfSpares(c: Exp, thn: Stmt, els: Stmt, k: string)
    requires Spares(thn, k) && Spares(els, k)
    ensures Spares(If(c, thn, els), k)
  {
  }

  lemma OpeningSpares(k: string)
    ensures SparesAll(OPENING, k)
  {
    var inner := If(Not(Exists(L(BK + "/new"))), Set(LEGACY, N(1)), Skip);
    assert Spares(Skip, k);
    assert Spares(inner, k);
    IfSpares(Var(HAD_UNDO), inner, Skip, k);
  }

  lemma UndoTextSpares(names: seq<string>, k: string)
    requires Undo.ValidNames(names) && |k| > 6 && (!InS(k) || k[6] != 't')
    ensures SparesAll([TextFile(L(Undo.UNDO), UndoText(names))], k)
  {
    hide Norm, UndoText;
    UndoWriteApart(k);
    TextSpares(Undo.UNDO, UndoText(names), k);
  }

  lemma UndoWriteApart(k: string)
    requires |k| > 6 && (!InS(k) || k[6] != 't')
    ensures !AtOrBelow(Norm(Undo.UNDO), k)
  {
    hide Norm, AtOrBelow;
    SKeys();
    assert UNDO_KEY[4] == 's' && UNDO_KEY[5] == '/' && UNDO_KEY[6] == 't';
    if k[4] != 's' { ApartAt(UNDO_KEY, k, 4); }
    else if k[5] != '/' { ApartAt(UNDO_KEY, k, 5); }
    else { ApartAt(UNDO_KEY, k, 6); }
  }

  /** The wizard's script is not below the undo script. */
  lemma UndoTextSparesStacks(names: seq<string>)
    requires Undo.ValidNames(names)
    ensures SparesAll([TextFile(L(Undo.UNDO), UndoText(names))], STACKS_KEY)
  {
    hide Norm, UndoText;
    SKeys();
    ShorterNotBelow(UNDO_KEY, STACKS_KEY);
    TextSpares(Undo.UNDO, UndoText(names), STACKS_KEY);
  }

  // -------------------------------------------------------- directories

  lemma EnsureSpares(d: string, k: string)
    requires !AtOrBelow(Norm(d), k)
    ensures Spares(EnsureDir(d), k)
  {
  }

  lemma StorageKey()
    ensures Norm("SYS:Storage") == "sys:storage"
  {
    hide Norm;
    assert Lower("SYS:Storage") == "sys:storage";
    SysPrefix("SYS:Storage", "Storage");
  }

  predicate DeepKey(k: string) {
    |k| > 6 && (k[4] != 's' || k[5] != 't' || (InStorage(k) && (|k| > 32 || (|k| > 30 && k[28] == 'c'))))
  }

  lemma DirApart(d: string, k: string)
    requires DeepKey(k)
    requires |d| > 6 && d[4] == 's' && d[5] == 't' && |d| <= 32
    requires |d| <= 29 || (|d| > 28 && d[28] != 'c')
    ensures !AtOrBelow(d, k)
  {
    hide AtOrBelow;
    if k[4] != 's' { ApartAt(d, k, 4); }
    else if k[5] != 't' { ApartAt(d, k, 5); }
    else if |d| < |k| { ShorterNotBelow(d, k); }
    else { ApartAt(d, k, 28); }
  }

  lemma DirsSpares(k: string)
    requires DeepKey(k)
    ensures SparesAll(DIRS, k)
  {
    hide Norm, AtOrBelow, EnsureDir, DeepKey, Spares;
    DirKeys(); StorageKey(); UndoRun.BackupShape();
    DirFifth();
    DirApart("sys:storage", k);
    DirApart(BACKUP_KEY, k); DirApart(C_DIR_KEY, k); DirApart(LIBS_DIR_KEY, k);
    DirApart(NEW_DIR_KEY, k); DirApart(OURS_DIR_KEY, k);
    EnsureSpares("SYS:Storage", k); EnsureSpares(BK, k); EnsureSpares(BK + "/C", k);
    EnsureSpares(BK + "/Libs", k); EnsureSpares(BK + "/new", k); EnsureSpares(BK + "/ours", k);
  }

  lemma DirFifth()
    ensures BACKUP_KEY[5] == 't' && C_DIR_KEY[5] == 't' && LIBS_DIR_KEY[5] == 't' && NEW_DIR_KEY[5] == 't'
    ensures OURS_DIR_KEY[5] == 't'
    ensures |C_DIR_KEY| == 29 && |LIBS_DIR_KEY| == 32 && |NEW_DIR_KEY| == 31 && |OURS_DIR_KEY| == 32
    ensures |"sys:storage"| == 11 && "sys:storage"[4] == 's' && "sys:storage"[5] == 't'
  {
  }

  lemma OursNorm(tag: string)
    requires Undo.ValidName(tag)
    ensures Norm(BK + "/ours/" + tag) == OursKey(tag)
    ensures |OursKey(tag)| > 33 && OursKey(tag)[4] == 's' && OursKey(tag)[5] == 't' && OursKey(tag)[28] == 'o'
    ensures NoSlash(Lower(tag))
  {
    hide Norm;
    var sub := "/ours/" + tag;
    LowerOurs();
    LowerConcat("/ours/", tag);
    BkPath(sub);
    assert BK + sub == BK + "/ours/" + tag;
    assert BACKUP_KEY + ("/ours/" + Lower(tag)) == OursKey(tag);
    assert BACKUP_KEY[4] == 's' && BACKUP_KEY[5] == 't';
  }

  lemma UgIsName()
    ensures Undo.ValidName(UG)
  {
  }

  /** A directory ours/x is neither at nor below another file's marker. */
  lemma OursDirNotMark(tag: string, other: string, sum: nat)
    requires Undo.ValidName(tag) && Undo.ValidName(other)
    ensures !AtOrBelow(OursKey(tag), MarkKey(other, sum))
  {
    hide Lower, Decimal;
    var d := BACKUP_KEY + "/ours/";
    var a, b := Lower(tag), Lower(other);
    OursNorm(tag); OursNorm(other);
    var m := MarkKey(other, sum);
    assert m == d + b + "/" + Decimal(sum);
    assert m[|d| + |b|] == '/';
    assert OursKey(tag) == d + a;
    if |m| <= |d + a| {
      assert (d + a)[|d| + |b|] == a[|b|];
    }
  }

  lemma OursDirApart(tag: string, k: string)
    requires Undo.ValidName(tag) && |k| > 6
    requires k[4] != 's' || k[5] != 't' || (InStorage(k) && k[28] != 'o')
    ensures !AtOrBelow(Norm(BK + "/ours/" + tag), k)
  {
    hide Norm, AtOrBelow, OursKey;
    OursNorm(tag);
    var w := OursKey(tag);
    if k[4] != 's' { ApartAt(w, k, 4); }
    else if k[5] != 't' { ApartAt(w, k, 5); }
    else { ApartAt(w, k, 28); }
  }

  lemma {:induction false} OursDirsSpare(tags: seq<string>, k: string)
    requires forall i :: 0 <= i < |tags| ==> Undo.ValidName(tags[i]) && !AtOrBelow(Norm(BK + "/ours/" + tags[i]), k)
    ensures SparesAll(OursDirs(tags), k)
  {
    hide Norm, AtOrBelow, EnsureDir, Spares;
    if tags != [] {
      EnsureSpares(BK + "/ours/" + tags[0], k);
      OursDirsSpare(tags[1..], k);
    }
  }

  // ------------------------------------------------------ saved files

  lemma DecisionSpares(f: Saved, markNew: bool, k: string)
    ensures SparesAll(Decision(f, markNew), k)
  {
    var d := Decision(f, markNew)[1];
    TestSpares(d.thn.thn.thn, k);
    TestSpares(d.thn.thn, k);
    TestSpares(d.thn, k);
    TestSpares(d, k);
  }

  lemma TestSpares(s: Stmt, k: string)
    requires s.If? && (s.thn.Set? || s.thn.Skip? || Spares(s.thn, k)) && (s.els.Set? || s.els.Skip? || Spares(s.els, k))
    ensures Spares(s, k)
  {
  }

  lemma SavePairSpares(f: Saved, k: string)
    requires Proper(f) && !AtOrBelow(Norm(BackupOf(f)), k)
    ensures SparesAll([Act(1, Save(f)), Act(1, Verified(f))], k)
  {
    hide Norm, AtOrBelow, Keylike, Unrelated;
    assert InDir(f.dir, f.tag) == BackupOf(f);
    assert Spares(Save(f), k);
    assert Spares(Verified(f).thn, k);
    assert Spares(Verified(f), k);
  }

  lemma {:induction false} SparesConcat(a: seq<Stmt>, b: seq<Stmt>, k: string)
    requires SparesAll(a, k) && SparesAll(b, k)
    ensures SparesAll(a + b, k)
  {
  }

  lemma PrepareNameSpares(m: string, k: string)
    requires Undo.ValidName(m) && !AtOrBelow(BackupKey(m), k) && !AtOrBelow(NewKey(m), k)
    ensures SparesAll(PrepareName(m), k)
  {
    hide Norm, AtOrBelow, BackupKey, NewKey, Decision, Act, Spares, Save, Verified;
    var f := Command(m);
    CommandProper(m);
    DecisionSpares(f, true, k);
    SavePairSpares(f, k);
    TextSpares(BK + "/new/" + m, "", k);
    ActSpares(2, TextFile(L(BK + "/new/" + m), ""), k);
    SparesConcat([Act(1, Save(f)), Act(1, Verified(f))], [Act(2, TextFile(L(BK + "/new/" + m), ""))], k);
    SparesConcat(Decision(f, true),
                 [Act(1, Save(f)), Act(1, Verified(f))] + [Act(2, TextFile(L(BK + "/new/" + m), ""))], k);
    var save, last := [Act(1, Save(f)), Act(1, Verified(f))], [Act(2, TextFile(L(BK + "/new/" + m), ""))];
    assert PrepareName(m) == Decision(f, true) + (save + last);
  }

  lemma ActSpares(code: int, s: Stmt, k: string)
    requires Spares(s, k)
    ensures Spares(Act(code, s), k)
  {
  }

  lemma {:induction false} PrepareNamesSpare(names: seq<string>, k: string)
    requires forall i :: 0 <= i < |names| ==>
               Undo.ValidName(names[i]) && !AtOrBelow(BackupKey(names[i]), k) && !AtOrBelow(NewKey(names[i]), k)
    ensures SparesAll(PrepareNames(names), k)
  {
    hide AtOrBelow, BackupKey, NewKey, PrepareName, Spares;
    if names != [] {
      PrepareNameSpares(names[0], k);
      PrepareNamesSpare(names[1..], k);
      SparesConcat(PrepareName(names[0]), PrepareNames(names[1..]), k);
    }
  }

  /** Keys outside the backup's C/ and new/ parts. */
  lemma NameWritesApart(m: string, k: string)
    requires Undo.ValidName(m) && |k| > 6
    requires k[4] != 's' || k[5] != 't' || (InStorage(k) && k[28] != 'c' && k[28] != 'n')
    ensures !AtOrBelow(BackupKey(m), k) && !AtOrBelow(NewKey(m), k)
  {
    hide AtOrBelow;
    NameShape(m);
    assert BackupKey(m)[5] == 't' && NewKey(m)[5] == 't' by { assert BACKUP_KEY[5] == 't'; }
    if k[4] != 's' { ApartAt(BackupKey(m), k, 4); ApartAt(NewKey(m), k, 4); }
    else if k[5] != 't' { ApartAt(BackupKey(m), k, 5); ApartAt(NewKey(m), k, 5); }
    else { ApartAt(BackupKey(m), k, 28); ApartAt(NewKey(m), k, 28); }
  }

  lemma UgProper()
    ensures Proper(USERGROUP)
    ensures Norm(USERGROUP.live) == LIVE_UG_KEY && Norm(BackupOf(USERGROUP)) == BACKUP_UG_KEY
  {
    hide Norm, Unrelated, Keylike, LIVE_UG_KEY, BACKUP_UG_KEY, BK;
    UgKeys(); UgPaths(); UgUnrelated();
  }

  lemma UgPaths()
    ensures USERGROUP.live == Undo.LIVE_UG && BackupOf(USERGROUP) == Undo.BACKUP_UG
    ensures ':' in USERGROUP.live
    ensures USERGROUP.dir != [] && USERGROUP.dir[|USERGROUP.dir| - 1] != ':'
  {
    UgLivePath();
    UgBackupPath();
  }

  lemma UgLivePath()
    ensures USERGROUP.live == Undo.LIVE_UG && ':' in USERGROUP.live
  {
    assert "SYS:Libs/" + UG == "SYS:Libs/usergroup.library";
    assert USERGROUP.live[3] == ':';
  }

  lemma UgBackupPath()
    ensures BackupOf(USERGROUP) == Undo.BACKUP_UG
    ensures USERGROUP.dir != [] && USERGROUP.dir[|USERGROUP.dir| - 1] != ':'
  {
    UgTail(Undo.BK);
  }

  lemma UgTail(b: string)
    ensures b + "/Libs" + "/" + UG == b + "/Libs/usergroup.library"
    ensures (b + "/Libs")[|b| + 4] == 's'
  {
    assert "/Libs" + ("/" + UG) == "/Libs/usergroup.library";
    assert b + "/Libs" + "/" + UG == b + ("/Libs" + ("/" + UG));
  }

  lemma UgUnrelated()
    ensures Unrelated(LIVE_UG_KEY, BACKUP_UG_KEY) && Keylike(LIVE_UG_KEY) && Keylike(BACKUP_UG_KEY)
  {
    hide Unrelated;
    UndoRun.BackupShape(); UndoRun.LibsShape();
    AreasApart(LIVE_UG_KEY, BACKUP_UG_KEY);
  }

  lemma PrepareUgSpares(k: string)
    requires !AtOrBelow(BACKUP_UG_KEY, k)
    ensures SparesAll(PREPARE_UG, k)
  {
    hide Norm, AtOrBelow, Decision, Act, Spares, Save, Verified, Proper;
    UgProper();
    DecisionSpares(USERGROUP, false, k);
    SavePairSpares(USERGROUP, k);
    SparesConcat(Decision(USERGROUP, false), [Act(1, Save(USERGROUP)), Act(1, Verified(USERGROUP))], k);
  }

  lemma UgWriteApart(k: string)
    requires |k| > 6 && (k[4] != 's' || k[5] != 't' || (InStorage(k) && k[28] != 'l'))
    ensures !AtOrBelow(BACKUP_UG_KEY, k)
  {
    hide AtOrBelow;
    UndoRun.BackupShape();
    if k[4] != 's' { ApartAt(BACKUP_UG_KEY, k, 4); }
    else if k[5] != 't' { ApartAt(BACKUP_UG_KEY, k, 5); }
    else { ApartAt(BACKUP_UG_KEY, k, 28); }
  }

  // ---------------------------------------------- library, User-Startup

  lemma ParkSpares(dst: string, code: int, k: string)
    requires !AtOrBelow(LIB_KEY, k) && !AtOrBelow(Norm(dst), k)
    ensures Spares(Chosen(code, Park(dst)), k)
  {
    hide Norm, AtOrBelow;
    LibKeys();
    var p := Park(dst);
    assert Spares(p.thn.thn, k) && Spares(Skip, k);
    assert Spares(p.thn, k);
    assert Spares(p, k);
  }

  lemma DropCopySpares(dst: string, code: int, k: string)
    requires !AtOrBelow(LIB_KEY, k)
    ensures Spares(Chosen(code, DropCopy(dst)), k)
  {
    hide Norm, AtOrBelow;
    LibKeys();
    var p := DropCopy(dst);
    assert Spares(p.thn, k) && Spares(Skip, k);
    assert Spares(p, k);
  }

  lemma LibChoiceSpares(k: string)
    ensures Spares(LIB_CHOICE, k)
    ensures Spares(Chosen(4, Abort("differs from both saved copies. Nothing was replaced.")), k)
  {
    hide LIB, PARKED, NEWER;
    var a := LIB_CHOICE.thn;
    assert Spares(Skip, k) && Spares(a.thn.els.thn.thn, k) && Spares(a.thn.els.thn.els, k);
    assert Spares(a.thn.els.thn, k);
    assert Spares(a.thn.els, k);
    assert Spares(a.thn, k);
    assert Spares(a, k);
  }

  lemma PrepareLibSpares(k: string)
    requires !AtOrBelow(LIB_KEY, k) && !AtOrBelow(PARKED_KEY, k) && !AtOrBelow(NEWER_KEY, k)
    ensures SparesAll(PREPARE_LIB, k)
  {
    hide Norm, AtOrBelow, LIB_CHOICE, Chosen, Park, DropCopy, Undo.PARKED, Undo.NEWER, LIB_KEY, PARKED_KEY, NEWER_KEY;
    LibKeys();
    LibChoiceSpares(k);
    ParkSpares(PARKED, 1, k); ParkSpares(NEWER, 2, k);
    DropCopySpares(PARKED, 3, k); DropCopySpares(NEWER, 5, k);
  }

  lemma LibWritesApart(k: string)
    requires |k| > 6 && (k[4] != 'l' || (|k| > 9 && k[9] != 'b'))
    ensures !AtOrBelow(LIB_KEY, k) && !AtOrBelow(PARKED_KEY, k) && !AtOrBelow(NEWER_KEY, k)
  {
    hide AtOrBelow;
    UndoRun.LibsShape();
    var i := if k[4] != 'l' then 4 else 9;
    ApartAt(LIB_KEY, k, i); ApartAt(PARKED_KEY, k, i); ApartAt(NEWER_KEY, k, i);
  }

  lemma BakPath()
    ensures InDir("S:", "User-Startup.tolunnet-bak") == US_BAK
  {
    assert "S:" + "User-Startup.tolunnet-bak" == US_BAK;
  }

  lemma WhenSpares(c: Exp, s: Stmt, k: string)
    requires Spares(s, k)
    ensures Spares(If(c, s, Skip), k)
  {
  }

  lemma StartupWritesSpare(k: string)
    requires !AtOrBelow(US_KEY, k) && !AtOrBelow(US_BAK_KEY, k) && !AtOrBelow(US_OLD_KEY, k)
    ensures Spares(US_MAKE, k) && Spares(US_DROP, k) && Spares(US_MOVE, k) && Spares(US_SAVE, k)
  {
    hide Norm, AtOrBelow, Undo.US_BAK, Undo.US_OLD, US_KEY, US_BAK_KEY, US_OLD_KEY, InDir;
    SKeys(); BakPath();
    TextSpares(US, "", k);
    WhenSpares(US_MAKE.c, TextFile(L(US), ""), k);
    WhenSpares(US_DROP.thn.c, Delete(US_OLD), k);
    WhenSpares(US_DROP.c, US_DROP.thn, k);
    WhenSpares(US_MOVE.c, Rename(US_BAK, US_OLD), k);
    WhenSpares(US_SAVE.c, US_SAVE.thn, k);
  }

  lemma PrepareStartupSpares(k: string)
    requires !AtOrBelow(US_KEY, k) && !AtOrBelow(US_BAK_KEY, k) && !AtOrBelow(US_OLD_KEY, k)
    ensures SparesAll(PREPARE_STARTUP, k)
  {
    hide Spares, US_MAKE, US_STALE, US_DROP, US_MOVE, US_ASK, US_SAVE, US_CHECK, Quiet;
    StartupWritesSpare(k);
    QuietTests();
    QuietSpares(US_STALE, k); QuietSpares(US_ASK, k); QuietSpares(US_CHECK, k);
    SetSpares(STALE, N(0), k); SetSpares(USBAK, N(0), k);
  }

  lemma SetSpares(v: string, e: Exp, k: string)
    ensures Spares(Set(v, e), k)
  {
  }

  lemma StartupWritesApart(k: string)
    requires |k| > 6 && (!InS(k) || k[6] != 'u')
    ensures !AtOrBelow(US_KEY, k) && !AtOrBelow(US_BAK_KEY, k) && !AtOrBelow(US_OLD_KEY, k)
  {
    hide AtOrBelow;
    UndoRun.StartupShape(); UsSixth();
    var i := if k[4] != 's' then 4 else if k[5] != '/' then 5 else 6;
    ApartAt(US_KEY, k, i); ApartAt(US_BAK_KEY, k, i); ApartAt(US_OLD_KEY, k, i);
  }

  lemma UsSixth()
    ensures |US_KEY| > 6 && US_KEY[6] == 'u' && |US_BAK_KEY| > 6 && US_BAK_KEY[6] == 'u'
    ensures |US_OLD_KEY| > 6 && US_OLD_KEY[6] == 'u'
  {
  }

  // ------------------------------------------------- copies and markers

  lemma CopyPath(n: string)
    requires Undo.ValidName(n)
    ensures Norm(InDir("SYS:C", n)) == LiveKey(n)
  {
    hide Norm, LiveKey;
    NameKeys(n);
    assert InDir("SYS:C", n) == Undo.LivePath(n);
  }

  lemma {:induction false} CopiesSpare(copied: seq<string>, k: string)
    requires forall i :: 0 <= i < |copied| ==> Undo.ValidName(copied[i]) && !AtOrBelow(LiveKey(copied[i]), k)
    ensures SparesAll(CopyCommands(copied), k)
  {
    hide Norm, AtOrBelow, LiveKey, InDir;
    if copied != [] {
      CopyPath(copied[0]);
      CopiesSpare(copied[1..], k);
    }
  }

  lemma LiveApart(n: string, k: string)
    requires Undo.ValidName(n) && |k| > 6 && k[4] != 'c'
    ensures !AtOrBelow(LiveKey(n), k)
  {
    NameShape(n);
    ApartAt(LiveKey(n), k, 4);
  }

  lemma RestPaths()
    ensures InDir("SYS:Libs", UG) == Undo.LIVE_UG
    ensures InDir("SYS:Prefs", "TolunnetPrefs") == "SYS:Prefs/TolunnetPrefs"
    ensures InDir("SYS:Prefs", "TolunnetPrefs" + ".info") == "SYS:Prefs/TolunnetPrefs.info"
    ensures InDir("SYS:Prefs", "TolunnetSetup") == "SYS:Prefs/TolunnetSetup"
    ensures InDir("SYS:Prefs", "TolunnetSetup" + ".info") == "SYS:Prefs/TolunnetSetup.info"
  {
    assert "SYS:Libs" + "/" + UG == Undo.LIVE_UG;
    assert "SYS:Prefs" + "/" + "TolunnetPrefs" == "SYS:Prefs/TolunnetPrefs";
    assert "SYS:Prefs" + "/" + ("TolunnetPrefs" + ".info") == "SYS:Prefs/TolunnetPrefs.info";
    assert "SYS:Prefs" + "/" + "TolunnetSetup" == "SYS:Prefs/TolunnetSetup";
    assert "SYS:Prefs" + "/" + ("TolunnetSetup" + ".info") == "SYS:Prefs/TolunnetSetup.info";
  }

  lemma PrefsApart(k: string)
    requires |k| > 6 && k[4] != 'p'
    ensures !AtOrBelow("sys:prefs/tolunnetprefs", k) && !AtOrBelow("sys:prefs/tolunnetprefs.info", k)
    ensures !AtOrBelow("sys:prefs/tolunnetsetup", k) && !AtOrBelow("sys:prefs/tolunnetsetup.info", k)
  {
    hide AtOrBelow;
    ApartAt("sys:prefs/tolunnetprefs", k, 4); ApartAt("sys:prefs/tolunnetprefs.info", k, 4);
    ApartAt("sys:prefs/tolunnetsetup", k, 4); ApartAt("sys:prefs/tolunnetsetup.info", k, 4);
  }

  lemma RestSpares(k: string)
    requires |k| > 6 && k[4] != 'p' && !AtOrBelow(LIVE_UG_KEY, k)
    ensures SparesAll(COPY_REST, k)
  {
    hide Norm, AtOrBelow, InDir, LIVE_UG_KEY;
    RestPaths(); UgKeys(); OwnKeys();
    PrefsApart(k);
  }

  lemma UgLiveApart(k: string)
    requires |k| > 6 && (k[4] != 'l' || (|k| > 9 && k[9] != 'u'))
    ensures !AtOrBelow(LIVE_UG_KEY, k)
  {
    UndoRun.LibsShape();
    ApartAt(LIVE_UG_KEY, k, if k[4] != 'l' then 4 else 9);
  }

  /** A marker is written nowhere but below ours/. */
  lemma MarkSpares(f: Saved, k: string)
    requires Undo.ValidName(f.tag) && |k| > 6
    requires k[4] != 's' || k[5] != 't' || (InStorage(k) && k[28] != 'o')
    ensures Spares(Mark(f), k)
  {
    hide Norm, AtOrBelow, MarkKey;
    forall t | CanBe(MarkExp(f), t)
      ensures !AtOrBelow(Norm(t), k)
    {
      var d: nat :| t == BK + "/ours/" + f.tag + "/" + Decimal(d);
      assert t == MarkPath(f.tag, d);
      MarkNorm(f.tag, d);
      MarkShape(f.tag, d);
      var w := MarkKey(f.tag, d);
      ApartAt(w, k, if k[4] != 's' then 4 else if k[5] != 't' then 5 else 28);
    }
    assert Spares(TextFile(MarkExp(f), ""), k) && Spares(Skip, k);
  }

  lemma MarkShape(tag: string, d: nat)
    requires Undo.ValidName(tag)
    ensures var w := MarkKey(tag, d); |w| > 34 && w[4] == 's' && w[5] == 't' && w[28] == 'o' && Keylike(w)
  {
    hide OursKey, Decimal, Lower;
    OursNorm(tag);
    DigitsTail(OursKey(tag), Decimal(d));
  }

  lemma DigitsTail(a: string, d: string)
    requires |a| > 33 && d != [] && IsDigit(d[|d| - 1])
    ensures var w := a + "/" + d;
            |w| > 34 && w[4] == a[4] && w[5] == a[5] && w[28] == a[28] && w[|w| - 1] != ':'
  {
    var w := a + "/" + d;
    assert w[|w| - 1] == d[|d| - 1];
  }

  lemma {:induction false} MarksSpare(names: seq<string>, k: string)
    requires (forall i :: 0 <= i < |names| ==> Undo.ValidName(names[i])) && |k| > 6
    requires k[4] != 's' || k[5] != 't' || (InStorage(k) && k[28] != 'o')
    ensures SparesAll(MarkNames(names), k)
  {
    hide Mark, Spares;
    if names != [] {
      MarkSpares(Command(names[0]), k);
      MarksSpare(names[1..], k);
    }
  }

  lemma FinishSpares(names: seq<string>, k: string)
    requires (forall i :: 0 <= i < |names| ==> Undo.ValidName(names[i])) && |k| > 6
    requires k[4] != 's' || k[5] != 't' || (InStorage(k) && k[28] != 'o')
    requires !InS(k) || k[6] != 'u'
    ensures SparesAll(Finish(names), k)
  {
    hide Mark, Norm, AtOrBelow;
    MarksSpare(names, k);
    UgIsName();
    MarkSpares(USERGROUP, k);
    SKeys();
    StartupWritesApart(k);
    assert USER_STARTUP == Undo.US;
    assert Spares(Startup, k);
    SparesConcat(MarkNames(names), [Mark(USERGROUP), Startup], k);
  }

  // --------------------------------------------------- nothing vanishes

  /** The statement never takes away the entry at `k`. */
  predicate NeverRemoves(s: Stmt, k: string) {
    match s
    case If(_, thn, els) => NeverRemoves(thn, k) && NeverRemoves(els, k)
    case IfRenameFails(src, _, thn) => Norm(src) != k && NeverRemoves(thn, k)
    case Rename(src, _) => Norm(src) != k
    case Delete(target) => Norm(target) != k
    case _ => true
  }

  lemma {:induction false} NeverRemovesExec(s: Stmt, env: Env, st: State, k: string)
    requires NeverRemoves(s, k)
    ensures k in st.m ==> k in Exec(s, env, st).m
  {
    hide Norm, Kind, Eval;
    match s {
      case If(_, thn, els) => NeverRemovesExec(thn, env, st, k); NeverRemovesExec(els, env, st, k);
      case IfRenameFails(src, dst, thn) => NeverRemovesExec(thn, env, RunRename(src, dst, env, st).0, k);
      case _ =>
    }
  }

  lemma {:induction false} NeverRemovesRun(p: seq<Stmt>, env: Env, st: State, k: string)
    requires forall i :: 0 <= i < |p| ==> NeverRemoves(p[i], k)
    ensures k in st.m ==> k in Run(p, env, st).m
  {
    hide Exec, NeverRemoves;
    if p != [] && st.status == Running {
      NeverRemovesExec(p[0], env, st, k);
      NeverRemovesRun(p[1..], env, Exec(p[0], env, st), k);
    }
  }

  lemma {:induction false} MarksRemoveNothing(names: seq<string>, k: string)
    ensures forall i :: 0 <= i < |MarkNames(names)| ==> NeverRemoves(MarkNames(names)[i], k)
  {
    if names != [] { MarksRemoveNothing(names[1..], k); }
  }
}
