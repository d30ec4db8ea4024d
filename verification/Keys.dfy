/** The file-system keys of the paths the install and its undo use, and
    which of them are unrelated. */
module Keys {
  import opened Text
  import opened Files
  import opened Undo

  const BACKUP_KEY := "sys:storage/tolunnet-backup"
  const C_DIR_KEY := BACKUP_KEY + "/c"
  const LIBS_DIR_KEY := BACKUP_KEY + "/libs"
  const NEW_DIR_KEY := BACKUP_KEY + "/new"
  const OURS_DIR_KEY := BACKUP_KEY + "/ours"

  function LiveKey(n: string): string { "sys:c/" + Lower(n) }
  function BackupKey(n: string): string { BACKUP_KEY + "/c/" + Lower(n) }
  function NewKey(n: string): string { BACKUP_KEY + "/new/" + Lower(n) }
  function OursKey(tag: string): string { BACKUP_KEY + "/ours/" + Lower(tag) }

  const LIVE_UG_KEY := "sys:libs/usergroup.library"
  const BACKUP_UG_KEY := BACKUP_KEY + "/libs/usergroup.library"
  const LIB_KEY := "sys:libs/bsdsocket.library"
  const PARKED_KEY := LIB_KEY + ".pre-tolunnet"
  const NEWER_KEY := LIB_KEY + ".pre-tn-newer"
  const UNDO_KEY := "sys:s/tolunnet-undo"
  const STACKS_KEY := "sys:s/tolunnet-undo-stacks"
  const US_KEY := "sys:s/user-startup"
  const US_BAK_KEY := US_KEY + ".tolunnet-bak"
  const US_OLD_KEY := US_KEY + ".tolunnet-old"

  // ------------------------------------------------- paths become keys

  lemma LowerBk()
    ensures Lower(BK) == BACKUP_KEY
  {
  }

  lemma LowerPieces()
    ensures Lower("SYS:C/") == "sys:c/"
    ensures Lower("/C/") == "/c/" && Lower("/C") == "/c" && Lower("/Libs") == "/libs"
    ensures Lower("/new/") == "/new/" && Lower("/new") == "/new" && Lower("/ours") == "/ours"
    ensures Lower(".pre-tolunnet") == ".pre-tolunnet" && Lower(".pre-tn-newer") == ".pre-tn-newer"
    ensures Lower(".tolunnet-bak") == ".tolunnet-bak" && Lower(".tolunnet-old") == ".tolunnet-old"
  {
  }

  lemma LowerUg()
    ensures Lower(LIVE_UG) == LIVE_UG_KEY
    ensures Lower("/Libs/usergroup.library") == "/libs/usergroup.library"
  {
  }

  lemma LowerS()
    ensures Lower(UNDO) == "s:" + "tolunnet-undo"
    ensures Lower(STACKS) == "s:" + "tolunnet-undo-stacks"
    ensures Lower(US) == "s:" + "user-startup"
  {
    LowerUndo(); LowerStacks(); LowerStartup();
  }

  lemma LowerUndo()
    ensures Lower(UNDO) == "s:" + "tolunnet-undo"
  {
  }

  lemma LowerStacks()
    ensures Lower(STACKS) == "s:" + "tolunnet-undo-stacks"
  {
  }

  lemma LowerStartup()
    ensures Lower(US) == "s:" + "user-startup"
  {
  }

  lemma SysPrefix(p: string, rest: string)
    requires p == "SYS:" + rest && SolidEnds(p)
    ensures Norm(p) == Lower(p)
  {
    assert Lower(p)[..4] == "sys:";
    NormSys(p);
  }

  lemma BkPath(sub: string)
    requires sub != [] && SolidChar(sub[|sub| - 1])
    ensures Norm(BK + sub) == BACKUP_KEY + Lower(sub)
  {
    LowerBk();
    LowerConcat(BK, sub);
    var p := BK + sub;
    assert p == "SYS:" + p[4..];
    SysPrefix(p, p[4..]);
  }

  lemma NameKeys(n: string)
    requires ValidName(n)
    ensures Norm(LivePath(n)) == LiveKey(n)
    ensures Norm(BackupPath(n)) == BackupKey(n)
    ensures Norm(NewPath(n)) == NewKey(n)
  {
    hide Norm, Lower;
    LowerPieces();
    LowerConcat("SYS:C/", n);
    assert LivePath(n) == "SYS:" + ("C/" + n);
    SysPrefix(LivePath(n), "C/" + n);
    BkPath("/C/" + n);
    LowerConcat("/C/", n);
    assert BK + ("/C/" + n) == BackupPath(n);
    assert BACKUP_KEY + ("/c/" + Lower(n)) == BackupKey(n);
    BkPath("/new/" + n);
    LowerConcat("/new/", n);
    assert BK + ("/new/" + n) == NewPath(n);
    assert BACKUP_KEY + ("/new/" + Lower(n)) == NewKey(n);
  }

  lemma DirKeys()
    ensures Norm(BK) == BACKUP_KEY
    ensures Norm(BK + "/C") == C_DIR_KEY
    ensures Norm(BK + "/Libs") == LIBS_DIR_KEY
    ensures Norm(BK + "/new") == NEW_DIR_KEY
    ensures Norm(BK + "/ours") == OURS_DIR_KEY
  {
    hide Norm, Lower;
    LowerPieces();
    LowerBk();
    SysPrefix(BK, "Storage/tolunnet-backup");
    BkPath("/C"); BkPath("/Libs"); BkPath("/new"); BkPath("/ours");
  }

  lemma UgKeys()
    ensures Norm(LIVE_UG) == LIVE_UG_KEY
    ensures Norm(BACKUP_UG) == BACKUP_UG_KEY
  {
    hide Norm, Lower;
    LowerUg();
    SysPrefix(LIVE_UG, "Libs/usergroup.library");
    var sub := "/Libs/usergroup.library";
    BkPath(sub);
  }

  lemma LowerLib()
    ensures Lower(LIB) == "libs:" + "bsdsocket.library"
    ensures LIB_KEY == "sys:libs/" + "bsdsocket.library"
  {
    LibKeyIs();
  }

  lemma LibKeyIs()
    ensures LIB_KEY == "sys:libs/" + "bsdsocket.library"
  {
  }

  /** A path beside the stack library, such as its parked names. */
  lemma LibPath(suffix: string)
    requires suffix == Lower(suffix)
    requires suffix != [] ==> SolidChar(suffix[|suffix| - 1])
    ensures Norm(LIB + suffix) == LIB_KEY + suffix
  {
    hide Norm, Lower;
    LowerLib();
    LowerConcat(LIB, suffix);
    var p := LIB + suffix;
    var l := Lower(p);
    assert l == "libs:" + ("bsdsocket.library" + suffix);
    assert l[5..] == "bsdsocket.library" + suffix;
    assert l[0] == 'l';
    assert Resolve(l) == "sys:libs/" + l[5..];
    NormAssign(p, "sys:libs/", 5);
    assert LIB_KEY + suffix == "sys:libs/" + l[5..];
  }

  lemma LowerEmpty()
    ensures Lower("") == ""
  {
  }

  lemma LibKeys()
    ensures Norm(LIB) == LIB_KEY && Norm(PARKED) == PARKED_KEY && Norm(NEWER) == NEWER_KEY
  {
    hide Norm, Lower;
    LowerPieces();
    assert Lower("") == "" by { LowerEmpty(); }
    LibPath("");
    assert LIB + "" == LIB && LIB_KEY + "" == LIB_KEY;
    LibPath(".pre-tolunnet");
    LibPath(".pre-tn-newer");
  }

  /** A path on the S: assign. */
  lemma SPath(p: string, low: string)
    requires |low| > 0 && SolidEnds(p)
    requires Lower(p) == "s:" + low
    ensures Norm(p) == "sys:s/" + low
  {
    var l := Lower(p);
    assert l[0] == 's' && l[1] == ':';
    assert l[2..] == low;
    assert Resolve(l) == "sys:s/" + l[2..];
    NormAssign(p, "sys:s/", 2);
  }

  lemma SKeys()
    ensures Norm(UNDO) == UNDO_KEY && Norm(STACKS) == STACKS_KEY
    ensures Norm(US) == US_KEY && Norm(US_BAK) == US_BAK_KEY && Norm(US_OLD) == US_OLD_KEY
  {
    hide Norm, Lower;
    LowerPieces();
    LowerS();
    SPath(UNDO, "tolunnet-undo");
    SPath(STACKS, "tolunnet-undo-stacks");
    SPath(US, "user-startup");
    BakKey();
    OldKey();
  }

  lemma BakKey()
    ensures Norm(US_BAK) == US_BAK_KEY
  {
    hide Norm, Lower;
    LowerPieces();
    LowerStartup();
    LowerConcat(US, ".tolunnet-bak");
    assert Lower(US_BAK) == "s:" + ("user-startup" + ".tolunnet-bak");
    SPath(US_BAK, "user-startup" + ".tolunnet-bak");
    assert US_BAK_KEY == "sys:s/" + ("user-startup" + ".tolunnet-bak");
  }

  lemma OldKey()
    ensures Norm(US_OLD) == US_OLD_KEY
  {
    hide Norm, Lower;
    LowerPieces();
    LowerStartup();
    LowerConcat(US, ".tolunnet-old");
    assert Lower(US_OLD) == "s:" + ("user-startup" + ".tolunnet-old");
    SPath(US_OLD, "user-startup" + ".tolunnet-old");
    assert US_OLD_KEY == "sys:s/" + ("user-startup" + ".tolunnet-old");
  }

  lemma LowerPrefs()
    ensures Lower("SYS:Prefs/TolunnetPrefs") == "sys:prefs/tolunnetprefs"
    ensures Lower("SYS:Prefs/TolunnetSetup") == "sys:prefs/tolunnetsetup"
  {
    LowerSetup();
  }

  lemma LowerSetup()
    ensures Lower("SYS:Prefs/TolunnetSetup") == "sys:prefs/tolunnetsetup"
  {
  }

  lemma LowerPrefsIcon()
    ensures Lower("SYS:Prefs/TolunnetPrefs.info") == "sys:prefs/tolunnetprefs.info"
  {
  }

  lemma LowerSetupIcon()
    ensures Lower("SYS:Prefs/TolunnetSetup.info") == "sys:prefs/tolunnetsetup.info"
  {
  }

  lemma LowerConfig()
    ensures Lower("DEVS:tolunnet.config") == "devs:" + "tolunnet.config"
  {
  }

  lemma OwnKeys()
    ensures Norm("SYS:Prefs/TolunnetPrefs") == "sys:prefs/tolunnetprefs"
    ensures Norm("SYS:Prefs/TolunnetPrefs.info") == "sys:prefs/tolunnetprefs.info"
    ensures Norm("SYS:Prefs/TolunnetSetup") == "sys:prefs/tolunnetsetup"
    ensures Norm("SYS:Prefs/TolunnetSetup.info") == "sys:prefs/tolunnetsetup.info"
  {
    hide Norm, Lower;
    LowerPrefs(); LowerPrefsIcon(); LowerSetupIcon();
    SysPrefix("SYS:Prefs/TolunnetPrefs", "Prefs/TolunnetPrefs");
    SysPrefix("SYS:Prefs/TolunnetPrefs.info", "Prefs/TolunnetPrefs.info");
    SysPrefix("SYS:Prefs/TolunnetSetup", "Prefs/TolunnetSetup");
    SysPrefix("SYS:Prefs/TolunnetSetup.info", "Prefs/TolunnetSetup.info");
  }

  lemma ConfigKey()
    ensures Norm("DEVS:tolunnet.config") == "sys:devs/" + "tolunnet.config"
  {
    hide Norm, Lower;
    LowerConfig();
    var p := "DEVS:tolunnet.config";
    var l := Lower(p);
    assert l[0] == 'd' && l[5..] == "tolunnet.config";
    assert Resolve(l) == "sys:devs/" + l[5..];
    NormAssign(p, "sys:devs/", 5);
  }

  // --------------------------------------------------------- separation

  /** Keys of different areas differ in the fifth character. */
  lemma AreasApart(a: string, b: string)
    requires |a| > 4 && |b| > 4 && a[4] != b[4]
    ensures Unrelated(a, b)
  {
    DifferAt(a, b, 4);
  }

  /** Keys in different parts of the backup directory differ right after it. */
  lemma PartsApart(a: string, b: string)
    requires |a| > 28 && |b| > 28 && a[28] != b[28]
    ensures Unrelated(a, b)
  {
    DifferAt(a, b, 28);
  }

  /** Where the keys of one name lie. */
  lemma NameShape(n: string)
    requires ValidName(n)
    ensures |LiveKey(n)| > 4 && LiveKey(n)[4] == 'c'
    ensures |BackupKey(n)| > 30 && BackupKey(n)[4] == 's' && BackupKey(n)[28] == 'c'
    ensures |NewKey(n)| > 32 && NewKey(n)[4] == 's' && NewKey(n)[28] == 'n'
    ensures NoSlash(Lower(n))
    ensures LiveKey(n)[|LiveKey(n)| - 1] != ':' && BackupKey(n)[|BackupKey(n)| - 1] != ':'
    ensures NewKey(n)[|NewKey(n)| - 1] != ':'
  {
    assert BACKUP_KEY[4] == 's' && |BACKUP_KEY| == 27;
  }

  lemma OtherName(n: string, m: string)
    requires ValidName(n) && ValidName(m) && Lower(n) != Lower(m)
    ensures Unrelated(LiveKey(n), LiveKey(m))
    ensures Unrelated(BackupKey(n), BackupKey(m))
    ensures Unrelated(NewKey(n), NewKey(m))
  {
    NameShape(n);
    NameShape(m);
    SiblingNames("sys:c/", Lower(n), Lower(m));
    SiblingNames(BACKUP_KEY + "/c/", Lower(n), Lower(m));
    SiblingNames(BACKUP_KEY + "/new/", Lower(n), Lower(m));
  }

  // ------------------------------------------------------- name lengths

  lemma AfterSys(k: string)
    requires "sys:" <= k
    ensures AfterColon(k) == k[4..]
  {
    assert k[0] == 's' && k[1] == 'y' && k[2] == 's' && k[3] == ':';
    assert AfterColonFrom(k, 3) == k[4..];
    assert AfterColonFrom(k, 2) == k[4..];
    assert AfterColonFrom(k, 1) == k[4..];
  }

  /** A short name in a directory whose own part is short. */
  lemma ShortIn(dir: string, name: string)
    requires 0 < |dir| <= NAME_LIMIT + 1 && dir[|dir| - 1] == '/' && |name| <= NAME_LIMIT
    ensures ShortNames(dir + name)
  {
    var s := dir + name;
    forall i: int | 0 <= i <= |s| - NAME_LIMIT - 1
      ensures SlashWithin(s, i)
    {
      assert s[|dir| - 1] == '/';
      assert i <= |dir| - 1 <= i + NAME_LIMIT;
    }
  }

  lemma NamesShort(n: string)
    requires ValidName(n)
    ensures ShortNames(AfterColon(LiveKey(n)))
    ensures ShortNames(AfterColon(BackupKey(n)))
    ensures ShortNames(AfterColon(NewKey(n)))
  {
    AfterSys(LiveKey(n));
    ShortIn("c/", Lower(n));
    assert LiveKey(n)[4..] == "c/" + Lower(n);
    AfterSys(BackupKey(n));
    var d := "storage/tolunnet-backup";
    assert BACKUP_KEY[4..] == d;
    ShortIn(d + "/c/", Lower(n));
    assert BackupKey(n)[4..] == d + "/c/" + Lower(n);
    AfterSys(NewKey(n));
    ShortIn(d + "/new/", Lower(n));
    assert NewKey(n)[4..] == d + "/new/" + Lower(n);
  }

  lemma UgShort()
    ensures ShortNames(AfterColon(LIVE_UG_KEY))
    ensures ShortNames(AfterColon(BACKUP_UG_KEY))
  {
    hide ShortNames, AfterColon;
    LiveUgShort();
    BackupUgShort();
  }

  lemma LiveUgShort()
    ensures ShortNames(AfterColon(LIVE_UG_KEY))
  {
    hide ShortNames, AfterColon;
    var u := "usergroup.library";
    AfterSys(LIVE_UG_KEY);
    ShortIn("libs/", u);
    assert LIVE_UG_KEY == "sys:libs/" + u;
    assert "sys:libs/"[4..] == "libs/";
    assert ("sys:libs/" + u)[4..] == "sys:libs/"[4..] + u;
  }

  lemma BackupTail(u: string)
    ensures var k := BACKUP_KEY + ("/libs/" + u); "sys:" <= k && k[4..] == "storage/tolunnet-backup/libs/" + u
  {
    assert BACKUP_KEY[4..] == "storage/tolunnet-backup";
    assert "storage/tolunnet-backup" + "/libs/" == "storage/tolunnet-backup/libs/";
  }

  lemma BackupUgShort()
    ensures ShortNames(AfterColon(BACKUP_UG_KEY))
  {
    hide ShortNames, AfterColon, BACKUP_KEY;
    var u := "usergroup.library";
    assert "/libs/usergroup.library" == "/libs/" + u;
    var k := BACKUP_KEY + ("/libs/" + u);
    BackupTail(u);
    AfterSys(k);
    ShortIn("storage/tolunnet-backup/libs/", u);
  }

  lemma LibsShort()
    ensures ShortNames(AfterColon(LIB_KEY))
    ensures ShortNames(AfterColon(PARKED_KEY))
    ensures ShortNames(AfterColon(NEWER_KEY))
  {
    hide ShortNames, AfterColon, LIB_KEY;
    LibShort("");
    assert LIB_KEY + "" == LIB_KEY;
    LibShort(".pre-tolunnet");
    LibShort(".pre-tn-newer");
  }

  lemma LibShort(suffix: string)
    requires |suffix| <= 13
    ensures ShortNames(AfterColon(LIB_KEY + suffix))
  {
    hide ShortNames, AfterColon;
    var l := "bsdsocket.library";
    var k := LIB_KEY + suffix;
    assert k[0] == 's' && k[1] == 'y' && k[2] == 's' && k[3] == ':';
    AfterSys(k);
    ShortIn("libs/", l + suffix);
    LibTail();
    assert k[4..] == LIB_KEY[4..] + suffix;
    assert "libs/" + l + suffix == "libs/" + (l + suffix);
  }

  lemma LibTail()
    ensures LIB_KEY[4..] == "libs/" + "bsdsocket.library"
  {
    LibKeyIs();
    var l := "bsdsocket.library";
    assert ("sys:libs/" + l)[4..] == "sys:libs/"[4..] + l;
    assert "sys:libs/"[4..] == "libs/";
  }
}
