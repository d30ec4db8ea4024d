/** With enough writes, nothing protected and the system's directories in
    place, each part of PREPARE up to the libraries runs to its end. */
module InstallGoes {
  import opened Seqs
  import opened Text
  import opened Files
  import opened Installer
  import opened InstallScript
  import opened InstallSteps
  import opened InstallFrames
  import opened InstallNames
  import opened InstallLib
  import opened InstallDirs
  import opened Restore
  import opened UndoLibs
  import Undo
  import UndoRun
  import opened Keys

  // ------------------------------------------------------- single writes

  predicate HasDir(m: Tree, k: string) { k in m && m[k].Dir? }

  lemma {:induction false} ParentBack(d: string, x: string, i: nat)
    requires NoSlash(x) && |d| + 1 <= i <= |d| + 1 + |x|
    ensures ParentFrom(d + "/" + x, i) == d
    decreases i
  {
    var k := d + "/" + x;
    if i == |d| + 1 {
      assert k[i - 1] == '/' && k[..i - 1] == d;
    } else {
      assert k[i - 1] == x[i - 2 - |d|];
      ParentBack(d, x, i - 1);
    }
  }

  /** A key directly in a directory, short enough to be written. */
  predicate Slot(k: string, d: string) {
    && |k| > |d| + 1 && k[..|d| + 1] == d + "/" && NoSlash(k[|d| + 1..])
    && Writable({}, k) && d != [] && d[|d| - 1] != ':'
  }

  lemma WriteGoes(st: State, path: string, e: Entry, d: string)
    requires st.status == Running && st.ro == {} && st.left > 0 && Slot(Norm(path), d) && HasDir(st.m, d)
    ensures Write(st, path, e) == st.(m := st.m[Norm(path) := e], left := st.left - 1)
  {
    hide Norm, Writable;
    var k := Norm(path);
    var x := k[|d| + 1..];
    assert k == d + "/" + x;
    ParentBack(d, x, |k|);
    assert Kind(st.m, d) == DIRECTORY;
  }

  /** The script runs on, with at most two writes for each statement. */
  ghost predicate Goes(p: seq<Stmt>, env: Env, st: State) {
    var r := Run(p, env, st);
    r.status == Running && r.ro == {} && r.left + 2 * |p| >= st.left
  }

  lemma GoesConcat(a: seq<Stmt>, b: seq<Stmt>, env: Env, st: State)
    requires Goes(a, env, st) && Goes(b, env, Run(a, env, st))
    ensures Goes(a + b, env, st)
  {
    hide Run;
    RunAppend(a, b, env, st);
  }

  predicate Able(st: State, env: Env) { st.status == Running && st.ro == {} && !env.pretend }

  // ------------------------------------------------------ what the host has

  /** The system's own directories. */
  predicate HostDirs(m: Tree) {
    HasDir(m, "sys:c") && HasDir(m, "sys:libs") && HasDir(m, "sys:prefs") && HasDir(m, "sys:s")
  }

  /** The directories that PREPARE makes. */
  predicate OwnDirs(m: Tree, tags: seq<string>) {
    HasDir(m, C_DIR_KEY) && HasDir(m, LIBS_DIR_KEY) && HasDir(m, NEW_DIR_KEY) && forall i :: 0 <= i < |tags| ==>
      HasDir(m, OursKey(tags[i]))
  }

  lemma HostNotAway()
    ensures !Away("sys:c") && !Away("sys:libs") && !Away("sys:prefs") && !Away("sys:s")
    ensures !Away(C_DIR_KEY) && !Away(LIBS_DIR_KEY) && !Away(NEW_DIR_KEY)
  {
    UndoRun.BackupShape(); DirFifth();
  }

  lemma OursNotAway(tag: string)
    requires Undo.ValidName(tag)
    ensures !Away(OursKey(tag))
  {
    hide OursKey, MarkKey;
    OursNorm(tag);
    var w := OursKey(tag);
    if IsMark(w) {
      var n: string, d: nat :| Undo.ValidName(n) && w == MarkKey(n, d);
      OursDirNotMark(tag, n, d);
      MarkSelf(n, d);
    }
  }

  lemma MarkSelf(n: string, d: nat)
    ensures AtOrBelow(MarkKey(n, d), MarkKey(n, d))
  {
  }

  lemma HostStays(p: seq<Stmt>, env: Env, st: State, tags: seq<string>)
    requires AllFilesAway(p) && forall i :: 0 <= i < |tags| ==> Undo.ValidName(tags[i])
    ensures HostDirs(st.m) ==> HostDirs(Run(p, env, st).m)
    ensures OwnDirs(st.m, tags) ==> OwnDirs(Run(p, env, st).m, tags)
  {
    hide AllFilesAway, Run, Away, C_DIR_KEY, LIBS_DIR_KEY, NEW_DIR_KEY, OursKey, Undo.ValidName;
    AwayRun(p, env, st);
    HostNotAway();
    forall i | 0 <= i < |tags| ensures !Away(OursKey(tags[i])) { OursNotAway(tags[i]); }
  }

  // --------------------------------------------------------- the slots

  lemma DirSlots()
    ensures Slot(UNDO_KEY, "sys:s") && Slot(US_KEY, "sys:s") && Slot(US_BAK_KEY, "sys:s")
    ensures Slot(LIVE_UG_KEY, "sys:libs")
  {
    hide Slot, UNDO_KEY, US_KEY, US_BAK_KEY, LIVE_UG_KEY;
    UndoSlot(); StartupSlot(); StartupBackupSlot(); UgLiveSlot();
  }

  lemma UndoSlot()
    ensures Slot(UNDO_KEY, "sys:s")
  {
    hide Slot;
    SSlot("tolunnet-undo");
    assert UNDO_KEY == "sys:s/" + "tolunnet-undo";
  }

  lemma StartupSlot()
    ensures Slot(US_KEY, "sys:s")
  {
    hide Slot;
    SSlot("user-startup");
    assert US_KEY == "sys:s/" + "user-startup";
  }

  lemma StartupBackupSlot()
    ensures Slot(US_BAK_KEY, "sys:s")
  {
    hide Slot;
    var x := "user-startup" + ".tolunnet-bak";
    assert NoSlash(x);
    SSlot(x);
    assert US_BAK_KEY == "sys:s/" + "user-startup" + ".tolunnet-bak";
    assert "sys:s/" + x == US_BAK_KEY;
  }

  lemma SSlot(x: string)
    requires 0 < |x| <= NAME_LIMIT && NoSlash(x)
    ensures Slot("sys:s/" + x, "sys:s")
  {
    hide ShortNames, AfterColon;
    var k := "sys:s/" + x;
    assert k[..6] == "sys:s" + "/" && k[6..] == x;
    AfterSys(k);
    ShortIn("s/", x);
    assert k[4..] == "s/" + x;
  }

  lemma UgLiveSlot()
    ensures Slot(LIVE_UG_KEY, "sys:libs")
  {
    hide ShortNames, AfterColon;
    UgShort();
    assert LIVE_UG_KEY == "sys:libs" + "/" + "usergroup.library";
    assert NoSlash("usergroup.library");
  }

  lemma NameSlots(n: string)
    requires Undo.ValidName(n)
    ensures Slot(LiveKey(n), "sys:c") && Slot(BackupKey(n), C_DIR_KEY) && Slot(NewKey(n), NEW_DIR_KEY)
  {
    hide ShortNames, AfterColon, Lower;
    NamesShort(n); NameShape(n); UndoRun.BackupShape();
    assert LiveKey(n)[6..] == Lower(n) && LiveKey(n)[..6] == "sys:c" + "/";
    assert BACKUP_KEY + "/c/" == C_DIR_KEY + "/" && BACKUP_KEY + "/new/" == NEW_DIR_KEY + "/";
    assert BackupKey(n)[30..] == Lower(n) && NewKey(n)[32..] == Lower(n);
    assert C_DIR_KEY[28] == 'c' && |C_DIR_KEY| == 29;
    assert NEW_DIR_KEY[30] == 'w' && |NEW_DIR_KEY| == 31;
  }

  lemma UgBackupSlot()
    ensures Slot(BACKUP_UG_KEY, LIBS_DIR_KEY)
  {
    hide ShortNames, AfterColon;
    UgShort();
    var x := "usergroup.library";
    assert "/libs/usergroup.library" == "/libs" + ("/" + x);
    assert BACKUP_UG_KEY == LIBS_DIR_KEY + "/" + x;
    assert NoSlash(x) && |LIBS_DIR_KEY| == 32 && LIBS_DIR_KEY[31] == 's';
  }

  lemma MarkSlot(n: string, s: nat)
    requires Undo.ValidName(n) && |Decimal(s)| <= NAME_LIMIT
    ensures Slot(MarkKey(n, s), OursKey(n))
  {
    hide ShortNames, AfterColon, Lower, Decimal;
    OursNorm(n); MarkShape(n, s);
    var k, d := MarkKey(n, s), Decimal(s);
    assert k == OursKey(n) + "/" + d && k[|OursKey(n)| + 1..] == d;
    assert k[0] == 's' && k[1] == 'y' && k[2] == 's' && k[3] == ':' by { assert BACKUP_KEY[..4] == "sys:"; }
    AfterSys(k);
    MarkTailShort(n, d);
    assert k[4..] == OursKey(n)[4..] + "/" + d;
    OursLast(n);
  }

  lemma OursLast(n: string)
    requires Undo.ValidName(n)
    ensures OursKey(n)[|OursKey(n)| - 1] != ':'
  {
    assert OursKey(n)[|OursKey(n)| - 1] == Lower(n)[|n| - 1];
  }

  lemma MarkTailShort(n: string, d: string)
    requires Undo.ValidName(n) && |d| <= NAME_LIMIT
    ensures ShortNames(OursKey(n)[4..] + "/" + d)
  {
    hide ShortNames, Lower;
    BackupTail();
    var a, b := TAIL + "/ours/", Lower(n);
    assert OursKey(n)[4..] == a + b;
    TailSlashes();
    ShortTwice(a, b, d);
  }

  /** The backup directory's path after the volume. */
  const TAIL := "storage/" + "tolunnet-backup"

  lemma BackupTail()
    ensures |BACKUP_KEY| == 27 && BACKUP_KEY[4..] == TAIL && "sys:" <= BACKUP_KEY
  {
    assert BACKUP_KEY == "sys:" + TAIL;
  }

  lemma TailSlashes()
    ensures var a := TAIL + "/ours/"; |a| == 29 && a[7] == '/' && a[23] == '/' && a[28] == '/'
  {
  }

  /** Three parts, each of them short. */
  lemma ShortTwice(a: string, b: string, d: string)
    requires |a| == 29 && a[7] == '/' && a[23] == '/' && a[28] == '/' && |b| <= NAME_LIMIT && |d| <= NAME_LIMIT
    ensures ShortNames(a + b + "/" + d)
  {
    var s := a + b + "/" + d;
    forall i | 0 <= i <= |s| - NAME_LIMIT - 1 ensures SlashWithin(s, i) {
      if i <= 7 { assert s[7] == '/'; }
      else if i <= 28 { assert s[28] == '/'; }
      else { assert s[29 + |b|] == '/'; }
    }
  }

  // -------------------------------------------------- undo and directories

  lemma UndoGoes(names: seq<string>, env: Env, st: State)
    requires Undo.ValidNames(names) && Able(st, env) && st.left > 0 && HostDirs(st.m)
    ensures var p := [TextFile(L(Undo.UNDO), UndoText(names))];
            Goes(p, env, st) && Run(p, env, st).vars == st.vars
              && Run(p, env, st).m == st.m[UNDO_KEY := File(UndoText(names))]
  {
    hide Norm, Slot, UndoText, Write, UNDO_KEY;
    var t := TextFile(L(Undo.UNDO), UndoText(names));
    RunOne(t, env, st);
    SKeys(); DirSlots();
    assert Eval(L(Undo.UNDO), env, st) == Some(Str(Undo.UNDO));
    WriteGoes(st, Undo.UNDO, File(UndoText(names)), "sys:s");
  }

  /** The key is free or a directory already. */
  predicate Open(m: Tree, k: string) { Kind(m, k) == ABSENT || HasDir(m, k) }

  lemma EnsureGoes(d: string, env: Env, st: State)
    requires Able(st, env) && st.left > 0 && Writable({}, Norm(d))
    ensures var r := Exec(EnsureDir(d), env, st);
            && r.status == Running && r.ro == {} && r.vars == st.vars && r.left + 1 >= st.left
            && (Open(st.m, Norm(d)) ==> HasDir(r.m, Norm(d)))
            && (r.m == st.m || r.m == st.m[Norm(d) := Dir])
  {
    hide Norm, Kind, Writable;
    EvalExists(d, env, st);
    ExecIf(Not(Exists(L(d))), MakeDir(d), Skip, env, st);
    if HasDir(st.m, Norm(d)) { KindPresent(st.m, Norm(d)); }
  }

  function EnsureAll(ds: seq<string>): seq<Stmt> {
    if ds == [] then [] else [EnsureDir(ds[0])] + EnsureAll(ds[1..])
  }

  /** A parent comes before its children. */
  predicate Ordered(ds: seq<string>) {
    forall i, j :: 0 <= i < j < |ds| ==> !Below(Norm(ds[i]), Norm(ds[j]))
  }

  lemma {:induction false} DirsGo(ds: seq<string>, env: Env, st: State)
    requires Able(st, env) && st.left >= |ds| && Ordered(ds)
    requires forall i :: 0 <= i < |ds| ==> Writable({}, Norm(ds[i]))
    ensures var r := Run(EnsureAll(ds), env, st);
            && r.status == Running && r.ro == {} && r.vars == st.vars && r.left + |ds| >= st.left
            && (forall i :: 0 <= i < |ds| && Open(st.m, Norm(ds[i])) ==> HasDir(r.m, Norm(ds[i])))
            && (forall k :: HasDir(st.m, k) ==> HasDir(r.m, k))
    ensures |EnsureAll(ds)| == |ds|
  {
    hide Norm, Exec, Writable, Kind, EnsureDir, Below;
    if ds != [] {
      var mid := Exec(EnsureDir(ds[0]), env, st);
      EnsureGoes(ds[0], env, st);
      var rest := ds[1..];
      forall i | 0 <= i < |rest| && Open(st.m, Norm(rest[i])) ensures Open(mid.m, Norm(rest[i])) {
        assert rest[i] == ds[i + 1];
        OpenStays(st.m, mid.m, Norm(ds[0]), Norm(rest[i]));
      }
      assert Ordered(rest) by {
        forall i, j | 0 <= i < j < |rest| ensures !Below(Norm(rest[i]), Norm(rest[j])) {
          assert rest[i] == ds[i + 1] && rest[j] == ds[j + 1];
        }
      }
      DirsGo(rest, env, mid);
      var r := Run(EnsureAll(ds), env, st);
      assert EnsureAll(ds)[1..] == EnsureAll(rest);
      forall i | 0 <= i < |ds| && Open(st.m, Norm(ds[i])) ensures HasDir(r.m, Norm(ds[i])) {
        if i > 0 { assert ds[i] == rest[i - 1]; }
      }
    }
  }

  lemma OpenStays(m: Tree, m': Tree, w: string, k: string)
    requires (m' == m || m' == m[w := Dir]) && Open(m, k) && !Below(w, k)
    ensures Open(m', k)
  {
    if w != k { assert Children(m', k) == Children(m, k); }
  }

  const BASE: seq<string> := ["SYS:Storage", BK, BK + "/C", BK + "/Libs", BK + "/new", BK + "/ours"]

  function TagDirs(tags: seq<string>): (ds: seq<string>)
    ensures |ds| == |tags| && forall i :: 0 <= i < |tags| ==> ds[i] == BK + "/ours/" + tags[i]
  {
    seq(|tags|, i requires 0 <= i < |tags| => BK + "/ours/" + tags[i])
  }

  lemma {:induction false} OursAreEnsured(tags: seq<string>)
    ensures OursDirs(tags) == EnsureAll(TagDirs(tags))
  {
    hide EnsureDir;
    if tags != [] {
      OursAreEnsured(tags[1..]);
      assert TagDirs(tags)[1..] == TagDirs(tags[1..]);
    }
  }

  lemma {:induction false} EnsureConcat(a: seq<string>, b: seq<string>)
    ensures EnsureAll(a + b) == EnsureAll(a) + EnsureAll(b)
  {
    hide EnsureDir;
    if a == [] {
      assert a + b == b;
    } else {
      assert (a + b)[1..] == a[1..] + b;
      EnsureConcat(a[1..], b);
    }
  }

  lemma BaseEnsured()
    ensures DIRS == EnsureAll(BASE)
  {
    hide EnsureDir, Undo.BK;
    assert BASE[1..] == [BK, BK + "/C", BK + "/Libs", BK + "/new", BK + "/ours"];
    assert BASE[1..][1..] == [BK + "/C", BK + "/Libs", BK + "/new", BK + "/ours"];
    assert BASE[1..][1..][1..] == [BK + "/Libs", BK + "/new", BK + "/ours"];
    EnsureThree(BK + "/Libs", BK + "/new", BK + "/ours");
    assert EnsureAll(BASE[1..][1..]) == [EnsureDir(BK + "/C")] + EnsureAll(BASE[1..][1..][1..]);
    assert EnsureAll(BASE[1..]) == [EnsureDir(BK)] + EnsureAll(BASE[1..][1..]);
    assert EnsureAll(BASE) == [EnsureDir("SYS:Storage")] + EnsureAll(BASE[1..]);
  }

  lemma EnsureThree(a: string, b: string, c: string)
    ensures EnsureAll([a, b, c]) == [EnsureDir(a), EnsureDir(b), EnsureDir(c)]
  {
    hide EnsureDir;
    assert [a, b, c][1..] == [b, c] && [b, c][1..] == [c] && [c][1..] == [];
    assert EnsureAll([c]) == [EnsureDir(c)];
    assert EnsureAll([b, c]) == [EnsureDir(b), EnsureDir(c)];
  }

  /** The keys of the six fixed directories. */
  lemma BaseKeys(i: nat)
    requires i < 6
    ensures var k := Norm(BASE[i]);
            && k == ["sys:storage", BACKUP_KEY, C_DIR_KEY, LIBS_DIR_KEY, NEW_DIR_KEY, OURS_DIR_KEY][i]
            && |k| <= 32 && Writable({}, k)
  {
    hide Norm, Writable, Undo.BK;
    DirKeys(); StorageKey(); DirFifth(); UndoRun.BackupShape();
    BaseWritable();
  }

  lemma BaseWritable()
    ensures Writable({}, "sys:storage") && Writable({}, BACKUP_KEY) && Writable({}, C_DIR_KEY)
    ensures Writable({}, LIBS_DIR_KEY)
    ensures Writable({}, NEW_DIR_KEY) && Writable({}, OURS_DIR_KEY)
  {
    hide ShortNames, AfterColon, BACKUP_KEY, TAIL;
    BackupTail();
    AfterSys("sys:storage"); AfterSys(BACKUP_KEY);
    assert "sys:storage"[4..] == "storage";
    TinyShort("storage");
    TailShort();
    PartWritable("c"); PartWritable("libs"); PartWritable("new"); PartWritable("ours");
    assert BACKUP_KEY + "/c" == BACKUP_KEY + "/" + "c" && BACKUP_KEY + "/libs" == BACKUP_KEY + "/" + "libs";
    assert BACKUP_KEY + "/new" == BACKUP_KEY + "/" + "new" && BACKUP_KEY + "/ours" == BACKUP_KEY + "/" + "ours";
  }

  lemma TailShort()
    ensures ShortNames(TAIL) && |TAIL| == 23
  {
    hide ShortNames;
    ShortIn("storage/", "tolunnet-backup");
  }

  lemma PartWritable(x: string)
    requires |x| <= NAME_LIMIT
    ensures Writable({}, BACKUP_KEY + "/" + x)
  {
    hide ShortNames, AfterColon, BACKUP_KEY, TAIL;
    BackupTail(); TailShort();
    var k := BACKUP_KEY + "/" + x;
    assert k[..4] == BACKUP_KEY[..4];
    AfterSys(k);
    assert k[4..] == TAIL + "/" + x;
    ShortIn(TAIL + "/", x);
  }

  lemma TinyShort(s: string)
    requires |s| <= NAME_LIMIT
    ensures ShortNames(s)
  {
  }

  lemma TagWritable(t: string)
    requires Undo.ValidName(t)
    ensures Writable({}, Norm(BK + "/ours/" + t)) && Norm(BK + "/ours/" + t) == OursKey(t) && |OursKey(t)| > 33
  {
    hide Norm, ShortNames, AfterColon, Lower;
    OursNorm(t);
    var k := OursKey(t);
    assert k[0] == 's' && k[1] == 'y' && k[2] == 's' && k[3] == ':' by { assert BACKUP_KEY[..4] == "sys:"; }
    AfterSys(k);
    var d := "storage/tolunnet-backup" + "/ours/";
    assert BACKUP_KEY[4..] == "storage/tolunnet-backup";
    ShortIn(d, Lower(t));
    assert k[4..] == d + Lower(t);
  }

  lemma DirsOrdered(tags: seq<string>)
    requires forall i :: 0 <= i < |tags| ==> Undo.ValidName(tags[i])
    ensures Ordered(BASE + TagDirs(tags))
  {
    hide Norm, Below, Undo.ValidName, BASE, Undo.BK;
    var ds := BASE + TagDirs(tags);
    forall i, j | 0 <= i < j < |ds| ensures !Below(Norm(ds[i]), Norm(ds[j])) {
      BaseSize();
      if j < 6 {
        assert ds[i] == BASE[i] && ds[j] == BASE[j];
        BaseKeys(i); BaseKeys(j);
        BaseApart(i, j);
      } else {
        assert ds[j] == TagDirs(tags)[j - 6];
        TagWritable(tags[j - 6]);
        if i < 6 {
          assert ds[i] == BASE[i];
          BaseKeys(i);
          LongerNotAbove(Norm(ds[i]), Norm(ds[j]));
        } else {
          assert ds[i] == TagDirs(tags)[i - 6];
          TagWritable(tags[i - 6]);
          OursSiblings(tags[i - 6], tags[j - 6]);
        }
      }
    }
  }

  lemma BaseSize()
    ensures |BASE| == 6
  {
  }

  lemma LongerNotAbove(a: string, b: string)
    requires |a| <= |b|
    ensures !Below(a, b)
  {
  }

  lemma OursSiblings(a: string, b: string)
    requires Undo.ValidName(a)
    ensures !Below(OursKey(a), OursKey(b))
  {
    hide Lower;
    OursNorm(a);
    NotBelowSibling(BACKUP_KEY + "/ours/", Lower(a), Lower(b));
  }

  lemma BaseApart(i: nat, j: nat)
    requires i < j < 6
    ensures var ks := ["sys:storage", BACKUP_KEY, C_DIR_KEY, LIBS_DIR_KEY, NEW_DIR_KEY, OURS_DIR_KEY];
            !Below(ks[i], ks[j])
  {
    UndoRun.BackupShape(); DirFifth();
    if i == 3 && j == 4 { DifferAt(LIBS_DIR_KEY, NEW_DIR_KEY, 28); }
  }

  /** The directories that must not be taken by a file. */
  predicate AllOpen(m: Tree, tags: seq<string>) {
    Open(m, C_DIR_KEY) && Open(m, LIBS_DIR_KEY) && Open(m, NEW_DIR_KEY) && forall i :: 0 <= i < |tags| ==>
      Open(m, OursKey(tags[i]))
  }

  lemma DirsPhase(tags: seq<string>, env: Env, st: State)
    requires Able(st, env) && st.left >= 6 + |tags| && AllOpen(st.m, tags) && HostDirs(st.m)
    requires forall i :: 0 <= i < |tags| ==> Undo.ValidName(tags[i])
    ensures var p := DIRS + OursDirs(tags);
            Goes(p, env, st) && Run(p, env, st).vars == st.vars && HostDirs(Run(p, env, st).m)
              && OwnDirs(Run(p, env, st).m, tags)
            && |p| == 6 + |tags|
  {
    hide Norm, Run, EnsureAll, Writable, Undo.ValidName, BASE, Ordered, OursDirs, DIRS, Kind, Undo.BK;
    BaseEnsured(); OursAreEnsured(tags); EnsureConcat(BASE, TagDirs(tags));
    BaseSize();
    var ds := BASE + TagDirs(tags);
    forall i | 0 <= i < |ds| ensures Writable({}, Norm(ds[i])) {
      if i < 6 {
        assert ds[i] == BASE[i]; BaseKeys(i);
      } else {
        assert ds[i] == TagDirs(tags)[i - 6]; TagWritable(tags[i - 6]);
      }
    }
    DirsOrdered(tags);
    DirsGo(ds, env, st);
    BaseKeys(2); BaseKeys(3); BaseKeys(4);
    assert ds[2] == BASE[2] && ds[3] == BASE[3] && ds[4] == BASE[4];
    var r := Run(EnsureAll(ds), env, st);
    forall i | 0 <= i < |tags| ensures HasDir(r.m, OursKey(tags[i])) {
      assert ds[i + 6] == TagDirs(tags)[i];
      TagWritable(tags[i]);
    }
  }

  // ------------------------------------------------------- saving a file

  lemma SaveGoes(f: Saved, env: Env, st: State, d: string)
    requires Proper(f) && Able(st, env) && st.left > 0 && Content(st.m, Norm(f.live)).Some?
    requires Slot(Norm(BackupOf(f)), d) && HasDir(st.m, d)
    ensures Exec(Save(f), env, st)
            == st.(m := st.m[Norm(BackupOf(f)) := File(Content(st.m, Norm(f.live)).value)], left := st.left - 1)
  {
    hide Norm, Kind, Write, Slot, Keylike, Unrelated;
    var kl := Norm(f.live);
    assert Source(f.live, env, st) == Some(st.m[kl]);
    assert InDir(f.dir, f.tag) == BackupOf(f);
    WriteGoes(st, BackupOf(f), st.m[kl], d);
  }

  lemma VerifiedGoes(f: Saved, env: Env, st: State)
    requires Able(st, env) && Content(st.m, Norm(f.live)).Some?
    requires Content(st.m, Norm(BackupOf(f))) == Content(st.m, Norm(f.live))
    ensures Exec(Verified(f), env, st) == st
  {
    hide Norm, Kind, Eval, Exec, Content, BackupOf;
    var v := Verified(f);
    EvalPretend(env, st);
    ExecIf(v.c, v.thn, v.els, env, st);
    EvalSizes(f.live, BackupOf(f), env, st);
    ExecIf(v.thn.c, v.thn.thn, v.thn.els, env, st);
    ExecSkip(env, st);
  }

  lemma EvalPretend(env: Env, st: State)
    requires !env.pretend
    ensures Eval(Equal(Pretend, N(0)), env, st) == Some(Int(1))
  {
    assert Eval(Pretend, env, st) == Some(Int(0)) && Eval(N(0), env, st) == Some(Int(0));
  }

  lemma EvalSizes(a: string, b: string, env: Env, st: State)
    requires Content(st.m, Norm(a)).Some? && Content(st.m, Norm(b)).Some?
    ensures Eval(Differ(GetSize(L(a)), GetSize(L(b))), env, st)
            == Some(Truth(|Content(st.m, Norm(a)).value| != |Content(st.m, Norm(b)).value|))
  {
    hide Norm, Kind, Content;
    EvalFile(a, env, st);
    EvalFile(b, env, st);
  }

  /** The backup and the check after it. */
  lemma SavePairGoes(f: Saved, env: Env, st: State, code: int, d: string)
    requires Proper(f) && Able(st, env) && st.left > 0 && ACT in st.vars && st.vars[ACT] == Int(code)
    requires code == 1 ==> Content(st.m, Norm(f.live)).Some?
    requires Slot(Norm(BackupOf(f)), d) && HasDir(st.m, d)
    ensures var r := Run([Act(1, Save(f)), Act(1, Verified(f))], env, st);
            r.status == Running && r.ro == {} && r.left + 1 >= st.left && r.vars == st.vars
            && (code != 1 ==> r == st)
  {
    hide Norm, Kind, Exec, Act, Save, Verified, Proper, BackupOf, Slot, Content, HasDir, ACT;
    RunTwo(Act(1, Save(f)), Act(1, Verified(f)), env, st);
    ActExec(1, Save(f), env, st);
    var s1 := Exec(Act(1, Save(f)), env, st);
    if code == 1 {
      SaveGoes(f, env, st, d);
      SavedContent(f, st.m);
      ActExec(1, Verified(f), env, s1);
      VerifiedGoes(f, env, s1);
    } else {
      ActExec(1, Verified(f), env, st);
    }
  }

  lemma SavedContent(f: Saved, m: Tree)
    requires Proper(f) && Content(m, Norm(f.live)).Some?
    ensures var m' := m[Norm(BackupOf(f)) := File(Content(m, Norm(f.live)).value)];
            Content(m', Norm(f.live)) == Content(m, Norm(f.live)) == Content(m', Norm(BackupOf(f)))
  {
    hide Norm;
  }

  lemma NameGoes(n: string, legacy: bool, env: Env, st: State)
    requires Undo.ValidName(n) && Able(st, env) && st.left > 1 && FlagIs(st.vars, legacy)
    requires Plain(st.m, LiveKey(n)) && HasDir(st.m, C_DIR_KEY) && HasDir(st.m, NEW_DIR_KEY)
    ensures Goes(PrepareName(n), env, st) && |PrepareName(n)| == 5
  {
    hide *;
    var f := Command(n);
    CommandProper(n); NameSlots(n);
    var code := Code(st.m, f, env.sum, true, legacy);
    CodeMeans(st.m, f, env.sum, true, legacy);
    AbleIs(st, env);
    PrepareNameUnfold(n, legacy, env, st);
    var s1 := st.(vars := st.vars[ACT := Int(code)]);
    AbleIs(s1, env);
    SavePairGoes(f, env, s1, code, C_DIR_KEY);
    var s2 := Run([Act(1, Save(f)), Act(1, Verified(f))], env, s1);
    ActExec(2, TextFile(L(BK + "/new/" + n), ""), env, s2);
    if code == 2 {
      NewGoes(BK + "/new/" + n, env, s2);
    }
    PrepareNameSize(n);
    GoesIs(PrepareName(n), env, st);
  }

  lemma AbleIs(st: State, env: Env)
    ensures Able(st, env) <==> st.status == Running && st.ro == {} && !env.pretend
  {
  }

  lemma GoesIs(p: seq<Stmt>, env: Env, st: State)
    ensures var r := Run(p, env, st);
            Goes(p, env, st) <==> r.status == Running && r.ro == {} && r.left + 2 * |p| >= st.left
  {
  }

  lemma PrepareNameSize(n: string)
    ensures |PrepareName(n)| == 5
  {
  }

  lemma NewGoes(path: string, env: Env, st: State)
    requires st.status == Running && st.ro == {} && !env.pretend && st.left > 0 && Slot(Norm(path), NEW_DIR_KEY)
    requires HasDir(st.m, NEW_DIR_KEY)
    ensures var r := Exec(TextFile(L(path), ""), env, st); r.status == Running && r.ro == {} && r.left + 1 == st.left
  {
    hide Norm, Kind, Write, Slot, HasDir, NEW_DIR_KEY;
    assert Eval(L(path), env, st) == Some(Str(path));
    WriteGoes(st, path, File(""), NEW_DIR_KEY);
  }

  lemma {:induction false} NamesGo(names: seq<string>, legacy: bool, env: Env, st: State, tags: seq<string>)
    requires Able(st, env) && st.left > 10 * |names| && FlagIs(st.vars, legacy)
    requires (forall i :: 0 <= i < |names| ==> Undo.ValidName(names[i]) && Plain(st.m, LiveKey(names[i])))
    requires (forall i :: 0 <= i < |tags| ==> Undo.ValidName(tags[i])) && HostDirs(st.m) && OwnDirs(st.m, tags)
    ensures var p := PrepareNames(names);
            Goes(p, env, st) && |p| == 5 * |names| && FlagIs(Run(p, env, st).vars, legacy)
            && HostDirs(Run(p, env, st).m) && OwnDirs(Run(p, env, st).m, tags)
  {
    hide Run, PrepareName, LiveKey, Plain, Undo.ValidName, LEGACY, HostDirs, Goes, Able, AllFilesAway, KeepsVar;
    AbleIs(st, env);
    if names == [] {
      RunNone(env, st);
      GoesIs([], env, st);
    } else {
      var x, rest := names[0], names[1..];
      var mid := Run(PrepareName(x), env, st);
      NameGoes(x, legacy, env, st);
      GoesIs(PrepareName(x), env, st);
      AbleIs(mid, env);
      PrepareNameAway(x);
      HostStays(PrepareName(x), env, st, tags);
      PrepareNameKeepsLegacy(x);
      KeepsVarRun(PrepareName(x), env, st, LEGACY);
      forall i | 0 <= i < |rest| ensures Undo.ValidName(rest[i]) && Plain(mid.m, LiveKey(rest[i])) {
        assert rest[i] == names[i + 1];
        PrepareKeepsPlain(x, rest[i], env, st);
      }
      NamesGo(rest, legacy, env, mid, tags);
      RunAppend(PrepareName(x), PrepareNames(rest), env, st);
      GoesConcat(PrepareName(x), PrepareNames(rest), env, st);
      assert PrepareNames(names) == PrepareName(x) + PrepareNames(rest);
    }
  }

  lemma RunNone(env: Env, st: State)
    ensures Run([], env, st) == st
  {
  }

  lemma UgGoes(legacy: bool, env: Env, st: State)
    requires Able(st, env) && st.left > 0 && FlagIs(st.vars, legacy)
    requires Plain(st.m, LIVE_UG_KEY) && HasDir(st.m, LIBS_DIR_KEY)
    ensures Goes(PREPARE_UG, env, st) && |PREPARE_UG| == 4
  {
    hide *;
    AbleIs(st, env);
    UgProper(); UgBackupSlot(); ProperKeylike(USERGROUP);
    var save := [Act(1, Save(USERGROUP)), Act(1, Verified(USERGROUP))];
    UgSplit();
    RunAppend(Decision(USERGROUP, false), save, env, st);
    DecisionExec(USERGROUP, false, legacy, env, st);
    var code := Code(st.m, USERGROUP, env.sum, false, legacy);
    CodeMeans(st.m, USERGROUP, env.sum, false, legacy);
    var s1 := st.(vars := st.vars[ACT := Int(code)]);
    AbleIs(s1, env);
    SavePairGoes(USERGROUP, env, s1, code, LIBS_DIR_KEY);
    GoesIs(PREPARE_UG, env, st);
  }

  lemma UgSplit()
    ensures PREPARE_UG == Decision(USERGROUP, false) + [Act(1, Save(USERGROUP)), Act(1, Verified(USERGROUP))]
    ensures |PREPARE_UG| == 4
  {
  }

  // ------------------------------------------------------------ library

  lemma LibGoes(env: Env, st: State)
    requires Able(st, env) && st.left > 0 && PlainShelf(st.m) && LibCode(ShelfOf(st.m), env.sum) != 4
    ensures Goes(PREPARE_LIB, env, st) && |PREPARE_LIB| == 7
  {
    hide Norm, Kind, Run, Exec, Plain, Content, LIB_KEY, PARKED_KEY, NEWER_KEY, Undo.PARKED, Undo.NEWER, LIBVAR, Park,
         DropCopy, LIB_CHOICE, Chosen, Unrelated, Keylike, SameBy, Goes;
    var l := ShelfOf(st.m);
    var code := LibCode(l, env.sum);
    var s := st.(vars := st.vars[LIBVAR := Int(code)]);
    assert PREPARE_LIB == [Choose(0), LIB_CHOICE] + ACTIONS;
    RunAppend([Choose(0), LIB_CHOICE], ACTIONS, env, st);
    ChoiceExec(env, st);
    ActionsExec(code, env, s);
    LibKeys(); ShelfApart(); ShelfWritable();
    if code == 1 { ParkGoes(PARKED, env, s); }
    else if code == 2 { ParkGoes(NEWER, env, s); }
    else if code == 3 { DropGoes(PARKED, env, s); }
    else if code == 5 { DropGoes(NEWER, env, s); }
    GoesIs(PREPARE_LIB, env, st);
  }

  lemma ParkGoes(dst: string, env: Env, st: State)
    requires Able(st, env) && st.left > 0 && Writable({}, LIB_KEY) && Writable({}, Norm(dst))
    requires Plain(st.m, LIB_KEY) && Plain(st.m, Norm(dst)) && Keylike(LIB_KEY) && Keylike(Norm(dst))
    requires Content(st.m, LIB_KEY).Some? && Content(st.m, Norm(dst)).None?
    ensures var r := Exec(Park(dst), env, st); r.status == Running && r.ro == {} && r.left + 1 == st.left
  {
    hide Norm, Writable, LIB_KEY, Undo.LIB, Kind;
    LibKeys();
    PlainKind(st.m, LIB_KEY);
    PlainKind(st.m, Norm(dst));
  }

  lemma DropGoes(dst: string, env: Env, st: State)
    requires Able(st, env) && st.left > 0 && Writable({}, LIB_KEY)
    requires Plain(st.m, LIB_KEY) && Keylike(LIB_KEY) && Content(st.m, LIB_KEY).Some? && Content(st.m, Norm(dst)).Some?
    requires SameBy(env.sum, Content(st.m, LIB_KEY).value, Content(st.m, Norm(dst)).value)
    ensures var r := Exec(DropCopy(dst), env, st); r.status == Running && r.ro == {} && r.left + 1 == st.left
  {
    hide Norm, Writable, LIB_KEY, Undo.LIB, Kind, Same, SameBy;
    LibKeys();
    PlainKind(st.m, LIB_KEY);
    EvalSame(LIB, dst, env, st);
    ExecIf(Same(LIB, dst), Delete(LIB), Skip, env, st);
  }
}
