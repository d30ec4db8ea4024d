/** Scripts that the whole lint accepts and that take or replace what it is
    meant to guard: each is a generated script with one or two lines more. */
module LintMisses {
  import opened Seqs
  import opened Text
  import opened Files
  import opened Dos
  import opened Printer
  import opened Undo
  import opened Keys
  import opened Lint
  import opened LintClean
  import opened LintScripts
  import opened LintKeys
  import opened Restore
  import opened UndoRun
  import opened UndoSafety
  import opened UndoOthers
  import opened UndoLibs

  /** No wizard's script, and no file where a backup directory belongs. */
  predicate Ordinary(m: Tree) {
    Kind(m, STACKS_KEY) == ABSENT && NotFile(m, C_DIR_KEY) && NotFile(m, BACKUP_KEY)
  }

  predicate Unnamed(names: seq<string>, n: string) {
    ValidNames(names) && ValidName(n) && forall i :: 0 <= i < |names| ==> Lower(names[i]) != Lower(n)
  }

  /** A key that none of the things in Ordinary depends on. */
  predicate Apart(k: string) {
    k != STACKS_KEY && !Below(k, STACKS_KEY) && k != C_DIR_KEY && k != BACKUP_KEY
  }

  lemma LessOrdinary(m: Tree, gone: set<string>)
    requires Ordinary(m)
    ensures Ordinary(m - gone)
  {
    assert Children(m - gone, STACKS_KEY) <= Children(m, STACKS_KEY);
  }

  lemma MoreOrdinary(m: Tree, k: string, e: Entry)
    requires Ordinary(m) && Apart(k)
    ensures Ordinary(m[k := e])
  {
    assert Children(m[k := e], STACKS_KEY) <= Children(m, STACKS_KEY);
  }

  /** One added line, a command that the walk lets through and that succeeds. */
  lemma OneLineRuns(names: seq<string>, line: string, it: Item, m: Tree, m': Tree, e: Event)
    requires ValidNames(names) && LineOf(line, it) && Clean(it) && !it.If? && !it.Execute?
    requires STACKS_KEY !in ItemWriteKeys(it)
    requires Kind(m, STACKS_KEY) == ABSENT && Kind(m', STACKS_KEY) == ABSENT
    requires ExecItem(it, AfterHead(m, {}), 0) == Did(State(m', {}, 0, 21, Go, [Tested(STACKS, false)]), e)
    ensures var lines := LinesWith(names, [line]);
            Accepted(lines, names, m) && RunDos(lines, m, {}, [], 0).m == RunUndo(names, m', {}).m
  {
    hide LineOf, Clean, Kind, STACKS_KEY, LinesWith, Accepted, RunDos, RunUndo, ExecItem, ItemWriteKeys;
    assert LinesOf([line], [it]);
    OneKeys(it);
    CommandKeys(it);
    WithAccepted(names, [line], [it], m);
    ExecOne(it, AfterHead(m, {}), 0);
    WithRuns(names, [line], [it], m, {}, m', [Tested(STACKS, false)] + [e]);
  }

  lemma CommandKeys(it: Item)
    requires !it.If? && !it.Execute?
    ensures ItemExecuteKeys(it) == {}
  {
  }

  // ------------------------------------------------------- a spelling

  lemma AssignKey(n: string)
    requires ValidName(n)
    ensures Norm("C:" + n) == LiveKey(n) && Speakable("C:" + n) && !IsBackup(Lower("C:" + n))
    ensures !IsCommand(Lower("C:" + n))
  {
    hide Norm;
    var p := "C:" + n;
    LowerConcat("C:", n);
    assert Lower("C:") == "c:";
    var l := Lower(p);
    assert l == "c:" + Lower(n) && l[0] == 'c' && l[2..] == Lower(n);
    assert BACKUP_C[0] == 's' && BACKUP_LIBS[0] == 's' && "sys:c/"[0] == 's';
    assert Resolve(l) == "sys:c/" + l[2..];
    NormAssign(p, "sys:c/", 2);
    assert forall i :: 0 <= i < |n| ==> !IsSpace(n[i]);
    assert Upper(p)[0] == 'C' && NIL[0] == '>';
  }

  lemma LiveApart(n: string)
    requires ValidName(n)
    ensures Apart(LiveKey(n)) && Apart(BackupKey(n)) && Apart("t:x") && "t:x" != LiveKey(n) && "t:x" != BackupKey(n)
    ensures Writable({}, LiveKey(n)) && Writable({}, BackupKey(n)) && Writable({}, "t:x")
    ensures Restore.Keylike(LiveKey(n)) && Restore.Keylike(BackupKey(n))
  {
    hide ShortNames, AfterColon, LiveKey, BackupKey, STACKS_KEY, C_DIR_KEY, BACKUP_KEY;
    NameShape(n); StacksShape(); BackupShape(); BackupFifth(n); NameWritable(n); NameUnrelated(n); BelowDirs(n);
    ShortX();
    LiveLonger(n);
  }

  lemma ShortX()
    ensures ShortNames(AfterColon("t:x"))
  {
    assert AfterColonFrom("t:x", 1) == "x";
    assert AfterColonFrom("t:x", 0) == "x";
  }

  lemma LiveLonger(n: string)
    requires ValidName(n)
    ensures |LiveKey(n)| > 6 && |BackupKey(n)| > |C_DIR_KEY| && |C_DIR_KEY| > |BACKUP_KEY|
  {
  }

  /** The C: assign: a command is deleted, marked or not. */
  lemma LintMissesAssign(names: seq<string>, n: string, m: Tree)
    requires Unnamed(names, n) && Ordinary(m) && Plain(m, LiveKey(n)) && Content(m, LiveKey(n)).Some?
    ensures var lines := LinesWith(names, [DeleteLine("C:" + n)]);
            Accepted(lines, names, m) && Content(RunDos(lines, m, {}, [], 0).m, LiveKey(n)).None?
  {
    hide Norm, Lower, Writable, LinesWith, Accepted, RunDos, RunUndo, LineOf, Clean, STACKS_KEY, LiveKey, Speakable,
         IsBackup, IsCommand, Ordinary, ValidName, DeleteLine, Kind, Restore.Keylike;
    var p, k := "C:" + n, LiveKey(n);
    var it := Delete(p, false);
    AssignKey(n);
    DeleteLineOf(p);
    DeleteClean(p);
    LiveApart(n);
    LessOrdinary(m, {k});
    OrdinaryStacks(m); OrdinaryStacks(m - {k});
    PlainKind(m, k);
    var s := AfterHead(m, {});
    assert Children(m, k) == {} && {k} + {} == {k};
    assert ExecItem(it, s, 0) == Did(s.(m := m - {k}), Deleted(p, false));
    OneLineRuns(names, DeleteLine(p), it, m, m - {k}, Deleted(p, false));
    OtherKept(names, n, m - {k});
  }

  lemma OrdinaryStacks(m: Tree)
    requires Ordinary(m)
    ensures Kind(m, STACKS_KEY) == ABSENT
  {
  }

  /** The undo leaves a command it does not name as it is, backup included. */
  lemma OtherKept(names: seq<string>, n: string, m: Tree)
    requires Unnamed(names, n) && Ordinary(m)
    ensures var r := RunUndo(names, m, {}).m;
            Content(r, LiveKey(n)) == Content(m, LiveKey(n)) && Content(r, BackupKey(n)) == Content(m, BackupKey(n))
  {
    hide Norm, Kind, RunUndo, NothingNew, Lower, ValidName, STACKS_KEY, LiveKey, BackupKey, Content, NotFile;
    UndoLeavesOther(names, n, m, {});
    UndoCreatesNothing(names, m, {});
    if Content(m, BackupKey(n)).None? { NoneStaysNone(m, RunUndo(names, m, {}).m, n); }
  }

  // ------------------------------------------------- two watched targets

  const LONG_STARTUP := "SYS:S/User-Startup"
  const LONG_LIBRARY := "SYS:Libs/bsdsocket.library"

  lemma LongStartup()
    ensures Norm(LONG_STARTUP) == US_KEY && Lower(LONG_STARTUP) != STARTUP_LOW && PathWord(LONG_STARTUP)
    ensures |LONG_STARTUP| < 30
  {
    hide Norm;
    assert Lower(LONG_STARTUP) == US_KEY;
    NormSys(LONG_STARTUP);
    PathS(LONG_STARTUP);
  }

  lemma LongLibrary()
    ensures Norm(LONG_LIBRARY) == LIB_KEY && Lower(LONG_LIBRARY) != LIB_LOW && PathWord(LONG_LIBRARY)
    ensures |LONG_LIBRARY| < 30
  {
    hide Norm;
    assert Lower(LONG_LIBRARY) == LIB_KEY;
    NormSys(LONG_LIBRARY);
    PathS(LONG_LIBRARY);
  }

  /** One added Copy of a command over a file in a spelling that is not watched. */
  lemma CopyRuns(names: seq<string>, src: string, dst: string, m: Tree)
    requires ValidNames(names) && PathWord(src) && PathWord(dst) && |src| + |dst| <= 249 && Ordinary(m)
    requires Apart(Norm(dst))
    requires Lower(dst) != STARTUP_LOW && Lower(dst) != LIB_LOW && Kind(m, Norm(src)) == FILE && Writable({}, Norm(dst))
    ensures var lines := LinesWith(names, [CopyLine(src, dst)]); var m' := m[Norm(dst) := m[Norm(src)]];
            Accepted(lines, names, m) && Ordinary(m') && RunDos(lines, m, {}, [], 0).m == RunUndo(names, m', {}).m
  {
    hide Norm, Lower, Writable, LinesWith, Accepted, RunDos, RunUndo, LineOf, Clean, STACKS_KEY, Ordinary, CopyLine,
         Kind, PathWord, STARTUP_LOW, LIB_LOW, Below, C_DIR_KEY, BACKUP_KEY;
    var k := Norm(dst);
    var it, m' := Copy(src, dst), m[k := m[Norm(src)]];
    CopyLineOf(src, dst);
    CopyClean(src, dst);
    MoreOrdinary(m, k, m[Norm(src)]);
    OrdinaryStacks(m); OrdinaryStacks(m');
    var s := AfterHead(m, {});
    assert ExecItem(it, s, 0) == Did(s.(m := m'), Copied(src, dst));
    OneLineRuns(names, CopyLine(src, dst), it, m, m', Copied(src, dst));
  }

  lemma WatchedApart()
    ensures Apart(US_KEY) && Apart(LIB_KEY)
  {
    StacksShape(); BackupShape(); StartupLow(); LibLow();
  }

  /** The long form of S: a live User-Startup is replaced by a command. */
  lemma LintMissesStartup(names: seq<string>, n: string, m: Tree)
    requires ValidNames(names) && ValidName(n) && Ordinary(m) && Content(m, LiveKey(n)).Some?
    requires Content(m, US_KEY).Some?
    ensures var lines := LinesWith(names, [CopyLine(LivePath(n), LONG_STARTUP)]);
            Accepted(lines, names, m) && Content(RunDos(lines, m, {}, [], 0).m, US_KEY) == Content(m, LiveKey(n))
  {
    hide Norm, Lower, Writable, LinesWith, Accepted, RunDos, RunUndo, STACKS_KEY, LiveKey, Ordinary, ValidName,
         CopyLine, Kind, PathWord, US_KEY, STARTUP_LOW, LIB_LOW, LONG_STARTUP, Apart;
    LongStartup(); WatchedApart(); WatchedWritable(); WatchedKeys();
    UnwatchedTarget(LONG_STARTUP);
    LiveSource(n, m);
    CopyRuns(names, LivePath(n), LONG_STARTUP, m);
    var m' := m[US_KEY := m[LiveKey(n)]];
    OrdinaryStacks(m');
    UndoKeepsStartup(names, m', {});
  }

  lemma LiveSource(n: string, m: Tree)
    requires ValidName(n) && Content(m, LiveKey(n)).Some?
    ensures Norm(LivePath(n)) == LiveKey(n) && PathWord(LivePath(n)) && |LivePath(n)| <= 36
    ensures Kind(m, LiveKey(n)) == FILE
  {
    hide Norm, LiveKey;
    NameKeys(n); PathsPrintable(n); NameUnrelated(n);
  }

  /** The undo leaves a live User-Startup alone. */
  lemma UndoKeepsStartup(names: seq<string>, m: Tree, ro: set<string>)
    requires ValidNames(names) && Kind(m, STACKS_KEY) == ABSENT && Content(m, US_KEY).Some?
    ensures Content(RunUndo(names, m, ro).m, US_KEY) == Content(m, US_KEY)
  {
    hide Norm, Kind, STACKS_KEY, US_KEY, ExecItem, ExecBlock, RunUndo, Content, Leaves, LeavesItem, OWN_FILES,
         STARTUP_ITEM, LIB_ITEM, UG_ITEM, AFTER_LIB, DIR_ITEMS, NameItems, AgreeAt;
    UndoIsStages(names, m, ro);
    var s := AfterHead(m, ro);
    HeadState(m, ro);
    var r := RunStages(names, s);
    OthersLeaveStartup(names);
    LeavesExec(NameItems(names), s, 0, US_KEY); AgreePlain(m, r.named.m, US_KEY);
    LeavesExecItem(UG_ITEM, r.named, 0, US_KEY); AgreePlain(r.named.m, r.ug.m, US_KEY);
    StagesGo(names, s);
    assert r.ug in [r.named, r.ug, r.mid, r.lib, r.noted, r.end];
    OwnSteady();
    SteadyExec(OWN_FILES, r.ug, 0);
    var own := ExecBlock(OWN_FILES, r.ug, 0);
    ExecAppend(OWN_FILES, [STARTUP_ITEM], r.ug, 0);
    ExecOne(STARTUP_ITEM, own, 0);
    LeavesExec(OWN_FILES, r.ug, 0, US_KEY); AgreePlain(r.ug.m, own.m, US_KEY);
    StartupItemKeeps(own); AgreePlain(own.m, r.mid.m, US_KEY);
    LeavesExecItem(LIB_ITEM, r.mid, 0, US_KEY); AgreePlain(r.mid.m, r.lib.m, US_KEY);
    LeavesExec(AFTER_LIB, r.lib, 0, US_KEY); AgreePlain(r.lib.m, r.noted.m, US_KEY);
    LeavesExec(DIR_ITEMS, r.noted, 0, US_KEY); AgreePlain(r.noted.m, r.end.m, US_KEY);
    LeavesExecItem(SELF_DELETE, r.end, 0, US_KEY); AgreePlain(r.end.m, RunUndo(names, m, ro).m, US_KEY);
  }

  lemma OthersLeaveStartup(names: seq<string>)
    requires ValidNames(names)
    ensures Leaves(NameItems(names), US_KEY) && LeavesItem(UG_ITEM, US_KEY) && Leaves(OWN_FILES, US_KEY)
    ensures LeavesItem(LIB_ITEM, US_KEY)
    ensures Leaves(AFTER_LIB, US_KEY) && Leaves(DIR_ITEMS, US_KEY) && LeavesItem(SELF_DELETE, US_KEY)
  {
    NamesLeaveStartup(names);
    hide *;
    var k := US_KEY;
    BackupShape(); LibsShape(); StartupShape(); StacksShape(); UndoSixth();
    DifferAt(BACKUP_UG_KEY, k, 5); AreasApart(LIVE_UG_KEY, k);
    UgLeaves(k);
    OwnLeaves(k);
    AreasApart(LIB_KEY, k); AreasApart(PARKED_KEY, k); AreasApart(NEWER_KEY, k);
    LibLeaves(k);
    NotesLeave(k);
    DifferAt(NEW_DIR_KEY, k, 5); DifferAt(OURS_DIR_KEY, k, 5);
    MarkersLeave(k);
    AfterLibLeaves(k);
    DifferAt(C_DIR_KEY, k, 5); DifferAt(LIBS_DIR_KEY, k, 5); DifferAt(BACKUP_KEY, k, 5);
    DirsLeave(k);
    DifferAt(UNDO_KEY, k, 6);
    SelfLeaves(k);
  }

  lemma UndoSixth()
    ensures |UNDO_KEY| > 6 && UNDO_KEY[6] == 't'
  {
  }

  lemma {:induction false} NamesLeaveStartup(names: seq<string>)
    requires forall i :: 0 <= i < |names| ==> ValidName(names[i])
    ensures Leaves(NameItems(names), US_KEY)
  {
    hide NameItem, ValidName, LeavesItem, US_KEY, LiveKey, BackupKey, Unrelated;
    if names != [] {
      var n := names[0];
      NameShape(n); StacksShape(); BackupFifth(n); StartupShape();
      AreasApart(LiveKey(n), US_KEY);
      DifferAt(BackupKey(n), US_KEY, 5);
      NameLeaves(n, US_KEY);
      NamesLeaveStartup(names[1..]);
      assert NameItems(names)[1..] == NameItems(names[1..]);
    }
  }

  /** A live User-Startup is not written, whatever backups there are. */
  lemma StartupItemKeeps(s: State)
    requires s.halt == Go && Content(s.m, US_KEY).Some?
    ensures AgreeAt(s.m, ExecItem(STARTUP_ITEM, s, 0).m, US_KEY)
  {
    hide Norm, Leaves, AgreeAt, US_KEY, US_OLD_KEY, US_BAK_KEY, US_BAK, US_OLD, STARTUP_NOTE, Children;
    SKeys();
    LiveBranchLeaves();
    StartupIsFile(s.m);
    var s1 := Observe(s, Exists(US_BAK));
    var s2 := Observe(s1, Exists(US));
    ExecOne(LIVE_STARTUP_ITEM, s1, 0);
    LeavesExec(LIVE_STARTUP_ITEM.thn, s2, 0, US_KEY);
    AgreeSelf(s.m, US_KEY);
  }

  lemma StartupIsFile(m: Tree)
    requires Content(m, US_KEY).Some?
    ensures Kind(m, US_KEY) == FILE
  {
  }

  lemma AgreeSelf(m: Tree, k: string)
    ensures AgreeAt(m, m, k)
  {
  }

  lemma LiveBranchLeaves()
    ensures Leaves(LIVE_STARTUP_ITEM.thn, US_KEY)
  {
    hide Norm, Unrelated, US_KEY, US_OLD_KEY, US_BAK_KEY, US_BAK, US_OLD, STARTUP_NOTE;
    SKeys(); StartupUnrelated();
    NoteLeaves(STARTUP_NOTE, US_KEY);
    DropLeaves(US_OLD, false, US_KEY);
    LeavesTwo(Drop(US_OLD), Rename(US_BAK, US_OLD), US_KEY);
    LeavesAppend([Echo(STARTUP_NOTE)], [Drop(US_OLD), Rename(US_BAK, US_OLD)], US_KEY);
    assert LIVE_STARTUP_ITEM.thn == [Echo(STARTUP_NOTE)] + [Drop(US_OLD), Rename(US_BAK, US_OLD)];
  }

  lemma StartupUnrelated()
    ensures Unrelated(US_OLD_KEY, US_KEY) && Unrelated(US_BAK_KEY, US_KEY)
  {
    assert |US_KEY| == 18 && US_BAK_KEY[18] == '.' && US_OLD_KEY[18] == '.' && (US_KEY + "/")[18] == '/';
  }

  /** The long form of LIBS: a live stack library is replaced by a command. */
  lemma LintMissesLibrary(names: seq<string>, n: string, m: Tree)
    requires ValidNames(names) && ValidName(n) && Ordinary(m) && Content(m, LiveKey(n)).Some? && PlainShelf(m)
    requires Content(m, LIB_KEY).Some?
    ensures var lines := LinesWith(names, [CopyLine(LivePath(n), LONG_LIBRARY)]);
            Accepted(lines, names, m) && Content(RunDos(lines, m, {}, [], 0).m, LIB_KEY) == Content(m, LiveKey(n))
  {
    hide Norm, Lower, Writable, LinesWith, Accepted, RunDos, RunUndo, STACKS_KEY, LiveKey, Ordinary, ValidName,
         CopyLine, Kind, PathWord, LIB_KEY, STARTUP_LOW, LIB_LOW, LONG_LIBRARY, Apart, PARKED_KEY, NEWER_KEY, Plain,
         US_KEY;
    LongLibrary(); WatchedApart(); WatchedWritable(); WatchedKeys();
    UnwatchedTarget(LONG_LIBRARY);
    LiveSource(n, m);
    CopyRuns(names, LivePath(n), LONG_LIBRARY, m);
    var m' := m[LIB_KEY := m[LiveKey(n)]];
    OrdinaryStacks(m');
    ShelfStaysPlain(m, m[LiveKey(n)]);
    UndoLibrary(names, m', {});
  }

  lemma ShelfStaysPlain(m: Tree, e: Entry)
    requires PlainShelf(m) && e.File?
    ensures PlainShelf(m[LIB_KEY := e])
  {
    hide LIB_KEY, PARKED_KEY, NEWER_KEY;
    ShelfApart();
    var m' := m[LIB_KEY := e];
    assert !Below(LIB_KEY, LIB_KEY);
    assert Children(m', LIB_KEY) == Children(m, LIB_KEY);
    assert Children(m', PARKED_KEY) == Children(m, PARKED_KEY);
    assert Children(m', NEWER_KEY) == Children(m, NEWER_KEY);
  }

  // --------------------------------------- commands that are not watched

  /** A live or saved file of a command. */
  predicate FileOf(k: string, n: string) { k == LiveKey(n) || k == BackupKey(n) }

  const TX := "T:x"

  lemma ResolveOther(p: string)
    requires p != [] && p[0] !in {'s', 'l', 'c', 'd', 'e'}
    ensures Resolve(p) == p
  {
  }

  lemma TxKey()
    ensures Norm(TX) == "t:x" && PathWord(TX) && Lower(TX) == "t:x" && "t:x" != STARTUP_LOW && "t:x" != LIB_LOW
  {
    hide Norm;
    assert Lower(TX) == "t:x";
    ResolveOther("t:x");
    NormSolid(TX);
    SolidTail("t:x");
    assert Upper(TX)[0] == 'T' && NIL[0] == '>';
  }

  lemma ContentKind(m: Tree, k: string)
    requires Content(m, k).Some? && Restore.Keylike(k)
    ensures Kind(m, k) == FILE
  {
  }

  /** A Copy over the file, in any spelling: the file holds something else. */
  lemma CopyMisses(names: seq<string>, n: string, dst: string, m: Tree)
    requires Unnamed(names, n) && Ordinary(m) && PathWord(dst) && |dst| <= 246 && FileOf(Norm(dst), n)
    requires Content(m, "t:x").Some?
    ensures var lines := LinesWith(names, [CopyLine(TX, dst)]);
            Accepted(lines, names, m) && Content(RunDos(lines, m, {}, [], 0).m, Norm(dst)) == Content(m, "t:x")
  {
    hide Norm, Lower, Writable, LinesWith, Accepted, RunDos, RunUndo, STACKS_KEY, LiveKey, BackupKey, Ordinary,
         ValidName, CopyLine, Kind, PathWord, STARTUP_LOW, LIB_LOW, Apart, Restore.Keylike, TX;
    TxKey(); TxShort();
    LiveApart(n);
    FileNotWatchedTarget(n, dst);
    ContentKind(m, "t:x");
    CopyRuns(names, TX, dst, m);
    OtherKept(names, n, m[Norm(dst) := m["t:x"]]);
  }

  lemma TxShort()
    ensures |TX| == 3 && Restore.Keylike("t:x")
  {
  }

  lemma FileNotWatchedTarget(n: string, dst: string)
    requires ValidName(n) && FileOf(Norm(dst), n)
    ensures Lower(dst) != STARTUP_LOW && Lower(dst) != LIB_LOW
  {
    hide Norm, NormLow, Lower, US_KEY, LIB_KEY, STARTUP_LOW, LIB_LOW, LiveKey, BackupKey;
    NormIsLow(dst);
    WatchedKeys(); StartupLow(); LibLow(); NameShape(n); BackupFifth(n); StartupShape();
  }

  /** A Rename of the file, in any spelling: it is gone, marker or Copy or not. */
  lemma RenameMisses(names: seq<string>, n: string, src: string, m: Tree)
    requires Unnamed(names, n) && Ordinary(m) && PathWord(src) && |src| <= 243 && FileOf(Norm(src), n)
    requires Content(m, Norm(src)).Some? && Kind(m, "t:x") == ABSENT
    ensures var lines := LinesWith(names, [RenameLine(src, TX)]);
            Accepted(lines, names, m) && Content(RunDos(lines, m, {}, [], 0).m, Norm(src)).None?
  {
    hide Norm, Lower, Writable, LinesWith, Accepted, RunDos, RunUndo, STACKS_KEY, LiveKey, BackupKey, Ordinary,
         ValidName, RenameLine, Kind, PathWord, STARTUP_LOW, LIB_LOW, Apart, Restore.Keylike, TX, LineOf, Clean;
    TxKey(); TxShort();
    LiveApart(n);
    var k := Norm(src);
    ContentKind(m, k);
    var it, m' := Rename(src, TX), (m - {k})["t:x" := m[k]];
    PairLineOf(src, TX);
    CopyClean(src, TX);
    LessOrdinary(m, {k});
    MoreOrdinary(m - {k}, "t:x", m[k]);
    OrdinaryStacks(m); OrdinaryStacks(m');
    TxFar();
    var s := AfterHead(m, {});
    assert ExecItem(it, s, 0) == Did(s.(m := m'), Renamed(src, TX));
    OneLineRuns(names, RenameLine(src, TX), it, m, m', Renamed(src, TX));
    OtherKept(names, n, m');
  }

  lemma TxFar()
    ensures "t:x" != STACKS_KEY
  {
    StacksShape();
    assert |"t:x"| == 3;
  }

  /** A Copy over the directory above, and then a Delete of what is now a file
      there: all commands are gone. */
  lemma DirectoryMisses(names: seq<string>, n: string, m: Tree)
    requires Unnamed(names, n) && Ordinary(m) && Content(m, "t:x").Some?
    requires forall q :: q in m && Below(q, "sys:c") ==> Writable({}, q)
    ensures var lines := LinesWith(names, [CopyLine(TX, "SYS:C"), DeleteLine("SYS:C")]);
            Accepted(lines, names, m) && Content(RunDos(lines, m, {}, [], 0).m, LiveKey(n)).None?
  {
    hide Norm, Lower, Writable, LinesWith, Accepted, RunDos, RunUndo, STACKS_KEY, LiveKey, Ordinary, ValidName,
         CopyLine, DeleteLine, Kind, PathWord, STARTUP_LOW, LIB_LOW, Apart, Restore.Keylike, TX, LineOf, Clean,
         Children;
    TxKey(); TxShort(); CommandDir();
    CopyLineOf(TX, "SYS:C"); DeleteLineOf("SYS:C");
    CopyClean(TX, "SYS:C"); DeleteClean("SYS:C");
    ContentKind(m, "t:x");
    var more := [Copy(TX, "SYS:C"), Delete("SYS:C", false)];
    var lines := [CopyLine(TX, "SYS:C"), DeleteLine("SYS:C")];
    assert LinesOf(lines, more);
    var m1 := m["sys:c" := m["t:x"]];
    var gone := {"sys:c"} + Children(m1, "sys:c");
    var m2 := m1 - gone;
    MoreOrdinary(m, "sys:c", m["t:x"]); LessOrdinary(m1, gone);
    OrdinaryStacks(m); OrdinaryStacks(m2);
    MoreKeys();
    WithAccepted(names, lines, more, m);
    BothRun(m);
    WithRuns(names, lines, more, m, {}, m2,
             [Tested(STACKS, false)] + [Copied(TX, "SYS:C")] + [Deleted("SYS:C", false)]);
    LiveInside(n, m1);
    OtherKept(names, n, m2);
  }

  lemma LiveInside(n: string, m: Tree)
    ensures LiveKey(n) !in m - ({"sys:c"} + Children(m, "sys:c"))
  {
    assert "sys:c" + "/" == "sys:c/";
    assert Below(LiveKey(n), "sys:c");
  }

  lemma CommandDir()
    ensures Norm("SYS:C") == "sys:c" && Lower("SYS:C") == "sys:c" && Speakable("SYS:C") && |"SYS:C"| == 5
    ensures Writable({}, "sys:c") && Apart("sys:c")
    ensures "sys:c" != STARTUP_LOW && "sys:c" != LIB_LOW && !IsBackup("sys:c") && !IsCommand("sys:c")
  {
    hide Norm;
    assert Lower("SYS:C") == "sys:c";
    NormSys("SYS:C");
    PathS("SYS:C");
    AfterSys("sys:c");
    StacksShape(); BackupShape();
    assert |"sys:c"| == 5;
  }

  lemma MoreKeys()
    ensures var more := [Copy(TX, "SYS:C"), Delete("SYS:C", false)];
            STACKS_KEY !in WriteKeys(more) && ExecuteKeys(more) == {}
  {
    hide Norm, STACKS_KEY, TX;
    var a, b := Copy(TX, "SYS:C"), Delete("SYS:C", false);
    CommandDir();
    OneKeys(a); OneKeys(b);
    KeysAppend([a], [b]);
    assert [a] + [b] == [a, b];
  }

  lemma BothRun(m: Tree)
    requires Kind(m, "t:x") == FILE && forall q :: q in m && Below(q, "sys:c") ==> Writable({}, q)
    ensures var m1 := m["sys:c" := m["t:x"]];
            ExecBlock([Copy(TX, "SYS:C"), Delete("SYS:C", false)], AfterHead(m, {}), 0)
            == State(m1 - ({"sys:c"} + Children(m1, "sys:c")), {}, 0, 21, Go,
                     [Tested(STACKS, false)] + [Copied(TX, "SYS:C")] + [Deleted("SYS:C", false)])
  {
    hide Norm, Writable, TX, Below;
    TxKey(); CommandDir();
    var s := AfterHead(m, {});
    var m1 := m["sys:c" := m["t:x"]];
    var s1 := s.(m := m1, trace := s.trace + [Copied(TX, "SYS:C")]);
    assert ExecItem(Copy(TX, "SYS:C"), s, 0) == s1;
    assert Kind(m1, "sys:c") == FILE;
    forall c | c in Children(m1, "sys:c") ensures Writable({}, c) {
      NotBelowSelf("sys:c");
    }
    assert !DeleteRefused(s1, "sys:c", false);
    ExecTwo(Copy(TX, "SYS:C"), Delete("SYS:C", false), s, 0);
  }

  lemma NotBelowSelf(k: string)
    ensures !Below(k, k)
  {
  }

  // ------------------------------------------------- the wizard's script

  lemma OneLineParses(n: string)
    requires ValidName(n)
    ensures SplitLines(DeleteLine(LivePath(n))) == [DeleteLine(LivePath(n))]
    ensures Parse([DeleteLine(LivePath(n))]) == Some([Delete(LivePath(n), false)])
  {
    hide Tokenize, SplitWords, Render, LivePath, LineOk;
    var p := LivePath(n);
    PathsPrintable(n);
    LiveLine(n);
    DeleteLineOf(p);
    var ws := ["Delete", p];
    assert forall w :: w in ws ==> IsWord(w);
    RenderedOneLine(0, ws);
    var line := DeleteLine(p);
    assert LineOf(line, Delete(p, false));
    var none: seq<string> := [];
    assert [line][1..] == none;
    var start: Block := [];
    assert start + [Delete(p, false)] == [Delete(p, false)];
    assert ParseFrom(none, [Delete(p, false)], []) == Some([Delete(p, false)]);
  }

  lemma LiveLine(n: string)
    requires ValidName(n)
    ensures |LivePath(n)| <= 36
  {
  }

  lemma WizardDeletes(n: string, m: Tree)
    requires ValidName(n) && Plain(m, LiveKey(n)) && Content(m, LiveKey(n)).Some?
    requires Content(m, STACKS_KEY) == Some(DeleteLine(LivePath(n)))
    ensures Kind(m, STACKS_KEY) == FILE
    ensures ExecItem(Execute(STACKS), Tried(m, {}), 0).trace == [Tested(STACKS, true), Deleted(LivePath(n), false)]
  {
    hide Norm, Writable, LivePath, LiveKey, DeleteLine, SplitLines, Parse, STACKS_KEY, Restore.Keylike;
    SKeys(); NameKeys(n); LiveApart(n); StacksLast();
    StacksKeylike();
    ContentKind(m, STACKS_KEY);
    PlainKind(m, LiveKey(n));
    OneLineParses(n);
    var k := LiveKey(n);
    var s := State(m, {}, 0, 10, Go, [Tested(STACKS, true)]);
    assert Children(m, k) == {};
    ExecOneDeep(Delete(LivePath(n), false), s);
    assert s.trace + [Deleted(LivePath(n), false)] == [Tested(STACKS, true), Deleted(LivePath(n), false)];
  }

  lemma StacksKeylike()
    ensures Restore.Keylike(STACKS_KEY)
  {
  }

  lemma ExecOneDeep(it: Item, s: State)
    requires s.halt == Go
    ensures ExecBlock([it], s, 1) == ExecItem(it, s, 1)
  {
    hide ExecItem;
    assert [it][1..] == [];
  }

  /** The lint reads one script: what the wizard's does is nowhere checked, and
      the generated script, accepted by the lint, executes it. */
  lemma WizardUnchecked(names: seq<string>, n: string, m: Tree)
    requires ValidNames(names) && ValidName(n) && Plain(m, LiveKey(n)) && Content(m, LiveKey(n)).Some?
    requires Content(m, STACKS_KEY) == Some(DeleteLine(LivePath(n)))
    ensures UndoStructure(UndoLines(names) + [""], names) == [] && !SafeTrace(RunUndo(names, m, {}).trace)
  {
    hide ExecItem, ExecBlock, NameItems, TAIL, LivePath, LiveKey, STACKS_KEY, UndoStructure, UndoLines, DeleteLine,
         SafeNext, Kind, Plain, RunUndo, STACKS_ITEM;
    GeneratorPassesLint(names);
    WizardDeletes(n, m);
    var x, d, s := Execute(STACKS), Drop(STACKS), Tried(m, {});
    var mid := ExecItem(x, s, 0);
    HeadIs(m, {});
    ExecPair(x, d, s);
    TraceGrowsItem(d, mid, 0);
    var s1 := ExecBlock([FailAt(21), STACKS_ITEM], State(m, {}, 0, 10, Go, []), 0);
    UndoIsHeadAndRest(names, m, {});
    TraceGrows(NameItems(names) + TAIL + [SELF_DELETE], s1, 0);
    var t := RunUndo(names, m, {}).trace;
    assert mid.trace <= s1.trace <= t;
    assert t[..2] == mid.trace;
    assert t[..1] == t[..2][..1] == [Tested(STACKS, true)] && t[1] == Deleted(LivePath(n), false);
    UnmarkedUnsafe(n);
    assert !SafeNext(t[..1], t[1]);
  }

  lemma UnmarkedUnsafe(n: string)
    requires ValidName(n)
    ensures !SafeNext([Tested(STACKS, true)], Deleted(LivePath(n), false))
  {
    hide Lower, LivePath, NewPath;
    NameSpellings(n); LintClean.LiveLong(n);
    MarkerFirst(n);
  }

  lemma MarkerFirst(n: string)
    ensures Lower(STACKS) != Lower(NewPath(n))
  {
    assert Lower(STACKS)[1] == ':' && Lower(NewPath(n))[1] == 'y';
  }
}
