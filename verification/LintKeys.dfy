/** The lint compares spellings, the file system normalised keys. For each of
    the lint's watches: which spellings of a file it really guards. */
module LintKeys {
  import opened Seqs
  import opened Text
  import opened Files
  import opened Dos
  import opened Printer
  import opened Undo
  import opened Keys
  import opened Lint
  import opened LintClean
  import opened LintScripts
  import opened UndoRun
  import Restore

  // -------------------------------------------- keys from lower-case paths

  /** Norm, on a path that is already in lower case. */
  function NormLow(l: string): string { StripSlash(Resolve(StripQuote(StripSpace(l)))) }

  lemma {:induction false} LowerStripSpace(s: string)
    ensures Lower(StripSpace(s)) == StripSpace(Lower(s))
    decreases |s|
  {
    if s != [] && IsSpace(s[0]) {
      assert Lower(s)[1..] == Lower(s[1..]);
      LowerStripSpace(s[1..]);
    } else if s != [] && IsSpace(s[|s| - 1]) {
      assert Lower(s)[..|s| - 1] == Lower(s[..|s| - 1]);
      LowerStripSpace(s[..|s| - 1]);
    }
  }

  lemma {:induction false} LowerStripQuote(s: string)
    ensures Lower(StripQuote(s)) == StripQuote(Lower(s))
    decreases |s|
  {
    if s != [] && s[0] == '\"' {
      assert Lower(s)[1..] == Lower(s[1..]);
      LowerStripQuote(s[1..]);
    } else if s != [] && s[|s| - 1] == '\"' {
      assert Lower(s)[..|s| - 1] == Lower(s[..|s| - 1]);
      LowerStripQuote(s[..|s| - 1]);
    }
  }

  /** The key of a path depends on its lower-case spelling alone. */
  lemma NormIsLow(p: string)
    ensures Norm(p) == NormLow(Lower(p))
  {
    LowerStripSpace(p);
    LowerStripQuote(StripSpace(p));
  }

  // ----------------------------------------------- trimming behind a prefix

  function TrimSpaces(x: string): string
    decreases |x|
  {
    if x != [] && IsSpace(x[|x| - 1]) then TrimSpaces(x[..|x| - 1]) else x
  }

  function TrimQuotes(x: string): string
    decreases |x|
  {
    if x != [] && x[|x| - 1] == '\"' then TrimQuotes(x[..|x| - 1]) else x
  }

  /** What normalising leaves of the end of a path. */
  function Tail(x: string): string { StripSlash(TrimQuotes(TrimSpaces(x))) }

  predicate Firm(p: string) {
    "sys:" <= p && !IsSpace(p[|p| - 1]) && p[|p| - 1] != '\"'
  }

  lemma {:induction false} SpacesBehind(p: string, x: string)
    requires Firm(p)
    ensures StripSpace(p + x) == p + TrimSpaces(x)
    decreases |x|
  {
    assert (p + x)[0] == 's';
    if x == [] {
      assert p + x == p;
    } else {
      assert (p + x)[..|p + x| - 1] == p + x[..|x| - 1];
      if IsSpace(x[|x| - 1]) { SpacesBehind(p, x[..|x| - 1]); }
    }
  }

  lemma {:induction false} QuotesBehind(p: string, x: string)
    requires Firm(p)
    ensures StripQuote(p + x) == p + TrimQuotes(x)
    decreases |x|
  {
    assert (p + x)[0] == 's';
    if x == [] {
      assert p + x == p;
    } else {
      assert (p + x)[..|p + x| - 1] == p + x[..|x| - 1];
      if x[|x| - 1] == '\"' { QuotesBehind(p, x[..|x| - 1]); }
    }
  }

  lemma {:induction false} SlashesBehind(p: string, x: string)
    ensures StripSlash(p + x) == if StripSlash(x) == [] then StripSlash(p) else p + StripSlash(x)
    decreases |x|
  {
    if x == [] {
      assert p + x == p;
    } else {
      assert (p + x)[..|p + x| - 1] == p + x[..|x| - 1];
      if x[|x| - 1] == '/' { SlashesBehind(p, x[..|x| - 1]); }
    }
  }

  /** Behind a prefix from SYS: only the end of the path is trimmed. */
  lemma NormBehind(p: string, x: string)
    requires Firm(p)
    ensures NormLow(p + x) == if Tail(x) == [] then StripSlash(p) else p + Tail(x)
  {
    SpacesBehind(p, x);
    QuotesBehind(p, TrimSpaces(x));
    var y := TrimQuotes(TrimSpaces(x));
    assert "sys:" <= p + y;
    SlashesBehind(p, y);
  }

  lemma {:induction false} StripPrefix(s: string)
    ensures StripSlash(s) <= s
    decreases |s|
  {
    if s != [] && s[|s| - 1] == '/' { StripPrefix(s[..|s| - 1]); }
  }

  lemma {:induction false} TrimPrefix(x: string)
    ensures TrimSpaces(x) <= x && TrimQuotes(x) <= x
    decreases |x|
  {
    if x != [] && (IsSpace(x[|x| - 1]) || x[|x| - 1] == '\"') { TrimPrefix(x[..|x| - 1]); }
  }

  /** The key of a path spelled from SYS: is a prefix of its spelling. */
  lemma SysNorm(l: string)
    requires "sys:" <= l
    ensures NormLow(l) <= l
  {
    var p, x := l[..4], l[4..];
    assert l == p + x && p == "sys:";
    NormBehind(p, x);
    StripPrefix(p);
    TrimPrefix(x); TrimPrefix(TrimSpaces(x)); StripPrefix(TrimQuotes(TrimSpaces(x)));
    assert Tail(x) <= x;
    assert p + Tail(x) <= p + x;
  }

  // ------------------------------------------------------- accepted scripts

  ghost function TraceOf(lines: seq<string>, m: Tree, ro: set<string>): seq<Event> { RunDos(lines, m, ro, [], 0).trace }

  /** The marker of a command was found in the run so far. */
  ghost predicate MarkerSeen(past: seq<Event>, k: string)
    requires |k| >= 6
  {
    exists q :: Tested(q, true) in past && Norm(q) == NEW_DIR_KEY + "/" + k[6..]
  }

  ghost predicate CopySeen(past: seq<Event>, k: string) {
    exists src, dst :: Copied(src, dst) in past && Norm(src) == k
  }

  ghost predicate AbsenceSeen(past: seq<Event>, k: string) {
    exists q :: Tested(q, false) in past && Norm(q) == k
  }

  // ---------------------------------------- if: the spelling is the watched

  lemma MarkerKey(p: string)
    requires |p| >= 6
    ensures MarkerOf(p) == Lower(BK) + "/new/" + Lower(p)[6..]
  {
    hide BK;
    LowerConcat(BK + "/new/", p[6..]);
    LowerConcat(BK, "/new/");
    assert Lower("/new/") == "/new/";
    assert Lower(p)[6..] == Lower(p[6..]);
  }

  lemma DirFirm()
    ensures Firm("sys:c/") && Firm(NEW_DIR_KEY + "/") && StripSlash("sys:c/") == "sys:c"
    ensures Lower(BK) + "/new/" == NEW_DIR_KEY + "/"
  {
    LowerBk();
    assert BACKUP_KEY + "/new/" == NEW_DIR_KEY + "/";
    assert "sys:c/"[..5] == "sys:c";
    assert StripSlash("sys:c") == "sys:c";
    var d := NEW_DIR_KEY + "/";
    assert d[0] == 's' && d[1] == 'y' && d[2] == 's' && d[3] == ':';
    assert d[..4] == "sys:";
  }

  lemma CommandGuard(past: seq<Event>, p: string, all: bool)
    requires SafeNext(past, Deleted(p, all)) && "sys:c/" <= Lower(p) && Below(Norm(p), "sys:c")
    ensures MarkerSeen(past, Norm(p))
  {
    hide EndsWith, Norm, NormLow, BK, Lower, Tail, NEW_DIR_KEY, Firm;
    var q :| Tested(q, true) in past && Lower(q) == MarkerOf(p);
    var l := Lower(p);
    var x := l[6..];
    MarkerKey(p);
    DirFirm();
    NormIsLow(q); NormIsLow(p);
    assert l == "sys:c/" + x;
    NormBehind("sys:c/", x);
    NormBehind(NEW_DIR_KEY + "/", x);
    assert Lower(q) == NEW_DIR_KEY + "/" + x;
    BelowC();
    assert Norm(p) == "sys:c/" + Tail(x);
    assert Norm(p)[6..] == Tail(x);
  }

  lemma BelowC()
    ensures !Below("sys:c", "sys:c")
  {
  }

  lemma BackupGuard(past: seq<Event>, p: string, all: bool)
    requires SafeNext(past, Deleted(p, all)) && IsBackup(Lower(p))
    ensures CopySeen(past, Norm(p))
  {
    hide EndsWith, Norm, NormLow, Lower;
    var src, dst :| Copied(src, dst) in past && Lower(src) == Lower(p);
    NormIsLow(src); NormIsLow(p);
  }

  lemma AbsenceGuard(past: seq<Event>, low: string, k: string)
    requires NormLow(low) == k && exists q :: Tested(q, false) in past && Lower(q) == low
    ensures AbsenceSeen(past, k)
  {
    hide Norm, NormLow, Lower;
    var q :| Tested(q, false) in past && Lower(q) == low;
    NormIsLow(q);
  }

  lemma WatchedKeys()
    ensures NormLow(STARTUP_LOW) == US_KEY && NormLow(LIB_LOW) == LIB_KEY && US_KEY != LIB_KEY
  {
    hide NormLow, Norm, STARTUP_LOW, LIB_LOW, US_KEY, LIB_KEY;
    StartupLow(); LibLow();
  }

  lemma StartupLow()
    ensures NormLow(STARTUP_LOW) == US_KEY && US_KEY[4] == 's'
  {
    hide Norm, NormLow;
    SKeys(); LowerS();
    NormIsLow(US);
    assert "s:" + "user-startup" == STARTUP_LOW;
  }

  lemma LibLow()
    ensures NormLow(LIB_LOW) == LIB_KEY && |LIB_KEY| > 9 && LIB_KEY[4] == 'l'
  {
    hide Norm, NormLow;
    LibKeys(); LowerLib();
    NormIsLow(LIB);
    assert "libs:" + "bsdsocket.library" == LIB_LOW;
  }

  // --------------------------------------------- the four watches, exactly

  /** Every Delete of `p` by an accepted script comes after the marker of that
      command was found. */
  ghost predicate CommandGuarded(p: string)
    requires Below(Norm(p), "sys:c")
  {
    forall lines: seq<string>, names: seq<string>, m: Tree, ro: set<string>, i: nat, all: bool ::
      Accepted(lines, names, m) && i < |TraceOf(lines, m, ro)| && TraceOf(lines, m, ro)[i] == Deleted(p, all) ==>
        MarkerSeen(TraceOf(lines, m, ro)[..i], Norm(p))
  }

  ghost predicate BackupGuarded(p: string) {
    forall lines: seq<string>, names: seq<string>, m: Tree, ro: set<string>, i: nat, all: bool ::
      Accepted(lines, names, m) && i < |TraceOf(lines, m, ro)| && TraceOf(lines, m, ro)[i] == Deleted(p, all) ==>
        CopySeen(TraceOf(lines, m, ro)[..i], Norm(p))
  }

  /** No accepted script copies to `dst`, and none renames to it unless it was
      found to be absent. */
  ghost predicate StartupGuarded(dst: string) {
    forall lines: seq<string>, names: seq<string>, m: Tree, ro: set<string>, i: nat, src: string ::
      Accepted(lines, names, m) && i < |TraceOf(lines, m, ro)| ==>
        && TraceOf(lines, m, ro)[i] != Copied(src, dst)
        && (TraceOf(lines, m, ro)[i] == Renamed(src, dst) ==> AbsenceSeen(TraceOf(lines, m, ro)[..i], US_KEY))
  }

  ghost predicate LibraryGuarded(dst: string) {
    forall lines: seq<string>, names: seq<string>, m: Tree, ro: set<string>, i: nat, src: string ::
      Accepted(lines, names, m) && i < |TraceOf(lines, m, ro)|
      && (TraceOf(lines, m, ro)[i] == Copied(src, dst) || TraceOf(lines, m, ro)[i] == Renamed(src, dst)) ==>
        AbsenceSeen(TraceOf(lines, m, ro)[..i], LIB_KEY)
  }

  lemma TraceSafe(lines: seq<string>, names: seq<string>, m: Tree, ro: set<string>, i: nat)
    requires Accepted(lines, names, m) && i < |TraceOf(lines, m, ro)|
    ensures SafeNext(TraceOf(lines, m, ro)[..i], TraceOf(lines, m, ro)[i])
  {
    hide RunDos, SafeNext, Accepted;
    LintSound(lines, names, m, ro);
  }

  // ------------------------------------------ accepted scripts that slip by

  const NONE: seq<string> := []

  /** The generated script for no commands, with one more line. */
  function ScriptWith(line: string): seq<string> { LinesWith(NONE, [line]) }

  lemma OneAccepted(line: string, it: Item, m: Tree)
    requires LineOf(line, it) && Clean(it) && !it.If? && !it.Execute? && STACKS_KEY !in ItemWriteKeys(it)
    requires Kind(m, STACKS_KEY) != FILE
    ensures Accepted(ScriptWith(line), NONE, m)
  {
    hide LineOf, Clean, STACKS_KEY, LinesWith, Accepted, Kind;
    OneKeys(it);
    assert LinesOf([line], [it]);
    WithAccepted(NONE, [line], [it], m);
  }

  lemma OneRuns(line: string, it: Item, m: Tree, m': Tree, e: Event)
    requires LineOf(line, it) && Kind(m, STACKS_KEY) == ABSENT && Kind(m', STACKS_KEY) == ABSENT
    requires ExecItem(it, AfterHead(m, {}), 0) == State(m', {}, 0, 21, Go, [Tested(STACKS, false), e])
    ensures var t := TraceOf(ScriptWith(line), m, {});
            |t| > 1 && t[1] == e && t[..1] == [Tested(STACKS, false)]
  {
    hide LineOf, Kind, STACKS_KEY, LinesWith, RunDos, RunUndo, ExecItem;
    assert LinesOf([line], [it]);
    Restore.ExecOne(it, AfterHead(m, {}), 0);
    var t := [Tested(STACKS, false), e];
    WithRuns(NONE, [line], [it], m, {}, m', t);
    var u := TraceOf(ScriptWith(line), m, {});
    assert u[..2] == t;
    assert u[..1] == u[..2][..1] == t[..1];
  }

  /** A system that holds just one file. */
  function Only(k: string, data: string): Tree { map[k := File(data)] }

  lemma OnlyKind(k: string, data: string)
    requires k != STACKS_KEY && !Below(k, STACKS_KEY)
    ensures Kind(Only(k, data), k) != ABSENT && Children(Only(k, data), k) == {}
    ensures Kind(Only(k, data), STACKS_KEY) == ABSENT && Kind(map[], STACKS_KEY) == ABSENT
  {
    var m := Only(k, data);
    assert !Below(k, k);
    assert Children(m, STACKS_KEY) == {};
    assert Children(map[], STACKS_KEY) == {};
  }

  lemma StacksKey()
    ensures Norm(STACKS) == STACKS_KEY
  {
    hide Norm;
    SKeys();
  }

  /** One line more deletes a file in a spelling that is not watched, with
      nothing seen before but the test for the wizard's script. */
  lemma DeleteSlips(p: string)
    requires Speakable(p) && !IsBackup(Lower(p)) && !IsCommand(Lower(p)) && Writable({}, Norm(p))
    requires Norm(p) != STACKS_KEY && !Below(Norm(p), STACKS_KEY)
    ensures var lines := ScriptWith(DeleteLine(p)); var m := Only(Norm(p), ""); var t := TraceOf(lines, m, {});
            Accepted(lines, NONE, m) && |t| > 1 && t[1] == Deleted(p, false) && t[..1] == [Tested(STACKS, false)]
  {
    hide Norm, Lower, Writable, EndsWith, IsBackup, IsCommand, LineOf, DeleteLine, ScriptWith, TraceOf, Accepted,
         STACKS_KEY, Speakable, Below;
    var it := Delete(p, false);
    var k := Norm(p);
    var m := Only(k, "");
    OnlyKind(k, "");
    DeleteLineOf(p);
    DeleteClean(p);
    OneAccepted(DeleteLine(p), it, m);
    var s := AfterHead(m, {});
    assert !DeleteRefused(s, k, false);
    assert m - ({k} + {}) == map[];
    assert ExecItem(it, s, 0) == RunDelete(s, p, false);
    assert s.trace + [Deleted(p, false)] == [Tested(STACKS, false), Deleted(p, false)];
    OneRuns(DeleteLine(p), it, m, map[], Deleted(p, false));
  }

  lemma DeleteClean(p: string)
    requires !IsBackup(Lower(p)) && !IsCommand(Lower(p))
    ensures Clean(Delete(p, false))
  {
    hide Lower, EndsWith, IsBackup, IsCommand;
  }

  lemma NothingSeen(k: string)
    requires |k| >= 6 && k != STACKS_KEY
    ensures var t := [Tested(STACKS, false)]; !MarkerSeen(t, k) && !CopySeen(t, k) && !AbsenceSeen(t, k)
  {
    hide Norm;
    StacksKey();
  }

  /** A command file is guarded exactly when it is spelled from SYS:C/. */
  lemma CommandWatch(p: string)
    requires Below(Norm(p), "sys:c") && Writable({}, Norm(p)) && Speakable(p)
    ensures CommandGuarded(p) <==> "sys:c/" <= Lower(p)
  {
    hide Norm, Lower, TraceOf, Writable, Accepted, SafeNext, MarkerSeen, Speakable, STACKS_KEY, ScriptWith;
    if "sys:c/" <= Lower(p) {
      forall lines: seq<string>, names: seq<string>, m: Tree, ro: set<string>, i: nat, all: bool |
        Accepted(lines, names, m) && i < |TraceOf(lines, m, ro)| && TraceOf(lines, m, ro)[i] == Deleted(p, all)
        ensures MarkerSeen(TraceOf(lines, m, ro)[..i], Norm(p))
      {
        TraceSafe(lines, names, m, ro, i);
        CommandGuard(TraceOf(lines, m, ro)[..i], p, all);
      }
    } else {
      NotBackupSpelling(p);
      FarFromStacks(Norm(p), "sys:c");
      DeleteSlips(p);
      NothingSeen(Norm(p));
      var lines, m := ScriptWith(DeleteLine(p)), Only(Norm(p), "");
      assert TraceOf(lines, m, {})[1] == Deleted(p, false);
    }
  }

  lemma FarFromStacks(k: string, d: string)
    requires Below(k, d) && (d == "sys:c" || IsBackupDir(d))
    ensures |k| >= 6 && k != STACKS_KEY && !Below(k, STACKS_KEY)
  {
    StacksShape(); BackupShape();
    if d == "sys:c" {
      assert (d + "/")[4] == 'c' && k[4] == 'c';
    } else {
      assert d[5] == 't' && k[5] == (d + "/")[5];
    }
  }

  /** The key and a SYS: spelling agree as far as the key goes. */
  lemma SysChar(l: string, i: nat)
    requires "sys:" <= l && i < |NormLow(l)|
    ensures i < |l| && NormLow(l)[i] == l[i]
  {
    hide NormLow;
    SysNorm(l);
  }

  lemma NotBackupSpelling(p: string)
    requires Below(Norm(p), "sys:c")
    ensures !IsBackup(Lower(p))
  {
    hide Norm, NormLow, Lower;
    NormIsLow(p);
    if IsBackup(Lower(p)) {
      SysSpelled(Lower(p));
      SysChar(Lower(p), 4);
    }
  }

  lemma SysSpelled(l: string)
    requires IsBackup(l)
    ensures "sys:" <= l && l[4] == 's' && |l| > 28 && (BACKUP_C <= l ==> l[28] == 'c')
            && (BACKUP_LIBS <= l ==> l[28] == 'l')
  {
    BackupPrefixes();
  }

  lemma BackupPrefixes()
    ensures |BACKUP_C| == 30 && "sys:" <= BACKUP_C && BACKUP_C[4] == 's' && BACKUP_C[28] == 'c'
    ensures |BACKUP_LIBS| == 33 && "sys:" <= BACKUP_LIBS && BACKUP_LIBS[4] == 's' && BACKUP_LIBS[28] == 'l'
    ensures BACKUP_C == C_DIR_KEY + "/" && BACKUP_LIBS == LIBS_DIR_KEY + "/"
  {
  }

  /** The two directories of originals. */
  predicate IsBackupDir(d: string) { d == C_DIR_KEY || d == LIBS_DIR_KEY }

  lemma BackupDirShape(d: string)
    requires IsBackupDir(d)
    ensures |d| > 28 && d[4] == 's' && d[28] == (if d == C_DIR_KEY then 'c' else 'l') && C_DIR_KEY != LIBS_DIR_KEY
    ensures d + "/" == if d == C_DIR_KEY then BACKUP_C else BACKUP_LIBS
  {
    BackupPrefixes();
  }

  /** A spelling that is not the watched one of its directory is not watched. */
  lemma UnwatchedBackup(p: string, d: string)
    requires IsBackupDir(d) && Below(Norm(p), d) && !(d + "/" <= Lower(p))
    ensures !IsBackup(Lower(p)) && !IsCommand(Lower(p))
  {
    hide Norm, NormLow, Lower, BACKUP_C, BACKUP_LIBS, C_DIR_KEY, LIBS_DIR_KEY;
    NormIsLow(p);
    BackupDirShape(d);
    var l, k := Lower(p), Norm(p);
    assert k[4] == d[4] && k[28] == d[28];
    if IsCommand(l) { CommandSpelled(l); SysChar(l, 4); }
    if IsBackup(l) { SysSpelled(l); SysChar(l, 28); }
  }

  lemma CommandSpelled(l: string)
    requires IsCommand(l)
    ensures "sys:" <= l && l[4] == 'c'
  {
  }

  /** An original is guarded exactly when it is spelled from its backup
      directory. */
  lemma BackupWatch(p: string, d: string)
    requires IsBackupDir(d) && Below(Norm(p), d) && Writable({}, Norm(p)) && Speakable(p)
    ensures BackupGuarded(p) <==> d + "/" <= Lower(p)
  {
    hide Norm, Lower, TraceOf, Writable, Accepted, SafeNext, CopySeen, C_DIR_KEY, LIBS_DIR_KEY, Speakable, STACKS_KEY,
         ScriptWith;
    BackupDirShape(d);
    if d + "/" <= Lower(p) {
      forall lines: seq<string>, names: seq<string>, m: Tree, ro: set<string>, i: nat, all: bool |
        Accepted(lines, names, m) && i < |TraceOf(lines, m, ro)| && TraceOf(lines, m, ro)[i] == Deleted(p, all)
        ensures CopySeen(TraceOf(lines, m, ro)[..i], Norm(p))
      {
        TraceSafe(lines, names, m, ro, i);
        BackupGuard(TraceOf(lines, m, ro)[..i], p, all);
      }
    } else {
      UnwatchedBackup(p, d);
      FarFromStacks(Norm(p), d);
      DeleteSlips(p);
      NothingSeen(Norm(p));
      var lines, m := ScriptWith(DeleteLine(p)), Only(Norm(p), "");
      assert TraceOf(lines, m, {})[1] == Deleted(p, false);
    }
  }

  /** A source that leaves as much room in the line as any. */
  const X := "x"

  lemma XKey()
    ensures Norm(X) == X && PathWord(X)
  {
    hide Norm;
    assert Lower(X) == X && Resolve(X) == X;
    NormSolid(X);
    SolidTail(X);
    assert Upper(X) != NIL;
  }

  /** A target key of the two write watches. */
  lemma UnwatchedTarget(dst: string)
    requires (Norm(dst) == US_KEY && Lower(dst) != STARTUP_LOW) || (Norm(dst) == LIB_KEY && Lower(dst) != LIB_LOW)
    ensures Lower(dst) != STARTUP_LOW && Lower(dst) != LIB_LOW
  {
    hide Norm, NormLow, Lower, US_KEY, LIB_KEY, STARTUP_LOW, LIB_LOW;
    NormIsLow(dst);
    WatchedKeys();
  }

  lemma WatchedWritable()
    ensures Writable({}, US_KEY) && Writable({}, LIB_KEY)
  {
    hide ShortNames, AfterColon, LIB_KEY;
    LibsShort();
    StartupShort();
  }

  lemma StartupShort()
    ensures ShortNames(AfterColon(US_KEY))
  {
    AfterSys(US_KEY);
    ShortIn("s/", "user-startup");
    assert US_KEY[4..] == "s/" + "user-startup";
  }

  predicate Far(k: string) { k != STACKS_KEY && !Below(k, STACKS_KEY) }

  lemma WatchedFar()
    ensures Far(US_KEY) && Far(LIB_KEY) && Far(X)
    ensures US_KEY != LIB_KEY && US_KEY != X && LIB_KEY != X
  {
    StacksShape(); StartupLow(); LibLow();
    assert |X| == 1;
  }

  /** One line more copies over a watched file in a spelling that is not. */
  lemma CopySlips(dst: string)
    requires Speakable(dst) && (Norm(dst) == US_KEY || Norm(dst) == LIB_KEY)
    requires Lower(dst) != STARTUP_LOW && Lower(dst) != LIB_LOW
    ensures var lines := ScriptWith(CopyLine(X, dst)); var m := Only(X, ""); var t := TraceOf(lines, m, {});
            Accepted(lines, NONE, m) && |t| > 1 && t[1] == Copied(X, dst) && t[..1] == [Tested(STACKS, false)]
  {
    hide Norm, Lower, Writable, LineOf, CopyLine, ScriptWith, TraceOf, Accepted, STACKS_KEY, US_KEY, LIB_KEY,
         STARTUP_LOW, LIB_LOW, PathWord, X;
    var it := Copy(X, dst);
    var k := Norm(dst);
    var m := Only(X, "");
    XKey(); XShort(); WatchedFar(); WatchedWritable();
    OnlyKind(X, "");
    CopyLineOf(X, dst);
    CopyClean(X, dst);
    OneAccepted(CopyLine(X, dst), it, m);
    var s := AfterHead(m, {});
    assert ExecItem(it, s, 0) == RunCopy(s, X, dst);
    assert s.trace + [Copied(X, dst)] == [Tested(STACKS, false), Copied(X, dst)];
    TwoFiles(k);
    OneRuns(CopyLine(X, dst), it, m, m[k := File("")], Copied(X, dst));
  }

  lemma XShort()
    ensures |X| == 1 && Kind(Only(X, ""), X) == FILE
  {
  }

  lemma TwoFiles(k: string)
    requires k == US_KEY || k == LIB_KEY
    ensures Kind(Only(X, "")[k := File("")], STACKS_KEY) == ABSENT
  {
    hide US_KEY, LIB_KEY, STACKS_KEY, X;
    WatchedFar(); StacksShape();
    var m := Only(X, "")[k := File("")];
    assert forall q :: q in m ==> Far(q);
    assert Children(m, STACKS_KEY) == {};
    StacksLast();
  }

  lemma StacksLast()
    ensures STACKS_KEY != [] && STACKS_KEY[|STACKS_KEY| - 1] != ':'
  {
  }

  lemma CopyClean(src: string, dst: string)
    requires Lower(dst) != STARTUP_LOW && Lower(dst) != LIB_LOW
    ensures Clean(Copy(src, dst)) && Clean(Rename(src, dst))
  {
    hide Lower, STARTUP_LOW, LIB_LOW;
  }

  /** User-Startup is guarded exactly in the spelling S:User-Startup. */
  lemma StartupWatch(dst: string)
    requires Norm(dst) == US_KEY && Speakable(dst)
    ensures StartupGuarded(dst) <==> Lower(dst) == STARTUP_LOW
  {
    hide Norm, Lower, TraceOf, Accepted, AbsenceSeen, US_KEY, STARTUP_LOW, LIB_LOW, Speakable, ScriptWith;
    WatchedKeys();
    if Lower(dst) == STARTUP_LOW {
      forall lines: seq<string>, names: seq<string>, m: Tree, ro: set<string>, i: nat, src: string |
        Accepted(lines, names, m) && i < |TraceOf(lines, m, ro)|
        ensures TraceOf(lines, m, ro)[i] != Copied(src, dst)
        ensures TraceOf(lines, m, ro)[i] == Renamed(src, dst) ==> AbsenceSeen(TraceOf(lines, m, ro)[..i], US_KEY)
      {
        TraceSafe(lines, names, m, ro, i);
        if TraceOf(lines, m, ro)[i] == Renamed(src, dst) {
          AbsenceGuard(TraceOf(lines, m, ro)[..i], STARTUP_LOW, US_KEY);
        }
      }
    } else {
      UnwatchedTarget(dst);
      CopySlips(dst);
      var lines, m := ScriptWith(CopyLine(X, dst)), Only(X, "");
      assert TraceOf(lines, m, {})[1] == Copied(X, dst);
    }
  }

  /** The stack library is guarded exactly in the spelling LIBS:bsdsocket.library. */
  lemma LibraryWatch(dst: string)
    requires Norm(dst) == LIB_KEY && Speakable(dst)
    ensures LibraryGuarded(dst) <==> Lower(dst) == LIB_LOW
  {
    hide Norm, Lower, TraceOf, Accepted, AbsenceSeen, US_KEY, LIB_KEY, STARTUP_LOW, LIB_LOW, Speakable, ScriptWith,
         STACKS_KEY;
    WatchedKeys();
    if Lower(dst) == LIB_LOW {
      forall lines: seq<string>, names: seq<string>, m: Tree, ro: set<string>, i: nat, src: string |
        Accepted(lines, names, m) && i < |TraceOf(lines, m, ro)|
        && (TraceOf(lines, m, ro)[i] == Copied(src, dst) || TraceOf(lines, m, ro)[i] == Renamed(src, dst))
        ensures AbsenceSeen(TraceOf(lines, m, ro)[..i], LIB_KEY)
      {
        TraceSafe(lines, names, m, ro, i);
        AbsenceGuard(TraceOf(lines, m, ro)[..i], LIB_LOW, LIB_KEY);
      }
    } else {
      UnwatchedTarget(dst);
      CopySlips(dst);
      var lines, m := ScriptWith(CopyLine(X, dst)), Only(X, "");
      assert TraceOf(lines, m, {})[1] == Copied(X, dst);
      WatchedFar(); LibLow();
      NothingSeen(LIB_KEY);
    }
  }
}
