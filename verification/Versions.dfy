/** Package versions that add commands and versions that drop them, and what an
    install and its undo do to any shelf of stack libraries. */
module Versions {
  import opened Seqs
  import opened Text
  import opened Files
  import opened Installer
  import opened InstallScript
  import opened InstallSteps
  import opened InstallFrames
  import opened InstallNames
  import opened InstallRun
  import opened InstallOthers
  import opened InstallLib
  import opened InstallDirs
  import opened Restore
  import opened UndoLibs
  import opened History
  import Undo
  import opened Keys

  // -------------------------------------------------- versions that grow

  /** As long as no version names a command, its live file is the original. */
  lemma {:induction false} UntouchedUntilNamed(all: seq<string>, pc: Machine, history: seq<Install>, m0: Tree, j: nat)
    requires AllSound(history) && Covers(all, history) && j < |all|
    requires forall i :: 0 <= i < |history| ==> !Named(history[i].names, all[j])
    ensures Content(After(pc, history, m0), LiveKey(all[j])) == Content(m0, LiveKey(all[j]))
  {
    hide Named, Content, LiveKey, Run, Script, Undo.ValidNames, Lower;
    if history != [] {
      var front, last := history[..|history| - 1], history[|history| - 1];
      UntouchedUntilNamed(all, pc, front, m0, j);
      assert Fits(all, last) && Sound(last);
      var env := Env(last.package, false, pc.sum, pc.boot);
      InstallLeavesUnnamed(last.names, last.copied, all[j], None, env,
                           State(After(pc, front, m0), last.ro, map[], last.writes, Running));
    }
  }

  /** Each version names every command of the versions before it. */
  predicate Growing(all: seq<string>, history: seq<Install>) {
    forall i, j, k :: 0 <= i < j < |history| && 0 <= k < |all| && Named(history[i].names, all[k]) ==>
      Named(history[j].names, all[k])
  }

  lemma LaterNames(all: seq<string>, history: seq<Install>, i: nat, k: nat)
    requires Growing(all, history) && i < |history| && k < |all|
    ensures Named(history[i].names, all[k]) ==> Named(history[|history| - 1].names, all[k])
  {
    hide Named;
  }

  lemma {:induction false} GrowingLive(all: seq<string>, pc: Machine, history: seq<Install>, m0: Tree, k: nat)
    requires AllSound(history) && Covers(all, history) && Growing(all, history) && k < |all|
    ensures var ns := UndoNames(pc, history, m0);
            (ns.Some? && Named(ns.value, all[k]))
              || Content(After(pc, history, m0), LiveKey(all[k])) == Content(m0, LiveKey(all[k]))
  {
    hide Named, Content, LiveKey, RunInstall, Sound, Fits;
    if history != [] {
      var front, last := history[..|history| - 1], history[|history| - 1];
      assert Growing(all, front) by {
        forall i, j, a | 0 <= i < j < |front| && 0 <= a < |all| && Named(front[i].names, all[a])
          ensures Named(front[j].names, all[a])
        {
          assert front[i] == history[i] && front[j] == history[j];
        }
      }
      GrowingLive(all, pc, front, m0, k);
      if !Named(last.names, all[k]) {
        forall i | 0 <= i < |history| ensures !Named(history[i].names, all[k]) {
          LaterNames(all, history, i, k);
        }
        UntouchedUntilNamed(all, pc, history, m0, k);
      }
    }
  }

  /** Versions that only add commands: the undo restores every command of every
      version. */
  lemma GrowingVersionsRestore(all: seq<string>, pc: Machine, history: seq<Install>, m0: Tree)
    requires Covers(all, history) && Pristine(m0, all) && Runs(pc, history, m0) && Growing(all, history)
    ensures var end := UndoOf(After(pc, history, m0), {}).m;
            forall k :: 0 <= k < |all| ==> Content(end, LiveKey(all[k])) == Content(m0, LiveKey(all[k]))
  {
    hide Named, Content, LiveKey, UndoOf, After, UndoNames, Growing, Pristine, Covers, Complete, LIVE_UG_KEY, ShelfOf;
    InstallsThenUndoRestore(all, pc, history, m0);
    forall k | 0 <= k < |all|
      ensures Content(UndoOf(After(pc, history, m0), {}).m, LiveKey(all[k])) == Content(m0, LiveKey(all[k]))
    {
      GrowingLive(all, pc, history, m0, k);
    }
  }

  // -------------------------------------------------- a dropped command

  /** A copy that the install survives put the package's file in place. */
  lemma CopyPuts(n: string, env: Env, st: State)
    requires Undo.ValidName(n) && st.status == Running && !env.pretend
    requires Exec(CopyCommand(n), env, st).status == Running
    ensures "C/" + n in env.package
    ensures Exec(CopyCommand(n), env, st).m == st.m[LiveKey(n) := File(env.package["C/" + n])]
  {
    hide Norm, Kind, LiveKey, Write;
    CopyPath(n);
    assert ':' !in "C/" + n;
    if "C/" + n in env.package { WriteOutcome(st, InDir("SYS:C", n), File(env.package["C/" + n])); }
  }

  lemma {:induction false} CopiesPut(names: seq<string>, copied: seq<string>, n: string, env: Env, st: State)
    requires Undo.ValidNames(names) && n in names && !env.pretend
             && (forall i :: 0 <= i < |copied| ==> copied[i] in names)
    requires Run(CopyCommands(copied), env, st).status == Running
    requires n in copied || ("C/" + n in env.package && Content(st.m, LiveKey(n)) == Some(env.package["C/" + n]))
    ensures "C/" + n in env.package
    ensures Content(Run(CopyCommands(copied), env, st).m, LiveKey(n)) == Some(env.package["C/" + n])
  {
    hide LiveKey, Exec, CopyCommand, Lower, Undo.ValidName, AgreeAt, AtOrBelow;
    RunStays(CopyCommands(copied), env, st);
    if copied != [] {
      var x, rest := copied[0], copied[1..];
      assert CopyCommands(copied)[1..] == CopyCommands(rest);
      var mid := Exec(CopyCommand(x), env, st);
      RunStays(CopyCommands(rest), env, mid);
      CopyPuts(x, env, st);
      if x != n {
        NamesApart(names, x, n);
        LiveKeysApart(x, n);
        AgreeWrite(st.m, LiveKey(x), File(env.package["C/" + x]), LiveKey(n));
        AgreePlain(st.m, mid.m, LiveKey(n));
      }
      CopiesPut(names, rest, n, env, mid);
    }
  }

  lemma NamesApart(names: seq<string>, x: string, n: string)
    requires Undo.ValidNames(names) && x in names && n in names && x != n
    ensures LiveKey(x) != LiveKey(n)
  {
    hide Lower, Undo.ValidName;
    var i :| 0 <= i < |names| && names[i] == x;
    var j :| 0 <= j < |names| && names[j] == n;
    assert Lower(names[i]) != Lower(names[j]);
    OtherLive(x, n);
  }

  /** A completed install leaves the package's file under each copied name. */
  lemma InstallPuts(pc: Machine, i: Install, n: string, m: Tree)
    requires Sound(i) && n in i.copied && RunInstall(pc, i, m).status == Running
    ensures "C/" + n in i.package && Content(RunInstall(pc, i, m).m, LiveKey(n)) == Some(i.package["C/" + n])
  {
    hide Run, Script, LiveKey, Content, Undo.ValidName, RunPhases, AgreeAt, CopyCommands, COPY_REST, Finish, SparesAll;
    var env := Env(i.package, false, pc.sum, pc.boot);
    var st := State(m, i.ro, map[], i.writes, Running);
    ScriptPhases(i.names, i.copied, env, st);
    PhasesRunning(i.names, i.copied, env, st);
    var r := RunPhases(i.names, i.copied, env, st);
    LastPhases(i.names, i.copied, env, st);
    assert n in i.names;
    CopiesPut(i.names, i.copied, n, env, r.prepared);
    NameDeep(n); KeysNotMarks(n);
    assert LiveKey(n) in [LiveKey(n), BackupKey(n), NewKey(n)];
    DeepLong(LiveKey(n));
    LateSpares(LiveKey(n));
    FinishSpares(i.names, LiveKey(n));
    SparesRun(COPY_REST, env, r.copied, LiveKey(n));
    SparesRun(Finish(i.names), env, r.rest, LiveKey(n));
    AgreePlain(r.copied.m, r.rest.m, LiveKey(n));
    AgreePlain(r.rest.m, r.end.m, LiveKey(n));
  }

  lemma LastPhases(names: seq<string>, copied: seq<string>, env: Env, st: State)
    requires Undo.ValidNames(names)
    ensures var r := RunPhases(names, copied, env, st);
            && r.copied == Run(CopyCommands(copied), env, r.prepared)
            && r.rest == Run(COPY_REST, env, r.copied) && r.end == Run(Finish(names), env, r.rest)
  {
  }

  /** A command that a version installed and the next version no longer names
      stays tolunnet's after the undo, unless it is what the system had, and an
      original stays in the backup directory: the second install need only get
      as far as writing its own undo script. */
  lemma DroppedCommandStays(pc: Machine, first: Install, next: Install, n: string, m0: Tree)
    requires Sound(first) && Sound(next) && Covers(first.names + next.names, [first, next])
    requires Pristine(m0, first.names + next.names)
    requires RunInstall(pc, first, m0).status == Running && n in first.copied && !Named(next.names, n)
    requires var m1 := RunInstall(pc, first, m0).m;
            RunInstall(pc, next, m1).m != m1 || RunInstall(pc, next, m1).status == Running
    requires "C/" + n in first.package && Some(first.package["C/" + n]) != Content(m0, LiveKey(n))
    ensures AllSound([first, next])
    ensures var end := UndoOf(After(pc, [first, next], m0), {}).m;
            && Content(end, LiveKey(n)) == Some(first.package["C/" + n]) != Content(m0, LiveKey(n))
            && (Content(m0, LiveKey(n)).Some? ==> Content(end, BackupKey(n)) == Content(m0, LiveKey(n)))
  {
    hide Content, LiveKey, BackupKey, UndoOf, RunInstall, Pristine, Covers, Named, Sound, NoFiles, Kind, Safe, UgSafe,
         PlainShelf, ShelfOf, UndoFor, Startable, Fits;
    var history := [first, next];
    var all := first.names + next.names;
    assert history[..1] == [first] && [first][..0] == [];
    var m1 := RunInstall(pc, first, m0).m;
    assert After(pc, [first], m0) == m1;
    assert Complete(pc, [first], m0) by { assert [first][..0] == []; }
    SoundCopied(first, n);
    var k :| 0 <= k < |first.names| && first.names[k] == n;
    assert all[k] == n;
    CoversLast(all, first, next, k);
    CoversFirst(all, first, next);
    HistoryStartable(all, pc, [first], m0);
    InstallStep(all, pc, next, m1, m0);
    InstallPuts(pc, first, n, m0);
    LeftAlone(pc, next, n, m1);
    SoundNames(next);
    UndoOne(next.names, n, Content(m0, LiveKey(n)), RunInstall(pc, next, m1).m, {});
  }

  lemma CoversFirst(all: seq<string>, first: Install, next: Install)
    requires Covers(all, [first, next])
    ensures Covers(all, [first]) && Fits(all, next)
  {
    hide Fits, Undo.ValidName;
    assert [first, next][0] == first && [first, next][1] == next;
  }

  lemma SoundNames(i: Install)
    requires Sound(i)
    ensures Undo.ValidNames(i.names)
  {
  }

  lemma SoundCopied(i: Install, n: string)
    requires Sound(i) && n in i.copied
    ensures n in i.names && Undo.ValidName(n)
  {
  }

  lemma CoversLast(all: seq<string>, first: Install, next: Install, k: nat)
    requires Covers(all, [first, next]) && k < |all| && !Named(next.names, all[k])
    ensures Lower(all[k]) != Lower(UG) && Undo.ValidName(all[k])
  {
    hide Lower, Undo.ValidName;
    assert Fits(all, [first, next][1]);
  }

  lemma LeftAlone(pc: Machine, i: Install, n: string, m: Tree)
    requires Sound(i) && Undo.ValidName(n) && !Named(i.names, n) && Lower(n) != Lower(UG)
    ensures Content(RunInstall(pc, i, m).m, LiveKey(n)) == Content(m, LiveKey(n))
  {
    hide Content, LiveKey, Run, Script, Named, Lower, Undo.ValidName;
    InstallLeavesUnnamed(i.names, i.copied, n, None, Env(i.package, false, pc.sum, pc.boot),
                         State(m, i.ro, map[], i.writes, Running));
  }

  /** A command that the undo's list does not name keeps its live file. */
  lemma UndoLeavesDropped(all: seq<string>, pc: Machine, history: seq<Install>, m0: Tree, k: nat)
    requires Covers(all, history) && Pristine(m0, all) && Runs(pc, history, m0) && k < |all|
    requires var ns := UndoNames(pc, history, m0); ns.Some? && !Named(ns.value, all[k])
    ensures var m := After(pc, history, m0); Content(UndoOf(m, {}).m, LiveKey(all[k])) == Content(m, LiveKey(all[k]))
  {
    hide Content, LiveKey, UndoOf, After, UndoNames, Pristine, Fits, Complete, Named, Safe, UgSafe, PlainShelf,
         ShelfOf, NoFiles, UndoFor, Kind;
    HistorySafe(all, pc, history, m0);
    UndoOne(UndoNames(pc, history, m0).value, all[k], Content(m0, LiveKey(all[k])), After(pc, history, m0), {});
  }

  // ------------------------------------------------------- the libraries

  /** The shelf before, between and after; `parked` if the install completed,
      `undone` if an undo ran with nothing protected. */
  lemma ShelfTrip(l: Shelf, mid: Shelf, end: Shelf, sum: string -> nat, parked: bool, undone: bool)
    requires mid == l || mid == ParkShelf(l, sum)
    requires parked ==> mid == ParkShelf(l, sum) && LibCode(l, sum) != 4
    requires (end == mid || end == Unpark(mid)) && (undone ==> end == Unpark(mid))
    ensures LibCode(l, sum) == 4 ==> mid == l && !parked
    ensures parked ==> mid.live.None?
    ensures mid.live.Some? ==> end.live == mid.live
    ensures Faithful(l, sum) ==> Contents(mid) == Contents(l) && Contents(end) == Contents(l)
    ensures l.live.Some? && Faithful(l, sum) && undone ==>
              (end.live == l.live <==> mid == l || l.newer.None? || l.newer == l.live)
  {
    hide Contents;
    ParkConserves(l, sum);
    UnparkConserves(mid);
    if l.live.Some? && Faithful(l, sum) { ParkUnpark(l, sum); }
  }

  /** The undo script on the disk before an install: none, or that of a list. */
  ghost predicate UndoState(m: Tree, was: Option<seq<string>>) {
    match was
    case None => Kind(m, UNDO_KEY) == ABSENT
    case Some(names) => Undo.ValidNames(names) && UndoFor(m, names)
  }

  /** Install, then undo, for every shelf of libraries and every stopping point:
      a live library is never replaced, all contents are kept, and the live
      content comes back if and only if the install left it alone, or nothing
      else was parked as newer. */
  lemma LibraryRoundTrip(pc: Machine, i: Install, m: Tree, ro: set<string>, was: Option<seq<string>>)
    requires Sound(i) && PlainShelf(m) && Kind(m, STACKS_KEY) == ABSENT && UndoState(m, was)
    ensures var r := RunInstall(pc, i, m); var l := ShelfOf(m); var mid := ShelfOf(r.m);
            var end := ShelfOf(UndoOf(r.m, ro).m);
            && (LibCode(l, pc.sum) == 4 ==> mid == l && r.status != Running)
            && (r.status == Running ==> mid.live.None?)
            && (mid.live.Some? ==> end.live == mid.live)
            && (Faithful(l, pc.sum) ==> Contents(mid) == Contents(l) && Contents(end) == Contents(l))
            && (l.live.Some? && Faithful(l, pc.sum) && ro == {} ==>
                  (end.live == l.live <==> mid == l || l.newer.None? || l.newer == l.live))
  {
    hide Run, Script, PlainShelf, ShelfOf, Kind, STACKS_KEY, UNDO_KEY, UndoOf, Undo.ValidNames, Undo.ValidName,
         Contents, UndoFor;
    var env := Env(i.package, false, pc.sum, pc.boot);
    var st := State(m, i.ro, map[], i.writes, Running);
    var r := Run(Script(i.names, i.copied), env, st);
    var l := ShelfOf(m);
    CopiedValid(i);
    InstallLibrary(i.names, i.copied, env, st);
    UndoFirst(i.names, i.copied, env, st);
    StacksStayAbsent(i.names, i.copied, env, st);
    var end := UndoOf(r.m, ro).m;
    if r.m == m && was.None? {
      UndoOfPristine(m, ro);
    } else if r.m == m {
      UndoIsRunUndo(was.value, m, ro);
      UndoLibrary(was.value, m, ro);
    } else {
      UndoForIs(r.m, i.names);
      UndoIsRunUndo(i.names, r.m, ro);
      UndoLibrary(i.names, r.m, ro);
    }
    ShelfTrip(l, ShelfOf(r.m), ShelfOf(end), pc.sum, r.status == Running, ro == {} && (r.m != m || was.Some?));
  }

  lemma UndoForIs(m: Tree, names: seq<string>)
    requires Undo.ValidNames(names) && Content(m, UNDO_KEY) == Some(UndoText(names))
    ensures UndoFor(m, names)
  {
  }

  /** The failing shelf: a library parked as newer takes the place of the live
      one, which stays parked. */
  lemma NewerLibraryWins(pc: Machine, i: Install, m: Tree, a: string, b: string, was: Option<seq<string>>)
    requires Sound(i) && PlainShelf(m) && Kind(m, STACKS_KEY) == ABSENT && UndoState(m, was)
    requires a != b && ShelfOf(m) == Shelf(Some(a), None, Some(b)) && RunInstall(pc, i, m).status == Running
    ensures ShelfOf(UndoOf(RunInstall(pc, i, m).m, {}).m) == Shelf(Some(b), Some(a), None)
  {
    hide Run, Script, PlainShelf, ShelfOf, Kind, STACKS_KEY, UNDO_KEY, UndoOf, Undo.ValidNames, Undo.ValidName, UndoFor;
    var env := Env(i.package, false, pc.sum, pc.boot);
    var st := State(m, i.ro, map[], i.writes, Running);
    var r := Run(Script(i.names, i.copied), env, st);
    CopiedValid(i);
    InstallLibrary(i.names, i.copied, env, st);
    UndoFirst(i.names, i.copied, env, st);
    StacksStayAbsent(i.names, i.copied, env, st);
    UndoForIs(r.m, i.names);
    UndoIsRunUndo(i.names, r.m, {});
    UndoLibrary(i.names, r.m, {});
  }
}
