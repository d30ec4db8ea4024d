/** Any number of completed installs of any package versions, then one that may
    stop anywhere, then the undo: what comes back, and what is never lost. */
module History {
  import opened Seqs
  import opened Text
  import opened Files
  import opened Installer
  import opened InstallScript
  import opened InstallNames
  import opened InstallRun
  import opened InstallUg
  import opened InstallLib
  import opened InstallDirs
  import opened InstallOthers
  import opened Restore
  import Dos
  import Undo
  import UndoRun
  import UndoSafety
  import UndoOthers
  import opened UndoLibs
  import opened Keys

  /** One install: the commands its package version names, the package, the
      commands it copies and in which order, what is write-protected meanwhile,
      and how many writes it gets. */
  datatype Install = Install(names: seq<string>, package: map<string, string>, copied: seq<string>, ro: set<string>,
                             writes: nat)

  /** The environment that stays the same over a history. */
  datatype Machine = Machine(sum: string -> nat, boot: string -> string)

  /** An install copies commands of its own list. */
  predicate Sound(i: Install) {
    Undo.ValidNames(i.names) && forall j :: 0 <= j < |i.copied| ==> i.copied[j] in i.names
  }

  predicate AllSound(history: seq<Install>) { forall j :: 0 <= j < |history| ==> Sound(history[j]) }

  function RunInstall(pc: Machine, i: Install, m: Tree): State
    requires Sound(i)
  {
    Run(Script(i.names, i.copied), Env(i.package, false, pc.sum, pc.boot), State(m, i.ro, map[], i.writes, Running))
  }

  /** The system after a history of installs. */
  function After(pc: Machine, history: seq<Install>, m: Tree): Tree
    requires AllSound(history)
  {
    if history == [] then m
    else RunInstall(pc, history[|history| - 1], After(pc, history[..|history| - 1], m)).m
  }

  predicate Complete(pc: Machine, history: seq<Install>, m: Tree)
    requires AllSound(history)
  {
    forall j :: 0 <= j < |history| ==> RunInstall(pc, history[j], After(pc, history[..j], m)).status == Running
  }

  /** All installs of the history but the last one completed. */
  predicate Runs(pc: Machine, history: seq<Install>, m: Tree) {
    AllSound(history) && (history != [] ==> Complete(pc, history[..|history| - 1], m))
  }

  /** The list of the undo script on the disk: that of the last install that
      changed anything. */
  function UndoNames(pc: Machine, history: seq<Install>, m: Tree): (r: Option<seq<string>>)
    requires AllSound(history)
    ensures r.Some? ==> Undo.ValidNames(r.value)
  {
    if history == [] then None
    else
      var front := history[..|history| - 1];
      if After(pc, history, m) == After(pc, front, m) then UndoNames(pc, front, m)
      else Some(history[|history| - 1].names)
  }

  /** The commands of all versions in a history. A command that happens to be
      called usergroup.library shares its checksum markers with that library, so
      it has to be in every version. */
  predicate Covers(all: seq<string>, history: seq<Install>) {
    && (forall i :: 0 <= i < |all| ==> Undo.ValidName(all[i]))
    && (forall j :: 0 <= j < |history| ==> Fits(all, history[j]))
  }

  predicate Fits(all: seq<string>, i: Install) {
    && (forall k :: 0 <= k < |i.names| ==> i.names[k] in all)
    && (forall k :: 0 <= k < |all| && Lower(all[k]) == Lower(UG) ==> Named(i.names, all[k]))
  }

  /** A system without any trace of tolunnet, on which each file concerned is
      a plain file or absent. */
  ghost predicate Pristine(m: Tree, all: seq<string>) {
    && (forall q :: q in m ==> !AtOrBelow(q, BACKUP_KEY))
    && Kind(m, UNDO_KEY) == ABSENT && Kind(m, STACKS_KEY) == ABSENT
    && (forall i :: 0 <= i < |all| ==> Undo.ValidName(all[i]) && Plain(m, LiveKey(all[i])))
    && Plain(m, LIVE_UG_KEY) && PlainShelf(m) && ShelfOf(m).parked.None? && ShelfOf(m).newer.None?
  }

  /** Running the undo script found on the system, if there is one. */
  function UndoOf(m: Tree, ro: set<string>): Dos.State {
    match Content(m, UNDO_KEY)
    case Some(text) => Dos.RunDos(SplitLines(text), m, ro, [], 0)
    case None => Dos.State(m, ro, 0, 10, Dos.Go, [])
  }

  // ------------------------------------------------------- the invariant

  /** Everything a completed install leaves, relative to the original `m0`: its
      own commands are installed, those of other versions untouched or installed. */
  ghost predicate AllInstalled(m: Tree, m0: Tree, all: seq<string>, pc: Machine) {
    && (forall i :: 0 <= i < |all| ==> Started(m, all[i], Content(m0, LiveKey(all[i])), pc.sum))
    && UgInstalled(m, Content(m0, LIVE_UG_KEY), pc.sum)
    && PlainShelf(m) && ShelfOf(m) == Shelf(None, ShelfOf(m0).live, None)
    && NEW_DIR_KEY in m && Kind(m, STACKS_KEY) == ABSENT
    && NoFiles(m)
  }

  predicate Started(m: Tree, n: string, orig: Option<string>, sum: string -> nat) {
    Fresh(m, n, orig, sum) || Installed(m, n, orig, sum)
  }

  /** No file where a backup directory belongs. */
  predicate NoFiles(m: Tree) {
    UndoSafety.NotFile(m, C_DIR_KEY) && UndoSafety.NotFile(m, LIBS_DIR_KEY) && UndoSafety.NotFile(m, BACKUP_KEY)
  }

  /** Everything an install stopped anywhere leaves. */
  ghost predicate AllSafe(m: Tree, m0: Tree, all: seq<string>) {
    && (forall i :: 0 <= i < |all| ==> Safe(m, all[i], Content(m0, LiveKey(all[i]))))
    && UgSafe(m, Content(m0, LIVE_UG_KEY))
    && PlainShelf(m)
    && (ShelfOf(m) == ShelfOf(m0) || ShelfOf(m) == Shelf(None, ShelfOf(m0).live, None))
    && ShelfOf(m0).parked.None? && ShelfOf(m0).newer.None?
    && Kind(m, STACKS_KEY) == ABSENT
    && NoFiles(m)
  }

  ghost predicate Startable(m: Tree, m0: Tree, all: seq<string>, pc: Machine) {
    m == m0 || AllInstalled(m, m0, all, pc)
  }

  /** The undo script on the disk is the one for `names`. */
  ghost predicate UndoFor(m: Tree, names: seq<string>)
    requires Undo.ValidNames(names)
  {
    Content(m, UNDO_KEY) == Some(UndoText(names))
  }

  lemma BelowBackup(k: string)
    requires |k| > 28 && k[..27] == BACKUP_KEY && k[27] == '/'
    ensures AtOrBelow(k, BACKUP_KEY) && forall q :: AtOrBelow(q, k) ==> AtOrBelow(q, BACKUP_KEY)
  {
    assert k[..28] == BACKUP_KEY + "/";
    assert |BACKUP_KEY| == 27;
    forall q | AtOrBelow(q, k) ensures AtOrBelow(q, BACKUP_KEY) {
      assert q[..28] == k[..28];
    }
  }

  lemma NothingThere(m: Tree, k: string)
    requires forall q :: q in m ==> !AtOrBelow(q, BACKUP_KEY)
    requires |k| > 28 && k[..27] == BACKUP_KEY && k[27] == '/' && Keylike(k)
    ensures Plain(m, k) && Content(m, k).None? && Kind(m, k) == ABSENT && k !in m
  {
    hide BACKUP_KEY;
    BelowBackup(k);
    assert AtOrBelow(k, k);
    forall q | q in m ensures !Below(q, k) {
      assert Below(q, k) ==> AtOrBelow(q, k);
    }
  }

  lemma PristineFresh(m: Tree, all: seq<string>, i: nat, sum: string -> nat)
    requires Pristine(m, all) && i < |all|
    ensures Fresh(m, all[i], Content(m, LiveKey(all[i])), sum)
  {
    hide Kind, Plain, Content, LiveKey, AtOrBelow, Keylike, Decimal, PlainShelf, ShelfOf;
    var n := all[i];
    NameUnrelated(n);
    assert BackupKey(n)[..27] == BACKUP_KEY && NewKey(n)[..27] == BACKUP_KEY;
    NameShape(n);
    NothingThere(m, BackupKey(n));
    NothingThere(m, NewKey(n));
    var c := Content(m, LiveKey(n));
    if c.Some? {
      MarkUnderBackup(n, sum(c.value));
      NothingThere(m, InstallSteps.MarkKey(n, sum(c.value)));
    }
  }

  lemma MarkUnderBackup(n: string, s: nat)
    requires Undo.ValidName(n)
    ensures var k := InstallSteps.MarkKey(n, s); |k| > 28 && k[..27] == BACKUP_KEY && k[27] == '/' && Keylike(k)
  {
    hide Decimal, Lower;
    InstallFrames.MarkShape(n, s);
    var k := InstallSteps.MarkKey(n, s);
    assert k == BACKUP_KEY + ("/ours/" + Lower(n) + "/" + Decimal(s));
  }

  lemma PristineUg(m: Tree, all: seq<string>, sum: string -> nat)
    requires Pristine(m, all)
    ensures UgFresh(m, Content(m, LIVE_UG_KEY), sum)
  {
    hide Kind, Plain, Content, AtOrBelow, Keylike, Decimal, PlainShelf, ShelfOf, LIVE_UG_KEY;
    UgFacts();
    UgUnderBackup();
    NothingThere(m, BACKUP_UG_KEY);
    var c := Content(m, LIVE_UG_KEY);
    if c.Some? {
      InstallFrames.UgIsName();
      MarkUnderBackup(UG, sum(c.value));
      NothingThere(m, InstallSteps.MarkKey(UG, sum(c.value)));
    }
  }

  lemma UgUnderBackup()
    ensures |BACKUP_UG_KEY| > 28 && BACKUP_UG_KEY[..27] == BACKUP_KEY && BACKUP_UG_KEY[27] == '/'
  {
  }

  lemma PristineDirs(m: Tree, all: seq<string>)
    requires Pristine(m, all)
    ensures Kind(m, NEW_DIR_KEY) == ABSENT && NoFiles(m)
  {
    hide Kind, Plain, Content, AtOrBelow, PlainShelf, ShelfOf;
    UndoRun.BackupShape();
    NothingThere(m, NEW_DIR_KEY);
    NothingThere(m, C_DIR_KEY);
    NothingThere(m, LIBS_DIR_KEY);
    assert AtOrBelow(BACKUP_KEY, BACKUP_KEY) by { SelfBelow(BACKUP_KEY); }
  }

  lemma SelfBelow(k: string)
    ensures AtOrBelow(k, k)
  {
  }

  // ------------------------------------------------------- one install

  lemma CopiedValid(i: Install)
    requires Sound(i)
    ensures forall j :: 0 <= j < |i.copied| ==> Undo.ValidName(i.copied[j])
  {
    hide Undo.ValidName;
    forall j | 0 <= j < |i.copied| ensures Undo.ValidName(i.copied[j]) {
      assert i.copied[j] in i.names;
    }
  }

  /** What the parts of the proof need of the system before an install. */
  lemma StartFacts(m: Tree, m0: Tree, all: seq<string>, pc: Machine)
    requires Pristine(m0, all) && Startable(m, m0, all, pc)
    ensures !Legacy(m)
    ensures NEW_DIR_KEY in m || Kind(m, NEW_DIR_KEY) == ABSENT
    ensures forall i :: 0 <= i < |all| ==> Started(m, all[i], Content(m0, LiveKey(all[i])), pc.sum)
    ensures UgFresh(m, Content(m0, LIVE_UG_KEY), pc.sum) || UgInstalled(m, Content(m0, LIVE_UG_KEY), pc.sum)
    ensures Kind(m, STACKS_KEY) == ABSENT && NoFiles(m)
    ensures PlainShelf(m) && (ShelfOf(m) == ShelfOf(m0) || ShelfOf(m) == Shelf(None, ShelfOf(m0).live, None))
  {
    hide Kind, Plain, LiveKey, Fresh, UgFresh, UgInstalled, NoFiles, PlainShelf, ShelfOf, Content,
         NEW_DIR_KEY, UNDO_KEY, STACKS_KEY, C_DIR_KEY, BACKUP_KEY, LIVE_UG_KEY;
    if AllInstalled(m, m0, all, pc) {
      KindPresent(m, NEW_DIR_KEY);
    } else {
      PristineDirs(m, all);
      PristineUg(m, all, pc.sum);
      forall i | 0 <= i < |all| ensures Started(m, all[i], Content(m0, LiveKey(all[i])), pc.sum) {
        PristineFresh(m, all, i, pc.sum);
      }
    }
  }

  lemma StartedPlain(m: Tree, n: string, orig: Option<string>, sum: string -> nat)
    requires Started(m, n, orig, sum)
    ensures Plain(m, LiveKey(n)) && Safe(m, n, orig)
  {
    StartIsSafe(m, n, orig, sum);
  }

  lemma ShelfOutcome(l: Shelf, l0: Shelf, sum: string -> nat)
    requires l == l0 || l == Shelf(None, l0.live, None)
    requires l0.parked.None? && l0.newer.None?
    ensures ParkShelf(l, sum) == Shelf(None, l0.live, None)
  {
  }

  lemma DirsStayDirs(m: Tree, m': Tree)
    requires DirsStay(m, m') && NoFiles(m)
    ensures NoFiles(m')
  {
    UndoRun.BackupShape(); InstallFrames.DirFifth();
    assert !Away(C_DIR_KEY) && !Away(LIBS_DIR_KEY) && !Away(BACKUP_KEY);
  }

  /** One command of any version through one install: safe wherever it stops,
      and when it completes, ready for the next install. */
  lemma InstallOne(all: seq<string>, pc: Machine, i: Install, m: Tree, m0: Tree, j: nat)
    requires Sound(i) && Fits(all, i) && j < |all| && (forall k :: 0 <= k < |all| ==> Undo.ValidName(all[k]))
    requires !Legacy(m)
    requires forall k :: 0 <= k < |all| ==> Started(m, all[k], Content(m0, LiveKey(all[k])), pc.sum)
    ensures var r := RunInstall(pc, i, m); var orig := Content(m0, LiveKey(all[j]));
            && Safe(r.m, all[j], orig)
            && (r.status == Running ==> Started(r.m, all[j], orig, pc.sum))
            && (r.status == Running && Named(i.names, all[j]) ==> Installed(r.m, all[j], orig, pc.sum))
            && (!Named(i.names, all[j]) ==> Content(r.m, LiveKey(all[j])) == Content(m, LiveKey(all[j])))
  {
    hide Kind, Plain, LiveKey, Fresh, Installed, Safe, Content, NEW_DIR_KEY, UNDO_KEY, Run, Script, Undo.ValidName,
         Lower;
    var env := Env(i.package, false, pc.sum, pc.boot);
    var st := State(m, i.ro, map[], i.writes, Running);
    CopiedValid(i);
    var n, orig := all[j], Content(m0, LiveKey(all[j]));
    forall k | 0 <= k < |i.names| ensures Plain(m, LiveKey(i.names[k])) {
      var a :| 0 <= a < |all| && all[a] == i.names[k];
      StartedPlain(m, all[a], Content(m0, LiveKey(all[a])), pc.sum);
    }
    if Named(i.names, n) {
      var k :| 0 <= k < |i.names| && Lower(i.names[k]) == Lower(n);
      var x := i.names[k];
      SameState(m, x, n, orig, pc.sum);
      InstallName(i.names, i.copied, x, orig, env, st);
      SameState(Run(Script(i.names, i.copied), env, st).m, x, n, orig, pc.sum);
    } else {
      InstallLeavesUnnamed(i.names, i.copied, n, orig, env, st);
      StartedPlain(Run(Script(i.names, i.copied), env, st).m, n, orig, pc.sum);
    }
  }

  /** One install from a startable system: safe whenever it stops, startable
      when it completes; and it changed nothing or left its own undo script. */
  lemma InstallStep(all: seq<string>, pc: Machine, i: Install, m: Tree, m0: Tree)
    requires Sound(i) && Fits(all, i) && Pristine(m0, all) && Startable(m, m0, all, pc)
    ensures var r := RunInstall(pc, i, m);
            && AllSafe(r.m, m0, all)
            && (r.status == Running ==> AllInstalled(r.m, m0, all, pc))
            && (r.m == m || UndoFor(r.m, i.names)) && (r.status == Running ==> UndoFor(r.m, i.names))
  {
    hide Kind, Plain, LiveKey, Fresh, Installed, Safe, UgFresh, UgInstalled, UgSafe, UndoSafety.NotFile, PlainShelf,
         ShelfOf, Content, NEW_DIR_KEY, UNDO_KEY, STACKS_KEY, C_DIR_KEY, BACKUP_KEY, LIVE_UG_KEY, Run, Script,
         UndoText, Undo.ValidName, DirsStay, Startable, AtOrBelow, ParkShelf, LibCode, NoFiles, Started, Fits;
    var env := Env(i.package, false, pc.sum, pc.boot);
    var st := State(m, i.ro, map[], i.writes, Running);
    var r := Run(Script(i.names, i.copied), env, st);
    CopiedValid(i);
    StartFacts(m, m0, all, pc);
    forall j | 0 <= j < |all|
      ensures Safe(r.m, all[j], Content(m0, LiveKey(all[j])))
      ensures r.status == Running ==> Started(r.m, all[j], Content(m0, LiveKey(all[j])), pc.sum)
    {
      InstallOne(all, pc, i, m, m0, j);
    }
    InstallUgrp(i.names, i.copied, Content(m0, LIVE_UG_KEY), env, st);
    InstallLibrary(i.names, i.copied, env, st);
    ShelfOutcome(ShelfOf(m), ShelfOf(m0), pc.sum);
    UndoFirst(i.names, i.copied, env, st);
    StacksStayAbsent(i.names, i.copied, env, st);
    InstallDirsStay(i.names, i.copied, env, st);
    DirsStayDirs(m, r.m);
    NewDirThere(i.names, i.copied, env, st);
  }

  // -------------------------------------------------------- the history

  lemma CompleteFront(pc: Machine, history: seq<Install>, m0: Tree)
    requires AllSound(history) && Complete(pc, history, m0)
    ensures Runs(pc, history, m0)
  {
    hide RunInstall, Sound;
    if history != [] {
      var front := history[..|history| - 1];
      forall j | 0 <= j < |front|
        ensures RunInstall(pc, front[j], After(pc, front[..j], m0)).status == Running
      {
        assert front[..j] == history[..j];
      }
    }
  }

  /** After any number of completed installs the next one can start. */
  lemma {:induction false} HistoryStartable(all: seq<string>, pc: Machine, history: seq<Install>, m0: Tree)
    requires AllSound(history) && Covers(all, history) && Pristine(m0, all) && Complete(pc, history, m0)
    ensures Startable(After(pc, history, m0), m0, all, pc)
  {
    hide RunInstall, AllInstalled, AllSafe, Pristine, Sound, Fits, Undo.ValidName, UndoFor;
    if history != [] {
      var front := history[..|history| - 1];
      CompleteFront(pc, history, m0);
      HistoryStartable(all, pc, front, m0);
      InstallStep(all, pc, history[|history| - 1], After(pc, front, m0), m0);
    }
  }

  /** After any number of completed installs of any versions and at most one
      more, stopped at any write, every file is in a state the undo knows, and
      the undo script on the disk is the one of the last install that changed
      anything. */
  lemma {:induction false} HistorySafe(all: seq<string>, pc: Machine, history: seq<Install>, m0: Tree)
    requires Covers(all, history) && Pristine(m0, all) && Runs(pc, history, m0)
    ensures var m := After(pc, history, m0); var ns := UndoNames(pc, history, m0);
            && AllSafe(m, m0, all)
            && (if ns.Some? then UndoFor(m, ns.value) else m == m0)
  {
    hide RunInstall, AllInstalled, AllSafe, Pristine, Sound, Fits, Undo.ValidName, UndoFor, Complete, Startable;
    if history == [] {
      PristineSafe(m0, all, pc);
    } else {
      var front := history[..|history| - 1];
      CompleteFront(pc, front, m0);
      HistorySafe(all, pc, front, m0);
      HistoryStartable(all, pc, front, m0);
      InstallStep(all, pc, history[|history| - 1], After(pc, front, m0), m0);
    }
  }

  lemma PristineSafe(m0: Tree, all: seq<string>, pc: Machine)
    requires Pristine(m0, all)
    ensures AllSafe(m0, m0, all)
  {
    hide Kind, Plain, LiveKey, Fresh, Safe, UgFresh, UgSafe, NoFiles, PlainShelf, ShelfOf, Content, NEW_DIR_KEY,
         UNDO_KEY, STACKS_KEY, C_DIR_KEY, BACKUP_KEY, LIVE_UG_KEY, AtOrBelow;
    PristineDirs(m0, all);
    PristineUg(m0, all, pc.sum);
    UgSafeOf(m0, Content(m0, LIVE_UG_KEY), pc.sum);
    forall i | 0 <= i < |all| ensures Safe(m0, all[i], Content(m0, LiveKey(all[i]))) {
      PristineFresh(m0, all, i, pc.sum);
      FreshIsSafe(m0, all[i], Content(m0, LiveKey(all[i])), pc.sum);
    }
  }

  // ----------------------------------------------------- install and undo

  lemma UndoIsRunUndo(names: seq<string>, m: Tree, ro: set<string>)
    requires Undo.ValidNames(names) && UndoFor(m, names)
    ensures UndoOf(m, ro) == UndoRun.RunUndo(names, m, ro)
  {
    hide Dos.RunDos, Undo.UndoLines, Content, UNDO_KEY;
    Undo.UndoOneLine(names);
    SplitJoinLines(Undo.UndoLines(names));
  }

  /** A state with nothing installed has nothing to undo. */
  lemma UndoOfPristine(m: Tree, ro: set<string>)
    requires Kind(m, UNDO_KEY) == ABSENT
    ensures UndoOf(m, ro).m == m
  {
    hide Dos.RunDos, UNDO_KEY;
    if UNDO_KEY in m { KindPresent(m, UNDO_KEY); }
  }

  /** One command through the undo of the list `names`: restored if the list
      names it, otherwise left as it is. */
  lemma UndoOne(names: seq<string>, n: string, orig: Option<string>, m: Tree, ro: set<string>)
    requires Undo.ValidNames(names) && Undo.ValidName(n) && UndoFor(m, names) && Kind(m, STACKS_KEY) == ABSENT
    requires NoFiles(m) && Safe(m, n, orig)
    ensures var r := UndoOf(m, ro).m;
            && (Named(names, n) && ro == {} ==> Content(r, LiveKey(n)) == orig)
            && (!Named(names, n) ==> Content(r, LiveKey(n)) == Content(m, LiveKey(n)))
            && (orig.Some? ==> Content(r, LiveKey(n)) == orig || Content(r, BackupKey(n)) == orig)
  {
    hide Content, LiveKey, BackupKey, UNDO_KEY, STACKS_KEY, Kind, UndoText, UndoRun.RunUndo, UndoOf, Undo.ValidName,
         UndoSafety.NotFile, Plain, Safe, Lower;
    UndoIsRunUndo(names, m, ro);
    if Named(names, n) {
      var k :| 0 <= k < |names| && Lower(names[k]) == Lower(n);
      SameState(m, names[k], n, orig, (x: string) => 0);
      SameKeys(names[k], n);
      if ro == {} { UndoRun.UndoRestoresName(names, names[k], orig, m); }
      if orig.Some? { UndoSafety.UndoKeepsOriginal(names, names[k], orig, m, ro); }
    } else {
      UndoOthers.UndoLeavesOther(names, n, m, ro);
      if orig.Some? { SafeHolds(m, n, orig); }
    }
  }

  lemma SafeHolds(m: Tree, n: string, orig: Option<string>)
    requires Safe(m, n, orig) && orig.Some?
    ensures Content(m, LiveKey(n)) == orig || Content(m, BackupKey(n)) == orig
  {
  }

  /** The main theorem. After any number of completed installs of any package
      versions, each with its own list of commands, followed by at most one
      install stopped at any write, running the undo gives a command its
      original content or absence if and only if the list of the undo script
      names it, or its live file was the original all along. usergroup.library
      comes back if there was one, and the stack library is under its own name. */
  lemma InstallsThenUndoRestore(all: seq<string>, pc: Machine, history: seq<Install>, m0: Tree)
    requires Covers(all, history) && Pristine(m0, all) && Runs(pc, history, m0)
    ensures var m := After(pc, history, m0); var ns := UndoNames(pc, history, m0); var end := UndoOf(m, {}).m;
            && (forall i :: 0 <= i < |all| ==>
                  (Content(end, LiveKey(all[i])) == Content(m0, LiveKey(all[i])) <==>
                   (ns.Some? && Named(ns.value, all[i]))
                     || Content(m, LiveKey(all[i])) == Content(m0, LiveKey(all[i]))))
            && (Content(m0, LIVE_UG_KEY).Some? ==> Content(end, LIVE_UG_KEY) == Content(m0, LIVE_UG_KEY))
            && ShelfOf(end) == ShelfOf(m0)
  {
    hide Content, LiveKey, LIVE_UG_KEY, UNDO_KEY, STACKS_KEY, Kind, Safe, UgSafe, PlainShelf, ShelfOf, UndoText,
         UndoRun.RunUndo, After, UndoOf, UndoNames, Undo.ValidName, NoFiles, Complete, Plain, AtOrBelow, Named, Fits;
    HistorySafe(all, pc, history, m0);
    var m := After(pc, history, m0);
    var ns := UndoNames(pc, history, m0);
    if ns.Some? {
      UndoIsRunUndo(ns.value, m, {});
      forall i | 0 <= i < |all|
        ensures Content(UndoOf(m, {}).m, LiveKey(all[i])) == Content(m0, LiveKey(all[i])) <==>
                Named(ns.value, all[i]) || Content(m, LiveKey(all[i])) == Content(m0, LiveKey(all[i]))
      {
        UndoOne(ns.value, all[i], Content(m0, LiveKey(all[i])), m, {});
      }
      if Content(m0, LIVE_UG_KEY).Some? { UndoRestoresUg(ns.value, Content(m0, LIVE_UG_KEY), m); }
      UndoLibrary(ns.value, m, {});
      UnparkBack(ShelfOf(m), ShelfOf(m0));
    } else {
      UndoOfPristine(m, {});
    }
  }

  lemma UnparkBack(l: Shelf, l0: Shelf)
    requires l == l0 || l == Shelf(None, l0.live, None)
    requires l0.parked.None? && l0.newer.None?
    ensures Unpark(l) == l0
  {
  }

  /** The same histories with any set of write-protected paths at undo time:
      the undo neither aborts nor crashes; no original of a command of any
      version, nor of usergroup.library, is lost; and the three library names
      hold the same contents as before the undo. */
  lemma ProtectedUndoLosesNothing(all: seq<string>, pc: Machine, history: seq<Install>, m0: Tree, ro: set<string>)
    requires Covers(all, history) && Pristine(m0, all) && Runs(pc, history, m0)
    ensures var m := After(pc, history, m0);
            var end := UndoOf(m, ro);
            && end.halt == Dos.Go
            && (forall i :: 0 <= i < |all| && Content(m0, LiveKey(all[i])).Some? ==>
                  Content(end.m, LiveKey(all[i])) == Content(m0, LiveKey(all[i]))
                  || Content(end.m, BackupKey(all[i])) == Content(m0, LiveKey(all[i])))
            && (Content(m0, LIVE_UG_KEY).Some? ==>
                  Content(end.m, LIVE_UG_KEY) == Content(m0, LIVE_UG_KEY)
                    || Content(end.m, BACKUP_UG_KEY) == Content(m0, LIVE_UG_KEY))
            && Contents(ShelfOf(end.m)) == Contents(ShelfOf(m))
  {
    hide Content, LiveKey, BackupKey, LIVE_UG_KEY, BACKUP_UG_KEY, UNDO_KEY, STACKS_KEY, Kind, Safe, UgSafe,
         PlainShelf, ShelfOf, UndoText, UndoRun.RunUndo, After, UndoOf, UndoNames, Undo.ValidName, UndoSafety.NotFile,
         Complete, Plain, AtOrBelow, Contents, Unpark, Named, Fits;
    HistorySafe(all, pc, history, m0);
    var m := After(pc, history, m0);
    var ns := UndoNames(pc, history, m0);
    if ns.Some? {
      UndoIsRunUndo(ns.value, m, ro);
      UndoRun.UndoCompletes(ns.value, m, ro);
      forall i | 0 <= i < |all| && Content(m0, LiveKey(all[i])).Some?
        ensures Content(UndoOf(m, ro).m, LiveKey(all[i])) == Content(m0, LiveKey(all[i]))
                || Content(UndoOf(m, ro).m, BackupKey(all[i])) == Content(m0, LiveKey(all[i]))
      {
        UndoOne(ns.value, all[i], Content(m0, LiveKey(all[i])), m, ro);
      }
      if Content(m0, LIVE_UG_KEY).Some? { UndoOthers.UndoKeepsUg(ns.value, Content(m0, LIVE_UG_KEY), m, ro); }
      UndoLibrary(ns.value, m, ro);
      UnparkConserves(ShelfOf(m));
    } else {
      UndoOfPristine(m, ro);
      UndoOfGo(m, ro);
    }
  }

  lemma UndoOfGo(m: Tree, ro: set<string>)
    requires Kind(m, UNDO_KEY) == ABSENT
    ensures UndoOf(m, ro).halt == Dos.Go
  {
    hide Dos.RunDos, UNDO_KEY;
    if UNDO_KEY in m { KindPresent(m, UNDO_KEY); }
  }
}
