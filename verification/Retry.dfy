/** An install from any state of the files, such as one that an earlier install
    was stopped in, and then the undo: exactly what comes back. */
module Retry {
  import opened Seqs
  import opened Text
  import opened Files
  import opened Installer
  import opened InstallScript
  import opened InstallSteps
  import opened InstallFrames
  import opened InstallNames
  import opened InstallRun
  import opened InstallDirs
  import opened InstallCompletes
  import opened History
  import opened Versions
  import opened Restore
  import Undo
  import UndoRun
  import UndoSafety
  import opened Keys

  // ------------------------------------------------- what the undo goes by

  /** The saved original of a command and whether it is marked as new. */
  datatype Kept = Kept(saved: Option<string>, marked: bool)

  function KeptOf(m: Tree, n: string): Kept { Kept(Content(m, BackupKey(n)), Kind(m, NewKey(n)) != ABSENT) }

  /** What the undo makes of it. */
  function Due(k: Kept, live: Option<string>): Option<string> {
    if k.saved.Some? then k.saved else if k.marked then None else live
  }

  lemma SafeDue(m: Tree, n: string)
    requires Plain(m, LiveKey(n)) && Plain(m, BackupKey(n))
    ensures Safe(m, n, Due(KeptOf(m, n), Content(m, LiveKey(n))))
  {
  }

  /** What PREPARE makes of it: a missing file is marked as new; an unknown one
      without a backup is saved, or taken for tolunnet's own if the legacy flag
      is on; everything else is left. */
  function PreparedOf(m: Tree, n: string, sum: string -> nat, legacy: bool): Kept {
    var k := KeptOf(m, n);
    match Content(m, LiveKey(n))
    case None => k.(marked := true)
    case Some(c) =>
      if k.saved.Some? || Kind(m, MarkKey(n, sum(c))) != ABSENT then k
      else if legacy then k.(marked := true)
      else k.(saved := Some(c))
  }

  // ------------------------------------------------------------ PREPARE

  lemma CodeIs(m: Tree, n: string, sum: string -> nat, legacy: bool)
    requires Undo.ValidName(n) && Plain(m, BackupKey(n))
    ensures var code := Code(m, Command(n), sum, true, legacy); var k := KeptOf(m, n);
            && (code == 0 ==> PreparedOf(m, n, sum, legacy) == k)
            && (code == 1 ==>
                  Content(m, LiveKey(n)).Some? && PreparedOf(m, n, sum, legacy) == k.(saved := Content(m, LiveKey(n))))
            && (code == 2 ==> PreparedOf(m, n, sum, legacy) == k.(marked := true))
            && 0 <= code <= 2
  {
    hide Norm, LiveKey, BackupKey, NewKey, MarkKey, Plain, Keylike, Kind, Unrelated;
    CommandProper(n);
    NameUnrelated(n);
    PlainKind(m, BackupKey(n));
    CommandTag(n);
  }

  lemma WroteBackup(m: Tree, n: string, c: string)
    requires Undo.ValidName(n) && Plain(m, BackupKey(n)) && Plain(m, LiveKey(n))
    ensures var m' := m[BackupKey(n) := File(c)];
            KeptOf(m', n) == KeptOf(m, n).(saved := Some(c)) && Plain(m', BackupKey(n)) && Plain(m', LiveKey(n))
  {
    hide LiveKey, BackupKey, NewKey, Kind, Unrelated, Keylike;
    var m' := m[BackupKey(n) := File(c)];
    NameUnrelated(n);
    AgreeOther(m, BackupKey(n), File(c), LiveKey(n)); AgreePlain(m, m', LiveKey(n));
    AgreeOther(m, BackupKey(n), File(c), NewKey(n)); AgreePlain(m, m', NewKey(n));
    assert Children(m', BackupKey(n)) == Children(m, BackupKey(n)) by { assert !Below(BackupKey(n), BackupKey(n)); }
  }

  lemma WroteMarker(m: Tree, n: string)
    requires Undo.ValidName(n) && Plain(m, BackupKey(n)) && Plain(m, LiveKey(n))
    ensures var m' := m[NewKey(n) := File("")];
            KeptOf(m', n) == KeptOf(m, n).(marked := true) && Plain(m', BackupKey(n)) && Plain(m', LiveKey(n))
  {
    hide LiveKey, BackupKey, NewKey, Kind, Unrelated, Keylike, Plain, Content;
    var m' := m[NewKey(n) := File("")];
    NameUnrelated(n);
    UnrelatedFlip(BackupKey(n), NewKey(n));
    AgreeOther(m, NewKey(n), File(""), LiveKey(n)); AgreePlain(m, m', LiveKey(n));
    AgreeOther(m, NewKey(n), File(""), BackupKey(n)); AgreePlain(m, m', BackupKey(n));
    KindPresent(m', NewKey(n));
  }

  lemma PrepareKeeps(n: string, legacy: bool, env: Env, st: State)
    requires Undo.ValidName(n) && st.status == Running && !env.pretend && FlagIs(st.vars, legacy)
    requires Plain(st.m, LiveKey(n)) && Plain(st.m, BackupKey(n))
    ensures var r := Run(PrepareName(n), env, st);
            r.status == Running ==>
              KeptOf(r.m, n) == PreparedOf(st.m, n, env.sum, legacy) && Plain(r.m, BackupKey(n))
                && Plain(r.m, LiveKey(n))
  {
    hide Run, PrepareName, LiveKey, BackupKey, NewKey, Code, PreparedOf, KeptOf, Plain, Content, Kind, FlagIs,
         Command, Undo.ValidName;
    PrepareNameExec(n, legacy, env, st);
    CodeIs(st.m, n, env.sum, legacy);
    var c := Content(st.m, LiveKey(n));
    if c.Some? { WroteBackup(st.m, n, c.value); }
    WroteMarker(st.m, n);
  }

  /** Nothing changes for a command whose keys are left alone. */
  lemma KeptSame(m: Tree, m': Tree, n: string, sum: string -> nat, legacy: bool)
    requires AgreeAt(m, m', LiveKey(n)) && AgreeAt(m, m', BackupKey(n)) && AgreeAt(m, m', NewKey(n))
    ensures KeptOf(m', n) == KeptOf(m, n) && Content(m', LiveKey(n)) == Content(m, LiveKey(n))
    ensures (Plain(m', LiveKey(n)) <==> Plain(m, LiveKey(n))) && (Plain(m', BackupKey(n)) <==> Plain(m, BackupKey(n)))
    ensures (Content(m, LiveKey(n)).Some? ==> AgreeAt(m, m', MarkKey(n, sum(Content(m, LiveKey(n)).value)))) ==>
              PreparedOf(m', n, sum, legacy) == PreparedOf(m, n, sum, legacy)
  {
    hide LiveKey, BackupKey, NewKey, MarkKey, Plain, Content, Kind, AgreeAt;
    AgreePlain(m, m', LiveKey(n)); AgreePlain(m, m', BackupKey(n)); AgreePlain(m, m', NewKey(n));
    var c := Content(m, LiveKey(n));
    if c.Some? && AgreeAt(m, m', MarkKey(n, sum(c.value))) { AgreeKind(m, m', MarkKey(n, sum(c.value))); }
  }

  lemma OtherSame(x: string, n: string, legacy: bool, env: Env, st: State)
    requires Undo.ValidName(x) && Undo.ValidName(n) && Lower(x) != Lower(n)
    ensures var r := Run(PrepareName(x), env, st).m;
            && PreparedOf(r, n, env.sum, legacy) == PreparedOf(st.m, n, env.sum, legacy)
            && (Plain(r, LiveKey(n)) <==> Plain(st.m, LiveKey(n)))
            && (Plain(r, BackupKey(n)) <==> Plain(st.m, BackupKey(n)))
  {
    hide Run, PrepareName, LiveKey, BackupKey, NewKey, MarkKey, Lower, IsKeyOf, AgreeAt, Undo.ValidName, PreparedOf,
         KeptOf, Plain, Content;
    var c := Content(st.m, LiveKey(n));
    var s := if c.Some? then env.sum(c.value) else 0;
    SelfKeys(n, s);
    OtherKeeps(x, n, LiveKey(n), s, env, st);
    OtherKeeps(x, n, BackupKey(n), s, env, st);
    OtherKeeps(x, n, NewKey(n), s, env, st);
    OtherKeeps(x, n, MarkKey(n, s), s, env, st);
    KeptSame(st.m, Run(PrepareName(x), env, st).m, n, env.sum, legacy);
  }

  lemma {:induction false} NamesPrepared(names: seq<string>, n: string, legacy: bool, env: Env, st: State)
    requires Undo.ValidNames(names) && n in names && st.status == Running && !env.pretend && FlagIs(st.vars, legacy)
    requires (forall i :: 0 <= i < |names| ==> Plain(st.m, LiveKey(names[i]))) && Plain(st.m, BackupKey(n))
    ensures var r := Run(PrepareNames(names), env, st);
            r.status == Running ==>
              KeptOf(r.m, n) == PreparedOf(st.m, n, env.sum, legacy) && Plain(r.m, BackupKey(n))
                && Plain(r.m, LiveKey(n))
  {
    hide Run, PrepareName, LiveKey, BackupKey, NewKey, Plain, Lower, Undo.ValidName, PreparedOf, KeptOf, AgreeAt,
         KeepsVar;
    var x, rest := names[0], names[1..];
    var mid := Run(PrepareName(x), env, st);
    RunAppend(PrepareName(x), PrepareNames(rest), env, st);
    assert PrepareNames(names) == PrepareName(x) + PrepareNames(rest);
    assert forall j :: 0 <= j < |rest| ==> rest[j] == names[j + 1];
    RunStays(PrepareNames(rest), env, mid);
    var r := Run(PrepareNames(rest), env, mid);
    if x == n {
      PrepareKeeps(n, legacy, env, st);
      SelfKeys(n, 0);
      OthersKeep(rest, n, LiveKey(n), 0, env, mid);
      OthersKeep(rest, n, BackupKey(n), 0, env, mid);
      OthersKeep(rest, n, NewKey(n), 0, env, mid);
      KeptSame(mid.m, r.m, n, env.sum, legacy);
    } else {
      var i :| 0 <= i < |names| && names[i] == n;
      assert Lower(names[0]) != Lower(names[i]);
      assert rest[i - 1] == n;
      OtherSame(x, n, legacy, env, st);
      if mid.status == Running {
        PrepareNameKeepsLegacy(x);
        KeepsVarRun(PrepareName(x), env, st, LEGACY);
        forall j | 0 <= j < |rest| ensures Plain(mid.m, LiveKey(rest[j])) { PrepareKeepsPlain(x, rest[j], env, st); }
        NamesPrepared(rest, n, legacy, env, mid);
      }
    }
  }

  // --------------------------------------------------- the rest of the install

  /** From PREPARE on, backup and marker of a command are left alone. */
  lemma LateAgree(names: seq<string>, copied: seq<string>, n: string, k: string, env: Env, st: State)
    requires Undo.ValidNames(names) && Undo.ValidName(n) && (k == BackupKey(n) || k == NewKey(n))
    requires forall i :: 0 <= i < |copied| ==> Undo.ValidName(copied[i])
    ensures var r := RunPhases(names, copied, env, st); AgreeAt(r.names.m, r.end.m, k)
  {
    hide AgreeAt, Undo.ValidName, Run, SparesAll, PREPARE_UG, PREPARE_LIB, PREPARE_STARTUP, CopyCommands, COPY_REST,
         Finish, LiveKey, BackupKey, NewKey, OPENING, DIRS, OursDirs, UndoText, PrepareNames, AtOrBelow, DeepKey;
    NameDeep(n); KeysNotMarks(n);
    assert k in [LiveKey(n), BackupKey(n), NewKey(n)];
    DeepLong(k);
    LateSpares(k);
    NameShape(n); NameFifth(n);
    forall i | 0 <= i < |copied| ensures !AtOrBelow(LiveKey(copied[i]), k) { LiveApart(copied[i], k); }
    CopiesSpare(copied, k);
    FinishSpares(names, k);
    var r := RunPhases(names, copied, env, st);
    SparesRun(PREPARE_UG, env, r.names, k);
    SparesRun(PREPARE_LIB, env, r.ug, k); AgreeTrans(r.names.m, r.ug.m, r.lib.m, k);
    SparesRun(PREPARE_STARTUP, env, r.lib, k); AgreeTrans(r.names.m, r.lib.m, r.prepared.m, k);
    SparesRun(CopyCommands(copied), env, r.prepared, k); AgreeTrans(r.names.m, r.prepared.m, r.copied.m, k);
    SparesRun(COPY_REST, env, r.copied, k); AgreeTrans(r.names.m, r.copied.m, r.rest.m, k);
    SparesRun(Finish(names), env, r.rest, k); AgreeTrans(r.names.m, r.rest.m, r.end.m, k);
  }

  lemma {:induction false} CopiesKeepPlain(copied: seq<string>, n: string, env: Env, st: State)
    requires (forall i :: 0 <= i < |copied| ==> Undo.ValidName(copied[i])) && Undo.ValidName(n)
             && Plain(st.m, LiveKey(n))
    ensures Plain(Run(CopyCommands(copied), env, st).m, LiveKey(n))
  {
    hide Exec, Plain, LiveKey, CopyCommand, Undo.ValidName;
    if copied != [] && st.status == Running {
      var mid := Exec(CopyCommand(copied[0]), env, st);
      CopyExec(copied[0], env, st);
      if mid.m != st.m { LivePlain(st.m, copied[0], n, env.package["C/" + copied[0]]); }
      assert CopyCommands(copied)[1..] == CopyCommands(copied[1..]);
      CopiesKeepPlain(copied[1..], n, env, mid);
    }
  }

  lemma LiveLate(names: seq<string>, copied: seq<string>, n: string, env: Env, st: State)
    requires Undo.ValidNames(names) && Undo.ValidName(n)
             && (forall i :: 0 <= i < |copied| ==> Undo.ValidName(copied[i]))
    requires Plain(RunPhases(names, copied, env, st).names.m, LiveKey(n))
    ensures Plain(RunPhases(names, copied, env, st).end.m, LiveKey(n))
  {
    hide Undo.ValidName, Run, SparesAll, PREPARE_UG, PREPARE_LIB, PREPARE_STARTUP, CopyCommands, COPY_REST, Finish,
         LiveKey, Kind, OPENING, DIRS, OursDirs, UndoText, PrepareNames, DeepKey, Plain;
    var k := LiveKey(n);
    NameDeep(n); KeysNotMarks(n);
    assert k in [LiveKey(n), BackupKey(n), NewKey(n)];
    DeepLong(k);
    LateSpares(k);
    FinishSpares(names, k);
    var r := RunPhases(names, copied, env, st);
    PlainThrough(PREPARE_UG, env, r.names, k);
    PlainThrough(PREPARE_LIB, env, r.ug, k);
    PlainThrough(PREPARE_STARTUP, env, r.lib, k);
    CopiesKeepPlain(copied, n, env, r.prepared);
    PlainThrough(COPY_REST, env, r.copied, k);
    PlainThrough(Finish(names), env, r.rest, k);
  }

  /** An install from any state with plain files that gets through PREPARE:
      backup and marker are what PREPARE makes of that state. */
  lemma PreparedKeeps(names: seq<string>, copied: seq<string>, n: string, env: Env, st: State)
    requires Undo.ValidNames(names) && n in names && st.status == Running && !env.pretend
    requires forall i :: 0 <= i < |copied| ==> Undo.ValidName(copied[i])
    requires (forall i :: 0 <= i < |names| ==> Plain(st.m, LiveKey(names[i]))) && Plain(st.m, BackupKey(n))
    ensures var r := RunPhases(names, copied, env, st);
            r.names.status == Running ==>
              && KeptOf(r.end.m, n) == PreparedOf(st.m, n, env.sum, Legacy(st.m))
              && Plain(r.end.m, BackupKey(n)) && Plain(r.end.m, LiveKey(n))
  {
    hide Run, RunPhases, LiveKey, BackupKey, NewKey, MarkKey, Plain, PreparedOf, KeptOf, Content, Undo.ValidName,
         Legacy, AgreeAt, FlagIs;
    PhasesRunning(names, copied, env, st);
    PhasesAre(names, copied, env, st);
    var r := RunPhases(names, copied, env, st);
    var legacy := Legacy(st.m);
    var c := Content(st.m, LiveKey(n));
    var s := if c.Some? then env.sum(c.value) else 0;
    var keys := [LiveKey(n), BackupKey(n), NewKey(n)];
    assert LiveKey(n) in keys && BackupKey(n) in keys && NewKey(n) in keys;
    KeyThroughOpening(names, copied, n, LiveKey(n), s, env, st);
    KeyThroughOpening(names, copied, n, BackupKey(n), s, env, st);
    KeyThroughOpening(names, copied, n, NewKey(n), s, env, st);
    KeyThroughOpening(names, copied, n, MarkKey(n, s), s, env, st);
    KeptSame(st.m, r.dirs.m, n, env.sum, legacy);
    forall i | 0 <= i < |names| ensures Plain(r.dirs.m, LiveKey(names[i])) {
      LiveThroughOpening(names, copied, i, env, st);
    }
    LegacyFlag(names, copied, env, st);
    if r.names.status == Running {
      NamesPrepared(names, n, legacy, env, r.dirs);
      LateAgree(names, copied, n, BackupKey(n), env, st);
      LateAgree(names, copied, n, NewKey(n), env, st);
      LiveLate(names, copied, n, env, st);
      KeptLate(r.names.m, r.end.m, n);
    }
  }

  lemma KeptLate(m: Tree, m': Tree, n: string)
    requires AgreeAt(m, m', BackupKey(n)) && AgreeAt(m, m', NewKey(n))
    ensures KeptOf(m', n) == KeptOf(m, n) && (Plain(m', BackupKey(n)) <==> Plain(m, BackupKey(n)))
  {
    hide LiveKey, BackupKey, NewKey, Plain, Content, Kind, AgreeAt;
    AgreePlain(m, m', BackupKey(n)); AgreePlain(m, m', NewKey(n));
  }

  // -------------------------------------------------- install, then undo

  /** The plain files an install of `names` and its undo work on. */
  predicate PlainFiles(m: Tree, names: seq<string>) {
    forall i :: 0 <= i < |names| ==> Plain(m, LiveKey(names[i])) && Plain(m, BackupKey(names[i]))
  }

  /** A completed install and then the undo, from any state of the files: a
      command gets what was saved; what its live file was at the start, if PREPARE
      saves that; nothing, if it was or is marked as new; or keeps the installed
      file. So it gets its original back if and only if that is the original. */
  lemma RetryOutcome(pc: Machine, i: Install, n: string, m: Tree)
    requires Sound(i) && n in i.names && PlainFiles(m, i.names) && Kind(m, STACKS_KEY) == ABSENT
    requires RunInstall(pc, i, m).status == Running
    ensures var r := RunInstall(pc, i, m).m;
            && Content(UndoOf(r, {}).m, LiveKey(n)) == Due(PreparedOf(m, n, pc.sum, Legacy(m)), Content(r, LiveKey(n)))
            && (PreparedOf(m, n, pc.sum, Legacy(m)).saved.None? ==> Content(UndoOf(r, {}).m, BackupKey(n)).None?)
  {
    hide Run, Script, LiveKey, BackupKey, Plain, PreparedOf, KeptOf, Content, Undo.ValidName, Legacy, UndoOf,
         UndoRun.RunUndo, STACKS_KEY, Kind, Safe, UNDO_KEY, UndoText, RunPhases, UndoSafety.NothingNew;
    var env := Env(i.package, false, pc.sum, pc.boot);
    var st := State(m, i.ro, map[], i.writes, Running);
    var r := Run(Script(i.names, i.copied), env, st).m;
    CopiedValid(i);
    ScriptPhases(i.names, i.copied, env, st);
    PhasesRunning(i.names, i.copied, env, st);
    PreparedKeeps(i.names, i.copied, n, env, st);
    UndoFirst(i.names, i.copied, env, st);
    StacksStayAbsent(i.names, i.copied, env, st);
    UndoForIs(r, i.names);
    UndoIsRunUndo(i.names, r, {});
    SafeDue(r, n);
    UndoRun.UndoRestoresName(i.names, n, Due(KeptOf(r, n), Content(r, LiveKey(n))), r);
    UndoSafety.UndoCreatesNothing(i.names, r, {});
    SavedIs(r, n);
    if Content(r, BackupKey(n)).None? { UndoSafety.NoneStaysNone(r, UndoRun.RunUndo(i.names, r, {}).m, n); }
  }

  lemma SavedIs(m: Tree, n: string)
    ensures KeptOf(m, n).saved == Content(m, BackupKey(n))
  {
  }

  predicate Known(m: Tree, n: string, sum: string -> nat) {
    var c := Content(m, LiveKey(n));
    c.Some? && Kind(m, MarkKey(n, sum(c.value))) != ABSENT
  }

  /** The same from a state that the undo knows, as every stopped install leaves
      it, as a test of the state in which the next one starts: a command comes
      back unless it has no backup and its live file, unknown by its checksum,
      is marked as new without the legacy flag or not marked with it. */
  lemma RetryRestores(pc: Machine, i: Install, n: string, orig: Option<string>, m: Tree)
    requires Sound(i) && n in i.names && PlainFiles(m, i.names) && Kind(m, STACKS_KEY) == ABSENT && Safe(m, n, orig)
    requires RunInstall(pc, i, m).status == Running
    ensures var r := RunInstall(pc, i, m).m; var k := KeptOf(m, n);
            Content(UndoOf(r, {}).m, LiveKey(n)) == orig <==>
              || k.saved.Some?
              || Content(m, LiveKey(n)).None?
              || (if Known(m, n, pc.sum) then k.marked || Content(r, LiveKey(n)) == orig else k.marked == Legacy(m))
  {
    hide RunInstall, UndoOf, LiveKey, BackupKey, NewKey, Plain, Legacy, STACKS_KEY, MarkKey, Sound;
    RetryOutcome(pc, i, n, m);
  }
}
