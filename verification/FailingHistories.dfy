/** Histories in which the undo does not give every command back: the next
    version drops commands, or an install is stopped and then repeated. */
module FailingHistories {
  import opened Seqs
  import opened Text
  import opened Files
  import opened Installer
  import opened InstallScript
  import opened InstallOthers
  import opened InstallGoes
  import opened InstallCompletes
  import opened HistoryCompletes
  import opened History
  import opened Versions
  import opened Stopped
  import opened Restore
  import Undo
  import opened Keys

  const OLD_FOO := "the system's foo"

  /** A system with its directories and a command of its own called foo. */
  const SYSTEM: Tree :=
    map["sys:c" := Dir, "sys:libs" := Dir, "sys:prefs" := Dir, "sys:s" := Dir, "sys:c/foo" := File(OLD_FOO)]

  const THREE := ["ping", "Ftp", "foo"]
  const ONE := ["ping"]

  const PACKAGE: map<string, string> :=
    map["C/ping" := "our ping", "C/Ftp" := "our ftp", "C/foo" := "our foo",
        "Libs/usergroup.library" := "our usergroup", "TolunnetPrefs" := "prefs", "TolunnetSetup" := "setup"]

  const FIRST := Install(THREE, PACKAGE, THREE, {}, 200)
  const NEXT := Install(ONE, PACKAGE, ONE, {}, 200)

  lemma NamesFit()
    ensures Undo.ValidNames(THREE) && Undo.ValidNames(ONE)
    ensures forall i :: 0 <= i < |THREE + ONE| ==>
              Undo.ValidName((THREE + ONE)[i]) && Lower((THREE + ONE)[i]) != Lower(UG)
    ensures !Named(ONE, "Ftp") && !Named(ONE, "foo") && Named(ONE, "ping") && Named(THREE, "ping")
  {
    assert Lower("ping") == "ping" && Lower("Ftp") == "ftp" && Lower("foo") == "foo";
    assert "ping"[0] == 'p' && "ftp"[1] == 't' && "foo"[1] == 'o';
    assert |Lower(UG)| > 4;
    assert Lower(ONE[0]) == Lower("ping") && Lower(THREE[0]) == Lower("ping");
  }

  lemma KeysFit()
    ensures LiveKey("ping") == "sys:c/ping" && LiveKey("Ftp") == "sys:c/ftp" && LiveKey("foo") == "sys:c/foo"
  {
    assert Lower("ping") == "ping" && Lower("Ftp") == "ftp" && Lower("foo") == "foo";
    assert "sys:c/" + "ping" == "sys:c/ping" && "sys:c/" + "ftp" == "sys:c/ftp" && "sys:c/" + "foo" == "sys:c/foo";
  }

  lemma PackageFits()
    ensures "C/" + "ping" == "C/ping" && "C/" + "Ftp" == "C/Ftp" && "C/" + "foo" == "C/foo"
    ensures Undisturbed(FIRST) && Undisturbed(NEXT)
  {
  }

  lemma ShortKeys(k: string)
    requires |k| >= 9 && k != "sys:prefs" && k[|k| - 1] != ':'
    ensures Plain(SYSTEM, k) && (k != "sys:c/foo" ==> Kind(SYSTEM, k) == ABSENT)
  {
    assert forall q :: q in SYSTEM ==> |q| <= 9;
    assert Children(SYSTEM, k) == {};
  }

  lemma LongKeys()
    ensures forall k :: k in [LIVE_UG_KEY, LIB_KEY, PARKED_KEY, NEWER_KEY, UNDO_KEY, STACKS_KEY, US_KEY, US_OLD_KEY] ==>
              |k| > 9 && k[|k| - 1] != ':'
  {
    hide LIVE_UG_KEY, LIB_KEY, PARKED_KEY, NEWER_KEY, UNDO_KEY, STACKS_KEY, US_KEY, US_OLD_KEY;
    LongLibs(); LongS();
  }

  lemma LongLibs()
    ensures forall k :: k in [LIVE_UG_KEY, LIB_KEY, PARKED_KEY, NEWER_KEY] ==> |k| > 9 && k[|k| - 1] != ':'
  {
  }

  lemma LongS()
    ensures forall k :: k in [UNDO_KEY, STACKS_KEY, US_KEY, US_OLD_KEY] ==> |k| > 9 && k[|k| - 1] != ':'
  {
  }

  lemma NoBackupDir(q: string)
    requires q in SYSTEM
    ensures !AtOrBelow(q, BACKUP_KEY)
  {
    assert |q| <= 9 && |BACKUP_KEY| == 27;
  }

  lemma KeysAbsent()
    ensures forall k :: k in [LIVE_UG_KEY, LIB_KEY, PARKED_KEY, NEWER_KEY, UNDO_KEY, STACKS_KEY, US_KEY, US_OLD_KEY] ==>
              Plain(SYSTEM, k) && Kind(SYSTEM, k) == ABSENT && Content(SYSTEM, k).None?
  {
    hide Plain, SYSTEM, Kind, Content, LIVE_UG_KEY, LIB_KEY, PARKED_KEY, NEWER_KEY, UNDO_KEY, STACKS_KEY, US_KEY,
         US_OLD_KEY;
    LongKeys();
    forall k | k in [LIVE_UG_KEY, LIB_KEY, PARKED_KEY, NEWER_KEY, UNDO_KEY, STACKS_KEY, US_KEY, US_OLD_KEY]
      ensures Plain(SYSTEM, k) && Kind(SYSTEM, k) == ABSENT && Content(SYSTEM, k).None?
    {
      ShortKeys(k);
      Absent(k);
    }
  }

  lemma LivePlain(i: nat)
    requires i < |THREE + ONE|
    ensures Plain(SYSTEM, LiveKey((THREE + ONE)[i]))
  {
    hide Plain, SYSTEM, LiveKey, Kind;
    KeysFit();
    ShortKeys("sys:c/ping"); ShortKeys("sys:c/ftp"); ShortKeys("sys:c/foo");
  }

  lemma SystemFits()
    ensures Pristine(SYSTEM, THREE + ONE) && HostDirs(SYSTEM) && Plain(SYSTEM, US_KEY) && Plain(SYSTEM, US_OLD_KEY)
  {
    hide Plain, Undo.ValidName, LiveKey, SYSTEM, Kind, AtOrBelow, LIVE_UG_KEY, LIB_KEY, PARKED_KEY, NEWER_KEY,
         UNDO_KEY, STACKS_KEY, US_KEY, US_OLD_KEY, BACKUP_KEY, HostDirs, THREE, ONE, Content, Lower, Undo.UG;
    NamesFit(); SystemDirs(); KeysAbsent();
    forall q | q in SYSTEM ensures !AtOrBelow(q, BACKUP_KEY) { NoBackupDir(q); }
    forall i | 0 <= i < |THREE + ONE| ensures Plain(SYSTEM, LiveKey((THREE + ONE)[i])) { LivePlain(i); }
  }

  lemma SystemDirs()
    ensures HostDirs(SYSTEM)
  {
  }

  lemma Absent(k: string)
    requires Kind(SYSTEM, k) == ABSENT
    ensures Content(SYSTEM, k).None?
  {
  }

  lemma HistoryFits()
    ensures AllSound([FIRST, NEXT]) && Covers(THREE + ONE, [FIRST, NEXT])
  {
    hide Undo.ValidName, Lower, PACKAGE, Undo.ValidNames, Named;
    NamesFit();
    assert Sound(FIRST) && Sound(NEXT);
    assert forall k :: 0 <= k < |THREE| ==> THREE[k] == (THREE + ONE)[k];
    assert ONE[0] == (THREE + ONE)[3];
    assert Fits(THREE + ONE, FIRST) && Fits(THREE + ONE, NEXT);
  }

  lemma PingBack(pc: Machine)
    requires AllSound([FIRST, NEXT]) && Complete(pc, [FIRST, NEXT], SYSTEM)
    ensures Content(UndoOf(After(pc, [FIRST, NEXT], SYSTEM), {}).m, LiveKey("ping")) == Content(SYSTEM, LiveKey("ping"))
  {
    hide Undo.ValidName, Undo.ValidNames, Lower, LiveKey, Named, UndoOf, RunInstall, Covers, Pristine, Sound, Content,
         AllSafe, UndoFor;
    var history, all := [FIRST, NEXT], THREE + ONE;
    NamesFit(); SystemFits(); HistoryFits();
    CompleteFront(pc, history, SYSTEM);
    HistorySafe(all, pc, history, SYSTEM);
    InstallsThenUndoRestore(all, pc, history, SYSTEM);
    assert all[0] == "ping";
    assert history[..1] == [FIRST] && [FIRST][..0] == [];
    assert UndoNames(pc, [], SYSTEM) == None;
    assert UndoNames(pc, [FIRST], SYSTEM) == None || UndoNames(pc, [FIRST], SYSTEM) == Some(THREE);
  }

  /** Both installs complete; after the undo Ftp, which the system never had,
      and foo are tolunnet's, and the system's foo is in the backup directory
      alone. Only ping is as it was. */
  lemma DroppedStay(pc: Machine)
    requires ShortSums(pc.sum)
    ensures AllSound([FIRST, NEXT]) && Complete(pc, [FIRST, NEXT], SYSTEM)
    ensures var end := UndoOf(After(pc, [FIRST, NEXT], SYSTEM), {}).m;
            && Content(end, "sys:c/ping") == Content(SYSTEM, "sys:c/ping") == None
            && Content(end, "sys:c/ftp") == Some("our ftp") && Content(SYSTEM, "sys:c/ftp") == None
            && Content(end, "sys:c/foo") == Some("our foo") && Content(SYSTEM, "sys:c/foo") == Some(OLD_FOO)
            && Content(end, BackupKey("foo")) == Some(OLD_FOO)
  {
    hide Undo.ValidName, Undo.ValidNames, Lower, LiveKey, BackupKey, Named, UndoOf, RunInstall, Covers, Pristine,
         Sound, HostDirs, US_KEY, US_OLD_KEY, Undisturbed, ShortSums, Plain, Kind;
    var history := [FIRST, NEXT];
    NamesFit(); KeysFit(); PackageFits(); SystemFits(); HistoryFits();
    HistoryCompletes.HistoryCompletes(THREE + ONE, pc, history, SYSTEM);
    assert history[..1] == [FIRST] && history[..0] == [] && [FIRST][..0] == [];
    assert RunInstall(pc, history[0], After(pc, history[..0], SYSTEM)).status == Running;
    assert RunInstall(pc, history[1], After(pc, history[..1], SYSTEM)).status == Running;
    assert After(pc, [FIRST], SYSTEM) == RunInstall(pc, FIRST, SYSTEM).m;
    assert THREE[1] == "Ftp" && THREE[2] == "foo";
    DroppedCommandStays(pc, FIRST, NEXT, "Ftp", SYSTEM);
    DroppedCommandStays(pc, FIRST, NEXT, "foo", SYSTEM);
    PingBack(pc);
  }

  /** The first install of the same history stopped after its first write, or
      after its copies, and then done in full: after the undo the system's foo is
      nowhere in the one case, and ping and Ftp are tolunnet's in the other. */
  lemma StoppedThenInstalled(pc: Machine)
    requires ShortSums(pc.sum)
    ensures Sound(FIRST)
    ensures var r1 := RunInstall(pc, FIRST.(writes := 1), SYSTEM); var r2 := RunInstall(pc, FIRST, r1.m);
            var end := UndoOf(r2.m, {}).m;
            && r1.status != Running && r2.status == Running
            && Content(end, "sys:c/foo") == None && Content(end, BackupKey("foo")) == None
            && Content(SYSTEM, "sys:c/foo") == Some(OLD_FOO)
    ensures exists w: nat ::
              var r1 := RunInstall(pc, FIRST.(writes := w), SYSTEM); var r2 := RunInstall(pc, FIRST, r1.m);
              var end := UndoOf(r2.m, {}).m;
              && r1.status == Interrupted && r2.status == Running
              && Content(end, "sys:c/ping") == Some("our ping") && Content(end, "sys:c/ftp") == Some("our ftp")
  {
    hide Undo.ValidName, Undo.ValidNames, Lower, LiveKey, BackupKey, UndoOf, RunInstall, HostDirs, US_KEY, US_OLD_KEY,
         Undisturbed, ShortSums, Plain, Kind, Pristine, CopiedState, PACKAGE;
    NamesFit(); KeysFit(); PackageFits(); SystemFits(); HistoryFits(); PackageHolds();
    PristineThree();
    assert [FIRST, NEXT][0] == FIRST;
    assert THREE[0] == "ping" && THREE[1] == "Ftp" && THREE[2] == "foo";
    EarlyStopLoses(pc, FIRST.(writes := 1), FIRST, "foo", SYSTEM);
    LateStopKeeps(pc, FIRST, FIRST, "ping", SYSTEM);
    LateStopKeeps(pc, FIRST, FIRST, "Ftp", SYSTEM);
    var w := FIRST.writes - CopiedState(pc, FIRST, SYSTEM).left;
    assert RunInstall(pc, FIRST.(writes := w), SYSTEM).status == Interrupted;
  }

  lemma PackageHolds()
    ensures PACKAGE.Keys >= {"C/ping", "C/Ftp", "C/foo"} && PACKAGE["C/ping"] == "our ping"
    ensures PACKAGE["C/Ftp"] == "our ftp"
  {
  }

  lemma PristineThree()
    ensures Pristine(SYSTEM, THREE)
  {
    hide Undo.ValidName, Plain, Kind, LiveKey, AtOrBelow, SYSTEM;
    SystemFits();
    assert forall i :: 0 <= i < |THREE| ==> THREE[i] == (THREE + ONE)[i];
  }
}
