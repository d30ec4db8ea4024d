/** Install and undo in cycles: after each undo the system is without any trace
    of tolunnet again, and nothing outside the footprint has changed. */
module Cycles {
  import opened Seqs
  import opened Text
  import opened Files
  import Dos
  import opened Installer
  import opened InstallScript
  import opened InstallFrames
  import opened InstallNames
  import opened InstallRun
  import opened InstallOthers
  import opened InstallGoes
  import opened InstallCompletes
  import opened HistoryCompletes
  import opened History
  import opened Versions
  import opened Footprint
  import opened Restore
  import opened UndoBounds
  import opened UndoClears
  import opened UndoLibs
  import Undo
  import UndoRun
  import opened Keys

  // ------------------------------------------------------- over a history

  lemma {:induction false} HistoryWithin(pc: Machine, history: seq<Install>, m0: Tree, names: seq<string>)
    requires AllSound(history)
    requires forall j, i :: 0 <= j < |history| && 0 <= i < |history[j].names| ==> Named(names, history[j].names[i])
    ensures Within(m0, After(pc, history, m0), names)
  {
    hide Within, Named, Run, Script, Undo.ValidName;
    if history == [] {
      WithinSelf(m0, names);
    } else {
      var front, last := history[..|history| - 1], history[|history| - 1];
      HistoryWithin(pc, front, m0, names);
      var m := After(pc, front, m0);
      assert Sound(last);
      forall i | 0 <= i < |last.copied| ensures Undo.ValidName(last.copied[i]) && Named(names, last.copied[i]) {
        var j :| 0 <= j < |last.names| && last.names[j] == last.copied[i];
        assert Named(names, history[|history| - 1].names[j]);
      }
      InstallWithin(last.names, last.copied, names, Env(last.package, false, pc.sum, pc.boot),
                    State(m, last.ro, map[], last.writes, Running));
      WithinTrans(m0, m, After(pc, history, m0), names);
    }
  }

  /** Outside the backup directory. */
  lemma OwnedOutside(k: string, names: seq<string>)
    requires Owned(k, names) && forall i :: 0 <= i < |names| ==> Undo.ValidName(names[i])
    ensures !AtOrBelow(k, BACKUP_KEY)
  {
    hide LiveKey;
    UndoRun.BackupShape(); UndoRun.LibsShape(); UndoRun.StartupShape();
    if AtOrBelow(k, BACKUP_KEY) {
      BackupChars(k);
      if i :| 0 <= i < |names| && k == LiveKey(names[i]) { NameShape(names[i]); }
    }
  }

  lemma BackupChars(k: string)
    requires AtOrBelow(k, BACKUP_KEY)
    ensures |k| >= 27 && k[4] == 's' && k[5] == 't'
  {
    UndoRun.BackupShape();
    assert k == BACKUP_KEY || (BACKUP_KEY + "/")[4] == k[4];
    assert k == BACKUP_KEY || (BACKUP_KEY + "/")[5] == k[5];
  }

  lemma AreaTidy(m0: Tree, m: Tree, all: seq<string>, names: seq<string>)
    requires Pristine(m0, all) && Within(m0, m, names) && forall i :: 0 <= i < |names| ==> Undo.ValidName(names[i])
    ensures Tidy(m, names)
  {
    hide AtOrBelow, Stored, Owned, Undo.ValidName, Plain, PlainShelf, ShelfOf, Kind, LiveKey, Writable;
    forall q | q in m && AtOrBelow(q, BACKUP_KEY) ensures Stored(q, names) && Writable({}, q) {
      assert q !in m0;
      assert Foot(q, names);
      if Owned(q, names) { OwnedOutside(q, names); }
    }
  }

  // --------------------------------------------------------- plain files

  /** No file that the undo writes lies below the key. */
  predicate Clear(k: string, names: seq<string>) { forall w :: w in Writes(names) ==> !Below(w, k) }

  lemma LiveClear(n: string, names: seq<string>)
    requires Undo.ValidName(n) && forall i :: 0 <= i < |names| ==> Undo.ValidName(names[i])
    ensures Clear(LiveKey(n), names)
  {
    hide LiveKey, LIVE_UG_KEY, US_KEY, US_OLD_KEY, LIB_KEY;
    NameShape(n); UndoRun.LibsShape(); UndoRun.StartupShape();
    forall w | w in Writes(names) ensures !Below(w, LiveKey(n)) {
      if i :| 0 <= i < |names| && w == LiveKey(names[i]) {
        LiveNotBelow(names[i], n);
      } else {
        DifferAt(w, LiveKey(n), 4);
      }
    }
  }

  lemma LiveNotBelow(x: string, n: string)
    requires Undo.ValidName(x) && Undo.ValidName(n)
    ensures !Below(LiveKey(x), LiveKey(n))
  {
    hide LiveKey, AtOrBelow;
    if LiveKey(x) == LiveKey(n) {
      NotBelowSelf(LiveKey(n));
    } else {
      LiveKeysApart(x, n); NotAtOrBelow(LiveKey(x), LiveKey(n));
    }
  }

  lemma NotBelowSelf(k: string)
    ensures !Below(k, k)
  {
  }

  lemma NotAtOrBelow(a: string, b: string)
    requires !AtOrBelow(a, b)
    ensures !Below(a, b)
  {
  }

  /** A fixed key that differs from all the others in some place. */
  lemma FixedClear(k: string, names: seq<string>)
    requires k in [LIVE_UG_KEY, US_KEY, US_OLD_KEY, UNDO_KEY, STACKS_KEY] && forall i :: 0 <= i < |names| ==>
               Undo.ValidName(names[i])
    ensures Clear(k, names)
  {
    hide LiveKey, LIVE_UG_KEY, US_KEY, US_OLD_KEY, LIB_KEY, UNDO_KEY, STACKS_KEY, Below;
    UndoRun.LibsShape(); UndoRun.StartupShape(); FixedShape();
    forall w | w in Writes(names) ensures !Below(w, k) {
      if i :| 0 <= i < |names| && w == LiveKey(names[i]) {
        NameShape(names[i]);
        FarApart(w, k, 4);
      } else if k == LIVE_UG_KEY {
        if w == LIVE_UG_KEY { NotBelowSelf(k); } else if w == LIB_KEY { FarApart(w, k, 9); } else { FarApart(w, k, 4); }
      } else if w == LIVE_UG_KEY || w == LIB_KEY {
        FarApart(w, k, 4);
      } else if k == UNDO_KEY || k == STACKS_KEY {
        FarApart(w, k, 6);
      } else {
        NoneBelowStartup(k);
      }
    }
  }

  lemma FarApart(w: string, k: string, i: nat)
    requires i < |w| && i < |k| && w[i] != k[i]
    ensures !Below(w, k)
  {
    DifferAt(w, k, i);
  }

  lemma FixedShape()
    ensures |US_KEY| > 6 && |US_OLD_KEY| > 6 && |UNDO_KEY| > 6 && |STACKS_KEY| > 6
    ensures US_KEY[6] == 'u' && US_OLD_KEY[6] == 'u' && UNDO_KEY[6] == 't' && STACKS_KEY[6] == 't'
  {
    UsSixth();
  }

  // ------------------------------------------------- the undo script goes

  lemma UndoBeforeLast(names: seq<string>, m: Tree)
    requires Undo.ValidNames(names) && Kind(m, STACKS_KEY) == ABSENT && Plain(m, UNDO_KEY)
    ensures UNDO_KEY !in UndoRun.RunUndo(names, m, {}).m
  {
    hide Dos.ExecBlock, Dos.ExecItem, Undo.NameItems, Undo.TAIL, Undo.STACKS_ITEM, Bounded, Kind, STACKS_KEY, Writes,
         Removes, Plain, UNDO_KEY, UndoRun.RunUndo, Undo.ValidName, UndoRun.RunStages;
    UndoRun.UndoIsStages(names, m, {});
    var s := UndoRun.AfterHead(m, {});
    UndoRun.RestIsStages(names, s);
    var e := UndoRun.RunStages(names, s).end;
    var b := Undo.NameItems(names) + Undo.TAIL;
    EndIs(names, s);
    FrontBounded(names);
    FixedClear(UNDO_KEY, names);
    PlainExec(b, s, 0, Writes(names), Removes(names), UNDO_KEY);
    LastDelete(e);
  }

  lemma EndIs(names: seq<string>, s: Dos.State)
    requires s.halt == Dos.Go && s.failat > Dos.FAIL
    ensures var e := UndoRun.RunStages(names, s).end;
            Dos.ExecBlock(Undo.NameItems(names) + Undo.TAIL, s, 0) == e && e.ro == s.ro && e.halt == Dos.Go
  {
    hide Dos.ExecBlock, Dos.ExecItem, Undo.NameItems, Undo.TAIL, Undo.UG_ITEM, Undo.LIB_ITEM, UndoRun.BEFORE_LIB,
         UndoRun.AFTER_LIB, Undo.DIR_ITEMS;
    var r := UndoRun.RunStages(names, s);
    Dos.ExecAppend(Undo.NameItems(names), Undo.TAIL, s, 0);
    UndoRun.StagesGo(names, s);
    assert r.named in [r.named, r.ug, r.mid, r.lib, r.noted, r.end];
    assert r.end in [r.named, r.ug, r.mid, r.lib, r.noted, r.end];
    UndoRun.TailExec(r.named);
  }

  lemma FrontBounded(names: seq<string>)
    requires Undo.ValidNames(names)
    ensures Bounded(Undo.NameItems(names) + Undo.TAIL, Writes(names), Removes(names))
  {
    hide Undo.NameItems, Undo.TAIL, Writes, Removes;
    RestBounded(names);
    PrefixBounded(Undo.NameItems(names) + Undo.TAIL, [Undo.SELF_DELETE], Writes(names), Removes(names));
  }

  lemma {:induction false} PrefixBounded(a: Dos.Block, b: Dos.Block, writes: set<string>, removes: set<string>)
    requires Bounded(a + b, writes, removes)
    ensures Bounded(a, writes, removes)
    decreases |a|
  {
    hide Lint.ItemExecuteKeys, Lint.ItemWriteKeys, ItemRemoveKeys;
    if a != [] {
      assert (a + b)[1..] == a[1..] + b && (a + b)[0] == a[0];
      PrefixBounded(a[1..], b, writes, removes);
    }
  }

  lemma LastDelete(s: Dos.State)
    requires s.halt == Dos.Go && s.ro == {} && Plain(s.m, UNDO_KEY)
    ensures UNDO_KEY !in Dos.ExecItem(Undo.SELF_DELETE, s, 0).m
  {
    hide Norm, Writable, UNDO_KEY;
    SKeys(); UndoWritable();
    if UNDO_KEY in s.m { KindPresent(s.m, UNDO_KEY); }
  }

  lemma UndoWritable()
    ensures Writable({}, UNDO_KEY)
  {
    UndoSlot();
  }

  // --------------------------------------------------- one install and undo

  /** The system's directories, S:User-Startup and no trace of tolunnet. */
  ghost predicate Untainted(m: Tree, all: seq<string>) {
    Pristine(m, all) && HostDirs(m) && Plain(m, US_KEY) && Plain(m, US_OLD_KEY)
  }

  lemma HostUntouched(names: seq<string>, k: string)
    requires forall i :: 0 <= i < |names| ==> Undo.ValidName(names[i])
    requires k == "sys:c" || k == "sys:libs" || k == "sys:prefs" || k == "sys:s"
    ensures Untouched(k, Writes(names), Removes(names))
  {
    hide LiveKey, BackupKey, AtOrBelow, LIVE_UG_KEY, US_KEY, US_OLD_KEY, LIB_KEY, US_BAK_KEY, NEWER_KEY, PARKED_KEY,
         UNDO_KEY, BACKUP_UG_KEY, NEW_DIR_KEY, OURS_DIR_KEY, C_DIR_KEY, LIBS_DIR_KEY, BACKUP_KEY, CONFIG_KEY;
    FixedLong();
    forall t | t in Removes(names) ensures !AtOrBelow(k, t) {
      if i :| 0 <= i < |names| && (t == LiveKey(names[i]) || t == BackupKey(names[i])) {
        LiveLong(names[i]);
        if |k| < |t| { ShorterNotBelow(k, t); } else { ApartAt(k, t, 4); }
      } else {
        ShorterNotBelow(k, t);
      }
    }
    forall w | w in Writes(names) ensures w != k {
      if i :| 0 <= i < |names| && w == LiveKey(names[i]) { LiveLong(names[i]); }
    }
  }

  lemma LiveLong(n: string)
    requires Undo.ValidName(n)
    ensures |LiveKey(n)| > 6 && LiveKey(n)[4] == 'c' && LiveKey(n)[5] == '/' && |BackupKey(n)| > 10
  {
    NameShape(n); NameFifth(n);
  }

  lemma FixedLong()
    ensures |LIVE_UG_KEY| > 9 && |US_KEY| > 9 && |US_OLD_KEY| > 9 && |LIB_KEY| > 9 && |US_BAK_KEY| > 9
    ensures |NEWER_KEY| > 9 && |PARKED_KEY| > 9
    ensures |UNDO_KEY| > 9 && |CONFIG_KEY| > 9 && |BACKUP_UG_KEY| > 9 && |BACKUP_KEY| > 9
    ensures |NEW_DIR_KEY| > 9 && |OURS_DIR_KEY| > 9 && |C_DIR_KEY| > 9 && |LIBS_DIR_KEY| > 9
  {
    UndoRun.LibsShape(); UndoRun.BackupShape();
  }

  lemma HostStands(names: seq<string>, m: Tree)
    requires Undo.ValidNames(names) && Kind(m, STACKS_KEY) == ABSENT && HostDirs(m)
    ensures HostDirs(UndoRun.RunUndo(names, m, {}).m)
  {
    hide UndoRun.RunUndo, Kind, STACKS_KEY, Untouched, Undo.ValidName, Writes, Removes;
    HostUntouched(names, "sys:c"); HostUntouched(names, "sys:libs"); HostUntouched(names, "sys:prefs");
    HostUntouched(names, "sys:s");
    UndoWithin(names, m, {}, "sys:c"); UndoWithin(names, m, {}, "sys:libs"); UndoWithin(names, m, {}, "sys:prefs");
    UndoWithin(names, m, {}, "sys:s");
  }

  /** A key outside S:, or with another first letter there. */
  predicate Elsewhere(t: string) { |t| > 6 && (t[4] != 's' || t[5] != '/' || t[6] != 't') }

  lemma ElsewhereApart(t: string)
    requires Elsewhere(t)
    ensures !AtOrBelow(STACKS_KEY, t) && t != STACKS_KEY
  {
    hide AtOrBelow;
    UndoRun.StartupShape(); FixedShape();
    ApartAt(STACKS_KEY, t, if t[4] != 's' then 4 else if t[5] != '/' then 5 else 6);
  }

  lemma FixedElsewhere()
    ensures Elsewhere(LIVE_UG_KEY) && Elsewhere(US_KEY) && Elsewhere(US_OLD_KEY) && Elsewhere(US_BAK_KEY)
    ensures Elsewhere(LIB_KEY) && Elsewhere(NEWER_KEY) && Elsewhere(PARKED_KEY) && Elsewhere(CONFIG_KEY)
    ensures Elsewhere(BACKUP_UG_KEY) && Elsewhere(NEW_DIR_KEY) && Elsewhere(OURS_DIR_KEY) && Elsewhere(C_DIR_KEY)
    ensures Elsewhere(LIBS_DIR_KEY) && Elsewhere(BACKUP_KEY)
    ensures Elsewhere("sys:prefs/tolunnetprefs") && Elsewhere("sys:prefs/tolunnetprefs.info")
    ensures Elsewhere("sys:prefs/tolunnetsetup") && Elsewhere("sys:prefs/tolunnetsetup.info")
  {
    hide LIVE_UG_KEY, US_KEY, US_OLD_KEY, US_BAK_KEY, LIB_KEY, NEWER_KEY, PARKED_KEY, CONFIG_KEY, BACKUP_UG_KEY,
         NEW_DIR_KEY, OURS_DIR_KEY, C_DIR_KEY, LIBS_DIR_KEY, BACKUP_KEY;
    UndoRun.LibsShape(); UndoRun.StartupShape(); UndoRun.BackupShape(); DirFifth(); UsSixth(); OtherAreas();
  }

  lemma NameElsewhere(n: string)
    requires Undo.ValidName(n)
    ensures Elsewhere(LiveKey(n)) && Elsewhere(BackupKey(n))
  {
    hide LiveKey, BackupKey;
    LiveLong(n); NameFifth(n);
  }

  lemma StacksUntouched(names: seq<string>)
    requires forall i :: 0 <= i < |names| ==> Undo.ValidName(names[i])
    ensures Untouched(STACKS_KEY, Writes(names), Removes(names))
  {
    hide LiveKey, BackupKey, AtOrBelow, LIVE_UG_KEY, US_KEY, US_OLD_KEY, LIB_KEY, US_BAK_KEY, NEWER_KEY, PARKED_KEY,
         UNDO_KEY, BACKUP_UG_KEY, NEW_DIR_KEY, OURS_DIR_KEY, C_DIR_KEY, LIBS_DIR_KEY, BACKUP_KEY, CONFIG_KEY,
         STACKS_KEY, Elsewhere;
    FixedElsewhere(); StacksBesideUndo();
    forall i | 0 <= i < |names| ensures Elsewhere(LiveKey(names[i])) && Elsewhere(BackupKey(names[i])) {
      NameElsewhere(names[i]);
    }
    forall t | t in Removes(names) ensures !AtOrBelow(STACKS_KEY, t) {
      if t != UNDO_KEY { ElsewhereApart(t); }
    }
    forall w | w in Writes(names) ensures w != STACKS_KEY { ElsewhereApart(w); }
  }

  lemma StacksBesideUndo()
    ensures !AtOrBelow(STACKS_KEY, UNDO_KEY)
  {
    assert |UNDO_KEY| == 19 && STACKS_KEY[19] == '-';
  }

  lemma OtherAreas()
    ensures CONFIG_KEY[4] == 'd' && |CONFIG_KEY| > 9 && BACKUP_UG_KEY[5] == 't'
    ensures "sys:prefs/tolunnetprefs"[4] == 'p' && "sys:prefs/tolunnetsetup"[4] == 'p'
    ensures "sys:prefs/tolunnetprefs.info"[4] == 'p' && "sys:prefs/tolunnetsetup.info"[4] == 'p'
  {
    UndoRun.BackupShape();
  }

  lemma AbsentPlain(m: Tree, k: string)
    requires Keylike(k)
    ensures Kind(m, k) == ABSENT <==> Plain(m, k) && k !in m
  {
  }

  lemma StacksStay(names: seq<string>, m: Tree)
    requires Undo.ValidNames(names) && Kind(m, STACKS_KEY) == ABSENT
    ensures Kind(UndoRun.RunUndo(names, m, {}).m, STACKS_KEY) == ABSENT
  {
    hide UndoRun.RunUndo, Kind, STACKS_KEY, Untouched, Undo.ValidName, Writes, Removes, Plain, Keylike;
    StacksKeylike();
    AbsentPlain(m, STACKS_KEY);
    StacksUntouched(names);
    UndoWithin(names, m, {}, STACKS_KEY);
    FixedClear(STACKS_KEY, names);
    UndoKeepsPlain(names, m, {}, STACKS_KEY);
    AbsentPlain(UndoRun.RunUndo(names, m, {}).m, STACKS_KEY);
  }

  lemma StacksKeylike()
    ensures Keylike(STACKS_KEY) && Keylike(UNDO_KEY)
  {
  }

  /** Nothing lies below the undo script: there never was anything. */
  lemma UndoPlain(m0: Tree, m: Tree, names: seq<string>)
    requires Within(m0, m, names) && Kind(m0, UNDO_KEY) == ABSENT && (UNDO_KEY in m ==> m[UNDO_KEY].File?)
    requires forall i :: 0 <= i < |names| ==> Undo.ValidName(names[i])
    ensures Plain(m, UNDO_KEY)
  {
    hide Foot, UNDO_KEY, Keylike, Writable, Undo.ValidName, Below;
    StacksKeylike();
    AbsentPlain(m0, UNDO_KEY);
    forall q | q in m && Below(q, UNDO_KEY) ensures q in Children(m0, UNDO_KEY) {
      UndoNoFoot(q, names);
    }
    assert Children(m, UNDO_KEY) <= Children(m0, UNDO_KEY);
  }

  lemma UndoNoFoot(q: string, names: seq<string>)
    requires Below(q, UNDO_KEY) && forall i :: 0 <= i < |names| ==> Undo.ValidName(names[i])
    ensures !Foot(q, names)
  {
    hide LiveKey, BackupKey, US_BAK_KEY, LIB_KEY, PARKED_KEY, NEWER_KEY, LIVE_UG_KEY, BACKUP_UG_KEY;
    BelowUndoChars(q);
    UndoRun.LibsShape(); UndoRun.StartupShape(); UndoRun.BackupShape(); DirFifth(); FixedShape(); UsSixth();
    OtherAreas();
    forall i | 0 <= i < |names| ensures q != LiveKey(names[i]) && q != BackupKey(names[i]) {
      LiveLong(names[i]); NameFifth(names[i]);
    }
    if AtOrBelow(q, NEW_DIR_KEY) { AreaChars(q, NEW_DIR_KEY); }
    if AtOrBelow(q, OURS_DIR_KEY) { AreaChars(q, OURS_DIR_KEY); }
  }

  lemma AreaChars(q: string, d: string)
    requires AtOrBelow(q, d) && |d| > 5
    ensures |q| > 5 && q[5] == d[5]
  {
    assert q == d || (d + "/")[5] == q[5];
  }

  lemma BelowUndoChars(q: string)
    requires Below(q, UNDO_KEY)
    ensures |q| > 19 && q[4] == 's' && q[5] == '/' && q[6] == 't'
  {
    var p := UNDO_KEY + "/";
    assert |p| == 20 && p[4] == 's' && p[5] == '/' && p[6] == 't';
  }

  /** A history that grows, with full packages and nothing in its way. */
  ghost predicate Smooth(all: seq<string>, pc: Machine, history: seq<Install>) {
    && AllSound(history) && Covers(all, history) && Growing(all, history) && ShortSums(pc.sum)
    && forall j :: 0 <= j < |history| ==> Undisturbed(history[j])
  }

  /** The last list names every command of the history. */
  lemma LastHasAll(all: seq<string>, history: seq<Install>, j: nat, i: nat)
    requires AllSound(history) && Covers(all, history) && Growing(all, history) && j < |history|
    requires i < |history[j].names|
    ensures Named(history[|history| - 1].names, history[j].names[i])
  {
    hide Lower, Undo.ValidName, Growing;
    var n := history[j].names[i];
    assert Fits(all, history[j]);
    assert n in all;
    var k :| 0 <= k < |all| && all[k] == n;
    assert Named(history[j].names, all[k]);
    LaterNames(all, history, j, k);
  }

  /** What a smooth history leaves: its own undo script, all files in states that
      the undo knows, and changes within the footprint only. */
  lemma SmoothLeaves(all: seq<string>, pc: Machine, history: seq<Install>, m0: Tree)
    requires Smooth(all, pc, history) && history != [] && Untainted(m0, all)
    ensures var m := After(pc, history, m0); var names := history[|history| - 1].names;
            && Complete(pc, history, m0) && Undo.ValidNames(names) && UndoFor(m, names) && AllSafe(m, m0, all)
            && Hosts(m, all)
            && Within(m0, m, names)
  {
    hide RunInstall, Sound, Fits, Undisturbed, Hosts, ShortSums, HostDirs, Plain, Startable, US_KEY, US_OLD_KEY,
         Pristine, AllSafe, AllInstalled, UndoFor, Within, Named, Undo.ValidName, Growing;
    var front, last := history[..|history| - 1], history[|history| - 1];
    HistoryCompletes.HistoryCompletes(all, pc, history, m0);
    CompleteFront(pc, history, m0);
    HistoryStartable(all, pc, front, m0);
    SoundNames(last);
    InstallStep(all, pc, last, After(pc, front, m0), m0);
    assert RunInstall(pc, history[|history| - 1], After(pc, history[..|history| - 1], m0)).status == Running;
    forall j, i | 0 <= j < |history| && 0 <= i < |history[j].names| ensures Named(last.names, history[j].names[i]) {
      LastHasAll(all, history, j, i);
    }
    HistoryWithin(pc, history, m0, last.names);
  }

  lemma SafeParts(m: Tree, m0: Tree, all: seq<string>, names: seq<string>)
    requires AllSafe(m, m0, all) && forall i :: 0 <= i < |names| ==> names[i] in all
    ensures forall i :: 0 <= i < |all| ==> Plain(m, LiveKey(all[i]))
    ensures forall i :: 0 <= i < |names| ==> Plain(m, LiveKey(names[i])) && Plain(m, BackupKey(names[i]))
    ensures Plain(m, LIVE_UG_KEY) && Plain(m, BACKUP_UG_KEY) && PlainShelf(m) && Kind(m, STACKS_KEY) == ABSENT
  {
    hide Kind, Plain, LiveKey, BackupKey, NewKey, Content, LIVE_UG_KEY, BACKUP_UG_KEY, STACKS_KEY, PlainShelf,
         ShelfOf, NoFiles;
    forall i | 0 <= i < |all| ensures Plain(m, LiveKey(all[i])) && Plain(m, BackupKey(all[i])) {
      assert Safe(m, all[i], Content(m0, LiveKey(all[i])));
    }
    forall i | 0 <= i < |names| ensures Plain(m, LiveKey(names[i])) && Plain(m, BackupKey(names[i])) {
      assert names[i] in all;
      var a :| 0 <= a < |all| && all[a] == names[i];
    }
  }

  /** The undo of such a state leaves no trace. */
  lemma UndoUntaints(all: seq<string>, names: seq<string>, m: Tree, m0: Tree)
    requires Undo.ValidNames(names) && (forall i :: 0 <= i < |names| ==> names[i] in all) && Untainted(m0, all)
    requires UndoFor(m, names) && AllSafe(m, m0, all) && Hosts(m, all) && Within(m0, m, names)
    requires ShelfOf(UndoRun.RunUndo(names, m, {}).m) == ShelfOf(m0)
    ensures Untainted(UndoRun.RunUndo(names, m, {}).m, all)
  {
    hide UndoRun.RunUndo, Kind, STACKS_KEY, Undo.ValidName, Plain, LiveKey, BackupKey, LIVE_UG_KEY, BACKUP_UG_KEY,
         PlainShelf, ShelfOf, UNDO_KEY, US_KEY, US_OLD_KEY, HostDirs, AtOrBelow, Tidy, AllSafe, Within, AllOpen,
         Clear, Keylike, UndoText, BACKUP_KEY, Undo.UG, Writes;
    var end := UndoRun.RunUndo(names, m, {}).m;
    SafeParts(m, m0, all, names);
    AreaTidy(m0, m, all, names);
    UndoClears.UndoClears(names, m);
    HostStands(names, m);
    StacksStay(names, m);
    UndoFile(m, names);
    UndoPlain(m0, m, names);
    UndoBeforeLast(names, m);
    StacksKeylike();
    FixedPlain(names, m, UNDO_KEY); FixedPlain(names, m, US_KEY); FixedPlain(names, m, US_OLD_KEY);
    FixedPlain(names, m, LIVE_UG_KEY);
    AbsentPlain(end, UNDO_KEY);
    forall i | 0 <= i < |all| ensures Undo.ValidName(all[i]) && Plain(end, LiveKey(all[i])) {
      LiveClear(all[i], names);
      ClearPlain(names, m, LiveKey(all[i]));
    }
    UndoLibrary(names, m, {});
  }

  lemma UndoFile(m: Tree, names: seq<string>)
    requires Undo.ValidNames(names) && UndoFor(m, names)
    ensures UNDO_KEY in m && m[UNDO_KEY].File?
  {
    hide UndoText, UNDO_KEY;
  }

  lemma ClearPlain(names: seq<string>, m: Tree, k: string)
    requires Undo.ValidNames(names) && Kind(m, STACKS_KEY) == ABSENT && Plain(m, k) && Clear(k, names)
    ensures Plain(UndoRun.RunUndo(names, m, {}).m, k)
  {
    hide UndoRun.RunUndo, Kind, STACKS_KEY, Plain, Writes, Below;
    UndoKeepsPlain(names, m, {}, k);
  }

  lemma FixedPlain(names: seq<string>, m: Tree, k: string)
    requires Undo.ValidNames(names) && Kind(m, STACKS_KEY) == ABSENT && Plain(m, k)
    requires k in [LIVE_UG_KEY, US_KEY, US_OLD_KEY, UNDO_KEY, STACKS_KEY]
    ensures Plain(UndoRun.RunUndo(names, m, {}).m, k)
  {
    hide UndoRun.RunUndo, Kind, STACKS_KEY, Plain, Clear, Undo.ValidName, LIVE_UG_KEY, US_KEY, US_OLD_KEY, UNDO_KEY;
    FixedClear(k, names);
    ClearPlain(names, m, k);
  }

  /** Neither the installs of these commands nor their undo touch the key. */
  ghost predicate Apart(k: string, names: seq<string>) {
    !Foot(k, names) && Untouched(k, Writes(names), Removes(names))
  }

  /** One cycle: any number of installs of growing versions and then the undo.
      The system is without a trace again, every command is as it was, and so is
      every key apart from the footprint of the last version. */
  lemma CycleRestores(all: seq<string>, pc: Machine, history: seq<Install>, m0: Tree)
    requires Smooth(all, pc, history) && Untainted(m0, all)
    ensures var end := UndoOf(After(pc, history, m0), {}).m;
            && Untainted(end, all) && ShelfOf(end) == ShelfOf(m0)
            && (forall k :: 0 <= k < |all| ==> Content(end, LiveKey(all[k])) == Content(m0, LiveKey(all[k])))
            && (Content(m0, LIVE_UG_KEY).Some? ==> Content(end, LIVE_UG_KEY) == Content(m0, LIVE_UG_KEY))
            && (history == [] ==> end == m0)
            && (history != [] ==> forall k :: Apart(k, history[|history| - 1].names) ==> SameAt(m0, end, k))
  {
    hide UndoRun.RunUndo, UndoOf, RunInstall, Kind, STACKS_KEY, Undo.ValidName, Plain, LiveKey, LIVE_UG_KEY,
         PlainShelf, ShelfOf, UNDO_KEY, US_KEY, US_OLD_KEY, HostDirs, AllSafe, Hosts, Content, Sound, Fits,
         Undisturbed, ShortSums, Pristine, Complete, UndoFor, Growing, Foot, Untouched, SameAt, Writable, UndoNames,
         Named;
    if history == [] {
      PristineNoUndo(m0, all);
      UndoOfPristine(m0, {});
    } else {
      var m, names := After(pc, history, m0), history[|history| - 1].names;
      SmoothLeaves(all, pc, history, m0);
      CompleteFront(pc, history, m0);
      GrowingVersionsRestore(all, pc, history, m0);
      InstallsThenUndoRestore(all, pc, history, m0);
      UndoIsRunUndo(names, m, {});
      LastFits(all, history);
      UndoUntaints(all, names, m, m0);
      SafeParts(m, m0, all, names);
      var end := UndoOf(m, {}).m;
      forall k | Apart(k, names) ensures SameAt(m0, end, k) {
        UndoWithin(names, m, {}, k);
        SameTwice(m0, m, end, k);
      }
    }
  }

  lemma LastFits(all: seq<string>, history: seq<Install>)
    requires Covers(all, history) && history != []
    ensures var names := history[|history| - 1].names; forall i :: 0 <= i < |names| ==> names[i] in all
  {
    assert Fits(all, history[|history| - 1]);
  }

  lemma PristineNoUndo(m: Tree, all: seq<string>)
    requires Pristine(m, all)
    ensures Kind(m, UNDO_KEY) == ABSENT
  {
  }

  lemma SameSelf(m: Tree, k: string)
    ensures SameAt(m, m, k)
  {
  }

  lemma SameTwice(a: Tree, b: Tree, c: Tree, k: string)
    requires ((k in a <==> k in b) && (k in a ==> a[k] == b[k])) && SameAt(b, c, k)
    ensures SameAt(a, c, k)
  {
  }

  // ------------------------------------------------------------- the cycles

  function AfterCycles(pc: Machine, cycles: seq<seq<Install>>, m: Tree): Tree
    requires forall j :: 0 <= j < |cycles| ==> AllSound(cycles[j])
  {
    if cycles == [] then m
    else UndoOf(After(pc, cycles[|cycles| - 1], AfterCycles(pc, cycles[..|cycles| - 1], m)), {}).m
  }

  /** Apart from the footprints of all the cycles. */
  ghost predicate ApartFrom(k: string, cycles: seq<seq<Install>>) {
    forall j :: 0 <= j < |cycles| && cycles[j] != [] ==> Apart(k, cycles[j][|cycles[j]| - 1].names)
  }

  lemma ApartParts(k: string, cycles: seq<seq<Install>>)
    requires ApartFrom(k, cycles) && cycles != []
    ensures ApartFrom(k, cycles[..|cycles| - 1])
    ensures var last := cycles[|cycles| - 1]; last != [] ==> Apart(k, last[|last| - 1].names)
  {
    hide Apart;
    var front := cycles[..|cycles| - 1];
    assert forall j :: 0 <= j < |front| ==> front[j] == cycles[j];
  }

  lemma SameThrice(a: Tree, b: Tree, c: Tree, k: string)
    requires SameAt(a, b, k) && SameAt(b, c, k)
    ensures SameAt(a, c, k)
  {
  }

  /** Any number of cycles, each of any number of growing installs and the undo:
      no trace, every command as it was, and every key apart from the footprints
      as it was. */
  lemma {:induction false} CyclesRestore(all: seq<string>, pc: Machine, cycles: seq<seq<Install>>, m0: Tree)
    requires forall j :: 0 <= j < |cycles| ==> AllSound(cycles[j]) && Smooth(all, pc, cycles[j])
    requires Untainted(m0, all)
    ensures var end := AfterCycles(pc, cycles, m0);
            && Untainted(end, all) && ShelfOf(end) == ShelfOf(m0)
            && (forall k :: 0 <= k < |all| ==> Content(end, LiveKey(all[k])) == Content(m0, LiveKey(all[k])))
            && (Content(m0, LIVE_UG_KEY).Some? ==> Content(end, LIVE_UG_KEY) == Content(m0, LIVE_UG_KEY))
            && (forall k :: ApartFrom(k, cycles) ==> SameAt(m0, end, k))
  {
    hide UndoOf, After, Untainted, LiveKey, LIVE_UG_KEY, ShelfOf, Content, AllSound, Smooth, ApartFrom, SameAt, Apart;
    if cycles == [] {
      forall k | ApartFrom(k, cycles) ensures SameAt(m0, m0, k) { SameSelf(m0, k); }
    } else {
      var front, last := cycles[..|cycles| - 1], cycles[|cycles| - 1];
      CyclesRestore(all, pc, front, m0);
      var mid := AfterCycles(pc, front, m0);
      CycleRestores(all, pc, last, mid);
      var end := AfterCycles(pc, cycles, m0);
      forall k | ApartFrom(k, cycles) ensures SameAt(m0, end, k) {
        ApartParts(k, cycles);
        if last == [] { SameSelf(mid, k); }
        SameThrice(m0, mid, end, k);
      }
    }
  }
}
