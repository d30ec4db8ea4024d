/** Every key that the undo writes or takes away. */
module UndoBounds {
  import opened Files
  import opened Dos
  import opened Undo
  import opened Keys
  import opened Lint
  import opened LintScripts
  import opened Restore
  import opened UndoRun

  // ------------------------------------------------- what the undo can reach

  /** The keys that the block deletes or renames away. */
  function RemoveKeys(b: Block): set<string>
    decreases b, 0
  {
    if b == [] then {} else ItemRemoveKeys(b[0]) + RemoveKeys(b[1..])
  }

  function ItemRemoveKeys(it: Item): set<string>
    decreases it, 1
  {
    match it
    case If(_, _, thn, els) => RemoveKeys(thn) + RemoveKeys(els)
    case Delete(target, _) => {Norm(target)}
    case Rename(src, _) => {Norm(src)}
    case _ => {}
  }

  /** Nothing but these keys is written, nothing but at or below those removed. */
  predicate Bounded(b: Block, writes: set<string>, removes: set<string>) {
    ExecuteKeys(b) == {} && WriteKeys(b) <= writes && RemoveKeys(b) <= removes
  }

  predicate BoundedItem(it: Item, writes: set<string>, removes: set<string>) {
    ItemExecuteKeys(it) == {} && ItemWriteKeys(it) <= writes && ItemRemoveKeys(it) <= removes
  }

  lemma {:induction false} BoundedAppend(a: Block, b: Block, writes: set<string>, removes: set<string>)
    requires Bounded(a, writes, removes) && Bounded(b, writes, removes)
    ensures Bounded(a + b, writes, removes)
    decreases |a|
  {
    hide ItemExecuteKeys, ItemWriteKeys, ItemRemoveKeys;
    if a == [] {
      assert a + b == b;
    } else {
      assert (a + b)[1..] == a[1..] + b;
      BoundedAppend(a[1..], b, writes, removes);
    }
  }

  lemma BoundedOne(it: Item, writes: set<string>, removes: set<string>)
    requires BoundedItem(it, writes, removes)
    ensures Bounded([it], writes, removes)
  {
    hide ItemExecuteKeys, ItemWriteKeys, ItemRemoveKeys;
    OneKeys(it);
    assert [it][1..] == [] && RemoveKeys([it][1..]) == {};
  }

  lemma BoundedTwo(a: Item, b: Item, writes: set<string>, removes: set<string>)
    requires BoundedItem(a, writes, removes) && BoundedItem(b, writes, removes)
    ensures Bounded([a, b], writes, removes)
  {
    hide BoundedItem, Bounded;
    BoundedOne(a, writes, removes); BoundedOne(b, writes, removes);
    BoundedAppend([a], [b], writes, removes);
    assert [a] + [b] == [a, b];
  }

  lemma BoundedIf(neg: bool, test: Test, thn: Block, els: Block, writes: set<string>, removes: set<string>)
    requires Bounded(thn, writes, removes) && Bounded(els, writes, removes)
    ensures BoundedItem(If(neg, test, thn, els), writes, removes)
  {
    hide ExecuteKeys, WriteKeys, RemoveKeys;
  }

  lemma BoundedNone(writes: set<string>, removes: set<string>)
    ensures Bounded([], writes, removes)
  {
  }

  lemma {:induction false} BoundedEach(b: Block, writes: set<string>, removes: set<string>)
    requires forall i :: 0 <= i < |b| ==> BoundedItem(b[i], writes, removes)
    ensures Bounded(b, writes, removes)
  {
    hide ItemExecuteKeys, ItemWriteKeys, ItemRemoveKeys;
    if b != [] {
      assert BoundedItem(b[0], writes, removes);
      BoundedEach(b[1..], writes, removes);
    }
  }

  lemma DropBounded(path: string, all: bool, writes: set<string>, removes: set<string>)
    requires Norm(path) in removes
    ensures BoundedItem(Drop(path, all), writes, removes)
  {
    hide Norm;
    BoundedOne(Delete(path, all), writes, removes);
    BoundedNone(writes, removes);
    BoundedIf(false, Exists(path), [Delete(path, all)], [], writes, removes);
  }

  lemma NoteBounded(path: string, text: seq<string>, writes: set<string>, removes: set<string>)
    ensures BoundedItem(When(path, [Echo(text)]), writes, removes) && Bounded([Echo(text)], writes, removes)
  {
    hide Norm;
    BoundedOne(Echo(text), writes, removes);
    BoundedNone(writes, removes);
    BoundedIf(false, Exists(path), [Echo(text)], [], writes, removes);
  }

  lemma RestoreBounded(backup: string, live: string, dir: string, writes: set<string>, removes: set<string>)
    requires Norm(live) in writes && Norm(backup) in removes
    ensures Bounded(RestoreFile(backup, live, dir), writes, removes)
  {
    hide Norm;
    var b := RestoreFile(backup, live, dir);
    NoteBounded("", b[1].thn[0].text, writes, removes);
    BoundedOne(Delete(backup, false), writes, removes);
    BoundedIf(false, Warn, b[1].thn, b[1].els, writes, removes);
    BoundedTwo(b[0], b[1], writes, removes);
  }

  /** A key that is neither written nor at or below a removed one. */
  ghost predicate Untouched(k: string, writes: set<string>, removes: set<string>) {
    k !in writes && forall t :: t in removes ==> !AtOrBelow(k, t)
  }

  ghost predicate SameAt(m: Tree, m': Tree, k: string) { (k in m <==> k in m') && (k in m ==> m[k] == m'[k]) }

  lemma {:induction false} UntouchedExec(b: Block, s: State, depth: nat, writes: set<string>, removes: set<string>,
                                         k: string)
    requires depth <= MAX_DEPTH && Bounded(b, writes, removes) && Untouched(k, writes, removes)
    ensures SameAt(s.m, ExecBlock(b, s, depth).m, k)
    decreases b, 0
  {
    hide Norm, Kind, Writable, Untouched;
    if b != [] && s.halt == Go {
      UntouchedItem(b[0], s, depth, writes, removes, k);
      UntouchedExec(b[1..], ExecItem(b[0], s, depth), depth, writes, removes, k);
    }
  }

  lemma {:induction false} UntouchedItem(it: Item, s: State, depth: nat, writes: set<string>, removes: set<string>,
                                         k: string)
    requires depth <= MAX_DEPTH && BoundedItem(it, writes, removes) && Untouched(k, writes, removes)
    ensures SameAt(s.m, ExecItem(it, s, depth).m, k)
    decreases it, 1
  {
    hide Norm, Writable;
    if it.If? {
      var b := if Holds(s, it.test) != it.neg then it.thn else it.els;
      UntouchedExec(b, Observe(s, it.test), depth, writes, removes, k);
    }
  }

  /** Nothing is written below the key: a plain file stays one, or goes. */
  lemma {:induction false} PlainExec(b: Block, s: State, depth: nat, writes: set<string>, removes: set<string>,
                                     k: string)
    requires depth <= MAX_DEPTH && Bounded(b, writes, removes) && Plain(s.m, k) && forall w :: w in writes ==>
               !Below(w, k)
    ensures Plain(ExecBlock(b, s, depth).m, k)
    decreases b, 0
  {
    hide Norm, Kind, Writable, Plain;
    if b != [] && s.halt == Go {
      PlainItem(b[0], s, depth, writes, removes, k);
      PlainExec(b[1..], ExecItem(b[0], s, depth), depth, writes, removes, k);
    }
  }

  lemma {:induction false} PlainItem(it: Item, s: State, depth: nat, writes: set<string>, removes: set<string>,
                                     k: string)
    requires depth <= MAX_DEPTH && BoundedItem(it, writes, removes) && Plain(s.m, k) && forall w :: w in writes ==>
               !Below(w, k)
    ensures Plain(ExecItem(it, s, depth).m, k)
    decreases it, 1
  {
    hide Norm, Writable, Below;
    match it {
      case If(neg, test, thn, els) =>
        PlainExec(if Holds(s, test) != neg then thn else els, Observe(s, test), depth, writes, removes, k);
      case Delete(target, _) =>
        assert Children(ExecItem(it, s, depth).m, k) <= Children(s.m, k);
      case Copy(src, dst) =>
        assert Children(ExecItem(it, s, depth).m, k) <= Children(s.m, k);
      case Rename(src, dst) =>
        assert Children(ExecItem(it, s, depth).m, k) <= Children(s.m, k);
      case _ =>
    }
  }

  // --------------------------------------------------- the undo's own bounds

  function Writes(names: seq<string>): set<string> {
    (set i | 0 <= i < |names| :: LiveKey(names[i])) + {LIVE_UG_KEY, US_KEY, US_OLD_KEY, LIB_KEY}
  }

  const CONFIG_KEY := "sys:devs/" + "tolunnet.config"

  function Removes(names: seq<string>): set<string> {
    (set i | 0 <= i < |names| :: LiveKey(names[i])) + (set i | 0 <= i < |names| :: BackupKey(names[i]))
    + {BACKUP_UG_KEY, NEW_DIR_KEY, OURS_DIR_KEY, C_DIR_KEY, LIBS_DIR_KEY, BACKUP_KEY}
    + {US_BAK_KEY, US_OLD_KEY, NEWER_KEY, PARKED_KEY, UNDO_KEY, CONFIG_KEY}
    + {"sys:prefs/tolunnetprefs", "sys:prefs/tolunnetprefs.info", "sys:prefs/tolunnetsetup",
        "sys:prefs/tolunnetsetup.info"}
  }

  lemma NameBounded(n: string, writes: set<string>, removes: set<string>)
    requires ValidName(n) && LiveKey(n) in writes && BackupKey(n) in removes && LiveKey(n) in removes
    ensures BoundedItem(NameItem(n), writes, removes)
  {
    hide Norm, LiveKey, BackupKey, NewKey, BoundedItem, Bounded, RestoreFile;
    NameKeys(n);
    RestoreBounded(BackupPath(n), LivePath(n), BK + "/C", writes, removes);
    DropBounded(LivePath(n), false, writes, removes);
    BoundedOne(Drop(LivePath(n)), writes, removes);
    BoundedNone(writes, removes);
    BoundedIf(false, Exists(NewPath(n)), [Drop(LivePath(n))], [], writes, removes);
    var e := When(NewPath(n), [Drop(LivePath(n))]);
    BoundedOne(e, writes, removes);
    BoundedIf(false, Exists(BackupPath(n)), RestoreFile(BackupPath(n), LivePath(n), BK + "/C"), [e], writes, removes);
  }

  lemma {:induction false} NamesBounded(ns: seq<string>, writes: set<string>, removes: set<string>)
    requires forall i :: 0 <= i < |ns| ==>
               ValidName(ns[i]) && LiveKey(ns[i]) in writes && BackupKey(ns[i]) in removes && LiveKey(ns[i]) in removes
    ensures Bounded(NameItems(ns), writes, removes)
  {
    hide LiveKey, BackupKey, BoundedItem, Bounded, NameItem, ValidName;
    if ns == [] {
      BoundedNone(writes, removes);
    } else {
      NameBounded(ns[0], writes, removes);
      BoundedOne(NameItem(ns[0]), writes, removes);
      NamesBounded(ns[1..], writes, removes);
      BoundedAppend([NameItem(ns[0])], NameItems(ns[1..]), writes, removes);
    }
  }

  lemma UgBounded(writes: set<string>, removes: set<string>)
    requires LIVE_UG_KEY in writes && BACKUP_UG_KEY in removes
    ensures BoundedItem(UG_ITEM, writes, removes)
  {
    hide Norm, BoundedItem, Bounded, RestoreFile, LIVE_UG_KEY, BACKUP_UG_KEY, BACKUP_UG, LIVE_UG, BK;
    UgKeys();
    RestoreBounded(BACKUP_UG, LIVE_UG, BK + "/Libs", writes, removes);
    BoundedNone(writes, removes);
    BoundedIf(false, Exists(BACKUP_UG), RestoreFile(BACKUP_UG, LIVE_UG, BK + "/Libs"), [], writes, removes);
  }

  lemma OwnBounded(writes: set<string>, removes: set<string>)
    requires {"sys:prefs/tolunnetprefs", "sys:prefs/tolunnetprefs.info", "sys:prefs/tolunnetsetup",
        "sys:prefs/tolunnetsetup.info"} <= removes
    requires CONFIG_KEY in removes
    ensures Bounded(OWN_FILES, writes, removes)
  {
    hide Norm, BoundedItem;
    OwnKeys(); ConfigKey();
    DropBounded("SYS:Prefs/TolunnetPrefs", false, writes, removes);
    DropBounded("SYS:Prefs/TolunnetPrefs.info", false, writes, removes);
    DropBounded("SYS:Prefs/TolunnetSetup", false, writes, removes);
    DropBounded("SYS:Prefs/TolunnetSetup.info", false, writes, removes);
    DropBounded("DEVS:tolunnet.config", false, writes, removes);
    BoundedEach(OWN_FILES, writes, removes);
  }

  lemma StartupBounded(writes: set<string>, removes: set<string>)
    requires US_KEY in writes && US_OLD_KEY in writes && US_BAK_KEY in removes && US_OLD_KEY in removes
    ensures BoundedItem(STARTUP_ITEM, writes, removes)
  {
    hide Norm, Bounded, US_KEY, US_OLD_KEY, US_BAK_KEY, US_BAK, US_OLD, STARTUP_NOTE;
    SKeys();
    NoteBounded("", STARTUP_NOTE, writes, removes);
    DropBounded(US_OLD, false, writes, removes);
    BoundedTwo(Drop(US_OLD), Rename(US_BAK, US_OLD), writes, removes);
    BoundedAppend([Echo(STARTUP_NOTE)], [Drop(US_OLD), Rename(US_BAK, US_OLD)], writes, removes);
    assert LIVE_STARTUP_ITEM.thn == [Echo(STARTUP_NOTE)] + [Drop(US_OLD), Rename(US_BAK, US_OLD)];
    BoundedOne(Rename(US_BAK, US), writes, removes);
    BoundedIf(false, Exists(US), LIVE_STARTUP_ITEM.thn, LIVE_STARTUP_ITEM.els, writes, removes);
    BoundedOne(LIVE_STARTUP_ITEM, writes, removes);
    BoundedNone(writes, removes);
    BoundedIf(false, Exists(US_BAK), [LIVE_STARTUP_ITEM], [], writes, removes);
  }

  lemma LibBounded(writes: set<string>, removes: set<string>)
    requires LIB_KEY in writes && NEWER_KEY in removes && PARKED_KEY in removes
    ensures BoundedItem(LIB_ITEM, writes, removes)
  {
    hide Norm, Bounded, LIB_KEY, NEWER_KEY, PARKED_KEY, LIB, NEWER, PARKED;
    LibKeys();
    BoundedNone(writes, removes);
    BoundedOne(Rename(NEWER, LIB), writes, removes);
    BoundedOne(Rename(PARKED, LIB), writes, removes);
    var p := When(PARKED, [Rename(PARKED, LIB)]);
    BoundedIf(false, Exists(PARKED), [Rename(PARKED, LIB)], [], writes, removes);
    BoundedOne(p, writes, removes);
    BoundedIf(false, Exists(NEWER), [Rename(NEWER, LIB)], [p], writes, removes);
    BoundedOne(PARKED_ITEM, writes, removes);
    BoundedIf(true, Exists(LIB), [PARKED_ITEM], [], writes, removes);
  }

  lemma AfterBounded(writes: set<string>, removes: set<string>)
    requires {NEW_DIR_KEY, OURS_DIR_KEY, C_DIR_KEY, LIBS_DIR_KEY, BACKUP_KEY} <= removes
    ensures Bounded(LIB_NOTES, writes, removes) && Bounded(MARKER_ITEMS, writes, removes)
    ensures Bounded(DIR_ITEMS, writes, removes)
  {
    hide Norm, BoundedItem, NEW_DIR_KEY, OURS_DIR_KEY, C_DIR_KEY, LIBS_DIR_KEY, BACKUP_KEY, BK, LEFT_NOTE, Bounded,
         Drop;
    DirKeys();
    NoteBounded(PARKED, KeptNote(PARKED).thn[0].text, writes, removes);
    NoteBounded(NEWER, KeptNote(NEWER).thn[0].text, writes, removes);
    BoundedTwo(KeptNote(PARKED), KeptNote(NEWER), writes, removes);
    DropBounded(BK + "/new", true, writes, removes); DropBounded(BK + "/ours", true, writes, removes);
    BoundedTwo(Drop(BK + "/new", true), Drop(BK + "/ours", true), writes, removes);
    DropBounded(BK + "/C", false, writes, removes); DropBounded(BK + "/Libs", false, writes, removes);
    DropBounded(BK, false, writes, removes);
    NoteBounded(BK, LEFT_NOTE, writes, removes);
    BoundedTwo(Drop(BK + "/C"), Drop(BK + "/Libs"), writes, removes);
    BoundedTwo(Drop(BK), When(BK, [Echo(LEFT_NOTE)]), writes, removes);
    BoundedAppend([Drop(BK + "/C"), Drop(BK + "/Libs")], [Drop(BK), When(BK, [Echo(LEFT_NOTE)])], writes, removes);
    assert DIR_ITEMS == [Drop(BK + "/C"), Drop(BK + "/Libs")] + [Drop(BK), When(BK, [Echo(LEFT_NOTE)])];
  }

  lemma RestBounded(names: seq<string>)
    requires ValidNames(names)
    ensures Bounded(NameItems(names) + TAIL + [SELF_DELETE], Writes(names), Removes(names))
  {
    hide Norm, BoundedItem, Bounded, UG_ITEM, OWN_FILES, STARTUP_ITEM, LIB_ITEM, LIB_NOTES, MARKER_ITEMS, DIR_ITEMS,
         NameItems, LiveKey, BackupKey, ValidName;
    var w, r := Writes(names), Removes(names);
    NamesBounded(names, w, r);
    UgBounded(w, r); OwnBounded(w, r); StartupBounded(w, r); LibBounded(w, r); AfterBounded(w, r);
    BoundedOne(UG_ITEM, w, r);
    BoundedTwo(STARTUP_ITEM, LIB_ITEM, w, r);
    BoundedAppend([UG_ITEM], OWN_FILES, w, r);
    BoundedAppend([UG_ITEM] + OWN_FILES, [STARTUP_ITEM, LIB_ITEM], w, r);
    BoundedAppend([UG_ITEM] + OWN_FILES + [STARTUP_ITEM, LIB_ITEM], LIB_NOTES, w, r);
    BoundedAppend([UG_ITEM] + OWN_FILES + [STARTUP_ITEM, LIB_ITEM] + LIB_NOTES, MARKER_ITEMS, w, r);
    BoundedAppend([UG_ITEM] + OWN_FILES + [STARTUP_ITEM, LIB_ITEM] + LIB_NOTES + MARKER_ITEMS, DIR_ITEMS, w, r);
    SelfBounded(w, r);
    BoundedAppend(NameItems(names), TAIL, w, r);
    BoundedAppend(NameItems(names) + TAIL, [SELF_DELETE], w, r);
  }

  lemma SelfBounded(writes: set<string>, removes: set<string>)
    requires UNDO_KEY in removes
    ensures Bounded([SELF_DELETE], writes, removes)
  {
    hide Norm, UNDO_KEY;
    SKeys();
    BoundedOne(SELF_DELETE, writes, removes);
  }

  /** The undo changes nothing but what it is for. */
  lemma UndoWithin(names: seq<string>, m: Tree, ro: set<string>, k: string)
    requires ValidNames(names) && Kind(m, STACKS_KEY) == ABSENT && Untouched(k, Writes(names), Removes(names))
    ensures SameAt(m, RunUndo(names, m, ro).m, k)
  {
    hide ExecBlock, NameItems, TAIL, STACKS_ITEM, Bounded, Untouched, RunUndo, Kind, STACKS_KEY, Writes, Removes;
    UndoIsHeadAndRest(names, m, ro);
    HeadExec(m, ro);
    RestBounded(names);
    UntouchedExec(NameItems(names) + TAIL + [SELF_DELETE], AfterHead(m, ro), 0, Writes(names), Removes(names), k);
  }

  lemma UndoKeepsPlain(names: seq<string>, m: Tree, ro: set<string>, k: string)
    requires ValidNames(names) && Kind(m, STACKS_KEY) == ABSENT && Plain(m, k) && forall w :: w in Writes(names) ==>
               !Below(w, k)
    ensures Plain(RunUndo(names, m, ro).m, k)
  {
    hide ExecBlock, NameItems, TAIL, STACKS_ITEM, Bounded, RunUndo, Kind, STACKS_KEY, Writes, Removes, Plain, Below;
    UndoIsHeadAndRest(names, m, ro);
    HeadExec(m, ro);
    RestBounded(names);
    PlainExec(NameItems(names) + TAIL + [SELF_DELETE], AfterHead(m, ro), 0, Writes(names), Removes(names), k);
  }
}
