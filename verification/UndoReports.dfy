/** What else the undo does: tolunnet's own files go, and an original that could
    not be put back is reported. */
module UndoReports {
  import opened Seqs
  import opened Text
  import opened Files
  import opened Dos
  import opened Undo
  import opened Keys
  import opened Restore
  import opened UndoRun
  import opened LintScripts
  import UndoLibs
  import StartupUndo

  // ----------------------------------------------------------- own files

  /** The keys of the preference tools, their icons and the configuration. */
  const OWN_KEYS: seq<string> :=
    ["sys:prefs/tolunnetprefs", "sys:prefs/tolunnetprefs.info", "sys:prefs/tolunnetsetup",
     "sys:prefs/tolunnetsetup.info", "sys:devs/" + "tolunnet.config"]

  /** The item deletes the file at this key if it is there. */
  predicate Drops(it: Item, key: string) {
    it.If? && it.test.Exists? && it == Drop(it.test.path) && Norm(it.test.path) == key
  }

  lemma OwnPaths()
    ensures |OWN_KEYS| == |OWN_FILES| == 5
    ensures forall i :: 0 <= i < 5 ==> Drops(OWN_FILES[i], OWN_KEYS[i])
  {
    hide Norm;
    OwnKeys(); ConfigKey();
    assert OWN_FILES[0].test.path == "SYS:Prefs/TolunnetPrefs";
    assert OWN_FILES[1].test.path == "SYS:Prefs/TolunnetPrefs.info";
    assert OWN_FILES[2].test.path == "SYS:Prefs/TolunnetSetup";
    assert OWN_FILES[3].test.path == "SYS:Prefs/TolunnetSetup.info";
    assert OWN_FILES[4].test.path == "DEVS:tolunnet.config";
  }

  lemma OwnShape(i: nat)
    requires i < 5
    ensures var k := OWN_KEYS[i]; |k| > 6 && (k[4] == 'p' || k[4] == 'd') && Keylike(k)
  {
    assert |OWN_KEYS[0]| == 23 && |OWN_KEYS[1]| == 28 && |OWN_KEYS[2]| == 23 && |OWN_KEYS[3]| == 28;
    assert OWN_KEYS[0][22] == 's' && OWN_KEYS[1][27] == 'o' && OWN_KEYS[2][22] == 'p' && OWN_KEYS[3][27] == 'o';
  }

  lemma OwnApart(i: nat, j: nat)
    requires i < j < 5
    ensures Unrelated(OWN_KEYS[i], OWN_KEYS[j])
  {
    if i == 0 && j == 1 {
      OneLonger("sys:prefs/tolunnetprefs", OWN_KEYS[1]);
    } else if i == 2 && j == 3 {
      OneLonger("sys:prefs/tolunnetsetup", OWN_KEYS[3]);
    } else if j == 4 {
      DifferAt(OWN_KEYS[i], OWN_KEYS[j], 4);
    } else {
      DifferAt(OWN_KEYS[i], OWN_KEYS[j], 18);
    }
  }

  lemma OneLonger(a: string, b: string)
    requires |b| > |a| && a <= b && b[|a|] == '.'
    ensures Unrelated(a, b)
  {
  }

  /** Drops of several files: each one that can be written goes, and only those. */
  lemma {:induction false} DropsExec(b: Block, keys: seq<string>, s: State, k: string)
    requires |b| == |keys| && forall i :: 0 <= i < |b| ==> Drops(b[i], keys[i])
    requires forall i :: 0 <= i < |keys| ==> Keylike(keys[i]) && Plain(s.m, keys[i])
    requires forall i :: 0 <= i < |keys| ==> keys[i] == k || Unrelated(keys[i], k)
    requires forall i, j :: 0 <= i < j < |keys| ==> Unrelated(keys[i], keys[j])
    requires s.halt == Go && s.failat > FAIL && Plain(s.m, k)
    ensures var r := ExecBlock(b, s, 0);
            && StartupUndo.Goes(s, r)
            && Content(r.m, k) == if k in keys && Writable(s.ro, k) then None else Content(s.m, k)
    decreases |b|
  {
    hide Norm, Writable, ExecItem, Drop, Plain, Content, Unrelated, Keylike;
    if b != [] {
      var key, rest := keys[0], keys[1..];
      StartupUndo.DropItemIs(b[0].test.path, s);
      var mid := ExecItem(b[0], s, 0);
      forall q | Plain(s.m, q) && (q == key || Unrelated(key, q))
        ensures Plain(mid.m, q) && Content(mid.m, q) == if q == key && Writable(s.ro, q) then None else Content(s.m, q)
      {
        Dropped(s.m, key, q);
      }
      forall i | 0 <= i < |rest| ensures rest[i] == keys[i + 1] && b[1..][i] == b[i + 1] && Plain(mid.m, rest[i]) {
        assert Unrelated(keys[0], keys[i + 1]);
      }
      DropsExec(b[1..], rest, mid, k);
      assert k in keys <==> k == key || k in rest;
    }
  }

  lemma Dropped(m: Tree, key: string, q: string)
    requires Plain(m, key) && Plain(m, q) && (q == key || Unrelated(key, q))
    ensures var m' := m - {key}; Plain(m', q) && Content(m', q) == if q == key then None else Content(m, q)
    ensures key !in m ==> Content(m, key) == None
  {
    var m' := m - {key};
    assert Children(m', q) <= Children(m, q);
  }

  lemma StagesLeaveOwn(names: seq<string>, k: string)
    requires (forall i :: 0 <= i < |names| ==> ValidName(names[i])) && |k| > 6 && (k[4] == 'p' || k[4] == 'd')
    ensures Leaves(NameItems(names), k) && LeavesItem(UG_ITEM, k) && LeavesItem(STARTUP_ITEM, k)
    ensures LeavesItem(LIB_ITEM, k) && Leaves(AFTER_LIB, k) && Leaves(DIR_ITEMS, k) && LeavesItem(SELF_DELETE, k)
  {
    hide *;
    BackupShape(); LibsShape(); StartupShape();
    UndoLibs.NamesLeave(names, k);
    AreasApart(BACKUP_UG_KEY, k); AreasApart(LIVE_UG_KEY, k);
    UgLeaves(k);
    AreasApart(US_KEY, k); AreasApart(US_BAK_KEY, k); AreasApart(US_OLD_KEY, k);
    StartupLeaves(k);
    AreasApart(LIB_KEY, k); AreasApart(PARKED_KEY, k); AreasApart(NEWER_KEY, k);
    LibLeaves(k);
    NotesLeave(k);
    AreasApart(NEW_DIR_KEY, k); AreasApart(OURS_DIR_KEY, k);
    MarkersLeave(k);
    AfterLibLeaves(k);
    AreasApart(C_DIR_KEY, k); AreasApart(LIBS_DIR_KEY, k); AreasApart(BACKUP_KEY, k);
    DirsLeave(k);
    AreasApart(UNDO_KEY, k);
    SelfLeaves(k);
  }

  lemma OwnStage(names: seq<string>, s: State, k: string)
    requires ValidNames(names) && s.halt == Go && s.failat > FAIL && |k| > 6 && (k[4] == 'p' || k[4] == 'd')
    ensures var r := RunStages(names, s); var own := ExecBlock(OWN_FILES, r.ug, 0);
            AgreeAt(s.m, r.ug.m, k) && AgreeAt(own.m, ExecItem(SELF_DELETE, r.end, 0).m, k)
  {
    hide Norm, ExecItem, ExecBlock, AgreeAt, Leaves, LeavesItem, UG_ITEM, LIB_ITEM, BEFORE_LIB, AFTER_LIB, DIR_ITEMS,
         NameItems, OWN_FILES, STARTUP_ITEM, ValidName;
    var r := RunStages(names, s);
    var own, end := ExecBlock(OWN_FILES, r.ug, 0), ExecItem(SELF_DELETE, r.end, 0);
    StagesLeaveOwn(names, k);
    StartupUndo.MidIs(names, s);
    LeavesExec(NameItems(names), s, 0, k);
    LeavesExecItem(UG_ITEM, r.named, 0, k);
    AgreeTrans(s.m, r.named.m, r.ug.m, k);
    LeavesExecItem(STARTUP_ITEM, own, 0, k);
    LeavesExecItem(LIB_ITEM, r.mid, 0, k);
    AgreeTrans(own.m, r.mid.m, r.lib.m, k);
    LeavesExec(AFTER_LIB, r.lib, 0, k);
    AgreeTrans(own.m, r.lib.m, r.noted.m, k);
    LeavesExec(DIR_ITEMS, r.noted, 0, k);
    AgreeTrans(own.m, r.noted.m, r.end.m, k);
    LeavesExecItem(SELF_DELETE, r.end, 0, k);
    AgreeTrans(own.m, r.end.m, end.m, k);
  }

  /** The undo removes the preference tools, their icons and the configuration, each
      one unless it is write-protected. */
  lemma UndoRemovesOwn(names: seq<string>, m: Tree, ro: set<string>, i: nat)
    requires ValidNames(names) && Kind(m, STACKS_KEY) == ABSENT && i < 5
    requires forall j :: 0 <= j < 5 ==> Plain(m, OWN_KEYS[j])
    ensures var k := OWN_KEYS[i];
            Content(RunUndo(names, m, ro).m, k) == if Writable(ro, k) then None else Content(m, k)
  {
    hide Norm, Kind, ExecItem, ExecBlock, AgreeAt, Plain, Content, RunUndo, OWN_FILES, OWN_KEYS, RunStages, Writable,
         ValidName, SELF_DELETE, Unrelated, Keylike, Drops;
    OwnPaths();
    var s := AfterHead(m, ro);
    var r := RunStages(names, s);
    var own, end, k := ExecBlock(OWN_FILES, r.ug, 0), ExecItem(SELF_DELETE, r.end, 0), OWN_KEYS[i];
    UndoIsStages(names, m, ro);
    forall j | 0 <= j < 5 ensures Keylike(OWN_KEYS[j]) && Plain(r.ug.m, OWN_KEYS[j]) {
      OwnShape(j);
      OwnStage(names, s, OWN_KEYS[j]);
      AgreePlain(s.m, r.ug.m, OWN_KEYS[j]);
    }
    forall x, y | 0 <= x < y < 5 ensures Unrelated(OWN_KEYS[x], OWN_KEYS[y]) && Unrelated(OWN_KEYS[y], OWN_KEYS[x]) {
      OwnApart(x, y);
      UndoLibs.UnrelatedSymmetric();
    }
    StagesAre(names, s);
    DropsExec(OWN_FILES, OWN_KEYS, r.ug, k);
    OwnShape(i);
    OwnStage(names, s, k);
    AgreePlain(s.m, r.ug.m, k);
    AgreePlain(own.m, end.m, k);
  }

  lemma StagesAre(names: seq<string>, s: State)
    requires s.halt == Go && s.failat > FAIL
    ensures var r := RunStages(names, s).ug; r.halt == Go && r.failat > FAIL && r.ro == s.ro
  {
    hide UG_ITEM, LIB_ITEM, BEFORE_LIB, AFTER_LIB, DIR_ITEMS, ExecBlock, ExecItem;
    var r := RunStages(names, s);
    StagesGo(names, s);
    assert r.ug in [r.named, r.ug, r.mid, r.lib, r.noted, r.end];
  }

  // ------------------------------------------------------- failed restores

  /** The note on a file that could not be put back. */
  function FailureNote(live: string, dir: string): seq<string> {
    ["tolunnet-undo:", live, "not", "restored,", "the", "original", "stays", "in", dir]
  }

  /** A restore puts the content in place, or says that it could not. */
  lemma RestoreTells(backup: string, live: string, dir: string, s: State)
    requires s.halt == Go && s.failat > FAIL && Unrelated(Norm(backup), Norm(live))
    requires Plain(s.m, Norm(backup)) && Keylike(Norm(backup)) && Content(s.m, Norm(backup)).Some?
    ensures var r := ExecBlock(RestoreFile(backup, live, dir), s, 0);
            if Writable(s.ro, Norm(live)) then Content(r.m, Norm(live)) == Content(s.m, Norm(backup))
            else r.m == s.m && r.trace == s.trace + [Echoed(FailureNote(live, dir))]
  {
    hide Norm, Writable;
    var kb, kl := Norm(backup), Norm(live);
    RestoreExec(backup, live, dir, s, 0);
    var b := RestoreFile(backup, live, dir);
    if !Writable(s.ro, kl) {
      var s1 := ExecItem(b[0], s, 0);
      assert s1 == RunCopy(s.(rc := 0), backup, live);
      ExecTwo(b[0], b[1], s, 0);
      ExecOne(b[1].thn[0], s1, 0);
    }
  }

  /** The original of `n` is live, or the record says that it is not. */
  ghost predicate Told(r: State, n: string, orig: string) {
    Content(r.m, LiveKey(n)) == Some(orig) || Echoed(FailureNote("SYS:C/" + n, BK + "/C")) in r.trace
  }

  lemma NameTells(n: string, orig: string, s: State)
    requires ValidName(n) && s.halt == Go && s.failat > FAIL
    requires Plain(s.m, BackupKey(n)) && Content(s.m, BackupKey(n)) == Some(orig)
    ensures Told(ExecItem(NameItem(n), s, 0), n, orig)
  {
    hide Norm, Writable, LiveKey, BackupKey, NewKey, Unrelated, Keylike, RestoreFile, Plain, ExecBlock;
    NameKeys(n); NameShape(n);
    AreasApart(BackupKey(n), LiveKey(n));
    NameLike(n);
    PlainKind(s.m, BackupKey(n));
    RestoreTells(BackupPath(n), LivePath(n), BK + "/C", Observe(s, Exists(BackupPath(n))));
  }

  lemma NameLike(n: string)
    requires ValidName(n)
    ensures Keylike(BackupKey(n))
  {
    NameShape(n);
  }

  lemma {:induction false} NamesTell(names: seq<string>, n: string, orig: string, s: State)
    requires ValidNames(names) && n in names && s.halt == Go && s.failat > FAIL
    requires Plain(s.m, BackupKey(n)) && Content(s.m, BackupKey(n)) == Some(orig)
    ensures Told(ExecBlock(NameItems(names), s, 0), n, orig)
  {
    hide Norm, Kind, ExecItem, NameItem, Plain, Content, LiveKey, BackupKey, NewKey, Children, Lower, Leaves,
         LeavesItem,
         ValidName;
    var rest, mid := names[1..], ExecItem(NameItem(names[0]), s, 0);
    assert NameItems(names)[1..] == NameItems(rest);
    NameSteady(names[0]);
    SteadyExecItem(NameItem(names[0]), s, 0);
    if names[0] == n {
      NameTells(n, orig, s);
      OthersLeave(n, LiveKey(n), rest);
      LeavesExec(NameItems(rest), mid, 0, LiveKey(n));
      AgreePlain(mid.m, ExecBlock(NameItems(rest), mid, 0).m, LiveKey(n));
      TraceGrows(NameItems(rest), mid, 0);
    } else {
      var i :| 0 <= i < |names| && names[i] == n;
      assert Lower(names[0]) != Lower(names[i]);
      NameUnrelatedTo(names[0], n);
      NameLeaves(names[0], BackupKey(n));
      LeavesExecItem(NameItem(names[0]), s, 0, BackupKey(n));
      AgreePlain(s.m, mid.m, BackupKey(n));
      assert forall j :: 0 <= j < |rest| ==> rest[j] == names[j + 1];
      assert rest[i - 1] == n;
      NamesTell(rest, n, orig, mid);
    }
  }

  /** No original is kept back in silence: for every write protection, a saved
      command is live again after the undo, or the undo has said that it is not. */
  lemma UndoReports(names: seq<string>, n: string, orig: string, m: Tree, ro: set<string>)
    requires ValidNames(names) && n in names && Kind(m, STACKS_KEY) == ABSENT
    requires Plain(m, BackupKey(n)) && Content(m, BackupKey(n)) == Some(orig)
    ensures Told(RunUndo(names, m, ro), n, orig)
  {
    hide Norm, Kind, ExecItem, ExecBlock, AgreeAt, Plain, Content, RunUndo, LiveKey, BackupKey, ValidName, SELF_DELETE,
         UG_ITEM, LIB_ITEM, BEFORE_LIB, AFTER_LIB, DIR_ITEMS, NameItems, Leaves, LeavesItem;
    var s := AfterHead(m, ro);
    var r := RunStages(names, s);
    UndoIsStages(names, m, ro);
    NamesTell(names, n, orig, s);
    NameShape(n);
    TailLeavesC(LiveKey(n));
    TailKeeps(names, s, LiveKey(n));
    var end := ExecItem(SELF_DELETE, r.end, 0);
    AgreePlain(r.named.m, end.m, LiveKey(n));
    TraceGrowsItem(UG_ITEM, r.named, 0);
    TraceGrows(BEFORE_LIB, r.ug, 0);
    TraceGrowsItem(LIB_ITEM, r.mid, 0);
    TraceGrows(AFTER_LIB, r.lib, 0);
    TraceGrows(DIR_ITEMS, r.noted, 0);
    TraceGrowsItem(SELF_DELETE, r.end, 0);
  }
}
