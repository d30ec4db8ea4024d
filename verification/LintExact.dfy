/** What the lint accepts, in full: a script passes exactly if it has the shape
    that the rules describe, and a command that it does not restore is reported. */
module LintExact {
  import opened Seqs
  import opened Text
  import opened Dos
  import opened Undo
  import opened Lint
  import opened LintClean
  import opened LintScripts

  // ----------------------------------------------------------- where items stand

  /** The item `it` stands in the block, at any depth; `at` are the Ifs around it,
      outermost first, each with the branch and the item just before the If. */
  ghost predicate Stands(b: Block, env: seq<Cond>, prev: Option<Item>, it: Item, at: seq<Cond>)
    decreases b, 0
  {
    b != [] && (StandsIn(b[0], env, prev, it, at) || Stands(b[1..], env, Some(b[0]), it, at))
  }

  ghost predicate StandsIn(x: Item, env: seq<Cond>, prev: Option<Item>, it: Item, at: seq<Cond>)
    decreases x, 1
  {
    || (x == it && at == env)
    || (x.If? && Stands(x.thn, env + [Cond(x.neg, x.test, true, prev)], None, it, at))
    || (x.If? && Stands(x.els, env + [Cond(x.neg, x.test, false, prev)], None, it, at))
  }

  ghost predicate StandsSomewhere(tree: Block, it: Item) {
    exists at :: Stands(tree, [], None, it, at)
  }

  // ------------------------------------------------------------------ rules

  /** The innermost If is the Else of an If WARN right after a Copy from `low`. */
  ghost predicate AfterCopyOf(at: seq<Cond>, low: string) {
    at != [] && exists src, dst :: Lower(src) == low && at[|at| - 1] == Cond(false, Warn, false, Some(Copy(src, dst)))
  }

  /** The Then of an If EXISTS on `low` is around. */
  ghost predicate WhereExists(at: seq<Cond>, low: string) {
    exists q, prev :: Lower(q) == low && Cond(false, Exists(q), true, prev) in at
  }

  /** The Then of an If NOT EXISTS on `low`, or the Else of an If EXISTS, is around. */
  ghost predicate WhereAbsent(at: seq<Cond>, low: string) {
    exists q, prev, branch :: Lower(q) == low && Cond(branch, Exists(q), branch, prev) in at
  }

  ghost predicate Allowed(it: Item, at: seq<Cond>) {
    match it
    case Delete(path, all) =>
      var p := Lower(path);
      && (all ==> EndsWith(p, "/new") || EndsWith(p, "/ours"))
      && ("sys:storage/tolunnet-backup/c/" <= p || "sys:storage/tolunnet-backup/libs/" <= p ==> AfterCopyOf(at, p))
      && ("sys:c/" <= p ==> WhereExists(at, Lower(BK + "/new/" + path[6..])))
    case Copy(_, dst) =>
      Lower(dst) != "s:user-startup"
      && (Lower(dst) == "libs:bsdsocket.library" ==> WhereAbsent(at, "libs:bsdsocket.library"))
    case Rename(_, dst) =>
      && (Lower(dst) == "s:user-startup" ==> WhereAbsent(at, "s:user-startup"))
      && (Lower(dst) == "libs:bsdsocket.library" ==> WhereAbsent(at, "libs:bsdsocket.library"))
    case _ => true
  }

  /** At most 255 characters, and no keyword of Echo in the text of an Echo. */
  ghost predicate PlainLine(line: string) {
    var ws := SplitWords(line);
    && |line| <= 255
    && (ws != [] && Upper(ws[0]) == "ECHO" ==>
          forall i :: 1 <= i < |ws| ==> Upper(ws[i]) != "NOLINE" && Upper(ws[i]) != "FIRST" && Upper(ws[i]) != "LEN")
  }

  ghost predicate CopiesBack(tree: Block, n: string) {
    exists src, dst :: StandsSomewhere(tree, Copy(src, dst))
      && Lower(src) == Lower(BK + "/C/" + n) && Lower(dst) == Lower("SYS:C/" + n)
  }

  ghost predicate CopiesGroupBack(tree: Block) {
    exists src, dst :: StandsSomewhere(tree, Copy(src, dst)) && Lower(src) == Lower(BK + "/Libs/usergroup.library")
  }

  ghost predicate TakesStartupBackup(tree: Block) {
    || (exists src, dst :: StandsSomewhere(tree, Rename(src, dst)) && Lower(src) == Lower(US + ".tolunnet-bak"))
    || (exists p, all :: StandsSomewhere(tree, Delete(p, all)) && Lower(p) == Lower(US + ".tolunnet-bak"))
  }

  /** FailAt 21 and the wizard's undo come first. */
  ghost predicate StartsRight(tree: Block) {
    && |tree| >= 2 && tree[0] == FailAt(21)
    && exists thn, els :: tree[1] == If(false, Exists("S:tolunnet-undo-stacks"), thn, els)
                          && Execute("S:tolunnet-undo-stacks") in thn
  }

  /** All that the lint asks of a script. */
  ghost predicate Meets(lines: seq<string>, names: seq<string>) {
    && (forall i :: 0 <= i < |lines| ==> PlainLine(lines[i]))
    && Parse(lines).Some?
    && var tree := Parse(lines).value;
       && StartsRight(tree)
       && (forall it, at :: Stands(tree, [], None, it, at) ==> Allowed(it, at))
       && (forall i :: 0 <= i < |names| ==> CopiesBack(tree, names[i]))
       && CopiesGroupBack(tree) && TakesStartupBackup(tree)
  }

  // ------------------------------------------------------------------ the walk

  lemma DeleteAllowed(path: string, all: bool, at: seq<Cond>)
    ensures CheckDelete(path, all, at) == [] <==> Allowed(Delete(path, all), at)
  {
    hide Lower, EndsWith;
    var p := Lower(path);
    CopyCheckedIs(at, p);
    if IsCommand(p) { MarkedIs(at, MarkerOf(path)); }
  }

  lemma CopyCheckedIs(at: seq<Cond>, low: string)
    ensures CopyChecked(at, low) <==> AfterCopyOf(at, low)
  {
    hide Lower;
    if CopyChecked(at, low) {
      var c := at[|at| - 1];
      assert c == Cond(false, Warn, false, Some(Copy(c.prev.value.src, c.prev.value.dst)));
    }
  }

  lemma MarkedIs(at: seq<Cond>, low: string)
    ensures Marked(at, low) <==> WhereExists(at, low)
  {
    hide Lower;
    if i :| 0 <= i < |at| && at[i].test.Exists? && Lower(at[i].test.path) == low && !at[i].neg && at[i].thn {
      assert at[i] == Cond(false, Exists(at[i].test.path), true, at[i].prev);
    }
  }

  lemma EstablishedIs(at: seq<Cond>, low: string)
    ensures Established(at, low, false) <==> WhereAbsent(at, low)
  {
    hide Lower;
    if i :| 0 <= i < |at| && at[i].test.Exists? && Lower(at[i].test.path) == low && at[i].thn == at[i].neg {
      assert at[i] == Cond(at[i].neg, Exists(at[i].test.path), at[i].neg, at[i].prev);
    }
    if q, prev, branch :| Lower(q) == low && Cond(branch, Exists(q), branch, prev) in at {
      var i :| 0 <= i < |at| && at[i] == Cond(branch, Exists(q), branch, prev);
      assert (at[i].thn != at[i].neg) == false;
    }
  }

  lemma WriteAllowed(isRename: bool, src: string, dst: string, at: seq<Cond>)
    ensures CheckWrite(isRename, src, dst, at) == [] <==>
              Allowed(if isRename then Rename(src, dst) else Copy(src, dst), at)
  {
    hide Lower, WhereAbsent, Established;
    EstablishedIs(at, STARTUP_LOW);
    EstablishedIs(at, LIB_LOW);
  }

  /** The walk over a block has no finding exactly if every item is allowed where
      it stands. */
  lemma {:induction false} WalkIs(b: Block, env: seq<Cond>, prev: Option<Item>)
    ensures Walk(b, env, prev) == [] <==> forall it, at :: Stands(b, env, prev, it, at) ==> Allowed(it, at)
    decreases b, 0
  {
    hide Allowed, Check, StandsIn;
    if b != [] {
      CheckIs(b[0], env, prev);
      WalkIs(b[1..], env, Some(b[0]));
      forall it, at ensures Stands(b, env, prev, it, at) <==>
          StandsIn(b[0], env, prev, it, at) || Stands(b[1..], env, Some(b[0]), it, at) { }
    }
  }

  lemma {:induction false} CheckIs(x: Item, env: seq<Cond>, prev: Option<Item>)
    ensures Check(x, env, prev) == [] <==> forall it, at :: StandsIn(x, env, prev, it, at) ==> Allowed(it, at)
    decreases x, 1
  {
    hide Allowed, Walk, Stands, CheckDelete, CheckWrite;
    match x {
      case If(neg, test, thn, els) =>
        WalkIs(thn, env + [Cond(neg, test, true, prev)], None);
        WalkIs(els, env + [Cond(neg, test, false, prev)], None);
        OtherAllowed(x, env);
      case Delete(path, all) => DeleteAllowed(path, all, env);
      case Copy(src, dst) => WriteAllowed(false, src, dst, env);
      case Rename(src, dst) => WriteAllowed(true, src, dst, env);
      case _ => OtherAllowed(x, env);
    }
    assert StandsIn(x, env, prev, x, env);
  }

  lemma OtherAllowed(x: Item, at: seq<Cond>)
    requires !x.Delete? && !x.Copy? && !x.Rename?
    ensures Allowed(x, at)
  {
  }

  // ------------------------------------------------------------------ coverage

  /** An item of the flat list stands somewhere in the tree. */
  lemma {:induction false} ListedStands(b: Block, env: seq<Cond>, prev: Option<Item>, it: Item) returns (at: seq<Cond>)
    requires it in AllItems(b)
    ensures Stands(b, env, prev, it, at)
    decreases b, 0
  {
    if it == b[0] {
      at := env;
    } else if it in Nested(b[0]) {
      if it in AllItems(b[0].thn) {
        at := ListedStands(b[0].thn, env + [Cond(b[0].neg, b[0].test, true, prev)], None, it);
      } else {
        at := ListedStands(b[0].els, env + [Cond(b[0].neg, b[0].test, false, prev)], None, it);
      }
    } else {
      at := ListedStands(b[1..], env, Some(b[0]), it);
    }
  }

  /** And the other way round. */
  lemma {:induction false} StandsListed(b: Block, env: seq<Cond>, prev: Option<Item>, it: Item, at: seq<Cond>)
    requires Stands(b, env, prev, it, at)
    ensures it in AllItems(b)
    decreases b, 0
  {
    if !StandsIn(b[0], env, prev, it, at) {
      StandsListed(b[1..], env, Some(b[0]), it, at);
    } else if b[0] != it {
      var yes, no := env + [Cond(b[0].neg, b[0].test, true, prev)], env + [Cond(b[0].neg, b[0].test, false, prev)];
      if Stands(b[0].thn, yes, None, it, at) {
        StandsListed(b[0].thn, yes, None, it, at);
      } else {
        StandsListed(b[0].els, no, None, it, at);
      }
    }
  }

  lemma Somewhere(tree: Block)
    ensures forall it :: it in AllItems(tree) <==> StandsSomewhere(tree, it)
  {
    hide Stands, AllItems;
    forall it ensures it in AllItems(tree) <==> StandsSomewhere(tree, it) {
      if it in AllItems(tree) {
        var at := ListedStands(tree, [], None, it);
      }
      if at :| Stands(tree, [], None, it, at) {
        StandsListed(tree, [], None, it, at);
      }
    }
  }

  lemma RestoresIs(tree: Block, n: string)
    ensures Restores(AllItems(tree), n) <==> CopiesBack(tree, n)
  {
    hide Lower, AllItems, StandsSomewhere;
    Somewhere(tree);
    var items := AllItems(tree);
    if i :| 0 <= i < |items| && items[i].Copy? && Lower(items[i].src) == Lower(BackupPath(n))
            && Lower(items[i].dst) == Lower(LivePath(n)) {
      assert items[i] in items && items[i] == Copy(items[i].src, items[i].dst);
    }
  }

  lemma GroupIs(tree: Block)
    ensures RestoresGroup(AllItems(tree)) <==> CopiesGroupBack(tree)
  {
    hide Lower, AllItems, StandsSomewhere;
    Somewhere(tree);
    var items := AllItems(tree);
    if i :| 0 <= i < |items| && items[i].Copy? && Lower(items[i].src) == Lower(BACKUP_UG) {
      assert items[i] in items && items[i] == Copy(items[i].src, items[i].dst);
    }
  }

  lemma StartupIs(tree: Block)
    ensures MovesStartupBackup(AllItems(tree)) <==> TakesStartupBackup(tree)
  {
    hide Lower, AllItems, StandsSomewhere;
    Somewhere(tree);
    var items := AllItems(tree);
    if i :| 0 <= i < |items| && items[i].Rename? && Lower(items[i].src) == Lower(US_BAK) {
      assert items[i] in items && items[i] == Rename(items[i].src, items[i].dst);
    }
    if i :| 0 <= i < |items| && items[i].Delete? && Lower(items[i].target) == Lower(US_BAK) {
      assert items[i] in items && items[i] == Delete(items[i].target, items[i].all);
    }
  }

  lemma {:induction false} CoverageIs(items: seq<Item>, names: seq<string>)
    ensures Coverage(items, names) == [] <==> forall i :: 0 <= i < |names| ==> Restores(items, names[i])
  {
    hide Restores;
    if Coverage(items, names) == [] {
      forall i | 0 <= i < |names| ensures Restores(items, names[i]) { CoverageOf(items, names, i); }
    } else if forall i :: 0 <= i < |names| ==> Restores(items, names[i]) {
      CoverageEmpty(items, names);
    }
  }

  lemma {:induction false} LinesAre(lines: seq<string>)
    ensures LineFindings(lines) == [] <==> forall i :: 0 <= i < |lines| ==> PlainLine(lines[i])
  {
    hide SplitWords, Upper, PlainLine;
    if lines != [] {
      LinesAre(lines[1..]);
      LineIs(lines[0]);
    }
  }

  lemma LineIs(line: string)
    ensures PlainLine(line) <==> LineOk(line)
  {
    hide SplitWords, Upper;
  }

  lemma StartIs(tree: Block)
    ensures StartsRight(tree) <==> tree != [] && tree[0] == FailAt(21) && RunsStacksFirst(tree)
  {
    if RunsStacksFirst(tree) {
      var x := tree[1];
      assert x == If(false, Exists(STACKS), x.thn, x.els);
    }
  }

  /** The lint has no finding on a script exactly if the script meets all it asks. */
  lemma LintIsExact(lines: seq<string>, names: seq<string>)
    ensures UndoStructure(lines, names) == [] <==> Meets(lines, names)
  {
    hide Walk, Coverage, AllItems, RestoresGroup, MovesStartupBackup, RunsStacksFirst, LineFindings, Parse, Stands,
         Allowed, PlainLine, StartsRight, CopiesBack, CopiesGroupBack, TakesStartupBackup, Restores;
    LinesAre(lines);
    if Parse(lines).Some? {
      var tree := Parse(lines).value;
      StartIs(tree);
      WalkIs(tree, [], None);
      GroupIs(tree);
      StartupIs(tree);
      CoverageIs(AllItems(tree), names);
      forall n ensures Restores(AllItems(tree), n) <==> CopiesBack(tree, n) { RestoresIs(tree, n); }
    }
  }

  // ---------------------------------------------------------- commands left out

  lemma {:induction false} WalkSpeaks(b: Block, env: seq<Cond>, prev: Option<Item>)
    ensures forall f :: f in Walk(b, env, prev) ==> !f.NotRestored?
    decreases b, 0
  {
    hide CheckDelete, CheckWrite;
    if b != [] {
      CheckSpeaks(b[0], env, prev);
      WalkSpeaks(b[1..], env, Some(b[0]));
    }
  }

  lemma {:induction false} CheckSpeaks(x: Item, env: seq<Cond>, prev: Option<Item>)
    ensures forall f :: f in Check(x, env, prev) ==> !f.NotRestored?
    decreases x, 1
  {
    hide Lower, EndsWith, MarkerOf, IsCommand, IsBackup;
    if x.If? {
      WalkSpeaks(x.thn, env + [Cond(x.neg, x.test, true, prev)], None);
      WalkSpeaks(x.els, env + [Cond(x.neg, x.test, false, prev)], None);
    }
  }

  lemma {:induction false} LinesSpeak(lines: seq<string>)
    ensures forall f :: f in LineFindings(lines) ==> !f.NotRestored?
  {
    hide SplitWords, IsEcho, EchoWord;
    if lines != [] { LinesSpeak(lines[1..]); }
  }

  lemma {:induction false} CoverageSpeaks(items: seq<Item>, names: seq<string>, n: string)
    ensures NotRestored(n) in Coverage(items, names) <==> n in names && !Restores(items, n)
  {
    hide Restores;
    if names != [] { CoverageSpeaks(items, names[1..], n); }
  }

  /** The lint reports a command exactly if it is asked for and not copied back. */
  lemma ReportedIs(lines: seq<string>, names: seq<string>, n: string)
    requires Parse(lines).Some?
    ensures NotRestored(n) in UndoStructure(lines, names) <==> n in names && !CopiesBack(Parse(lines).value, n)
  {
    hide Walk, Coverage, AllItems, RestoresGroup, MovesStartupBackup, RunsStacksFirst, LineFindings, Parse, CopiesBack,
         Restores;
    var tree := Parse(lines).value;
    WalkSpeaks(tree, [], None);
    LinesSpeak(lines);
    CoverageSpeaks(AllItems(tree), names, n);
    RestoresIs(tree, n);
  }

  /** The files that a block copies from. */
  function Sources(b: Block): set<string>
    decreases b, 0
  {
    if b == [] then {} else ItemSources(b[0]) + Sources(b[1..])
  }

  function ItemSources(it: Item): set<string>
    decreases it, 1
  {
    match it
    case If(_, _, thn, els) => Sources(thn) + Sources(els)
    case Copy(src, _) => {src}
    case _ => {}
  }

  lemma {:induction false} SourcesListed(b: Block, src: string, dst: string)
    requires Copy(src, dst) in AllItems(b)
    ensures src in Sources(b)
    decreases b
  {
    var it := Copy(src, dst);
    if it != b[0] {
      if it in Nested(b[0]) {
        if it in AllItems(b[0].thn) { SourcesListed(b[0].thn, src, dst); } else { SourcesListed(b[0].els, src, dst); }
      } else {
        SourcesListed(b[1..], src, dst);
      }
    }
  }

  lemma {:induction false} SourcesAppend(a: Block, b: Block)
    ensures Sources(a + b) == Sources(a) + Sources(b)
    decreases |a|
  {
    hide ItemSources;
    if a == [] {
      assert a + b == b;
    } else {
      assert (a + b)[1..] == a[1..] + b;
      SourcesAppend(a[1..], b);
    }
  }

  lemma SourcesOne(it: Item)
    ensures Sources([it]) == ItemSources(it)
  {
    hide ItemSources;
    assert [it][1..] == [];
  }

  lemma SourcesTwo(a: Item, b: Item)
    ensures Sources([a, b]) == ItemSources(a) + ItemSources(b)
  {
    hide ItemSources;
    SourcesOne(a);
    SourcesOne(b);
    SourcesAppend([a], [b]);
    assert [a, b] == [a] + [b];
  }

  lemma DropSources(path: string, all: bool)
    ensures ItemSources(Drop(path, all)) == {}
  {
    SourcesOne(Delete(path, all));
  }

  lemma RestoreSources(backup: string, live: string, dir: string)
    ensures Sources(RestoreFile(backup, live, dir)) == {backup}
  {
    var it := RestoreFile(backup, live, dir);
    SourcesTwo(it[0], it[1]);
    SourcesOne(it[1].thn[0]);
    SourcesOne(it[1].els[0]);
  }

  lemma NameSources(n: string)
    ensures ItemSources(NameItem(n)) == {BackupPath(n)}
  {
    hide RestoreFile, LivePath, BackupPath, NewPath, Drop;
    RestoreSources(BackupPath(n), LivePath(n), BK + "/C");
    SourcesOne(When(NewPath(n), [Drop(LivePath(n))]));
    SourcesOne(Drop(LivePath(n)));
    DropSources(LivePath(n), false);
  }

  lemma {:induction false} NamesSources(names: seq<string>, src: string)
    requires src in Sources(NameItems(names))
    ensures exists i :: 0 <= i < |names| && src == BackupPath(names[i])
  {
    hide NameItem, ItemSources, BackupPath;
    if names != [] {
      NameSources(names[0]);
      SourcesOne(NameItem(names[0]));
      SourcesAppend([NameItem(names[0])], NameItems(names[1..]));
      if src !in ItemSources(NameItem(names[0])) {
        NamesSources(names[1..], src);
        var i :| 0 <= i < |names| - 1 && src == BackupPath(names[1..][i]);
        assert names[1..][i] == names[i + 1];
      }
    }
  }

  lemma {:induction false} NoSources(b: Block)
    requires forall i :: 0 <= i < |b| ==> ItemSources(b[i]) == {}
    ensures Sources(b) == {}
  {
    hide ItemSources;
    if b != [] { NoSources(b[1..]); }
  }

  lemma NoteSources(path: string, text: seq<string>)
    ensures ItemSources(When(path, [Echo(text)])) == {}
  {
    SourcesOne(Echo(text));
  }

  lemma StartupSources()
    ensures ItemSources(STARTUP_ITEM) == {}
  {
    hide STARTUP_NOTE, US_BAK, US_OLD, US;
    var a, b, c := Echo(STARTUP_NOTE), Drop(US_OLD), Rename(US_BAK, US_OLD);
    DropSources(US_OLD, false);
    SourcesTwo(a, b);
    SourcesOne(c);
    SourcesAppend([a, b], [c]);
    assert [a, b] + [c] == [a, b, c];
    SourcesOne(Rename(US_BAK, US));
    SourcesOne(LIVE_STARTUP_ITEM);
  }

  lemma LibSources()
    ensures ItemSources(LIB_ITEM) == {}
  {
    hide LIB, NEWER, PARKED;
    SourcesOne(Rename(NEWER, LIB));
    SourcesOne(Rename(PARKED, LIB));
    SourcesOne(When(PARKED, [Rename(PARKED, LIB)]));
    SourcesOne(PARKED_ITEM);
  }

  lemma RestSources()
    ensures Sources(OWN_FILES) == {} && Sources(LIB_NOTES) == {} && Sources(MARKER_ITEMS) == {}
    ensures Sources(DIR_ITEMS) == {}
  {
    hide ItemSources, Drop, BK, LEFT_NOTE;
    forall path, all ensures ItemSources(Drop(path, all)) == {} { DropSources(path, all); }
    forall path, text ensures ItemSources(When(path, [Echo(text)])) == {} { NoteSources(path, text); }
    NoSources(OWN_FILES);
    NoSources(LIB_NOTES);
    NoSources(MARKER_ITEMS);
    NoSources(DIR_ITEMS);
  }

  lemma TailSources()
    ensures Sources(TAIL) == {BACKUP_UG}
  {
    hide Sources, ItemSources, UG_ITEM, OWN_FILES, STARTUP_ITEM, LIB_ITEM, LIB_NOTES, MARKER_ITEMS, DIR_ITEMS;
    UgSources();
    StartupSources();
    LibSources();
    RestSources();
    SourcesOne(UG_ITEM);
    SourcesTwo(STARTUP_ITEM, LIB_ITEM);
    var a := [UG_ITEM] + OWN_FILES;
    var b := a + [STARTUP_ITEM, LIB_ITEM];
    var c := b + LIB_NOTES;
    var d := c + MARKER_ITEMS;
    SourcesAppend([UG_ITEM], OWN_FILES);
    SourcesAppend(a, [STARTUP_ITEM, LIB_ITEM]);
    SourcesAppend(b, LIB_NOTES);
    SourcesAppend(c, MARKER_ITEMS);
    SourcesAppend(d, DIR_ITEMS);
  }

  lemma UgSources()
    ensures ItemSources(UG_ITEM) == {BACKUP_UG}
  {
    hide RestoreFile, BACKUP_UG, LIVE_UG;
    RestoreSources(BACKUP_UG, LIVE_UG, BK + "/Libs");
  }

  lemma HeadSources()
    ensures Sources([FailAt(21), STACKS_ITEM]) == {} && Sources([SELF_DELETE]) == {}
  {
    hide STACKS, UNDO;
    SourcesTwo(Execute(STACKS), Drop(STACKS));
    DropSources(STACKS, false);
    SourcesTwo(FailAt(21), STACKS_ITEM);
    SourcesOne(SELF_DELETE);
  }

  /** The generated script copies from the backups of its commands and of
      usergroup.library, and from nowhere else. */
  lemma TreeSources(names: seq<string>, src: string)
    requires src in Sources(UndoTree(names)) && src != BACKUP_UG
    ensures exists i :: 0 <= i < |names| && src == BackupPath(names[i])
  {
    hide Sources, NameItems, TAIL, STACKS_ITEM, BACKUP_UG, BackupPath;
    var head := [FailAt(21), STACKS_ITEM];
    HeadSources();
    TailSources();
    SourcesAppend(head, NameItems(names));
    SourcesAppend(head + NameItems(names), TAIL);
    SourcesAppend(head + NameItems(names) + TAIL, [SELF_DELETE]);
    NamesSources(names, src);
  }

  lemma SameLow(n: string, other: string)
    ensures Lower(BackupPath(n)) == Lower(BackupPath(other)) <==> Lower(n) == Lower(other)
    ensures Lower(LivePath(n)) == Lower(LivePath(other)) <==> Lower(n) == Lower(other)
    ensures Lower(BackupPath(n)) != Lower(BACKUP_UG)
  {
    hide Lower;
    LowerConcat(BK + "/C/", n);
    LowerConcat(BK + "/C/", other);
    LowerConcat("SYS:C/", n);
    LowerConcat("SYS:C/", other);
    var c, l := Lower(BK + "/C/"), Lower("SYS:C/");
    assert (c + Lower(n))[|c|..] == Lower(n) && (c + Lower(other))[|c|..] == Lower(other);
    assert (l + Lower(n))[|l|..] == Lower(n) && (l + Lower(other))[|l|..] == Lower(other);
    BackupLetters(n);
  }

  lemma BackupLetters(n: string)
    ensures Lower(BackupPath(n)) != Lower(BACKUP_UG)
  {
    var k := |BK| + 1;
    assert BackupPath(n)[k] == 'C' && BACKUP_UG[k] == 'L';
    assert Lower(BackupPath(n))[k] == 'c' && Lower(BACKUP_UG)[k] == 'l';
  }

  /** A script generated for another list restores a command exactly if that list
      has it, letter case aside; the lint reports all others. */
  lemma LeftOutReported(short: seq<string>, names: seq<string>, n: string)
    requires ValidNames(short)
    ensures NotRestored(n) in UndoStructure(UndoLines(short) + [""], names) <==>
              n in names && forall i :: 0 <= i < |short| ==> Lower(short[i]) != Lower(n)
  {
    hide Lower, AllItems, Sources, UndoLines, Parse, UndoTree, StandsSomewhere, BackupPath, LivePath, UndoStructure;
    var tree := UndoTree(short);
    UndoParses(short);
    ReportedIs(UndoLines(short) + [""], names, n);
    RestoresIs(tree, n);
    var items := AllItems(tree);
    if j :| 0 <= j < |items| && items[j].Copy? && Lower(items[j].src) == Lower(BackupPath(n))
            && Lower(items[j].dst) == Lower(LivePath(n)) {
      assert items[j] == Copy(items[j].src, items[j].dst) && items[j] in items;
      SourcesListed(tree, items[j].src, items[j].dst);
      SameLow(n, n);
      TreeSources(short, items[j].src);
      var i :| 0 <= i < |short| && items[j].src == BackupPath(short[i]);
      SameLow(short[i], n);
    }
    if i :| 0 <= i < |short| && Lower(short[i]) == Lower(n) {
      TreeRestores(short, i);
      SameLow(short[i], n);
    }
  }
}
