/** Scripts that the whole lint accepts: the generated one, and the generated
    one with some more commands after the wizard's part. */
module LintScripts {
  import opened Seqs
  import opened Text
  import opened Files
  import opened Dos
  import opened Printer
  import opened Undo
  import opened Keys
  import opened Lint
  import opened LintClean
  import opened Restore
  import opened UndoRun

  // ------------------------------------------------ no script but this one

  lemma {:induction false} KeysAppend(a: Block, b: Block)
    ensures ExecuteKeys(a + b) == ExecuteKeys(a) + ExecuteKeys(b) && WriteKeys(a + b) == WriteKeys(a) + WriteKeys(b)
    decreases |a|
  {
    hide ItemExecuteKeys, ItemWriteKeys;
    if a == [] {
      assert a + b == b;
    } else {
      assert (a + b)[1..] == a[1..] + b;
      KeysAppend(a[1..], b);
    }
  }

  /** A block that leaves a key alone neither writes it nor executes anything. */
  lemma {:induction false} LeavesKeys(b: Block, k: string)
    requires Leaves(b, k)
    ensures k !in WriteKeys(b) && ExecuteKeys(b) == {}
    decreases b, 0
  {
    hide Norm;
    if b != [] {
      LeavesItemKeys(b[0], k);
      LeavesKeys(b[1..], k);
    }
  }

  lemma {:induction false} LeavesItemKeys(it: Item, k: string)
    requires LeavesItem(it, k)
    ensures k !in ItemWriteKeys(it) && ItemExecuteKeys(it) == {}
    decreases it, 1
  {
    hide Norm;
    if it.If? {
      LeavesKeys(it.thn, k);
      LeavesKeys(it.els, k);
    }
  }

  lemma OneKeys(it: Item)
    ensures ExecuteKeys([it]) == ItemExecuteKeys(it) && WriteKeys([it]) == ItemWriteKeys(it)
  {
    hide ItemExecuteKeys, ItemWriteKeys;
    assert [it][1..] == [];
  }

  lemma StacksShape()
    ensures |STACKS_KEY| > 6 && STACKS_KEY[4] == 's' && STACKS_KEY[5] == '/' && STACKS_KEY[6] == 't'
    ensures US_KEY[6] == 'u' && US_BAK_KEY[6] == 'u' && US_OLD_KEY[6] == 'u' && |US_KEY| > 6 && |US_BAK_KEY| > 6
    ensures |US_OLD_KEY| > 6
    ensures BACKUP_KEY[5] == 't' && C_DIR_KEY[5] == 't' && LIBS_DIR_KEY[5] == 't' && NEW_DIR_KEY[5] == 't'
    ensures OURS_DIR_KEY[5] == 't'
  {
    StartupShape(); BackupShape();
  }

  lemma TailKeys()
    ensures STACKS_KEY !in WriteKeys(TAIL) && ExecuteKeys(TAIL) == {}
  {
    hide *;
    var k := STACKS_KEY;
    BackupShape(); LibsShape(); StartupShape(); StacksShape();
    DifferAt(BACKUP_UG_KEY, k, 5); AreasApart(LIVE_UG_KEY, k);
    UgLeaves(k);
    DifferAt(US_KEY, k, 6); DifferAt(US_BAK_KEY, k, 6); DifferAt(US_OLD_KEY, k, 6);
    StartupLeaves(k);
    OwnLeaves(k);
    AreasApart(LIB_KEY, k); AreasApart(PARKED_KEY, k); AreasApart(NEWER_KEY, k);
    LibLeaves(k);
    NotesLeave(k);
    DifferAt(NEW_DIR_KEY, k, 5); DifferAt(OURS_DIR_KEY, k, 5);
    MarkersLeave(k);
    DifferAt(C_DIR_KEY, k, 5); DifferAt(LIBS_DIR_KEY, k, 5); DifferAt(BACKUP_KEY, k, 5);
    DirsLeave(k);
    TailLeaves(k);
    LeavesKeys(TAIL, k);
  }

  lemma TailLeaves(k: string)
    requires LeavesItem(UG_ITEM, k) && Leaves(OWN_FILES, k) && LeavesItem(STARTUP_ITEM, k) && LeavesItem(LIB_ITEM, k)
    requires Leaves(LIB_NOTES, k) && Leaves(MARKER_ITEMS, k) && Leaves(DIR_ITEMS, k)
    ensures Leaves(TAIL, k)
  {
    hide Leaves, LeavesItem, UG_ITEM, OWN_FILES, STARTUP_ITEM, LIB_ITEM, LIB_NOTES, MARKER_ITEMS, DIR_ITEMS;
    LeavesOne(UG_ITEM, k);
    LeavesTwo(STARTUP_ITEM, LIB_ITEM, k);
    LeavesAppend([UG_ITEM], OWN_FILES, k);
    LeavesAppend([UG_ITEM] + OWN_FILES, [STARTUP_ITEM, LIB_ITEM], k);
    LeavesAppend([UG_ITEM] + OWN_FILES + [STARTUP_ITEM, LIB_ITEM], LIB_NOTES, k);
    LeavesAppend([UG_ITEM] + OWN_FILES + [STARTUP_ITEM, LIB_ITEM] + LIB_NOTES, MARKER_ITEMS, k);
    LeavesAppend([UG_ITEM] + OWN_FILES + [STARTUP_ITEM, LIB_ITEM] + LIB_NOTES + MARKER_ITEMS, DIR_ITEMS, k);
  }

  lemma {:induction false} NamesKeys(names: seq<string>)
    requires forall i :: 0 <= i < |names| ==> ValidName(names[i])
    ensures STACKS_KEY !in WriteKeys(NameItems(names)) && ExecuteKeys(NameItems(names)) == {}
  {
    hide Norm, NameItem, ValidName, LeavesItem, ItemWriteKeys, ItemExecuteKeys, STACKS_KEY;
    if names != [] {
      NameLeavesStacks(names[0]);
      LeavesItemKeys(NameItem(names[0]), STACKS_KEY);
      NamesKeys(names[1..]);
      assert NameItems(names)[1..] == NameItems(names[1..]);
    }
  }

  lemma NameLeavesStacks(n: string)
    requires ValidName(n)
    ensures LeavesItem(NameItem(n), STACKS_KEY)
  {
    hide LiveKey, BackupKey, STACKS_KEY, LeavesItem, NameItem, Unrelated;
    NameShape(n); StacksShape();
    BackupFifth(n);
    AreasApart(LiveKey(n), STACKS_KEY);
    DifferAt(BackupKey(n), STACKS_KEY, 5);
    NameLeaves(n, STACKS_KEY);
  }

  lemma BackupFifth(n: string)
    ensures |BackupKey(n)| > 6 && BackupKey(n)[5] == 't'
  {
    assert BACKUP_KEY[5] == 't';
  }

  lemma HeadKeys()
    ensures WriteKeys([FailAt(21), STACKS_ITEM]) == {} && ExecuteKeys([FailAt(21), STACKS_ITEM]) == {STACKS_KEY}
  {
    hide Norm;
    SKeys();
    var x, d := Execute(STACKS), Drop(STACKS);
    OneKeys(d.thn[0]);
    OneKeys(d);
    assert d.thn == [d.thn[0]];
    OneKeys(x);
    KeysAppend([x], [d]);
    assert [x] + [d] == [x, d];
    OneKeys(STACKS_ITEM);
    OneKeys(FailAt(21));
    KeysAppend([FailAt(21)], [STACKS_ITEM]);
    assert [FailAt(21)] + [STACKS_ITEM] == [FailAt(21), STACKS_ITEM];
  }

  // ---------------------------------------------- some more commands

  /** The generated tree with more items after the wizard's part. */
  function TreeWith(names: seq<string>, more: Block): Block {
    [FailAt(21), STACKS_ITEM] + more + NameItems(names) + TAIL + [SELF_DELETE]
  }

  /** The generated script with more lines there. */
  function LinesWith(names: seq<string>, more: seq<string>): seq<string>
    requires ValidNames(names)
  {
    NamesPrintable(names);
    HeadLines() + more + PrintBlock(NameItems(names), 0) + TailLines() + [""]
  }

  lemma WithNone(names: seq<string>)
    requires ValidNames(names)
    ensures LinesWith(names, []) == UndoLines(names) + [""]
  {
    hide HeadLines, TailLines, PrintBlock;
    NamesPrintable(names);
    assert HeadLines() + [] == HeadLines();
  }

  lemma AloneWith(names: seq<string>, more: Block, m: Tree)
    requires ValidNames(names) && STACKS_KEY !in WriteKeys(more) && ExecuteKeys(more) == {}
    requires Kind(m, STACKS_KEY) != FILE
    ensures Alone(TreeWith(names, more), m)
  {
    hide ExecuteKeys, WriteKeys, NameItems, TAIL, STACKS_ITEM, STACKS_KEY, Kind, ValidName;
    var head := [FailAt(21), STACKS_ITEM];
    HeadKeys(); NamesKeys(names); TailKeys();
    SelfKeys();
    KeysAppend(head, more);
    KeysAppend(head + more, NameItems(names));
    KeysAppend(head + more + NameItems(names), TAIL);
    KeysAppend(head + more + NameItems(names) + TAIL, [SELF_DELETE]);
  }

  lemma SelfKeys()
    ensures ExecuteKeys([SELF_DELETE]) == {} && WriteKeys([SELF_DELETE]) == {}
  {
    OneKeys(SELF_DELETE);
  }

  /** A line that holds just this command. */
  predicate LineOf(line: string, it: Item) { Tokenize(SplitWords(line)) == Command(it) && LineOk(line) }

  predicate LinesOf(lines: seq<string>, b: Block) {
    |lines| == |b| && forall i :: 0 <= i < |b| ==> LineOf(lines[i], b[i])
  }

  lemma {:induction false} ParseMore(lines: seq<string>, b: Block, rest: seq<string>, cur: Block)
    requires LinesOf(lines, b)
    ensures ParseFrom(lines + rest, cur, []) == ParseFrom(rest, cur + b, [])
    decreases |lines|
  {
    hide Tokenize, SplitWords, LineOk;
    if lines == [] {
      assert lines + rest == rest && cur + b == cur;
    } else {
      assert LineOf(lines[0], b[0]);
      assert (lines + rest)[1..] == lines[1..] + rest;
      ParseMore(lines[1..], b[1..], rest, cur + [b[0]]);
      assert cur + [b[0]] + b[1..] == cur + b;
    }
  }

  lemma WithParses(names: seq<string>, lines: seq<string>, more: Block)
    requires ValidNames(names) && LinesOf(lines, more)
    ensures Parse(LinesWith(names, lines)) == Some(TreeWith(names, more))
  {
    hide HeadLines, TailLines, PrintBlock, TAIL, STACKS_ITEM, ParseFrom, LineOf;
    NamesPrintable(names);
    var head := [FailAt(21), STACKS_ITEM];
    var rest := TailLines() + [""];
    var named := PrintBlock(NameItems(names), 0) + rest;
    assert LinesWith(names, lines) == HeadLines() + (lines + named);
    ParseHead(lines + named);
    ParseMore(lines, more, named, head);
    ParsePrinted(NameItems(names), 0, rest, head + more, []);
    ParseTail(head + more + NameItems(names));
  }

  lemma {:induction false} ItemsAppend(a: Block, b: Block)
    ensures AllItems(a + b) == AllItems(a) + AllItems(b)
    decreases |a|
  {
    hide Nested;
    if a == [] {
      assert a + b == b;
    } else {
      assert (a + b)[1..] == a[1..] + b;
      ItemsAppend(a[1..], b);
    }
  }

  /** Every item of the generated tree is in the longer one. */
  lemma ItemsKept(names: seq<string>, more: Block, x: Item)
    requires x in AllItems(UndoTree(names))
    ensures x in AllItems(TreeWith(names, more))
  {
    hide AllItems, NameItems, TAIL, STACKS_ITEM;
    var head, rest := [FailAt(21), STACKS_ITEM], NameItems(names) + TAIL + [SELF_DELETE];
    assert UndoTree(names) == head + rest && TreeWith(names, more) == (head + more) + rest;
    ItemsAppend(head, rest);
    ItemsAppend(head, more);
    ItemsAppend(head + more, rest);
  }

  lemma {:induction false} CoverageOf(items: seq<Item>, names: seq<string>, n: nat)
    requires Coverage(items, names) == [] && n < |names|
    ensures Restores(items, names[n])
  {
    hide Restores;
    if n > 0 { CoverageOf(items, names[1..], n - 1); }
  }

  lemma WithCovers(names: seq<string>, more: Block)
    requires ValidNames(names)
    ensures var items := AllItems(TreeWith(names, more));
            Coverage(items, names) == [] && RestoresGroup(items) && MovesStartupBackup(items)
    ensures RunsStacksFirst(TreeWith(names, more)) && TreeWith(names, more) != []
    ensures TreeWith(names, more)[0] == FailAt(21)
  {
    hide AllItems, UndoTree, TreeWith, Lower, BackupPath, LivePath, BACKUP_UG, US_BAK;
    var short, items := AllItems(UndoTree(names)), AllItems(TreeWith(names, more));
    TreeCovers(names);
    forall x | x in short ensures x in items { ItemsKept(names, more, x); }
    forall i | 0 <= i < |names| ensures Restores(items, names[i]) {
      TreeRestores(names, i);
      var j :| 0 <= j < |short| && short[j].Copy? && Lower(short[j].src) == Lower(BackupPath(names[i]))
               && Lower(short[j].dst) == Lower(LivePath(names[i]));
      assert short[j] in items;
    }
    CoverageEmpty(items, names);
    var g :| 0 <= g < |short| && short[g].Copy? && Lower(short[g].src) == Lower(BACKUP_UG);
    assert short[g] in items;
    var u :| 0 <= u < |short| && ((short[u].Rename? && Lower(short[u].src) == Lower(US_BAK))
                                  || (short[u].Delete? && Lower(short[u].target) == Lower(US_BAK)));
    assert short[u] in items;
    StacksFirst(names, more);
  }

  lemma StacksFirst(names: seq<string>, more: Block)
    ensures RunsStacksFirst(TreeWith(names, more)) && TreeWith(names, more) != []
    ensures TreeWith(names, more)[0] == FailAt(21)
  {
    hide NameItems, TAIL;
    assert TreeWith(names, more)[1] == STACKS_ITEM;
    assert STACKS_ITEM.thn[0] == Execute(STACKS);
  }

  lemma WithWalks(names: seq<string>, more: Block)
    requires ValidNames(names) && forall i :: 0 <= i < |more| ==> Clean(more[i])
    ensures Walk(TreeWith(names, more), [], None) == []
  {
    hide Clean, OWN_FILES, LIB_NOTES, MARKER_ITEMS, DIR_ITEMS, STACKS_ITEM, UG_ITEM, STARTUP_ITEM, LIB_ITEM,
         NameItems, SELF_DELETE;
    StacksClean(); NamesClean(names); UgClean(); OwnClean(); StartupClean(); LibClean(); OthersClean(); DirsClean();
    CleanWalk(TreeWith(names, more), None);
  }

  lemma WithLinesOk(names: seq<string>, lines: seq<string>, more: Block)
    requires ValidNames(names) && LinesOf(lines, more)
    ensures LineFindings(LinesWith(names, lines)) == []
  {
    hide HeadLines, TailLines, PrintBlock, LineOk, Tokenize;
    NamesPrintable(names);
    UndoLinesOk(names);
    var all := LinesWith(names, lines);
    forall l | l in all ensures LineOk(l) {
      if l in lines {
        var i :| 0 <= i < |lines| && lines[i] == l;
        assert LineOf(lines[i], more[i]);
      } else {
        assert l in UndoLines(names) + [""];
      }
    }
    LinesOk(all);
  }

  /** The lint accepts the generated script with any more lines of its own kind,
      each a command that the walk lets through. */
  lemma WithPasses(names: seq<string>, lines: seq<string>, more: Block)
    requires ValidNames(names) && LinesOf(lines, more) && forall i :: 0 <= i < |more| ==> Clean(more[i])
    ensures UndoStructure(LinesWith(names, lines), names) == []
  {
    hide LineOk, LinesWith, TreeWith, Parse, AllItems, RestoresGroup, MovesStartupBackup, RunsStacksFirst, Walk,
         Coverage, Clean, LinesOf;
    WithParses(names, lines, more);
    WithLinesOk(names, lines, more);
    WithWalks(names, more);
    WithCovers(names, more);
  }

  lemma WithAccepted(names: seq<string>, lines: seq<string>, more: Block, m: Tree)
    requires ValidNames(names) && LinesOf(lines, more) && forall i :: 0 <= i < |more| ==> Clean(more[i])
    requires STACKS_KEY !in WriteKeys(more) && ExecuteKeys(more) == {} && Kind(m, STACKS_KEY) != FILE
    ensures Accepted(lines := LinesWith(names, lines), names := names, m := m)
  {
    hide LinesWith, TreeWith, Parse, UndoStructure, Clean, LinesOf, Alone, Kind, STACKS_KEY, WriteKeys, ExecuteKeys;
    WithPasses(names, lines, more);
    WithParses(names, lines, more);
    AloneWith(names, more, m);
  }

  /** The generated script, on every system without the wizard's script and with
      every write protection, does at every step only what the lint allows. */
  lemma GeneratedSafe(names: seq<string>, m: Tree, ro: set<string>)
    requires ValidNames(names) && Kind(m, STACKS_KEY) != FILE
    ensures SafeTrace(RunUndo(names, m, ro).trace)
  {
    hide Accepted, SafeTrace, RunDos, Kind, STACKS_KEY;
    WithNone(names);
    assert LinesOf([], []) && WriteKeys([]) == {} && ExecuteKeys([]) == {};
    WithAccepted(names, [], [], m);
    LintSound(UndoLines(names) + [""], names, m, ro);
  }

  // --------------------------------------------------------- single lines

  /** What can stand in a command of an accepted script: one word, no
      redirection, short enough for a line of its own. */
  predicate Speakable(p: string) { PathWord(p) && |p| <= 248 }

  function DeleteLine(p: string): string { Render(0, ["Delete", p]) }
  function CopyLine(src: string, dst: string): string { Render(0, ["Copy", src, dst]) }
  function RenameLine(src: string, dst: string): string { Render(0, ["Rename", src, dst]) }

  lemma JoinTwo(a: string, b: string)
    ensures Render(0, [a, b]) == a + " " + b
  {
    assert [a, b][1..] == [b];
    assert Join([b]) == b;
    assert Render(0, [a, b]) == "" + Join([a, b]);
  }

  lemma JoinThree(a: string, b: string, c: string)
    ensures Render(0, [a, b, c]) == a + " " + b + " " + c
  {
    assert [a, b, c][1..] == [b, c];
    JoinTwo(b, c);
    assert Join([b, c]) == b + " " + c;
  }

  lemma ArgsTwo(a: string, b: string)
    requires Upper(a) != NIL && Upper(b) != NIL
    ensures Args([a]) == [a] && Args([a, b]) == [a, b]
  {
    ArgsWord(a, []);
    ArgsWord(b, []);
    ArgsWord(a, [b]);
    assert [a] + [] == [a] && [b] + [] == [b] && [a] + [b] == [a, b];
  }

  lemma DeleteLineOf(p: string)
    requires Speakable(p)
    ensures LineOf(DeleteLine(p), Delete(p, false))
  {
    hide Render, SplitWords;
    var ws := ["Delete", p];
    UpperVerbs();
    assert forall w :: w in ws ==> IsWord(w);
    SplitRender(0, ws);
    JoinTwo("Delete", p);
    ArgsTwo(p, p);
    assert ws[1..] == [p] && [p][1..] == [];
  }

  lemma PairLineOf(src: string, dst: string)
    requires PathWord(src) && PathWord(dst) && |src| + |dst| <= 246
    ensures LineOf(CopyLine(src, dst), Copy(src, dst)) && LineOf(RenameLine(src, dst), Rename(src, dst))
  {
    hide Render, SplitWords;
    CopyLineOf(src, dst);
    var ws := ["Rename", src, dst];
    UpperVerbs();
    assert forall w :: w in ws ==> IsWord(w);
    SplitRender(0, ws);
    JoinThree("Rename", src, dst);
    ArgsTwo(src, dst);
    assert ws[1..] == [src, dst];
  }

  lemma CopyLineOf(src: string, dst: string)
    requires PathWord(src) && PathWord(dst) && |src| + |dst| <= 249
    ensures LineOf(CopyLine(src, dst), Copy(src, dst))
  {
    hide Render, SplitWords;
    var ws := ["Copy", src, dst];
    UpperVerbs();
    assert forall w :: w in ws ==> IsWord(w);
    SplitRender(0, ws);
    JoinThree("Copy", src, dst);
    ArgsTwo(src, dst);
    assert ws[1..] == [src, dst];
  }

  // ------------------------------------------------- how such a script runs

  /** What happened stays in the record, executed scripts included. */
  lemma {:induction false} TraceGrows(b: Block, s: State, depth: nat)
    requires depth <= MAX_DEPTH
    ensures s.trace <= ExecBlock(b, s, depth).trace
    decreases MAX_DEPTH - depth, b, 0
  {
    hide Norm, Kind, Writable, SplitLines, Parse;
    if b != [] && s.halt == Go {
      TraceGrowsItem(b[0], s, depth);
      TraceGrows(b[1..], ExecItem(b[0], s, depth), depth);
    }
  }

  lemma {:induction false} TraceGrowsItem(it: Item, s: State, depth: nat)
    requires depth <= MAX_DEPTH
    ensures s.trace <= ExecItem(it, s, depth).trace
    decreases MAX_DEPTH - depth, it, 1
  {
    hide Norm, Writable, SplitLines, Parse;
    match it {
      case If(neg, test, thn, els) => TraceGrows(if Holds(s, test) != neg then thn else els, Observe(s, test), depth);
      case Execute(script) =>
        if Kind(s.m, Norm(script)) == FILE && depth <= 4 {
          var tree := Parse(SplitLines(s.m[Norm(script)].data));
          if tree.Some? { TraceGrows(tree.value, State(s.m, s.ro, 0, 10, Go, s.trace), depth + 1); }
        }
      case _ =>
    }
  }

  /** The record has no influence on what a script does. */
  lemma {:induction false} TraceFree(b: Block, s: State, t: seq<Event>, depth: nat)
    requires depth <= MAX_DEPTH
    ensures ExecBlock(b, s.(trace := t), depth).(trace := []) == ExecBlock(b, s, depth).(trace := [])
    decreases MAX_DEPTH - depth, b, 0
  {
    hide Norm, Kind, Writable, SplitLines, Parse;
    if b != [] && s.halt == Go {
      var u, v := ExecItem(b[0], s.(trace := t), depth), ExecItem(b[0], s, depth);
      TraceFreeItem(b[0], s, t, depth);
      assert u == v.(trace := u.trace);
      TraceFree(b[1..], v, u.trace, depth);
    }
  }

  lemma {:induction false} TraceFreeItem(it: Item, s: State, t: seq<Event>, depth: nat)
    requires depth <= MAX_DEPTH
    ensures ExecItem(it, s.(trace := t), depth).(trace := []) == ExecItem(it, s, depth).(trace := [])
    decreases MAX_DEPTH - depth, it, 1
  {
    hide Norm, Writable, SplitLines, Parse;
    match it {
      case If(neg, test, thn, els) =>
        var s1 := Observe(s, test);
        var u1 := Observe(s.(trace := t), test);
        assert u1 == s1.(trace := u1.trace);
        TraceFree(if Holds(s, test) != neg then thn else els, s1, u1.trace, depth);
      case Execute(script) =>
        if Kind(s.m, Norm(script)) == FILE && depth <= 4 {
          var tree := Parse(SplitLines(s.m[Norm(script)].data));
          if tree.Some? { TraceFree(tree.value, State(s.m, s.ro, 0, 10, Go, s.trace), t, depth + 1); }
        }
      case _ =>
    }
  }

  /** The added commands run right after the test for the wizard's script; from
      there on the run is that of the undo alone. */
  lemma WithRuns(names: seq<string>, lines: seq<string>, more: Block, m: Tree, ro: set<string>, m': Tree, t: seq<Event>)
    requires ValidNames(names) && LinesOf(lines, more) && Kind(m, STACKS_KEY) == ABSENT
    requires Kind(m', STACKS_KEY) == ABSENT
    requires ExecBlock(more, AfterHead(m, ro), 0) == State(m', ro, 0, 21, Go, t)
    ensures var r := RunDos(LinesWith(names, lines), m, ro, [], 0); t <= r.trace && r.m == RunUndo(names, m', ro).m
  {
    hide ExecBlock, LinesWith, STACKS_ITEM, NameItems, TAIL, LinesOf, Kind, STACKS_KEY, UndoLines, Parse;
    var head, rest := [FailAt(21), STACKS_ITEM], NameItems(names) + TAIL + [SELF_DELETE];
    var s0, s1 := State(m, ro, 0, 10, Go, []), State(m', ro, 0, 21, Go, t);
    WithParses(names, lines, more);
    assert TreeWith(names, more) == (head + more) + rest && UndoTree(names) == head + rest;
    HeadExec(m, ro); HeadExec(m', ro);
    ExecAppend(head + more, rest, s0, 0);
    ExecAppend(head, more, s0, 0);
    UndoParses(names);
    ExecAppend(head, rest, State(m', ro, 0, 10, Go, []), 0);
    TraceGrows(rest, s1, 0);
    TraceFree(rest, AfterHead(m', ro), t, 0);
    assert s1 == AfterHead(m', ro).(trace := t);
  }
}
