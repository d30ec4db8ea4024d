/** The generated undo script passes its own lint, for every list of names. */
module LintClean {
  import opened Seqs
  import opened Text
  import opened Dos
  import opened Printer
  import opened Undo
  import opened Keys
  import opened Lint

  // ----------------------------------------------------------- the walk

  lemma WalkOne(it: Item, conds: seq<Cond>, prev: Option<Item>)
    ensures Walk([it], conds, prev) == Check(it, conds, prev)
  {
    hide Check;
    assert [it][1..] == [];
  }

  lemma WalkTwo(a: Item, b: Item, conds: seq<Cond>, prev: Option<Item>)
    ensures Walk([a, b], conds, prev) == Check(a, conds, prev) + Check(b, conds, Some(a))
  {
    hide Check;
    assert [a, b][1..] == [b];
    WalkOne(b, conds, Some(a));
  }

  /** An item without findings wherever it stands at the top level. */
  ghost predicate Clean(it: Item) {
    forall prev: Option<Item> :: Check(it, [], prev) == []
  }

  lemma {:induction false} CleanWalk(b: Block, prev: Option<Item>)
    requires forall i :: 0 <= i < |b| ==> Clean(b[i])
    ensures Walk(b, [], prev) == []
  {
    hide Check;
    if b != [] {
      assert Clean(b[0]);
      CleanWalk(b[1..], Some(b[0]));
    }
  }

  /** A path outside everything the lint watches. */
  predicate Unwatched(path: string) {
    !IsBackup(Lower(path)) && !IsCommand(Lower(path)) && Lower(path) != STARTUP_LOW && Lower(path) != LIB_LOW
  }

  lemma DropClean(path: string, all: bool)
    requires Unwatched(path) && (all ==> EndsWith(Lower(path), "/new") || EndsWith(Lower(path), "/ours"))
    ensures Clean(Drop(path, all))
    ensures forall conds, prev :: Check(Drop(path, all), conds, prev) == []
  {
    hide IsBackup, IsCommand, EndsWith, Lower;
    forall conds: seq<Cond>, prev: Option<Item> ensures Check(Drop(path, all), conds, prev) == [] {
      var c := Cond(false, Exists(path), true, prev);
      WalkOne(Delete(path, all), conds + [c], None);
      assert CheckDelete(path, all, conds + [c]) == [];
    }
  }

  lemma NoteClean(path: string, text: seq<string>)
    ensures Clean(When(path, [Echo(text)]))
  {
    forall prev: Option<Item> ensures Check(When(path, [Echo(text)]), [], prev) == [] {
      WalkOne(Echo(text), [] + [Cond(false, Exists(path), true, prev)], None);
    }
  }

  /** Copy, then Delete of the backup in the Else of If WARN: accepted. */
  lemma RestoreClean(backup: string, live: string, dir: string, conds: seq<Cond>)
    requires IsBackup(Lower(backup)) && !IsCommand(Lower(backup))
    requires Lower(live) != STARTUP_LOW && Lower(live) != LIB_LOW
    ensures Walk(RestoreFile(backup, live, dir), conds, None) == []
  {
    hide IsBackup, IsCommand, Lower;
    var b := RestoreFile(backup, live, dir);
    WalkTwo(b[0], b[1], conds, None);
    assert CheckWrite(false, backup, live, conds) == [];
    var thn, els := Cond(false, Warn, true, Some(b[0])), Cond(false, Warn, false, Some(b[0]));
    WalkOne(b[1].thn[0], conds + [thn], None);
    WalkOne(b[1].els[0], conds + [els], None);
    assert CopyChecked(conds + [els], Lower(backup));
    assert CheckDelete(backup, false, conds + [els]) == [];
  }

  lemma NameSpellings(n: string)
    requires ValidName(n)
    ensures IsBackup(Lower(BackupPath(n))) && !IsCommand(Lower(BackupPath(n)))
    ensures IsCommand(Lower(LivePath(n))) && !IsBackup(Lower(LivePath(n)))
    ensures Lower(LivePath(n)) != STARTUP_LOW && Lower(LivePath(n)) != LIB_LOW
    ensures MarkerOf(LivePath(n)) == Lower(NewPath(n))
  {
    LowerBk();
    LowerConcat(BK + "/C/", n);
    LowerConcat(BK, "/C/");
    assert Lower("/C/") == "/c/";
    assert BACKUP_KEY + "/c/" == BACKUP_C;
    LowerConcat("SYS:C/", n);
    assert Lower("SYS:C/") == "sys:c/";
    assert Lower(LivePath(n))[4] == 'c' && BACKUP_C[4] == 's' && BACKUP_LIBS[4] == 's';
    assert Lower(LivePath(n))[1] == 'y' && STARTUP_LOW[1] == ':' && LIB_LOW[1] == 'i';
    assert Lower(BackupPath(n))[4] == 's' && "sys:c/"[4] == 'c';
    assert LivePath(n)[6..] == n;
  }

  lemma NameClean(n: string)
    requires ValidName(n)
    ensures Clean(NameItem(n))
  {
    hide IsBackup, IsCommand, Lower, BackupPath, LivePath, NewPath, MarkerOf;
    NameSpellings(n);
    LiveLong(n);
    forall prev: Option<Item> ensures Check(NameItem(n), [], prev) == [] {
      var it := NameItem(n);
      var c1, c2 := Cond(false, Exists(BackupPath(n)), true, prev), Cond(false, Exists(BackupPath(n)), false, prev);
      RestoreClean(BackupPath(n), LivePath(n), BK + "/C", [] + [c1]);
      var marked := it.els[0];
      WalkOne(marked, [] + [c2], None);
      var c3 := Cond(false, Exists(NewPath(n)), true, None);
      var drop := marked.thn[0];
      WalkOne(drop, [] + [c2] + [c3], None);
      var c4 := Cond(false, Exists(LivePath(n)), true, None);
      var conds := [] + [c2] + [c3] + [c4];
      WalkOne(drop.thn[0], conds, None);
      assert conds[1] == c3;
      assert Marked(conds, Lower(NewPath(n)));
      assert CheckDelete(LivePath(n), false, conds) == [];
      assert Check(drop, [] + [c2] + [c3], None) == [];
      assert Check(marked, [] + [c2], None) == [];
    }
  }

  lemma LiveLong(n: string)
    ensures |LivePath(n)| >= 6
  {
  }

  lemma UgClean()
    ensures Clean(UG_ITEM)
  {
    hide IsBackup, IsCommand, Lower, BACKUP_UG, LIVE_UG;
    UgSpellings();
    forall prev: Option<Item> ensures Check(UG_ITEM, [], prev) == [] {
      RestoreClean(BACKUP_UG, LIVE_UG, BK + "/Libs", [] + [Cond(false, Exists(BACKUP_UG), true, prev)]);
    }
  }

  lemma UgSpellings()
    ensures IsBackup(Lower(BACKUP_UG)) && !IsCommand(Lower(BACKUP_UG))
    ensures Lower(LIVE_UG) != STARTUP_LOW && Lower(LIVE_UG) != LIB_LOW
  {
    LowerUg();
    BackupUgLow();
    hide Lower, BACKUP_UG;
    assert Lower(BACKUP_UG)[4] == 's' && "sys:c/"[4] == 'c';
    assert LIVE_UG_KEY[1] == 'y' && STARTUP_LOW[1] == ':' && LIB_LOW[1] == 'i';
  }

  lemma BackupUgLow()
    ensures Lower(BACKUP_UG) == BACKUP_LIBS + "usergroup.library"
  {
    hide Lower;
    LowerBk(); LowerUg();
    LowerConcat(BK, "/Libs/usergroup.library");
    assert BACKUP_KEY + "/libs/" == BACKUP_LIBS;
    assert "/libs/usergroup.library" == "/libs/" + "usergroup.library";
  }

  lemma UnwatchedAt(path: string, low: string)
    requires Lower(path) == low && |low| > 4 && "sys:" <= low && low[4] != 's' && low[4] != 'c'
    ensures Unwatched(path)
  {
    assert BACKUP_C[4] == 's' && BACKUP_LIBS[4] == 's' && "sys:c/"[4] == 'c';
    assert low[1] == 'y' && STARTUP_LOW[1] == ':' && LIB_LOW[1] == 'i';
  }

  lemma OwnClean()
    ensures forall i :: 0 <= i < |OWN_FILES| ==> Clean(OWN_FILES[i])
  {
    hide Clean, Unwatched, Lower;
    LowerPrefs(); LowerPrefsIcon(); LowerSetupIcon(); ConfigUnwatched();
    UnwatchedAt("SYS:Prefs/TolunnetPrefs", "sys:prefs/tolunnetprefs");
    UnwatchedAt("SYS:Prefs/TolunnetPrefs.info", "sys:prefs/tolunnetprefs.info");
    UnwatchedAt("SYS:Prefs/TolunnetSetup", "sys:prefs/tolunnetsetup");
    UnwatchedAt("SYS:Prefs/TolunnetSetup.info", "sys:prefs/tolunnetsetup.info");
    DropClean("SYS:Prefs/TolunnetPrefs", false); DropClean("SYS:Prefs/TolunnetPrefs.info", false);
    DropClean("SYS:Prefs/TolunnetSetup", false); DropClean("SYS:Prefs/TolunnetSetup.info", false);
    DropClean("DEVS:tolunnet.config", false);
  }

  lemma ConfigUnwatched()
    ensures Unwatched("DEVS:tolunnet.config")
  {
    LowerConfig();
    var l := "devs:" + "tolunnet.config";
    assert l[0] == 'd' && BACKUP_C[0] == 's' && BACKUP_LIBS[0] == 's' && "sys:c/"[0] == 's' && STARTUP_LOW[0] == 's'
           && LIB_LOW[0] == 'l';
  }

  lemma StartupSpellings()
    ensures Lower(US) == STARTUP_LOW
    ensures Unwatched(US_OLD) && Lower(US_OLD) != STARTUP_LOW
  {
    LowerS(); LowerPieces();
    LowerConcat(US, ".tolunnet-old");
    assert Lower(US_OLD) == "s:" + "user-startup" + ".tolunnet-old";
    assert Lower(US_OLD)[1] == ':' && BACKUP_C[1] == 'y' && BACKUP_LIBS[1] == 'y' && "sys:c/"[1] == 'y'
           && LIB_LOW[1] == 'i';
    assert STARTUP_LOW == "s:" + "user-startup";
  }

  lemma StartupClean()
    ensures Clean(STARTUP_ITEM)
  {
    hide Lower, Unwatched, US, US_OLD, US_BAK, STARTUP_LOW, LIB_LOW, STARTUP_NOTE;
    StartupSpellings(); LibLowDiffers();
    forall prev: Option<Item> ensures Check(STARTUP_ITEM, [], prev) == [] {
      var c1 := Cond(false, Exists(US_BAK), true, prev);
      var live := LIVE_STARTUP_ITEM;
      WalkOne(live, [] + [c1], None);
      var c2, c3 := Cond(false, Exists(US), true, None), Cond(false, Exists(US), false, None);
      var inThen, inElse := [] + [c1] + [c2], [] + [c1] + [c3];
      assert live.thn[1..] == [Drop(US_OLD), Rename(US_BAK, US_OLD)];
      WalkTwo(Drop(US_OLD), Rename(US_BAK, US_OLD), inThen, Some(live.thn[0]));
      DropClean(US_OLD, false);
      assert CheckWrite(true, US_BAK, US_OLD, inThen) == [] by { UnwatchedParts(US_OLD); }
      assert Walk(live.thn, inThen, None) == [];
      WalkOne(Rename(US_BAK, US), inElse, None);
      assert inElse[1] == c3;
      assert Established(inElse, STARTUP_LOW, false);
      assert CheckWrite(true, US_BAK, US, inElse) == [];
      assert Check(live, [] + [c1], None) == [];
    }
  }

  lemma UnwatchedParts(path: string)
    requires Unwatched(path)
    ensures Lower(path) != STARTUP_LOW && Lower(path) != LIB_LOW
  {
  }

  lemma LibLowDiffers()
    ensures STARTUP_LOW != LIB_LOW && Lower(LIB) == LIB_LOW
  {
    LowerLib();
    assert STARTUP_LOW[0] == 's' && LIB_LOW[0] == 'l';
    assert LIB_LOW == "libs:" + "bsdsocket.library";
  }

  lemma LibClean()
    ensures Clean(LIB_ITEM)
  {
    hide Lower, LIB, NEWER, PARKED, STARTUP_LOW, LIB_LOW;
    LibLowDiffers();
    forall prev: Option<Item> ensures Check(LIB_ITEM, [], prev) == [] {
      var c1 := Cond(true, Exists(LIB), true, prev);
      WalkOne(PARKED_ITEM, [] + [c1], None);
      var c2, c3 := Cond(false, Exists(NEWER), true, None), Cond(false, Exists(NEWER), false, None);
      var inThen, inElse := [] + [c1] + [c2], [] + [c1] + [c3];
      WalkOne(Rename(NEWER, LIB), inThen, None);
      assert inThen[0] == c1;
      assert Established(inThen, LIB_LOW, false);
      assert CheckWrite(true, NEWER, LIB, inThen) == [];
      var parked := When(PARKED, [Rename(PARKED, LIB)]);
      WalkOne(parked, inElse, None);
      var conds := inElse + [Cond(false, Exists(PARKED), true, None)];
      WalkOne(Rename(PARKED, LIB), conds, None);
      assert conds[0] == c1;
      assert Established(conds, LIB_LOW, false);
      assert CheckWrite(true, PARKED, LIB, conds) == [];
      assert Check(parked, inElse, None) == [];
      assert Check(PARKED_ITEM, [] + [c1], None) == [];
    }
  }

  lemma DirSpellings()
    ensures Unwatched(BK + "/new") && EndsWith(Lower(BK + "/new"), "/new")
    ensures Unwatched(BK + "/ours") && EndsWith(Lower(BK + "/ours"), "/ours")
    ensures Unwatched(BK + "/C") && Unwatched(BK + "/Libs") && Unwatched(BK)
  {
    LowerBk(); LowerPieces();
    LowerConcat(BK, "/new"); LowerConcat(BK, "/ours"); LowerConcat(BK, "/C"); LowerConcat(BK, "/Libs");
    DirUnwatched(BK + "/new", BACKUP_KEY + "/new");
    DirUnwatched(BK + "/ours", BACKUP_KEY + "/ours");
    DirUnwatched(BK + "/C", BACKUP_KEY + "/c");
    DirUnwatched(BK + "/Libs", BACKUP_KEY + "/libs");
    DirUnwatched(BK, BACKUP_KEY);
    assert (BACKUP_KEY + "/new")[27..] == "/new" && (BACKUP_KEY + "/ours")[27..] == "/ours";
  }

  lemma DirUnwatched(path: string, low: string)
    requires Lower(path) == low && |low| > 4 && low[1] == 'y' && low[4] == 's'
    requires |low| < 30 || (|low| < 33 && low[28] != 'c')
    ensures Unwatched(path)
  {
    assert |BACKUP_C| == 30 && |BACKUP_LIBS| == 33 && BACKUP_C[28] == 'c';
    assert "sys:c/"[4] == 'c' && STARTUP_LOW[1] == ':' && LIB_LOW[1] == 'i';
  }

  lemma DirsClean()
    ensures forall i :: 0 <= i < |MARKER_ITEMS| ==> Clean(MARKER_ITEMS[i])
    ensures forall i :: 0 <= i < |DIR_ITEMS| ==> Clean(DIR_ITEMS[i])
  {
    hide Clean, Unwatched, Lower, EndsWith, BK, LEFT_NOTE;
    DirSpellings();
    DropClean(BK + "/new", true);
    DropClean(BK + "/ours", true);
    DropClean(BK + "/C", false);
    DropClean(BK + "/Libs", false);
    DropClean(BK, false);
    NoteClean(BK, LEFT_NOTE);
  }

  lemma StacksClean()
    ensures Clean(STACKS_ITEM) && Unwatched(STACKS)
  {
    hide Lower, IsBackup, IsCommand;
    StacksUnwatched();
    forall prev: Option<Item> ensures Check(STACKS_ITEM, [], prev) == [] {
      WalkTwo(Execute(STACKS), Drop(STACKS), [] + [Cond(false, Exists(STACKS), true, prev)], None);
      DropClean(STACKS, false);
    }
  }

  lemma StacksUnwatched()
    ensures Unwatched(STACKS) && Unwatched(UNDO)
  {
    LowerS();
    var a, b := "s:" + "tolunnet-undo-stacks", "s:" + "tolunnet-undo";
    assert a[1] == ':' && b[1] == ':' && BACKUP_C[1] == 'y' && BACKUP_LIBS[1] == 'y' && "sys:c/"[1] == 'y'
           && LIB_LOW[1] == 'i';
    assert a[2] == 't' && b[2] == 't' && STARTUP_LOW[2] == 'u';
  }

  lemma {:induction false} NamesClean(names: seq<string>)
    requires forall i :: 0 <= i < |names| ==> ValidName(names[i])
    ensures forall i :: 0 <= i < |NameItems(names)| ==> Clean(NameItems(names)[i])
  {
    hide Clean, NameItem;
    if names != [] {
      NameClean(names[0]);
      NamesClean(names[1..]);
    }
  }

  lemma OthersClean()
    ensures Clean(FailAt(21)) && Clean(SELF_DELETE)
    ensures forall i :: 0 <= i < |LIB_NOTES| ==> Clean(LIB_NOTES[i])
  {
    hide IsBackup, IsCommand, Lower;
    StacksUnwatched();
    assert CheckDelete(UNDO, false, []) == [];
    NoteClean(PARKED, KeptNote(PARKED).thn[0].text);
    NoteClean(NEWER, KeptNote(NEWER).thn[0].text);
  }

  /** The walk over the generated block finds nothing. */
  lemma TreeWalkClean(names: seq<string>)
    requires ValidNames(names)
    ensures Walk(UndoTree(names), [], None) == []
  {
    hide Clean, OWN_FILES, LIB_NOTES, MARKER_ITEMS, DIR_ITEMS, STACKS_ITEM, UG_ITEM, STARTUP_ITEM, LIB_ITEM,
         NameItems, SELF_DELETE;
    StacksClean(); NamesClean(names); UgClean(); OwnClean(); StartupClean(); LibClean(); OthersClean(); DirsClean();
    var tree := UndoTree(names);
    forall i | 0 <= i < |tree| ensures Clean(tree[i]) { }
    CleanWalk(tree, None);
  }

  // --------------------------------------------------------- coverage

  lemma {:induction false} ItemsContain(b: Block, i: nat, x: Item)
    requires i < |b| && (x == b[i] || x in Nested(b[i]))
    ensures x in AllItems(b)
  {
    if i > 0 {
      assert b[1..][i - 1] == b[i];
      ItemsContain(b[1..], i - 1, x);
    }
  }

  lemma NestedContains(it: Item, i: nat, x: Item, inThen: bool)
    requires it.If? && i < |if inThen then it.thn else it.els|
    requires x == (if inThen then it.thn else it.els)[i] || x in Nested((if inThen then it.thn else it.els)[i])
    ensures x in Nested(it)
  {
    ItemsContain(if inThen then it.thn else it.els, i, x);
  }

  lemma {:induction false} NameItemsAt(names: seq<string>, i: nat)
    requires i < |names|
    ensures |NameItems(names)| == |names| && NameItems(names)[i] == NameItem(names[i])
  {
    hide NameItem;
    if i > 0 { NameItemsAt(names[1..], i - 1); } else if |names| > 1 { NameItemsAt(names[1..], 0); }
  }

  lemma TreeRestores(names: seq<string>, i: nat)
    requires ValidNames(names) && i < |names|
    ensures Restores(AllItems(UndoTree(names)), names[i])
  {
    hide AllItems, TAIL, Lower, STACKS_ITEM;
    var n := names[i];
    var tree := UndoTree(names);
    var copy := Copy(BackupPath(n), LivePath(n));
    NameItemsAt(names, i);
    assert tree[i + 2] == NameItem(n);
    assert NameItem(n).thn[0] == copy;
    NestedContains(NameItem(n), 0, copy, true);
    ItemsContain(tree, i + 2, copy);
  }

  lemma {:induction false} CoverageEmpty(items: seq<Item>, names: seq<string>)
    requires forall i :: 0 <= i < |names| ==> Restores(items, names[i])
    ensures Coverage(items, names) == []
  {
    hide Restores;
    if names != [] { CoverageEmpty(items, names[1..]); }
  }

  lemma TailAt(names: seq<string>)
    ensures var tree, k := UndoTree(names), |names| + 2;
            |tree| > k + 6 && tree[k] == UG_ITEM && tree[k + 6] == STARTUP_ITEM
    ensures UndoTree(names)[0] == FailAt(21) && UndoTree(names)[1] == STACKS_ITEM
  {
    hide UG_ITEM, STARTUP_ITEM, LIB_ITEM, LIB_NOTES, MARKER_ITEMS, DIR_ITEMS, STACKS_ITEM;
    NameItemsLength(names);
    assert TAIL[0] == UG_ITEM && TAIL[6] == STARTUP_ITEM;
  }

  lemma {:induction false} NameItemsLength(names: seq<string>)
    ensures |NameItems(names)| == |names|
  {
    hide NameItem;
    if names != [] { NameItemsLength(names[1..]); }
  }

  lemma TreeCovers(names: seq<string>)
    ensures RestoresGroup(AllItems(UndoTree(names))) && MovesStartupBackup(AllItems(UndoTree(names)))
    ensures RunsStacksFirst(UndoTree(names))
  {
    hide AllItems, Lower, UndoTree, STARTUP_NOTE;
    var tree, k := UndoTree(names), |names| + 2;
    TailAt(names);
    var copy := Copy(BACKUP_UG, LIVE_UG);
    assert UG_ITEM.thn[0] == copy;
    NestedContains(UG_ITEM, 0, copy, true);
    ItemsContain(tree, k, copy);
    var move := Rename(US_BAK, US);
    assert LIVE_STARTUP_ITEM.els[0] == move;
    NestedContains(LIVE_STARTUP_ITEM, 0, move, false);
    NestedContains(STARTUP_ITEM, 0, move, true);
    ItemsContain(tree, k + 6, move);
    assert STACKS_ITEM.thn[0] == Execute(STACKS);
  }

  // ------------------------------------------------------------- lines

  predicate LineOk(line: string) {
    |line| <= LINE_LIMIT
      && !(IsEcho(SplitWords(line)) && exists i :: 1 <= i < |SplitWords(line)| && EchoWord(SplitWords(line)[i]))
  }

  lemma {:induction false} LinesOk(lines: seq<string>)
    requires forall l :: l in lines ==> LineOk(l)
    ensures LineFindings(lines) == []
  {
    if lines != [] {
      assert LineOk(lines[0]);
      LinesOk(lines[1..]);
    }
  }

  /** The words of a line that passes. */
  predicate TidyWords(indent: nat, ws: seq<string>) {
    && (forall w :: w in ws ==> IsWord(w))
    && indent + Total(ws) <= LINE_LIMIT
    && (IsEcho(ws) ==> forall i :: 1 <= i < |ws| ==> !EchoWord(ws[i]))
  }

  lemma TidyLine(indent: nat, ws: seq<string>)
    requires TidyWords(indent, ws)
    ensures LineOk(Render(indent, ws))
  {
    hide Render, EchoWord;
    SplitRender(indent, ws);
    RenderLength(indent, ws);
  }

  predicate Tidy(b: Block, indent: nat)
    requires Printable(b)
    decreases b, 0
  {
    b == [] || (TidyItem(b[0], indent) && Tidy(b[1..], indent))
  }

  predicate TidyItem(it: Item, indent: nat)
    requires PrintableItem(it)
    decreases it, 1
  {
    match it
    case If(neg, test, thn, els) =>
      TidyWords(indent, TestWords(neg, test)) && Tidy(thn, indent + 2) && Tidy(els, indent + 2)
    case _ => TidyWords(indent, CommandWords(it))
  }

  lemma {:induction false} TidyPrinted(b: Block, indent: nat)
    requires Printable(b) && Tidy(b, indent)
    ensures forall l :: l in PrintBlock(b, indent) ==> LineOk(l)
    decreases b, 0
  {
    hide LineOk, TidyWords;
    if b != [] {
      TidyPrintedItem(b[0], indent);
      TidyPrinted(b[1..], indent);
    }
  }

  lemma KeywordLines(indent: nat)
    requires indent + 6 <= LINE_LIMIT
    ensures LineOk(Render(indent, ["Else"])) && LineOk(Render(indent, ["EndIf"]))
  {
    assert IsWord("Else") && IsWord("EndIf");
    assert Total(["Else"]) == 5 && Total(["EndIf"]) == 6;
    TidyLine(indent, ["Else"]);
    TidyLine(indent, ["EndIf"]);
  }

  lemma TestLong(indent: nat, neg: bool, test: Test)
    requires TidyWords(indent, TestWords(neg, test))
    ensures indent + 6 <= LINE_LIMIT
  {
    var ws := TestWords(neg, test);
    assert ws[0] == "If";
    assert |ws[1]| >= 1;
    assert Total(ws) == 3 + Total(ws[1..]);
    assert Total(ws[1..]) == |ws[1]| + 1 + Total(ws[1..][1..]);
    if neg { assert |ws[1]| == 3; } else if test.Exists? { assert |ws[1]| == 6; } else { assert |ws[1]| == 4; }
  }

  lemma {:induction false} TidyPrintedItem(it: Item, indent: nat)
    requires PrintableItem(it) && TidyItem(it, indent)
    ensures forall l :: l in PrintItem(it, indent) ==> LineOk(l)
    decreases it, 1
  {
    hide LineOk, TidyWords, Render;
    if it.If? {
      TidyLine(indent, TestWords(it.neg, it.test));
      TestLong(indent, it.neg, it.test);
      KeywordLines(indent);
      TidyPrinted(it.thn, indent + 2);
      TidyPrinted(it.els, indent + 2);
    } else {
      TidyLine(indent, CommandWords(it));
    }
  }

  // ------------------------------------- every generated line is tidy

  lemma TotalTwo(a: string, b: string)
    ensures Total([a, b]) == |a| + |b| + 2
  {
    assert [a, b][1..] == [b] && [b][1..] == [];
    assert Total([b]) == |b| + 1 + Total([]);
    assert Total([a, b]) == |a| + 1 + Total([b]);
  }

  lemma TotalCons(w: string, ws: seq<string>)
    ensures Total([w] + ws) == |w| + 1 + Total(ws)
  {
    assert ([w] + ws)[1..] == ws;
  }

  lemma TidyTest(indent: nat, neg: bool, test: Test)
    requires test.Exists? ==> IsWord(test.path) && |test.path| <= 200
    requires indent <= 20
    ensures TidyWords(indent, TestWords(neg, test))
  {
    UpperVerbs();
    var tail := match test case Exists(path) => ["EXISTS", path] case Warn => ["WARN"];
    assert IsWord("If") && IsWord("NOT") && IsWord("EXISTS") && IsWord("WARN");
    if test.Exists? { TotalTwo("EXISTS", test.path); } else { assert Total(["WARN"]) == 5; }
    TotalCons("NOT", tail);
    TotalCons("If", if neg then ["NOT"] + tail else tail);
    assert TestWords(neg, test) == ["If"] + (if neg then ["NOT"] + tail else tail);
  }

  lemma TotalQuiet()
    ensures Total(["QUIET"]) == 6
  {
  }

  /** A command with at most two paths. */
  lemma TidyCommand(it: Item, indent: nat)
    requires PrintableItem(it) && indent <= 20
    requires it.Copy? || it.Rename? ==> |it.src| <= 70 && |it.dst| <= 70
    requires it.Delete? ==> |it.target| <= 70
    requires it.Execute? ==> |it.script| <= 70
    requires !it.If? && !it.Echo? && !it.FailAt?
    ensures TidyItem(it, indent)
  {
    hide Total;
    UpperVerbs();
    PrintedWords(it);
    match it {
      case Copy(src, dst) =>
        TotalCons("Copy", [NIL, src, dst, "CLONE"]);
        TotalCons(NIL, [src, dst, "CLONE"]);
        TotalCons(src, [dst, "CLONE"]);
        TotalTwo(dst, "CLONE");
        assert CommandWords(it) == ["Copy"] + ([NIL] + ([src] + [dst, "CLONE"]));
        assert [NIL, src, dst, "CLONE"] == [NIL] + [src, dst, "CLONE"] && [src, dst, "CLONE"] == [src] + [dst, "CLONE"];
      case Rename(src, dst) =>
        TotalCons("Rename", [NIL, src, dst]);
        TotalCons(NIL, [src, dst]);
        TotalTwo(src, dst);
        assert [NIL, src, dst] == [NIL] + [src, dst];
        assert CommandWords(it) == ["Rename"] + [NIL, src, dst];
      case Delete(target, all) =>
        var flags := if all then ["ALL", "QUIET"] else ["QUIET"];
        TotalTwo("ALL", "QUIET");
        TotalQuiet();
        TotalCons(target, flags);
        TotalCons(NIL, [target] + flags);
        TotalCons("Delete", [NIL] + ([target] + flags));
        assert CommandWords(it) == ["Delete"] + ([NIL] + ([target] + flags));
      case Execute(script) => TotalTwo("Execute", script);
    }
  }

  /** No keyword of Echo among the words. */
  predicate PlainText(ws: seq<string>) {
    forall i :: 0 <= i < |ws| ==> !EchoWord(ws[i])
  }

  lemma TidyEcho(text: seq<string>, indent: nat)
    requires (forall w :: w in text ==> IsWord(w)) && PlainText(text) && indent + Total(text) <= 240
    ensures TidyItem(Echo(text), indent)
  {
    hide EchoWord;
    TotalCons("Echo", text);
    assert IsWord("Echo");
    var ws := CommandWords(Echo(text));
    assert ws == ["Echo"] + text;
    forall i | 1 <= i < |ws| ensures !EchoWord(ws[i]) {
      assert ws[i] == text[i - 1];
    }
  }

  lemma TidyOne(it: Item, indent: nat)
    requires PrintableItem(it) && TidyItem(it, indent)
    ensures Printable([it]) && Tidy([it], indent)
  {
    PrintableOne(it);
    assert [it][1..] == [];
  }

  lemma TidyTwo(a: Item, b: Item, indent: nat)
    requires PrintableItem(a) && PrintableItem(b) && TidyItem(a, indent) && TidyItem(b, indent)
    ensures Printable([a, b]) && Tidy([a, b], indent)
  {
    hide TidyItem;
    PrintableTwo(a, b);
    TidyOne(b, indent);
    assert [a, b][1..] == [b];
  }

  lemma {:induction false} TidyAppend(a: Block, b: Block, indent: nat)
    requires Printable(a) && Printable(b) && Tidy(a, indent) && Tidy(b, indent)
    ensures Printable(a + b) && Tidy(a + b, indent)
    decreases |a|
  {
    hide TidyItem, PrintableItem;
    PrintableAppend(a, b);
    if a == [] {
      assert a + b == b;
    } else {
      assert (a + b)[1..] == a[1..] + b;
      TidyAppend(a[1..], b, indent);
    }
  }

  lemma TidyDrop(path: string, all: bool, indent: nat)
    requires PathWord(path) && |path| <= 70 && indent <= 18
    ensures PrintableItem(Drop(path, all)) && TidyItem(Drop(path, all), indent)
  {
    DropPrintable(path, all);
    TidyTest(indent, false, Exists(path));
    TidyCommand(Delete(path, all), indent + 2);
    TidyOne(Delete(path, all), indent + 2);
  }

  lemma NotEcho(w: string)
    requires |w| != 3 && |w| != 5 && |w| != 6
    ensures !EchoWord(w)
  {
  }

  lemma SmallWords()
    ensures !EchoWord("tolunnet-undo:") && !EchoWord("not") && !EchoWord("restored,") && !EchoWord("the")
    ensures !EchoWord("original") && !EchoWord("stays") && !EchoWord("in")
  {
    NotEcho("tolunnet-undo:"); NotEcho("restored,"); NotEcho("original"); NotEcho("in");
    assert Upper("not") == "NOT" && Upper("the") == "THE" && Upper("stays") == "STAYS";
  }

  lemma RestoreText(live: string, dir: string)
    requires IsWord(live) && IsWord(dir) && 6 < |live| <= 70 && 6 < |dir| <= 70
    ensures var ws := ["tolunnet-undo:", live, "not", "restored,", "the", "original", "stays", "in", dir];
            (forall w :: w in ws ==> IsWord(w)) && PlainText(ws) && Total(ws) <= 220
  {
    hide IsWord, EchoWord;
    var ws := ["tolunnet-undo:", live, "not", "restored,", "the", "original", "stays", "in", dir];
    NotEcho(live); NotEcho(dir);
    SmallWords();
    RestoreWords();
    var tail := ["not", "restored,", "the", "original", "stays", "in", dir];
    assert ws == ["tolunnet-undo:"] + ([live] + tail);
    TotalCons("tolunnet-undo:", [live] + tail);
    TotalCons(live, tail);
    RestoreTail(dir);
  }

  lemma RestoreTail(dir: string)
    ensures Total(["not", "restored,", "the", "original", "stays", "in", dir]) == |dir| + 37
  {
    var a := ["in", dir];
    TotalTwo("in", dir);
    TotalCons("stays", a);
    TotalCons("original", ["stays"] + a);
    TotalCons("the", ["original"] + (["stays"] + a));
    TotalCons("restored,", ["the"] + (["original"] + (["stays"] + a)));
    TotalCons("not", ["restored,"] + (["the"] + (["original"] + (["stays"] + a))));
    assert ["not", "restored,", "the", "original", "stays", "in", dir]
           == ["not"] + (["restored,"] + (["the"] + (["original"] + (["stays"] + a))));
  }

  lemma TidyRestore(backup: string, live: string, dir: string, indent: nat)
    requires PathWord(backup) && PathWord(live) && IsWord(dir)
    requires |backup| <= 70 && 6 < |live| <= 70 && 6 < |dir| <= 70 && indent <= 16
    ensures Printable(RestoreFile(backup, live, dir)) && Tidy(RestoreFile(backup, live, dir), indent)
  {
    hide TidyWords, PathWord, IsWord, PlainText;
    RestorePrintable(backup, live, dir);
    var b := RestoreFile(backup, live, dir);
    TidyCommand(b[0], indent);
    TidyTest(indent, false, Warn);
    PathIsWord(live);
    RestoreText(live, dir);
    TidyEcho(b[1].thn[0].text, indent + 2);
    TidyOne(b[1].thn[0], indent + 2);
    TidyCommand(b[1].els[0], indent + 2);
    TidyOne(b[1].els[0], indent + 2);
    TidyTwo(b[0], b[1], indent);
  }

  lemma TidyName(n: string)
    requires ValidName(n)
    ensures PrintableItem(NameItem(n)) && TidyItem(NameItem(n), 0)
  {
    hide TidyWords, PathWord, IsWord;
    PathsPrintable(n);
    NameLengths(n);
    NamePrintable(n);
    PathIsWord(BackupPath(n)); PathIsWord(NewPath(n));
    TidyTest(0, false, Exists(BackupPath(n)));
    TidyRestore(BackupPath(n), LivePath(n), BK + "/C", 2);
    TidyTest(2, false, Exists(NewPath(n)));
    TidyDrop(LivePath(n), false, 4);
    TidyOne(Drop(LivePath(n)), 4);
    TidyOne(When(NewPath(n), [Drop(LivePath(n))]), 2);
  }

  lemma NameLengths(n: string)
    requires ValidName(n)
    ensures |BackupPath(n)| <= 70 && 6 < |LivePath(n)| <= 70 && |NewPath(n)| <= 70 && 6 < |BK + "/C"| <= 70
  {
  }

  lemma {:induction false} TidyNames(names: seq<string>)
    requires forall i :: 0 <= i < |names| ==> ValidName(names[i])
    ensures Printable(NameItems(names)) && Tidy(NameItems(names), 0)
  {
    hide TidyItem, PrintableItem, NameItem;
    if names != [] {
      TidyName(names[0]);
      TidyNames(names[1..]);
      TidyOne(NameItem(names[0]), 0);
      TidyAppend([NameItem(names[0])], NameItems(names[1..]), 0);
    }
  }

  lemma UgLengths()
    ensures |BACKUP_UG| <= 70 && 6 < |LIVE_UG| <= 70 && 6 < |BK + "/Libs"| <= 70
  {
  }

  lemma UgWords()
    ensures PathWord(BACKUP_UG) && PathWord(LIVE_UG) && IsWord(BK + "/Libs") && IsWord(BACKUP_UG)
  {
    hide PathWord, IsWord;
    UgPathWords();
    PathIsWord(BACKUP_UG);
  }

  lemma TidyUg()
    ensures PrintableItem(UG_ITEM) && TidyItem(UG_ITEM, 0)
  {
    hide TidyWords, PathWord, IsWord, BACKUP_UG, LIVE_UG;
    UgPrintable(); UgLengths(); UgWords();
    TidyTest(0, false, Exists(BACKUP_UG));
    TidyRestore(BACKUP_UG, LIVE_UG, BK + "/Libs", 2);
  }

  lemma TidyOwn()
    ensures Printable(OWN_FILES) && Tidy(OWN_FILES, 0)
  {
    hide TidyWords, PathWord, IsWord, TidyItem, PrintableItem;
    var a, b, c, d, e := "SYS:Prefs/TolunnetPrefs", "SYS:Prefs/TolunnetPrefs.info",
      "SYS:Prefs/TolunnetSetup", "SYS:Prefs/TolunnetSetup.info", "DEVS:tolunnet.config";
    OwnPaths();
    TidyDrop(a, false, 0); TidyDrop(b, false, 0); TidyDrop(c, false, 0); TidyDrop(d, false, 0); TidyDrop(e, false, 0);
    TidyTwo(Drop(a), Drop(b), 0);
    TidyTwo(Drop(c), Drop(d), 0);
    TidyOne(Drop(e), 0);
    TidyAppend([Drop(a), Drop(b)], [Drop(c), Drop(d)], 0);
    TidyAppend([Drop(a), Drop(b)] + [Drop(c), Drop(d)], [Drop(e)], 0);
    assert OWN_FILES == [Drop(a), Drop(b)] + [Drop(c), Drop(d)] + [Drop(e)];
  }

  lemma {:induction false} TotalAppend(a: seq<string>, b: seq<string>)
    ensures Total(a + b) == Total(a) + Total(b)
  {
    if a == [] {
      assert a + b == b;
    } else {
      assert (a + b)[1..] == a[1..] + b;
      TotalAppend(a[1..], b);
    }
  }

  lemma NoteTotals()
    ensures Total(STARTUP_NOTE) <= 200
  {
    hide Total, US, US_OLD, STARTUP_NOTE_1, STARTUP_NOTE_2, STARTUP_NOTE_3;
    NoteTotal1(); NoteTotal2(); NoteTotal3();
    TotalAppend(STARTUP_NOTE_1, STARTUP_NOTE_2);
    TotalAppend(STARTUP_NOTE_1 + STARTUP_NOTE_2, STARTUP_NOTE_3);
  }

  lemma NoteTotal1()
    ensures Total(STARTUP_NOTE_1) <= 65
  {
    var tail := ["left", "as", "it", "is.", "Its", "tolunnet"];
    assert Total(tail) == 28;
    TotalCons(US, tail);
    TotalCons("tolunnet-undo:", [US] + tail);
    assert STARTUP_NOTE_1 == ["tolunnet-undo:"] + ([US] + tail);
  }

  lemma NoteTotal2()
    ensures Total(STARTUP_NOTE_2) <= 50
  {
    var a, b := ["block", "does", "nothing", "without"], ["C:tolunnet", "and", "can", "be"];
    assert Total(a) == 27 && Total(b) == 22;
    TotalAppend(a, b);
    assert STARTUP_NOTE_2 == a + b;
  }

  lemma NoteTotal3()
    ensures Total(STARTUP_NOTE_3) <= 80
  {
    var a, b := ["removed", "by", "hand.", "The"], ["pre-install", "copy", "is"];
    var front := a + b;
    assert Total(a) == 21 && Total(b) == 20;
    TotalAppend(a, b);
    TotalAppend(front, [US_OLD]);
    TotalCons(US_OLD, []);
    assert [US_OLD] + [] == [US_OLD];
    assert STARTUP_NOTE_3 == front + [US_OLD];
  }

  lemma NotePlain()
    ensures PlainText(STARTUP_NOTE)
  {
    hide EchoWord, US, US_OLD;
    NotePlain1(); NotePlain2(); NotePlain3();
  }

  lemma NotePlain1()
    ensures PlainText(STARTUP_NOTE_1)
  {
    NotEcho("tolunnet-undo:"); NotEcho(US); NotEcho("left"); NotEcho("as"); NotEcho("it"); NotEcho("tolunnet");
    assert Upper("is.") == "IS." && Upper("Its") == "ITS";
  }

  lemma NotePlain2()
    ensures PlainText(STARTUP_NOTE_2)
  {
    NotEcho("does"); NotEcho("nothing"); NotEcho("without"); NotEcho("C:tolunnet"); NotEcho("be");
    assert Upper("block") == "BLOCK" && Upper("and") == "AND" && Upper("can") == "CAN";
  }

  lemma NotePlain3()
    ensures PlainText(STARTUP_NOTE_3)
  {
    NotEcho("removed"); NotEcho("by"); NotEcho("pre-install"); NotEcho("copy"); NotEcho("is"); NotEcho(US_OLD);
    assert Upper("hand.") == "HAND." && Upper("The") == "THE";
  }

  lemma TidyStartup()
    ensures PrintableItem(STARTUP_ITEM) && TidyItem(STARTUP_ITEM, 0)
  {
    hide TidyWords, PathWord, IsWord, US, US_OLD, US_BAK, STARTUP_NOTE, PlainText;
    StartupPrintable(); StartupPaths(); StartupLengths();
    PathIsWord(US); PathIsWord(US_BAK);
    NoteTotals(); NotePlain(); StartupWords();
    TidyTest(0, false, Exists(US_BAK));
    TidyTest(2, false, Exists(US));
    TidyEcho(STARTUP_NOTE, 4);
    TidyOne(Echo(STARTUP_NOTE), 4);
    TidyDrop(US_OLD, false, 4);
    TidyCommand(Rename(US_BAK, US_OLD), 4);
    TidyTwo(Drop(US_OLD), Rename(US_BAK, US_OLD), 4);
    TidyAppend([Echo(STARTUP_NOTE)], [Drop(US_OLD), Rename(US_BAK, US_OLD)], 4);
    assert LIVE_STARTUP_ITEM.thn == [Echo(STARTUP_NOTE)] + [Drop(US_OLD), Rename(US_BAK, US_OLD)];
    TidyCommand(Rename(US_BAK, US), 4);
    TidyOne(Rename(US_BAK, US), 4);
    TidyOne(LIVE_STARTUP_ITEM, 2);
  }

  lemma StartupWords()
    ensures forall w :: w in STARTUP_NOTE ==> IsWord(w)
  {
    hide IsWord, US, US_OLD;
    StartupNoteWords();
  }

  lemma StartupLengths()
    ensures |US| <= 70 && |US_BAK| <= 70 && |US_OLD| <= 70
  {
  }

  lemma LibLengths()
    ensures 6 < |LIB| <= 70 && 6 < |PARKED| <= 70 && 6 < |NEWER| <= 70
  {
  }

  lemma TidyLib()
    ensures PrintableItem(LIB_ITEM) && TidyItem(LIB_ITEM, 0)
  {
    hide TidyWords, PathWord, IsWord, LIB, PARKED, NEWER;
    LibPrintable(); LibPaths(); LibLengths();
    PathIsWord(LIB); PathIsWord(PARKED); PathIsWord(NEWER);
    TidyTest(0, true, Exists(LIB));
    TidyTest(2, false, Exists(NEWER));
    TidyCommand(Rename(NEWER, LIB), 4);
    TidyOne(Rename(NEWER, LIB), 4);
    TidyTest(4, false, Exists(PARKED));
    TidyCommand(Rename(PARKED, LIB), 6);
    TidyOne(Rename(PARKED, LIB), 6);
    TidyOne(When(PARKED, [Rename(PARKED, LIB)]), 4);
    TidyOne(PARKED_ITEM, 2);
  }

  lemma KeptText(path: string)
    requires IsWord(path) && 6 < |path| <= 70
    ensures var ws := ["tolunnet-undo:", "a", "stack", "library", "is", "kept", "as", path];
            (forall w :: w in ws ==> IsWord(w)) && PlainText(ws) && Total(ws) <= 150
  {
    hide IsWord, EchoWord;
    var front := ["tolunnet-undo:", "a", "stack", "library", "is", "kept", "as"];
    KeptFront();
    NotEcho(path);
    var ws := front + [path];
    TotalAppend(front, [path]);
    TotalCons(path, []);
    assert [path] + [] == [path];
    assert ["tolunnet-undo:", "a", "stack", "library", "is", "kept", "as", path] == ws;
  }

  lemma KeptFront()
    ensures var ws := ["tolunnet-undo:", "a", "stack", "library", "is", "kept", "as"];
            (forall w :: w in ws ==> IsWord(w)) && PlainText(ws) && Total(ws) <= 60
  {
    NotEcho("tolunnet-undo:"); NotEcho("a"); NotEcho("library"); NotEcho("is"); NotEcho("kept"); NotEcho("as");
    assert Upper("stack") == "STACK";
  }

  lemma TidyNote(path: string)
    requires IsWord(path) && 6 < |path| <= 70
    ensures PrintableItem(KeptNote(path)) && TidyItem(KeptNote(path), 0)
  {
    hide TidyWords, IsWord, PlainText;
    NotePrintable(path);
    KeptText(path);
    var text := ["tolunnet-undo:", "a", "stack", "library", "is", "kept", "as", path];
    TidyTest(0, false, Exists(path));
    TidyEcho(text, 2);
    TidyOne(Echo(text), 2);
  }

  lemma TidyNotes()
    ensures Printable(LIB_NOTES) && Tidy(LIB_NOTES, 0)
  {
    hide TidyItem, PrintableItem, KeptNote, PathWord, IsWord, PARKED, NEWER;
    LibPaths(); LibLengths();
    PathIsWord(PARKED); PathIsWord(NEWER);
    TidyNote(PARKED); TidyNote(NEWER);
    TidyTwo(KeptNote(PARKED), KeptNote(NEWER), 0);
  }

  lemma DirPaths()
    ensures PathWord(BK + "/new") && PathWord(BK + "/ours") && PathWord(BK + "/C") && PathWord(BK + "/Libs")
    ensures PathWord(BK)
    ensures |BK + "/new"| <= 70 && |BK + "/ours"| <= 70 && |BK + "/C"| <= 70 && |BK + "/Libs"| <= 70 && |BK| <= 70
  {
    hide PathWord;
    DirPath("/new"); DirPath("/ours"); DirPath("/C"); DirPath("/Libs"); DirPath("");
    assert BK + "" == BK;
  }

  lemma DirPath(sub: string)
    requires |sub| <= 5 && (sub == [] || sub[0] == '/') && forall i :: 1 <= i < |sub| ==> 'A' <= sub[i] <= 'z'
    ensures PathWord(BK + sub) && |BK + sub| <= 70
  {
    PathS(BK + sub);
  }

  lemma LeftText()
    ensures (forall w :: w in LEFT_NOTE ==> IsWord(w)) && PlainText(LEFT_NOTE) && Total(LEFT_NOTE) <= 150
  {
    hide BK, IsWord, EchoWord;
    LeftHead();
    var tail := ["still", "holds", "files", "that", "were", "not", "restored"];
    LeftTail();
    BkWord();
    NotEcho(BK); NotEcho("tolunnet-undo:");
    TotalCons(BK, tail);
    TotalCons("tolunnet-undo:", [BK] + tail);
    assert LEFT_NOTE == ["tolunnet-undo:"] + ([BK] + tail);
  }

  lemma LeftHead()
    ensures IsWord("tolunnet-undo:") && |"tolunnet-undo:"| == 14
  {
  }

  lemma BkWord()
    ensures IsWord(BK) && |BK| == 27
  {
  }

  lemma LeftTail()
    ensures var ws := ["still", "holds", "files", "that", "were", "not", "restored"];
            (forall w :: w in ws ==> IsWord(w)) && PlainText(ws) && Total(ws) <= 60
  {
    LeftTailWords();
    LeftTailPlain();
  }

  lemma LeftTailWords()
    ensures var ws := ["still", "holds", "files", "that", "were", "not", "restored"];
            (forall w :: w in ws ==> IsWord(w)) && Total(ws) <= 60
  {
  }

  lemma LeftTailPlain()
    ensures PlainText(["still", "holds", "files", "that", "were", "not", "restored"])
  {
    NotEcho("that"); NotEcho("were"); NotEcho("restored");
    assert Upper("still") == "STILL" && Upper("holds") == "HOLDS" && Upper("files") == "FILES" && Upper("not") == "NOT";
  }

  lemma TidyDirs()
    ensures Printable(MARKER_ITEMS) && Tidy(MARKER_ITEMS, 0) && Printable(DIR_ITEMS) && Tidy(DIR_ITEMS, 0)
  {
    hide TidyItem, PrintableItem, PathWord, IsWord, BK, LEFT_NOTE;
    DirPaths();
    TidyDrop(BK + "/new", true, 0);
    TidyDrop(BK + "/ours", true, 0);
    TidyTwo(Drop(BK + "/new", true), Drop(BK + "/ours", true), 0);
    var a, b, c, d := Drop(BK + "/C"), Drop(BK + "/Libs"), Drop(BK), When(BK, [Echo(LEFT_NOTE)]);
    TidyDrop(BK + "/C", false, 0);
    TidyDrop(BK + "/Libs", false, 0);
    TidyDrop(BK, false, 0);
    TidyLeft();
    TidyTwo(a, b, 0);
    TidyTwo(c, d, 0);
    TidyAppend([a, b], [c, d], 0);
    assert DIR_ITEMS == [a, b] + [c, d];
  }

  lemma TidyLeft()
    ensures PrintableItem(When(BK, [Echo(LEFT_NOTE)])) && TidyItem(When(BK, [Echo(LEFT_NOTE)]), 0)
  {
    hide TidyWords, IsWord, PlainText, BK, LEFT_NOTE;
    LeftNotePrintable(); LeftText(); BkWord();
    TidyTest(0, false, Exists(BK));
    TidyEcho(LEFT_NOTE, 2);
    TidyOne(Echo(LEFT_NOTE), 2);
  }

  lemma TidyStacks()
    ensures PrintableItem(STACKS_ITEM) && TidyItem(STACKS_ITEM, 0) && TidyItem(FailAt(21), 0)
  {
    StacksPrintable();
    PathS(STACKS);
    TidyTest(0, false, Exists(STACKS));
    TidyCommand(Execute(STACKS), 2);
    TidyDrop(STACKS, false, 2);
    TidyTwo(Execute(STACKS), Drop(STACKS), 2);
    TidyFailAt();
  }

  lemma TidyFailAt()
    ensures TidyItem(FailAt(21), 0)
  {
    UpperVerbs();
    DecimalIsWord(21);
    assert IsWord("FailAt");
    assert |Decimal(21)| == 2;
    TotalTwo("FailAt", Decimal(21));
  }

  lemma TidyTail()
    ensures Printable(TAIL) && Tidy(TAIL, 0)
  {
    hide TidyItem, PrintableItem, UG_ITEM, OWN_FILES, STARTUP_ITEM, LIB_ITEM, LIB_NOTES, MARKER_ITEMS, DIR_ITEMS;
    TidyUg(); TidyOwn(); TidyStartup(); TidyLib(); TidyNotes(); TidyDirs();
    TidyOne(UG_ITEM, 0);
    TidyTwo(STARTUP_ITEM, LIB_ITEM, 0);
    TidyAppend([UG_ITEM], OWN_FILES, 0);
    TidyAppend([UG_ITEM] + OWN_FILES, [STARTUP_ITEM, LIB_ITEM], 0);
    TidyAppend([UG_ITEM] + OWN_FILES + [STARTUP_ITEM, LIB_ITEM], LIB_NOTES, 0);
    TidyAppend([UG_ITEM] + OWN_FILES + [STARTUP_ITEM, LIB_ITEM] + LIB_NOTES, MARKER_ITEMS, 0);
    TidyAppend([UG_ITEM] + OWN_FILES + [STARTUP_ITEM, LIB_ITEM] + LIB_NOTES + MARKER_ITEMS, DIR_ITEMS, 0);
  }

  lemma TidyComment(ws: seq<string>)
    requires (forall w :: w in ws ==> IsWord(w)) && ws != [] && IsWord(ws[0]) && ws[0][0] == ';' && Total(ws) <= 200
    ensures LineOk(Render(0, ws))
  {
    assert Upper(ws[0])[0] == ';';
    TidyLine(0, ws);
  }

  lemma TitleWords1()
    ensures var ws := [";", "tolunnet-undo", "-", "remove", "tolunnet"];
            (forall w :: w in ws ==> IsWord(w)) && Total(ws) == 34
  {
  }

  lemma TitleWords2()
    ensures var ws := ["and", "restore", "the", "previous", "stack"];
            (forall w :: w in ws ==> IsWord(w)) && Total(ws) == 31
  {
  }

  lemma TitleOk()
    ensures LineOk(TITLE)
  {
    hide Render, LineOk, IsWord, Total;
    var a, b := [";", "tolunnet-undo", "-", "remove", "tolunnet"], ["and", "restore", "the", "previous", "stack"];
    TitleWords1(); TitleWords2();
    TotalAppend(a, b);
    assert TITLE_WORDS == a + b;
    TidyComment(TITLE_WORDS);
  }

  lemma MarkersOk()
    ensures LineOk(BEGIN) && LineOk(END)
  {
    hide Render, LineOk;
    TotalTwo(";BEGIN", "GENERATED-UNDO");
    TotalTwo(";END", "GENERATED-UNDO");
    assert forall w :: w in BEGIN_WORDS ==> IsWord(w);
    assert forall w :: w in END_WORDS ==> IsWord(w);
    TidyComment(BEGIN_WORDS);
    TidyComment(END_WORDS);
  }

  lemma WizardWords1()
    ensures var ws := [";", "the", "setup", "wizard", "keeps", "its"];
            (forall w :: w in ws ==> IsWord(w)) && Total(ws) == 29
  {
  }

  lemma WizardWords2()
    ensures var ws := ["own", "restore", "script", "-", "it", "runs", "first"];
            (forall w :: w in ws ==> IsWord(w)) && Total(ws) == 35
  {
  }

  lemma WizardOk()
    ensures LineOk(WIZARD_NOTE)
  {
    hide Render, LineOk, IsWord, Total;
    var a, b := [";", "the", "setup", "wizard", "keeps", "its"],
        ["own", "restore", "script", "-", "it", "runs", "first"];
    WizardWords1(); WizardWords2();
    TotalAppend(a, b);
    assert WIZARD_WORDS == a + b;
    TidyComment(WIZARD_WORDS);
  }

  lemma FilesWords1()
    ensures var ws := [";", "restore", "what", "we", "replaced,"];
            (forall w :: w in ws ==> IsWord(w)) && Total(ws) == 28
  {
  }

  lemma FilesWords2()
    ensures var ws := ["delete", "only", "what", "we", "created"];
            (forall w :: w in ws ==> IsWord(w)) && Total(ws) == 28
  {
  }

  lemma FilesOk()
    ensures LineOk(FILES_NOTE)
  {
    hide Render, LineOk, IsWord, Total;
    var a, b := [";", "restore", "what", "we", "replaced,"], ["delete", "only", "what", "we", "created"];
    FilesWords1(); FilesWords2();
    TotalAppend(a, b);
    assert FILES_WORDS == a + b;
    TidyComment(FILES_WORDS);
  }

  lemma LastLinesOk()
    ensures LineOk(Render(0, SELF_DELETE_WORDS)) && LineOk("")
  {
    UpperVerbs();
    SelfDeleteWords();
    var tail := ["QUIET"];
    assert Total(tail) == 6;
    TotalCons(UNDO, tail);
    TotalCons("Delete", [UNDO] + tail);
    TotalCons(NIL, ["Delete"] + ([UNDO] + tail));
    TotalCons("Run", [NIL] + (["Delete"] + ([UNDO] + tail)));
    assert SELF_DELETE_WORDS == ["Run"] + ([NIL] + (["Delete"] + ([UNDO] + tail)));
    TidyLine(0, SELF_DELETE_WORDS);
  }

  lemma UndoLinesOk(names: seq<string>)
    requires ValidNames(names)
    ensures forall l :: l in UndoLines(names) + [""] ==> LineOk(l)
  {
    hide LineOk, Render, PrintBlock, PrintItem, TITLE, BEGIN, WIZARD_NOTE, FILES_NOTE, END, TidyItem, Tidy, NameItems,
         TAIL, STACKS_ITEM;
    TitleOk(); MarkersOk(); WizardOk(); FilesOk(); LastLinesOk();
    TidyStacks(); TidyNames(names); TidyTail();
    TidyPrintedItem(FailAt(21), 0);
    TidyPrintedItem(STACKS_ITEM, 0);
    TidyPrinted(NameItems(names), 0);
    TidyPrinted(TAIL, 0);
  }

  /** The generator satisfies its own checker: for every valid list of names
      the lint has no finding on the generated undo script. */
  lemma GeneratorPassesLint(names: seq<string>)
    requires ValidNames(names)
    ensures UndoStructure(UndoLines(names) + [""], names) == []
  {
    hide LineOk, UndoLines, UndoTree, Parse, AllItems, Restores, RestoresGroup, MovesStartupBackup, RunsStacksFirst,
         Walk, Coverage;
    UndoParses(names);
    UndoLinesOk(names);
    LinesOk(UndoLines(names) + [""]);
    TreeWalkClean(names);
    TreeCovers(names);
    TailAt(names);
    forall i | 0 <= i < |names| ensures Restores(AllItems(UndoTree(names)), names[i]) { TreeRestores(names, i); }
    CoverageEmpty(AllItems(UndoTree(names)), names);
  }
}
