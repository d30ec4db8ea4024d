/** The generated undo script: its block, its lines, and the proof that the
    lines parse to the block. */
module Undo {
  import opened Seqs
  import opened Text
  import opened Files
  import opened Dos
  import opened Printer

  const BK := "SYS:Storage/tolunnet-backup"
  const UG := "usergroup.library"
  const LIB := "LIBS:bsdsocket.library"
  const UNDO := "S:tolunnet-undo"
  const STACKS := "S:tolunnet-undo-stacks"
  const US := "S:User-Startup"
  const PARKED := LIB + ".pre-tolunnet"
  const NEWER := LIB + ".pre-tn-newer"

  /** A command name the generator is given: one path component within the
      file system's name limit. */
  predicate ValidName(n: string) {
    0 < |n| <= NAME_LIMIT && forall i :: 0 <= i < |n| ==> SolidChar(n[i]) && n[i] != ':'
  }

  predicate ValidNames(names: seq<string>) {
    && (forall i :: 0 <= i < |names| ==> ValidName(names[i]))
    && (forall i, j :: 0 <= i < j < |names| ==> Lower(names[i]) != Lower(names[j]))
  }

  function LivePath(n: string): string { "SYS:C/" + n }
  function BackupPath(n: string): string { BK + "/C/" + n }
  function NewPath(n: string): string { BK + "/new/" + n }
  const LIVE_UG := "SYS:Libs/usergroup.library"
  const BACKUP_UG := BK + "/Libs/usergroup.library"

  function When(path: string, thn: Block, els: Block := []): Item {
    If(false, Exists(path), thn, els)
  }

  function Drop(path: string, all: bool := false): Item {
    When(path, [Delete(path, all)])
  }

  /** Copy a backup over its live file; keep the backup unless the Copy
      reported no error. */
  function RestoreFile(backup: string, live: string, dir: string): Block {
    [Copy(backup, live),
     If(false, Warn,
        [Echo(["tolunnet-undo:", live, "not", "restored,", "the", "original", "stays", "in", dir])],
        [Delete(backup, false)])]
  }

  function NameItem(n: string): Item {
    When(BackupPath(n), RestoreFile(BackupPath(n), LivePath(n), BK + "/C"), [When(NewPath(n), [Drop(LivePath(n))])])
  }

  function NameItems(names: seq<string>): Block {
    if names == [] then [] else [NameItem(names[0])] + NameItems(names[1..])
  }

  const STACKS_ITEM := When(STACKS, [Execute(STACKS), Drop(STACKS)])

  const UG_ITEM := When(BACKUP_UG, RestoreFile(BACKUP_UG, LIVE_UG, BK + "/Libs"))

  const OWN_FILES: Block :=
    [Drop("SYS:Prefs/TolunnetPrefs"), Drop("SYS:Prefs/TolunnetPrefs.info"),
     Drop("SYS:Prefs/TolunnetSetup"), Drop("SYS:Prefs/TolunnetSetup.info"),
     Drop("DEVS:tolunnet.config")]

  const US_BAK := US + ".tolunnet-bak"
  const US_OLD := US + ".tolunnet-old"

  const STARTUP_NOTE_1 := ["tolunnet-undo:", US, "left", "as", "it", "is.", "Its", "tolunnet"]
  const STARTUP_NOTE_2 := ["block", "does", "nothing", "without", "C:tolunnet", "and", "can", "be"]
  const STARTUP_NOTE_3 := ["removed", "by", "hand.", "The", "pre-install", "copy", "is", US_OLD]
  const STARTUP_NOTE := STARTUP_NOTE_1 + STARTUP_NOTE_2 + STARTUP_NOTE_3

  const LIVE_STARTUP_ITEM :=
    When(US, [Echo(STARTUP_NOTE), Drop(US_OLD), Rename(US_BAK, US_OLD)], [Rename(US_BAK, US)])

  const STARTUP_ITEM := When(US_BAK, [LIVE_STARTUP_ITEM])

  function KeptNote(path: string): Item {
    When(path, [Echo(["tolunnet-undo:", "a", "stack", "library", "is", "kept", "as", path])])
  }

  const PARKED_ITEM := When(NEWER, [Rename(NEWER, LIB)], [When(PARKED, [Rename(PARKED, LIB)])])

  const LIB_ITEM := If(true, Exists(LIB), [PARKED_ITEM], [])

  const LIB_NOTES: Block := [KeptNote(PARKED), KeptNote(NEWER)]

  const LEFT_NOTE := ["tolunnet-undo:", BK, "still", "holds", "files", "that", "were", "not", "restored"]

  const MARKER_ITEMS: Block := [Drop(BK + "/new", true), Drop(BK + "/ours", true)]

  const DIR_ITEMS: Block := [Drop(BK + "/C"), Drop(BK + "/Libs"), Drop(BK), When(BK, [Echo(LEFT_NOTE)])]

  /** Everything after the command files. */
  const TAIL: Block := [UG_ITEM] + OWN_FILES + [STARTUP_ITEM, LIB_ITEM] + LIB_NOTES + MARKER_ITEMS + DIR_ITEMS

  const SELF_DELETE := Delete(UNDO, false)

  function UndoTree(names: seq<string>): Block {
    [FailAt(21), STACKS_ITEM] + NameItems(names) + TAIL + [SELF_DELETE]
  }

  // -------------------------------------------------------- printability

  lemma WordConcat(a: string, b: string)
    requires IsWord(a) && forall i :: 0 <= i < |b| ==> !IsSpace(b[i])
    ensures IsWord(a + b)
  {
  }

  lemma PathS(p: string)
    requires IsWord(p) && (p[0] == 'S' || p[0] == 'L' || p[0] == 'D')
    ensures PathWord(p)
  {
    assert Upper(p)[0] != NIL[0];
  }

  lemma LiteralWords()
    ensures IsWord(BK) && PathWord(BK)
    ensures IsWord("SYS:C/") && IsWord(LIB) && IsWord(US)
  {
    PathS(BK);
  }

  lemma PathsPrintable(n: string)
    requires ValidName(n)
    ensures PathWord(LivePath(n)) && PathWord(BackupPath(n)) && PathWord(NewPath(n)) && IsWord(BK + "/C")
  {
    LiteralWords();
    WordConcat("SYS:C/", n);
    WordConcat(BK, "/C");
    WordConcat(BK, "/C/");
    WordConcat(BK + "/C/", n);
    WordConcat(BK, "/new/");
    WordConcat(BK + "/new/", n);
    PathS(LivePath(n));
    PathS(BackupPath(n));
    PathS(NewPath(n));
  }

  lemma {:induction false} PrintableAppend(a: Block, b: Block)
    requires Printable(a) && Printable(b)
    ensures Printable(a + b)
    decreases |a|
  {
    if a == [] {
      assert a + b == b;
    } else {
      assert (a + b)[1..] == a[1..] + b;
      PrintableAppend(a[1..], b);
    }
  }

  lemma PrintableOne(it: Item)
    requires PrintableItem(it)
    ensures Printable([it])
  {
    assert [it][1..] == [];
  }

  lemma PrintableTwo(a: Item, b: Item)
    requires PrintableItem(a) && PrintableItem(b)
    ensures Printable([a, b])
  {
    PrintableOne(b);
    assert [a, b][1..] == [b];
  }

  lemma DropPrintable(path: string, all: bool)
    requires PathWord(path)
    ensures PrintableItem(Drop(path, all))
  {
    PrintableOne(Delete(path, all));
  }

  lemma PathIsWord(p: string)
    requires PathWord(p)
    ensures IsWord(p)
  {
  }

  lemma RestoreWords()
    ensures IsWord("tolunnet-undo:") && IsWord("not") && IsWord("restored,") && IsWord("the")
    ensures IsWord("original") && IsWord("stays") && IsWord("in")
  {
  }

  lemma KeptWords()
    ensures IsWord("tolunnet-undo:") && IsWord("a") && IsWord("stack") && IsWord("library")
    ensures IsWord("is") && IsWord("kept") && IsWord("as")
  {
  }

  lemma RestorePrintable(backup: string, live: string, dir: string)
    requires PathWord(backup) && PathWord(live) && IsWord(dir)
    ensures Printable(RestoreFile(backup, live, dir))
  {
    hide PathWord, IsWord;
    RestoreWords();
    PathIsWord(live);
    var note := Echo(["tolunnet-undo:", live, "not", "restored,", "the", "original", "stays", "in", dir]);
    PrintableOne(note);
    PrintableOne(Delete(backup, false));
    PrintableTwo(Copy(backup, live), If(false, Warn, [note], [Delete(backup, false)]));
  }

  lemma NamePrintable(n: string)
    requires ValidName(n)
    ensures PrintableItem(NameItem(n))
  {
    PathsPrintable(n);
    RestorePrintable(BackupPath(n), LivePath(n), BK + "/C");
    DropPrintable(LivePath(n), false);
    PrintableOne(Drop(LivePath(n)));
    PrintableOne(When(NewPath(n), [Drop(LivePath(n))]));
  }

  lemma {:induction false} NamesPrintable(names: seq<string>)
    requires forall i :: 0 <= i < |names| ==> ValidName(names[i])
    ensures Printable(NameItems(names))
  {
    if names != [] {
      NamePrintable(names[0]);
      NamesPrintable(names[1..]);
      PrintableOne(NameItem(names[0]));
      PrintableAppend([NameItem(names[0])], NameItems(names[1..]));
    }
  }

  lemma UgPathWords()
    ensures PathWord(BACKUP_UG) && PathWord(LIVE_UG) && IsWord(BK + "/Libs")
  {
    PathS(BACKUP_UG);
    PathS(LIVE_UG);
  }

  lemma UgPrintable()
    ensures PrintableItem(UG_ITEM)
  {
    UgPathWords();
    hide PathWord, IsWord, RestoreFile, BACKUP_UG, LIVE_UG;
    RestorePrintable(BACKUP_UG, LIVE_UG, BK + "/Libs");
    PathIsWord(BACKUP_UG);
  }

  lemma OwnPaths()
    ensures PathWord("SYS:Prefs/TolunnetPrefs") && PathWord("SYS:Prefs/TolunnetPrefs.info")
    ensures PathWord("SYS:Prefs/TolunnetSetup") && PathWord("SYS:Prefs/TolunnetSetup.info")
    ensures PathWord("DEVS:tolunnet.config")
  {
    PathS("SYS:Prefs/TolunnetPrefs"); PathS("SYS:Prefs/TolunnetPrefs.info"); PathS("SYS:Prefs/TolunnetSetup");
    PathS("SYS:Prefs/TolunnetSetup.info"); PathS("DEVS:tolunnet.config");
  }

  lemma OwnPrintable()
    ensures Printable(OWN_FILES)
  {
    var a, b, c, d, e := "SYS:Prefs/TolunnetPrefs", "SYS:Prefs/TolunnetPrefs.info",
      "SYS:Prefs/TolunnetSetup", "SYS:Prefs/TolunnetSetup.info", "DEVS:tolunnet.config";
    OwnPaths();
    hide PathWord, PrintableItem;
    DropPrintable(a, false); DropPrintable(b, false); DropPrintable(c, false);
    DropPrintable(d, false); DropPrintable(e, false);
    PrintableTwo(Drop(a), Drop(b));
    PrintableTwo(Drop(c), Drop(d));
    PrintableOne(Drop(e));
    PrintableAppend([Drop(a), Drop(b)], [Drop(c), Drop(d)]);
    PrintableAppend([Drop(a), Drop(b)] + [Drop(c), Drop(d)], [Drop(e)]);
    assert OWN_FILES == [Drop(a), Drop(b)] + [Drop(c), Drop(d)] + [Drop(e)];
  }

  lemma StartupPaths()
    ensures PathWord(US) && PathWord(US_BAK) && PathWord(US_OLD)
  {
    PathS(US); PathS(US_BAK); PathS(US_OLD);
  }

  lemma StartupNoteWords()
    ensures forall w :: w in STARTUP_NOTE_1 ==> IsWord(w)
    ensures forall w :: w in STARTUP_NOTE_2 ==> IsWord(w)
    ensures forall w :: w in STARTUP_NOTE_3 ==> IsWord(w)
  {
    NoteWords1(); NoteWords2(); NoteWords3();
  }

  lemma NoteWords1()
    ensures forall w :: w in STARTUP_NOTE_1 ==> IsWord(w)
  {
    assert IsWord(US);
  }

  lemma NoteWords2()
    ensures forall w :: w in STARTUP_NOTE_2 ==> IsWord(w)
  {
  }

  lemma NoteWords3()
    ensures forall w :: w in STARTUP_NOTE_3 ==> IsWord(w)
  {
    assert IsWord(US_OLD);
  }

  lemma StartupPrintable()
    ensures PrintableItem(STARTUP_ITEM)
  {
    StartupPaths();
    StartupNoteWords();
    assert forall w :: w in STARTUP_NOTE ==> IsWord(w);
    DropPrintable(US_OLD, false);
    PrintableOne(Echo(STARTUP_NOTE));
    PrintableTwo(Drop(US_OLD), Rename(US_BAK, US_OLD));
    PrintableAppend([Echo(STARTUP_NOTE)], [Drop(US_OLD), Rename(US_BAK, US_OLD)]);
    assert LIVE_STARTUP_ITEM.thn == [Echo(STARTUP_NOTE)] + [Drop(US_OLD), Rename(US_BAK, US_OLD)];
    PrintableOne(Rename(US_BAK, US));
    PrintableOne(LIVE_STARTUP_ITEM);
  }

  lemma LibPaths()
    ensures PathWord(LIB) && PathWord(PARKED) && PathWord(NEWER)
  {
    PathS(LIB); PathS(PARKED); PathS(NEWER);
  }

  lemma LibPrintable()
    ensures PrintableItem(LIB_ITEM)
  {
    LibPaths();
    PrintableOne(Rename(NEWER, LIB));
    PrintableOne(Rename(PARKED, LIB));
    PrintableOne(When(PARKED, [Rename(PARKED, LIB)]));
    PrintableOne(PARKED_ITEM);
  }

  lemma NotePrintable(path: string)
    requires IsWord(path)
    ensures PrintableItem(KeptNote(path))
  {
    hide IsWord;
    KeptWords();
    PrintableOne(Echo(["tolunnet-undo:", "a", "stack", "library", "is", "kept", "as", path]));
  }

  lemma NotesPrintable()
    ensures Printable(LIB_NOTES)
  {
    LibPaths();
    NotePrintable(PARKED);
    NotePrintable(NEWER);
    PrintableTwo(KeptNote(PARKED), KeptNote(NEWER));
  }

  lemma MarkersPrintable()
    ensures Printable(MARKER_ITEMS)
  {
    PathS(BK + "/new"); PathS(BK + "/ours");
    DropPrintable(BK + "/new", true);
    DropPrintable(BK + "/ours", true);
    PrintableTwo(Drop(BK + "/new", true), Drop(BK + "/ours", true));
  }

  lemma LeftNotePrintable()
    ensures PrintableItem(When(BK, [Echo(LEFT_NOTE)]))
  {
    LiteralWords();
    assert forall w :: w in LEFT_NOTE ==> IsWord(w);
    PrintableOne(Echo(LEFT_NOTE));
  }

  lemma DirsPrintable()
    ensures Printable(DIR_ITEMS)
  {
    LiteralWords();
    LeftNotePrintable();
    PathS(BK + "/C"); PathS(BK + "/Libs");
    var a, b, c, d := Drop(BK + "/C"), Drop(BK + "/Libs"), Drop(BK), When(BK, [Echo(LEFT_NOTE)]);
    DropPrintable(BK + "/C", false);
    DropPrintable(BK + "/Libs", false);
    DropPrintable(BK, false);
    PrintableTwo(a, b);
    PrintableTwo(c, d);
    PrintableAppend([a, b], [c, d]);
    assert DIR_ITEMS == [a, b] + [c, d];
  }

  lemma TailPrintable()
    ensures Printable(TAIL)
  {
    UgPrintable(); OwnPrintable(); StartupPrintable(); LibPrintable(); NotesPrintable();
    MarkersPrintable(); DirsPrintable();
    PrintableOne(UG_ITEM);
    PrintableTwo(STARTUP_ITEM, LIB_ITEM);
    PrintableAppend([UG_ITEM], OWN_FILES);
    PrintableAppend([UG_ITEM] + OWN_FILES, [STARTUP_ITEM, LIB_ITEM]);
    PrintableAppend([UG_ITEM] + OWN_FILES + [STARTUP_ITEM, LIB_ITEM], LIB_NOTES);
    PrintableAppend([UG_ITEM] + OWN_FILES + [STARTUP_ITEM, LIB_ITEM] + LIB_NOTES, MARKER_ITEMS);
    PrintableAppend([UG_ITEM] + OWN_FILES + [STARTUP_ITEM, LIB_ITEM] + LIB_NOTES + MARKER_ITEMS, DIR_ITEMS);
  }

  lemma StacksPrintable()
    ensures PrintableItem(STACKS_ITEM)
  {
    PathS(STACKS);
    DropPrintable(STACKS, false);
    PrintableTwo(Execute(STACKS), Drop(STACKS));
  }

  // -------------------------------------------------------------- lines

  const TITLE_WORDS := [";", "tolunnet-undo", "-", "remove", "tolunnet", "and", "restore", "the", "previous", "stack"]
  const BEGIN_WORDS := [";BEGIN", "GENERATED-UNDO"]
  const WIZARD_WORDS := [";", "the", "setup", "wizard", "keeps", "its", "own", "restore", "script", "-", "it", "runs",
      "first"]
  const FILES_WORDS := [";", "restore", "what", "we", "replaced,", "delete", "only", "what", "we", "created"]
  const END_WORDS := [";END", "GENERATED-UNDO"]
  const TITLE := Render(0, TITLE_WORDS)
  const BEGIN := Render(0, BEGIN_WORDS)
  const WIZARD_NOTE := Render(0, WIZARD_WORDS)
  const FILES_NOTE := Render(0, FILES_WORDS)
  const END := Render(0, END_WORDS)
  const SELF_DELETE_WORDS := ["Run", NIL, "Delete", UNDO, "QUIET"]

  function HeadLines(): seq<string>
  {
    StacksPrintable();
    [TITLE, BEGIN] + PrintItem(FailAt(21), 0) + [WIZARD_NOTE] + PrintItem(STACKS_ITEM, 0) + [FILES_NOTE]
  }

  function TailLines(): seq<string>
  {
    TailPrintable();
    PrintBlock(TAIL, 0) + [END, Render(0, SELF_DELETE_WORDS)]
  }

  /** The script S:tolunnet-undo, line by line. */
  function UndoLines(names: seq<string>): seq<string>
    requires ValidNames(names)
  {
    NamesPrintable(names);
    HeadLines() + PrintBlock(NameItems(names), 0) + TailLines()
  }

  /** The generator's loop over the names. */
  method GenerateUndoLines(names: seq<string>) returns (out: seq<string>)
    requires ValidNames(names)
    ensures out == UndoLines(names)
  {
    hide HeadLines, TailLines, PrintItem;
    NamesPrintable(names);
    out := HeadLines();
    var i := 0;
    assert names[i..] == names;
    while i < |names|
      invariant 0 <= i <= |names|
      invariant Printable(NameItems(names[i..]))
      invariant out + PrintBlock(NameItems(names[i..]), 0) == HeadLines() + PrintBlock(NameItems(names), 0)
    {
      NamePrintable(names[i]);
      assert names[i..][0] == names[i] && names[i..][1..] == names[i + 1..];
      assert NameItems(names[i..])[1..] == NameItems(names[i + 1..]);
      out := out + PrintItem(NameItem(names[i]), 0);
      i := i + 1;
    }
    assert names[i..] == [];
    out := out + TailLines();
  }

  lemma ParseSelfDelete(cur: Block)
    ensures ParseFrom([Render(0, SELF_DELETE_WORDS), ""], cur, []) == Some(cur + [SELF_DELETE])
  {
    UpperVerbs(); UpperFlags();
    PathS(UNDO);
    var ws := SELF_DELETE_WORDS;
    assert IsWord(NIL) && IsWord(UNDO);
    assert forall w :: w in ws ==> IsWord(w);
    assert ws[1..] == [NIL, "Delete", UNDO, "QUIET"];
    assert AfterRun(ws[1..]) == ["Delete", UNDO, "QUIET"];
    var inner := ["Delete", UNDO, "QUIET"];
    assert inner[1..] == [UNDO] + ["QUIET"];
    ArgsWord(UNDO, ["QUIET"]);
    ArgsWord("QUIET", []);
    assert ["QUIET"] == ["QUIET"] + [];
    assert Args(inner[1..])[1..] == ["QUIET"];
    assert Tokenize(inner) == Command(SELF_DELETE);
    ParseLine(0, ws, [""], cur, []);
    assert [Render(0, ws)] + [""] == [Render(0, ws), ""];
    assert [""][1..] == [];
    assert ParseFrom([], cur + [SELF_DELETE], []) == Some(cur + [SELF_DELETE]);
  }

  lemma ParseTail(cur: Block)
    ensures ParseFrom(TailLines() + [""], cur, []) == Some(cur + TAIL + [SELF_DELETE])
  {
    TailPrintable();
    var last := [Render(0, SELF_DELETE_WORDS), ""];
    MarkerLines();
    hide END, Render;
    assert TailLines() + [""] == PrintBlock(TAIL, 0) + ([END] + last);
    ParsePrinted(TAIL, 0, [END] + last, cur, []);
    ParseComment(END, last, cur + TAIL, []);
    ParseSelfDelete(cur + TAIL);
  }

  lemma CommentLine(ws: seq<string>)
    requires ws != [] && (forall w :: w in ws ==> IsWord(w)) && IsWord(ws[0]) && ws[0][0] == ';'
    ensures Render(0, ws) != [] && Render(0, ws)[0] == ';' && OneLine(Render(0, ws))
  {
    RenderedOneLine(0, ws);
    assert |Join(ws)| >= |ws[0]|;
    assert Join(ws)[0] == ws[0][0];
    assert Render(0, ws) == Join(ws);
  }

  lemma TitleLine()
    ensures TITLE != [] && TITLE[0] == ';' && OneLine(TITLE)
  {
    hide Render, OneLine;
    assert forall w :: w in TITLE_WORDS ==> IsWord(w);
    CommentLine(TITLE_WORDS);
  }

  lemma MarkerLines()
    ensures BEGIN != [] && BEGIN[0] == ';' && OneLine(BEGIN)
    ensures END != [] && END[0] == ';' && OneLine(END)
  {
    hide Render, OneLine;
    assert forall w :: w in BEGIN_WORDS ==> IsWord(w);
    assert forall w :: w in END_WORDS ==> IsWord(w);
    CommentLine(BEGIN_WORDS);
    CommentLine(END_WORDS);
  }

  lemma WizardLine()
    ensures WIZARD_NOTE != [] && WIZARD_NOTE[0] == ';' && OneLine(WIZARD_NOTE)
  {
    hide Render, OneLine;
    assert forall w :: w in WIZARD_WORDS ==> IsWord(w);
    CommentLine(WIZARD_WORDS);
  }

  lemma FilesLine()
    ensures FILES_NOTE != [] && FILES_NOTE[0] == ';' && OneLine(FILES_NOTE)
  {
    hide Render, OneLine;
    assert forall w :: w in FILES_WORDS ==> IsWord(w);
    CommentLine(FILES_WORDS);
  }

  lemma ParseHead(rest: seq<string>)
    ensures ParseFrom(HeadLines() + rest, [], []) == ParseFrom(rest, [FailAt(21), STACKS_ITEM], [])
  {
    StacksPrintable();
    hide TITLE, BEGIN, WIZARD_NOTE, FILES_NOTE, Render;
    TitleLine(); MarkerLines(); WizardLine(); FilesLine();
    var r3 := [FILES_NOTE] + rest;
    var r2 := PrintItem(STACKS_ITEM, 0) + r3;
    var r1 := [WIZARD_NOTE] + r2;
    var r0 := PrintItem(FailAt(21), 0) + r1;
    assert HeadLines() + rest == [TITLE] + ([BEGIN] + r0);
    ParseComment(TITLE, [BEGIN] + r0, [], []);
    ParseComment(BEGIN, r0, [], []);
    ParsePrintedItem(FailAt(21), 0, r1, [], []);
    assert [] + [FailAt(21)] == [FailAt(21)];
    ParseComment(WIZARD_NOTE, r2, [FailAt(21)], []);
    ParsePrintedItem(STACKS_ITEM, 0, r3, [FailAt(21)], []);
    assert [FailAt(21)] + [STACKS_ITEM] == [FailAt(21), STACKS_ITEM];
    ParseComment(FILES_NOTE, rest, [FailAt(21), STACKS_ITEM], []);
  }

  /** For every list of names the generated script, as the installer writes
      it, is well nested and parses to exactly the intended block. */
  lemma UndoParses(names: seq<string>)
    requires ValidNames(names)
    ensures Parse(UndoLines(names) + [""]) == Some(UndoTree(names))
  {
    hide HeadLines, TailLines, PrintBlock, TAIL, STACKS_ITEM, ParseFrom;
    NamesPrintable(names);
    var rest := TailLines() + [""];
    assert UndoLines(names) + [""] == HeadLines() + (PrintBlock(NameItems(names), 0) + rest);
    ParseHead(PrintBlock(NameItems(names), 0) + rest);
    ParsePrinted(NameItems(names), 0, rest, [FailAt(21), STACKS_ITEM], []);
    ParseTail([FailAt(21), STACKS_ITEM] + NameItems(names));
  }

  lemma SelfDeleteWords()
    ensures forall w :: w in SELF_DELETE_WORDS ==> IsWord(w)
  {
    assert IsWord(NIL) && IsWord(UNDO);
  }

  /** No generated line holds a line break. */
  lemma UndoOneLine(names: seq<string>)
    requires ValidNames(names)
    ensures forall l :: l in UndoLines(names) ==> OneLine(l)
  {
    hide OneLine, Render, PrintBlock, PrintItem, TITLE, BEGIN, WIZARD_NOTE, FILES_NOTE, END;
    TitleLine(); MarkerLines(); WizardLine(); FilesLine();
    StacksPrintable(); NamesPrintable(names); TailPrintable();
    PrintedItemOneLine(FailAt(21), 0);
    PrintedItemOneLine(STACKS_ITEM, 0);
    PrintedOneLine(NameItems(names), 0);
    PrintedOneLine(TAIL, 0);
    SelfDeleteWords();
    RenderedOneLine(0, SELF_DELETE_WORDS);
  }
}
