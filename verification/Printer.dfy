/** Writing a block back as script lines, and the proof that the parser
    recovers exactly that block. */
module Printer {
  import opened Seqs
  import opened Text
  import opened Dos

  function CommandWords(it: Item): seq<string>
    requires !it.If?
    requires it.FailAt? ==> it.level >= 0
  {
    match it
    case FailAt(level) => ["FailAt", Decimal(level)]
    case Echo(text) => ["Echo"] + text
    case Copy(src, dst) => ["Copy", NIL, src, dst, "CLONE"]
    case Delete(target, all) => ["Delete", NIL, target] + (if all then ["ALL", "QUIET"] else ["QUIET"])
    case Rename(src, dst) => ["Rename", NIL, src, dst]
    case Execute(script) => ["Execute", script]
  }

  function TestWords(neg: bool, test: Test): seq<string> {
    ["If"] + (if neg then ["NOT"] else []) +
    match test
    case Exists(path) => ["EXISTS", path]
    case Warn => ["WARN"]
  }

  /** The lines of a block: two columns per nesting level, an Else only for a
      non-empty else part. */
  function PrintBlock(b: Block, indent: nat): seq<string>
    requires Printable(b)
    decreases b, 0
  {
    if b == [] then [] else PrintItem(b[0], indent) + PrintBlock(b[1..], indent)
  }

  function PrintItem(it: Item, indent: nat): seq<string>
    requires PrintableItem(it)
    decreases it, 1
  {
    match it
    case If(neg, test, thn, els) =>
      [Render(indent, TestWords(neg, test))]
      + PrintBlock(thn, indent + 2)
      + ElseLines(els, indent)
      + [Render(indent, ["EndIf"])]
    case _ => [Render(indent, CommandWords(it))]
  }

  function ElseLines(els: Block, indent: nat): seq<string>
    requires Printable(els)
    decreases els, 1
  {
    if els == [] then [] else [Render(indent, ["Else"])] + PrintBlock(els, indent + 2)
  }

  /** A path argument the tokeniser takes as one word and not as a redirection. */
  predicate PathWord(p: string) {
    IsWord(p) && Upper(p) != NIL
  }

  predicate Printable(b: Block)
    decreases b, 0
  {
    b == [] || (PrintableItem(b[0]) && Printable(b[1..]))
  }

  predicate PrintableItem(it: Item)
    decreases it, 1
  {
    match it
    case If(neg, test, thn, els) =>
      (test.Exists? ==> IsWord(test.path)) && Printable(thn) && Printable(els)
    case FailAt(level) => level >= 0
    case Echo(text) => forall w :: w in text ==> IsWord(w)
    case Copy(src, dst) => PathWord(src) && PathWord(dst)
    case Delete(target, _) => PathWord(target)
    case Rename(src, dst) => PathWord(src) && PathWord(dst)
    case Execute(script) => PathWord(script)
  }

  // ------------------------------------------------- tokenising one line

  lemma UpperVerbs()
    ensures Upper("If") == "IF" && Upper("Else") == "ELSE" && Upper("EndIf") == "ENDIF"
    ensures Upper("FailAt") == "FAILAT" && Upper("Echo") == "ECHO" && Upper("Copy") == "COPY"
    ensures Upper("Delete") == "DELETE" && Upper("Rename") == "RENAME" && Upper("Execute") == "EXECUTE"
    ensures Upper("Run") == "RUN"
  {
  }

  lemma UpperFlags()
    ensures Upper(NIL) == NIL && Upper("NOT") == "NOT" && Upper("EXISTS") == "EXISTS" && Upper("WARN") == "WARN"
    ensures Upper("ALL") == "ALL" && Upper("QUIET") == "QUIET" && Upper("CLONE") == "CLONE"
  {
  }

  lemma ArgsNil(ws: seq<string>)
    ensures Args([NIL] + ws) == Args(ws)
  {
    UpperFlags();
    assert ([NIL] + ws)[1..] == ws;
  }

  lemma ArgsWord(w: string, ws: seq<string>)
    requires Upper(w) != NIL
    ensures Args([w] + ws) == [w] + Args(ws)
  {
    assert ([w] + ws)[1..] == ws;
  }

  lemma TokenizeCopy(src: string, dst: string)
    requires PathWord(src) && PathWord(dst)
    ensures Tokenize(CommandWords(Copy(src, dst))) == Command(Copy(src, dst))
  {
    UpperVerbs(); UpperFlags();
    var ws := CommandWords(Copy(src, dst));
    ArgsNil([src, dst, "CLONE"]);
    ArgsWord(src, [dst, "CLONE"]);
    ArgsWord(dst, ["CLONE"]);
    assert ws[1..] == [NIL] + [src, dst, "CLONE"];
    assert [src, dst, "CLONE"] == [src] + [dst, "CLONE"];
    assert [dst, "CLONE"] == [dst] + ["CLONE"];
  }

  lemma TokenizeRename(src: string, dst: string)
    requires PathWord(src) && PathWord(dst)
    ensures Tokenize(CommandWords(Rename(src, dst))) == Command(Rename(src, dst))
  {
    UpperVerbs(); UpperFlags();
    var ws := CommandWords(Rename(src, dst));
    ArgsNil([src, dst]);
    ArgsWord(src, [dst]);
    ArgsWord(dst, []);
    assert ws[1..] == [NIL] + [src, dst];
    assert [src, dst] == [src] + [dst];
    assert [dst] == [dst] + [];
  }

  lemma DeleteArgs(target: string, all: bool)
    requires PathWord(target)
    ensures Args(CommandWords(Delete(target, all))[1..]) ==
            [target] + (if all then ["ALL", "QUIET"] else ["QUIET"])
  {
    UpperFlags();
    var flags := if all then ["ALL", "QUIET"] else ["QUIET"];
    ArgsNil([target] + flags);
    ArgsWord(target, flags);
    ArgsWord("QUIET", []);
    assert ["QUIET"] == ["QUIET"] + [];
    ArgsWord("ALL", ["QUIET"]);
    assert ["ALL", "QUIET"] == ["ALL"] + ["QUIET"];
    assert CommandWords(Delete(target, all))[1..] == [NIL] + ([target] + flags);
  }

  lemma TokenizeDelete(target: string, all: bool)
    requires PathWord(target)
    ensures Tokenize(CommandWords(Delete(target, all))) == Command(Delete(target, all))
  {
    UpperVerbs(); UpperFlags();
    DeleteArgs(target, all);
    var flags := if all then ["ALL", "QUIET"] else ["QUIET"];
    assert ([target] + flags)[1..] == flags;
    assert HasFlag(flags, "ALL") == all by {
      if all { assert Upper(flags[0]) == "ALL"; }
    }
  }

  lemma TokenizeOther(it: Item)
    requires PrintableItem(it)
    requires it.FailAt? || it.Echo? || it.Execute?
    ensures Tokenize(CommandWords(it)) == Command(it)
  {
    UpperVerbs(); UpperFlags();
    match it {
      case FailAt(level) => ParseDecimal(level);
      case Echo(text) => assert (["Echo"] + text)[1..] == text;
      case Execute(script) =>
        ArgsWord(script, []);
        assert ["Execute", script][1..] == [script] + [];
    }
  }

  lemma TokenizeTest(neg: bool, test: Test)
    ensures Tokenize(TestWords(neg, test)) == OpenIf(neg, test)
  {
    UpperVerbs(); UpperFlags();
    var tail := match test case Exists(path) => ["EXISTS", path] case Warn => ["WARN"];
    assert TestWords(neg, test)[1..] == (if neg then ["NOT"] else []) + tail;
    assert (["NOT"] + tail)[1..] == tail;
    assert [] + tail == tail;
  }

  lemma TokenizePrinted(it: Item)
    requires PrintableItem(it) && !it.If?
    ensures Tokenize(CommandWords(it)) == Command(it)
  {
    match it {
      case Copy(src, dst) => TokenizeCopy(src, dst);
      case Rename(src, dst) => TokenizeRename(src, dst);
      case Delete(target, all) => TokenizeDelete(target, all);
      case _ => TokenizeOther(it);
    }
  }

  lemma {:induction false} DecimalIsWord(n: nat)
    ensures IsWord(Decimal(n))
  {
  }

  lemma PrintedWords(it: Item)
    requires PrintableItem(it) && !it.If?
    ensures forall w :: w in CommandWords(it) ==> IsWord(w)
  {
    if it.FailAt? { DecimalIsWord(it.level); }
  }

  // ---------------------------------------------------------- round trip

  /** One printed line followed by more lines, seen by the parser. */
  lemma ParseLine(indent: nat, ws: seq<string>, rest: seq<string>, cur: Block, stack: seq<Open>)
    requires forall w :: w in ws ==> IsWord(w)
    ensures SplitWords(Render(indent, ws)) == ws
    ensures ([Render(indent, ws)] + rest)[1..] == rest
    ensures Tokenize(ws).Command? ==>
              ParseFrom([Render(indent, ws)] + rest, cur, stack) == ParseFrom(rest, cur + [Tokenize(ws).item], stack)
    ensures Tokenize(ws).OpenIf? ==>
              ParseFrom([Render(indent, ws)] + rest, cur, stack)
              == ParseFrom(rest, [], stack + [Open(cur, Tokenize(ws).neg, Tokenize(ws).test, [], false)])
  {
    SplitRender(indent, ws);
  }

  lemma ParseElse(indent: nat, rest: seq<string>, cur: Block, stack: seq<Open>, top: Open)
    requires !top.inElse
    ensures ParseFrom([Render(indent, ["Else"])] + rest, cur, stack + [top])
            == ParseFrom(rest, [], stack + [top.(thn := cur, inElse := true)])
  {
    SplitRender(indent, ["Else"]);
    UpperVerbs();
    assert ([Render(indent, ["Else"])] + rest)[1..] == rest;
    assert (stack + [top])[..|stack|] == stack;
  }

  lemma ParseEndIf(indent: nat, rest: seq<string>, cur: Block, stack: seq<Open>, top: Open)
    ensures ParseFrom([Render(indent, ["EndIf"])] + rest, cur, stack + [top])
            == ParseFrom(rest, Close(top, cur), stack)
  {
    SplitRender(indent, ["EndIf"]);
    UpperVerbs();
    assert ([Render(indent, ["EndIf"])] + rest)[1..] == rest;
    assert (stack + [top])[..|stack|] == stack;
  }

  /** The parser reads a printed block as that block, whatever surrounds it. */
  lemma {:induction false} ParsePrinted(b: Block, indent: nat, rest: seq<string>, cur: Block, stack: seq<Open>)
    requires Printable(b)
    ensures ParseFrom(PrintBlock(b, indent) + rest, cur, stack) == ParseFrom(rest, cur + b, stack)
    decreases b, 0
  {
    if b == [] {
      assert PrintBlock(b, indent) + rest == rest;
      assert cur + b == cur;
    } else {
      var tail := PrintBlock(b[1..], indent) + rest;
      assert PrintBlock(b, indent) + rest == PrintItem(b[0], indent) + tail;
      ParsePrintedItem(b[0], indent, tail, cur, stack);
      ParsePrinted(b[1..], indent, rest, cur + [b[0]], stack);
      assert cur + b == cur + [b[0]] + b[1..];
    }
  }

  lemma Assoc<T>(a: seq<T>, b: seq<T>, c: seq<T>, d: seq<T>, e: seq<T>)
    ensures a + b + c + d + e == a + (b + (c + (d + e)))
  {
  }

  lemma {:induction false} ParseElsePart(els: Block, indent: nat, rest: seq<string>, thn: Block, stack: seq<Open>,
                                         top: Open)
    requires Printable(els)
    requires !top.inElse
    ensures ParseFrom(ElseLines(els, indent) + ([Render(indent, ["EndIf"])] + rest), thn, stack + [top])
            == ParseFrom(rest, top.before + [If(top.neg, top.test, thn, els)], stack)
    decreases els, 1
  {
    hide ParseFrom, Render, Printable;
    var end := [Render(indent, ["EndIf"])];
    if els == [] {
      assert ElseLines(els, indent) + (end + rest) == end + rest;
      ParseEndIf(indent, rest, thn, stack, top);
    } else {
      var top' := top.(thn := thn, inElse := true);
      var body := PrintBlock(els, indent + 2);
      assert ElseLines(els, indent) + (end + rest) == [Render(indent, ["Else"])] + (body + (end + rest));
      ParseElse(indent, body + (end + rest), thn, stack, top);
      ParsePrinted(els, indent + 2, end + rest, [], stack + [top']);
      assert [] + els == els;
      ParseEndIf(indent, rest, els, stack, top');
    }
  }

  lemma {:induction false} ParsePrintedIf(it: Item, indent: nat, rest: seq<string>, cur: Block, stack: seq<Open>)
    requires PrintableItem(it) && it.If?
    ensures ParseFrom(PrintItem(it, indent) + rest, cur, stack) == ParseFrom(rest, cur + [it], stack)
    decreases it, 0
  {
    hide ParseFrom, Render, Tokenize, ElseLines, Printable, PrintBlock;
    var ws := TestWords(it.neg, it.test);
    var thn := PrintBlock(it.thn, indent + 2);
    var more := ElseLines(it.els, indent) + ([Render(indent, ["EndIf"])] + rest);
    var top := Open(cur, it.neg, it.test, [], false);
    calc {
      ParseFrom(PrintItem(it, indent) + rest, cur, stack);
      { Assoc([Render(indent, ws)], thn, ElseLines(it.els, indent), [Render(indent, ["EndIf"])], rest); }
      ParseFrom([Render(indent, ws)] + (thn + more), cur, stack);
      { TokenizeTest(it.neg, it.test); ParseLine(indent, ws, thn + more, cur, stack); }
      ParseFrom(thn + more, [], stack + [top]);
      { ParsePrinted(it.thn, indent + 2, more, [], stack + [top]); }
      ParseFrom(more, [] + it.thn, stack + [top]);
      { assert [] + it.thn == it.thn; }
      ParseFrom(more, it.thn, stack + [top]);
      { ParseElsePart(it.els, indent, rest, it.thn, stack, top); }
      ParseFrom(rest, cur + [it], stack);
    }
  }

  lemma {:induction false} ParsePrintedItem(it: Item, indent: nat, rest: seq<string>, cur: Block, stack: seq<Open>)
    requires PrintableItem(it)
    ensures ParseFrom(PrintItem(it, indent) + rest, cur, stack) == ParseFrom(rest, cur + [it], stack)
    decreases it, 1
  {
    if it.If? {
      ParsePrintedIf(it, indent, rest, cur, stack);
    } else {
      TokenizePrinted(it);
      PrintedWords(it);
      ParseLine(indent, CommandWords(it), rest, cur, stack);
    }
  }

  lemma ParseComment(line: string, rest: seq<string>, cur: Block, stack: seq<Open>)
    requires line != [] && line[0] == ';'
    ensures ParseFrom([line] + rest, cur, stack) == ParseFrom(rest, cur, stack)
  {
    assert SplitWords(line)[0] == line[..WordEnd(line)];
    assert ([line] + rest)[1..] == rest;
  }

  /** Round trip: every printable block is what the parser makes of its lines. */
  lemma PrintParse(b: Block, indent: nat)
    requires Printable(b)
    ensures Parse(PrintBlock(b, indent)) == Some(b)
  {
    ParsePrinted(b, indent, [], [], []);
    assert PrintBlock(b, indent) + [] == PrintBlock(b, indent);
    assert [] + b == b;
  }

  // ------------------------------------------------------ shape of lines

  lemma {:induction false} JoinedOneLine(ws: seq<string>)
    requires forall w :: w in ws ==> IsWord(w)
    ensures OneLine(Join(ws))
  {
    if ws != [] {
      assert IsWord(ws[0]);
      JoinedOneLine(ws[1..]);
    }
  }

  lemma RenderedOneLine(indent: nat, ws: seq<string>)
    requires forall w :: w in ws ==> IsWord(w)
    ensures OneLine(Render(indent, ws))
  {
    SpacesLength(indent);
    JoinedOneLine(ws);
  }

  /** A printed block holds no line break inside a line. */
  lemma {:induction false} PrintedOneLine(b: Block, indent: nat)
    requires Printable(b)
    ensures forall l :: l in PrintBlock(b, indent) ==> OneLine(l)
    decreases b, 0
  {
    if b != [] {
      PrintedItemOneLine(b[0], indent);
      PrintedOneLine(b[1..], indent);
    }
  }

  lemma {:induction false} PrintedItemOneLine(it: Item, indent: nat)
    requires PrintableItem(it)
    ensures forall l :: l in PrintItem(it, indent) ==> OneLine(l)
    decreases it, 1
  {
    hide OneLine, Render;
    if it.If? {
      RenderedOneLine(indent, TestWords(it.neg, it.test));
      RenderedOneLine(indent, ["Else"]);
      RenderedOneLine(indent, ["EndIf"]);
      PrintedOneLine(it.thn, indent + 2);
      PrintedOneLine(it.els, indent + 2);
    } else {
      PrintedWords(it);
      RenderedOneLine(indent, CommandWords(it));
    }
  }
}
