/** The grammar of AmigaDOS scripts, and the proof that the stack parser accepts
    exactly its sentences and builds their blocks. */
module DosGrammar {
  import opened Seqs
  import opened Text
  import opened Dos

  function TokenOf(line: string): Token { Tokenize(SplitWords(line)) }

  /** The lines spell the block `b`: commands, and Ifs that are closed. Only in
      an Else part (`inElse`) may there be further Elses, which mean nothing. */
  ghost predicate Spells(lines: seq<string>, b: Block, inElse: bool)
    decreases |lines|
  {
    if lines == [] then b == []
    else match TokenOf(lines[0])
      case Blank => Spells(lines[1..], b, inElse)
      case Else => inElse && Spells(lines[1..], b, inElse)
      case Command(it) => b != [] && b[0] == it && Spells(lines[1..], b[1..], inElse)
      case OpenIf(neg, test) =>
        b != [] && exists k :: 0 < k < |lines| && SpellsIf(lines[1..k], neg, test, b[0])
                               && TokenOf(lines[k]) == EndIf && Spells(lines[k + 1..], b[1..], inElse)
      case _ => false
  }

  /** The lines between If and EndIf spell its Then part and, after an Else, its
      Else part. */
  ghost predicate SpellsIf(lines: seq<string>, neg: bool, test: Test, it: Item)
    decreases |lines| + 1
  {
    it.If? && it.neg == neg && it.test == test
    && (|| (it.els == [] && Spells(lines, it.thn, false))
        || (exists j :: 0 <= j < |lines| && Spells(lines[..j], it.thn, false) && TokenOf(lines[j]) == Else
                        && Spells(lines[j + 1..], it.els, true)))
  }

  /** The parser takes one line. */
  function Next(line: string, more: seq<string>, cur: Block, stack: seq<Open>): Option<Block> {
    match TokenOf(line)
    case Blank => ParseFrom(more, cur, stack)
    case Bad => None
    case OpenIf(neg, test) => ParseFrom(more, [], stack + [Open(cur, neg, test, [], false)])
    case Else =>
      if stack == [] then None
      else
        var top := stack[|stack| - 1];
        if top.inElse then ParseFrom(more, cur, stack)
        else ParseFrom(more, [], stack[..|stack| - 1] + [top.(thn := cur, inElse := true)])
    case EndIf =>
      if stack == [] then None
      else ParseFrom(more, Close(stack[|stack| - 1], cur), stack[..|stack| - 1])
    case Command(item) => ParseFrom(more, cur + [item], stack)
  }

  lemma Step(lines: seq<string>, cur: Block, stack: seq<Open>)
    requires lines != []
    ensures ParseFrom(lines, cur, stack) == Next(lines[0], lines[1..], cur, stack)
  {
    hide Tokenize, SplitWords;
  }

  // ------------------------------------------------------------ completeness

  lemma {:induction false} SpelledParses(
      lines: seq<string>, b: Block, inElse: bool, rest: seq<string>, cur: Block, stack: seq<Open>)
    requires Spells(lines, b, inElse) && (inElse ==> stack != [] && stack[|stack| - 1].inElse)
    ensures ParseFrom(lines + rest, cur, stack) == ParseFrom(rest, cur + b, stack)
    decreases |lines|
  {
    hide TokenOf, ParseFrom, SpellsIf;
    if lines == [] {
      assert lines + rest == rest && cur + b == cur;
    } else {
      var more := lines[1..];
      assert (lines + rest)[1..] == more + rest;
      Step(lines + rest, cur, stack);
      match TokenOf(lines[0]) {
        case Command(it) =>
          SpelledParses(more, b[1..], inElse, rest, cur + [it], stack);
          assert cur + [it] + b[1..] == cur + b;
        case OpenIf(neg, test) =>
          var k :| 0 < k < |lines| && SpellsIf(lines[1..k], neg, test, b[0])
                   && TokenOf(lines[k]) == EndIf && Spells(lines[k + 1..], b[1..], inElse);
          FirstIfParses(lines, k, b[0], rest, cur, stack);
          SpelledParses(lines[k + 1..], b[1..], inElse, rest, cur + [b[0]], stack);
          assert cur + [b[0]] + b[1..] == cur + b;
        case Blank => SpelledParses(more, b, inElse, rest, cur, stack);
        case Else => SpelledParses(more, b, inElse, rest, cur, stack);
        case _ =>
      }
    }
  }

  lemma {:induction false} FirstIfParses(
      lines: seq<string>, k: nat, it: Item, rest: seq<string>, cur: Block, stack: seq<Open>)
    requires 0 < k < |lines| && TokenOf(lines[0]).OpenIf? && TokenOf(lines[k]) == EndIf
    requires SpellsIf(lines[1..k], TokenOf(lines[0]).neg, TokenOf(lines[0]).test, it)
    ensures ParseFrom(lines + rest, cur, stack) == ParseFrom(lines[k + 1..] + rest, cur + [it], stack)
    decreases |lines|, 0
  {
    hide TokenOf, ParseFrom, SpellsIf;
    var all, after := lines + rest, lines[k + 1..] + rest;
    Step(all, cur, stack);
    assert all[0] == lines[0] && all[1..] == lines[1..k] + ([lines[k]] + after);
    IfParses(lines[1..k], TokenOf(lines[0]).neg, TokenOf(lines[0]).test, it, lines[k], after, cur, stack);
  }

  lemma {:induction false} IfParses(
      lines: seq<string>, neg: bool, test: Test, it: Item, end: string, after: seq<string>,
      cur: Block, stack: seq<Open>)
    requires SpellsIf(lines, neg, test, it) && TokenOf(end) == EndIf
    ensures ParseFrom(lines + ([end] + after), [], stack + [Open(cur, neg, test, [], false)])
            == ParseFrom(after, cur + [it], stack)
    decreases |lines| + 1
  {
    hide TokenOf, ParseFrom, Spells;
    var open := Open(cur, neg, test, [], false);
    var rest := [end] + after;
    assert rest[1..] == after && (stack + [open])[..|stack|] == stack;
    if it.els == [] && Spells(lines, it.thn, false) {
      SpelledParses(lines, it.thn, false, rest, [], stack + [open]);
      assert [] + it.thn == it.thn;
      Step(rest, it.thn, stack + [open]);
    } else {
      var j :| 0 <= j < |lines| && Spells(lines[..j], it.thn, false) && TokenOf(lines[j]) == Else
               && Spells(lines[j + 1..], it.els, true);
      var turned := open.(thn := it.thn, inElse := true);
      var second := [lines[j]] + (lines[j + 1..] + rest);
      assert lines + rest == lines[..j] + second && second[1..] == lines[j + 1..] + rest;
      SpelledParses(lines[..j], it.thn, false, second, [], stack + [open]);
      assert [] + it.thn == it.thn && [] + it.els == it.els;
      Step(second, it.thn, stack + [open]);
      SpelledParses(lines[j + 1..], it.els, true, rest, [], stack + [turned]);
      assert (stack + [turned])[..|stack|] == stack;
      Step(rest, it.els, stack + [turned]);
    }
  }

  /** A sentence is what the parser accepts, with its block. */
  lemma SentenceParses(lines: seq<string>, b: Block)
    requires Spells(lines, b, false)
    ensures Parse(lines) == Some(b)
  {
    SpelledParses(lines, b, false, [], [], []);
    assert lines + [] == lines && [] + b == b;
  }

  // --------------------------------------------------------------- soundness

  lemma {:induction false} SpellsAppend(x: seq<string>, a: Block, y: seq<string>, b: Block, inElse: bool)
    requires Spells(x, a, inElse) && Spells(y, b, inElse)
    ensures Spells(x + y, a + b, inElse)
    decreases |x|
  {
    hide TokenOf, SpellsIf;
    if x == [] {
      assert x + y == y && a + b == b;
    } else {
      var all := x + y;
      assert all[1..] == x[1..] + y;
      match TokenOf(x[0]) {
        case Command(it) =>
          assert (a + b)[1..] == a[1..] + b;
          SpellsAppend(x[1..], a[1..], y, b, inElse);
        case OpenIf(neg, test) =>
          var k :| 0 < k < |x| && SpellsIf(x[1..k], neg, test, a[0])
                   && TokenOf(x[k]) == EndIf && Spells(x[k + 1..], a[1..], inElse);
          assert (a + b)[1..] == a[1..] + b;
          SpellsAppend(x[k + 1..], a[1..], y, b, inElse);
          assert all[1..k] == x[1..k] && all[k] == x[k] && all[k + 1..] == x[k + 1..] + y;
        case Blank => SpellsAppend(x[1..], a, y, b, inElse);
        case Else => SpellsAppend(x[1..], a, y, b, inElse);
        case _ =>
      }
    }
  }

  /** The lines before the EndIf of an open If: what they add to the part it is
      in, and the Else part if that begins here. */
  ghost predicate Parts(lines: seq<string>, first: Block, second: Option<Block>, inElse: bool) {
    match second
    case None => Spells(lines, first, inElse)
    case Some(e) =>
      !inElse && exists j :: 0 <= j < |lines| && Spells(lines[..j], first, false) && TokenOf(lines[j]) == Else
                             && Spells(lines[j + 1..], e, true)
  }

  function Whole(top: Open, cur: Block, first: Block, second: Option<Block>): Item {
    if top.inElse then If(top.neg, top.test, top.thn, cur + first)
    else If(top.neg, top.test, cur + first, if second.Some? then second.value else [])
  }

  lemma PartsAfter(x: seq<string>, a: Block, lines: seq<string>, first: Block, second: Option<Block>, inElse: bool)
    requires Spells(x, a, inElse) && Parts(lines, first, second, inElse)
    ensures Parts(x + lines, a + first, second, inElse)
  {
    hide Spells, TokenOf;
    match second
    case None => SpellsAppend(x, a, lines, first, inElse);
    case Some(e) =>
      var j :| 0 <= j < |lines| && Spells(lines[..j], first, false) && TokenOf(lines[j]) == Else
               && Spells(lines[j + 1..], e, true);
      SpellsAppend(x, a, lines[..j], first, false);
      var all, i := x + lines, |x| + j;
      assert all[..i] == x + lines[..j] && all[i] == lines[j] && all[i + 1..] == lines[j + 1..];
  }

  lemma SpellsOne(line: string, inElse: bool)
    ensures TokenOf(line).Blank? || (inElse && TokenOf(line).Else?) ==> Spells([line], [], inElse)
    ensures TokenOf(line).Command? ==> Spells([line], [TokenOf(line).item], inElse)
  {
    hide TokenOf;
    assert [line][1..] == [];
    if TokenOf(line).Command? { assert [TokenOf(line).item][1..] == []; }
  }

  lemma SpellsWholeIf(open: string, lines: seq<string>, first: Block, second: Option<Block>, end: string, inElse: bool)
    requires TokenOf(open).OpenIf? && TokenOf(end) == EndIf && Parts(lines, first, second, false)
    ensures var it := If(TokenOf(open).neg, TokenOf(open).test, first, if second.Some? then second.value else []);
            Spells([open] + lines + [end], [it], inElse)
  {
    hide TokenOf;
    var it := If(TokenOf(open).neg, TokenOf(open).test, first, if second.Some? then second.value else []);
    var all, k := [open] + lines + [end], |lines| + 1;
    assert SpellsIf(lines, it.neg, it.test, it);
    assert all[1..k] == lines && all[k] == end && all[k + 1..] == [] && [it][1..] == [];
  }

  /** Line `k` closes the innermost If. */
  ghost predicate ClosedAt(lines: seq<string>, cur: Block, stack: seq<Open>,
                           k: nat, first: Block, second: Option<Block>)
    requires stack != []
  {
    var top := stack[|stack| - 1];
    && k < |lines| && TokenOf(lines[k]) == EndIf && Parts(lines[..k], first, second, top.inElse)
    && ParseFrom(lines, cur, stack)
       == ParseFrom(lines[k + 1..], top.before + [Whole(top, cur, first, second)], stack[..|stack| - 1])
  }

  /** What holds behind `n` lines that add `a` holds from their start. */
  lemma ClosedLater(lines: seq<string>, n: nat, a: Block, cur: Block, stack: seq<Open>,
                    k: nat, first: Block, second: Option<Block>)
    requires n <= |lines| && stack != [] && Spells(lines[..n], a, stack[|stack| - 1].inElse)
    requires ParseFrom(lines, cur, stack) == ParseFrom(lines[n..], cur + a, stack)
    requires ClosedAt(lines[n..], cur + a, stack, k, first, second)
    ensures ClosedAt(lines, cur, stack, n + k, a + first, second)
  {
    hide Spells, TokenOf, ParseFrom, Parts, Whole;
    var top, rest := stack[|stack| - 1], lines[n..];
    var it := Whole(top, cur + a, first, second);
    assert ParseFrom(rest, cur + a, stack) == ParseFrom(rest[k + 1..], top.before + [it], stack[..|stack| - 1]);
    PartsAfter(lines[..n], a, rest[..k], first, second, top.inElse);
    Shifted(lines, n, k);
    WholeLater(top, cur, a, first, second);
    assert it == Whole(top, cur, a + first, second);
  }

  lemma Shifted(lines: seq<string>, n: nat, k: nat)
    requires n + k < |lines|
    ensures var rest := lines[n..];
            lines[..n + k] == lines[..n] + rest[..k] && lines[n + k] == rest[k] && lines[n + k + 1..] == rest[k + 1..]
  {
  }

  lemma WholeLater(top: Open, cur: Block, a: Block, first: Block, second: Option<Block>)
    ensures Whole(top, cur + a, first, second) == Whole(top, cur, a + first, second)
  {
    assert cur + a + first == cur + (a + first);
  }

  /** A run of the parser that succeeds closes the innermost If. */
  lemma {:induction false} FindEnd(lines: seq<string>, cur: Block, stack: seq<Open>)
      returns (k: nat, first: Block, second: Option<Block>)
    requires stack != [] && ParseFrom(lines, cur, stack).Some?
    ensures ClosedAt(lines, cur, stack, k, first, second)
    decreases |lines|
  {
    hide TokenOf, ParseFrom, ClosedAt, Spells, Parts;
    var top := stack[|stack| - 1];
    NeedsLines(lines, cur, stack);
    var line, rest := lines[0], lines[1..];
    assert lines[..1] == [line];
    Step(lines, cur, stack);
    SpellsOne(line, top.inElse);
    if TokenOf(line).OpenIf? {
      var it;
      k, it := ReadIf(lines, cur, stack, top.inElse);
      var k2;
      k2, first, second := FindEnd(lines[k + 1..], cur + [it], stack);
      ClosedLater(lines, k + 1, [it], cur, stack, k2, first, second);
      k, first := k + 1 + k2, [it] + first;
    } else if TokenOf(line).EndIf? {
      k, first, second := 0, [], None;
      EndsHere(lines, cur, stack);
    } else if TokenOf(line).Else? && !top.inElse {
      var turned := stack[..|stack| - 1] + [top.(thn := cur, inElse := true)];
      k, first, second := FindEnd(rest, [], turned);
      TurnsHere(lines, cur, stack, k, first, second);
      k, first, second := k + 1, [], Some(first);
    } else {
      var a := if TokenOf(line).Command? then [TokenOf(line).item] else [];
      assert cur + [] == cur;
      k, first, second := FindEnd(rest, cur + a, stack);
      ClosedLater(lines, 1, a, cur, stack, k, first, second);
      k, first := k + 1, a + first;
    }
  }

  /** An If is read to its EndIf. */
  lemma {:induction false} ReadIf(lines: seq<string>, cur: Block, stack: seq<Open>, inElse: bool)
      returns (k: nat, it: Item)
    requires lines != [] && TokenOf(lines[0]).OpenIf? && ParseFrom(lines, cur, stack).Some?
    ensures k < |lines| && Spells(lines[..k + 1], [it], inElse)
    ensures ParseFrom(lines, cur, stack) == ParseFrom(lines[k + 1..], cur + [it], stack)
    decreases |lines|, 0
  {
    hide TokenOf, ParseFrom, Spells, Parts;
    Step(lines, cur, stack);
    var open := Open(cur, TokenOf(lines[0]).neg, TokenOf(lines[0]).test, [], false);
    var rest := lines[1..];
    var n, first, second := FindEnd(rest, [], stack + [open]);
    it := If(open.neg, open.test, first, if second.Some? then second.value else []);
    k := n + 1;
    assert [] + first == first && (stack + [open])[..|stack|] == stack;
    assert lines[..k + 1] == [lines[0]] + rest[..n] + [rest[n]] && lines[k + 1..] == rest[n + 1..];
    SpellsWholeIf(lines[0], rest[..n], first, second, rest[n], inElse);
  }

  lemma EndsHere(lines: seq<string>, cur: Block, stack: seq<Open>)
    requires lines != [] && TokenOf(lines[0]).EndIf? && stack != []
    ensures ClosedAt(lines, cur, stack, 0, [], None)
  {
    hide TokenOf, ParseFrom;
    Step(lines, cur, stack);
    assert cur + [] == cur && lines[..0] == [];
  }

  lemma TurnsHere(lines: seq<string>, cur: Block, stack: seq<Open>, k: nat, first: Block, second: Option<Block>)
    requires lines != [] && TokenOf(lines[0]).Else? && stack != [] && !stack[|stack| - 1].inElse
    requires ClosedAt(lines[1..], [], stack[..|stack| - 1] + [stack[|stack| - 1].(thn := cur, inElse := true)],
                      k, first, second)
    ensures ClosedAt(lines, cur, stack, k + 1, [], Some(first))
  {
    hide TokenOf, ParseFrom;
    var top := stack[|stack| - 1];
    var turned := stack[..|stack| - 1] + [top.(thn := cur, inElse := true)];
    Step(lines, cur, stack);
    assert turned[..|stack| - 1] == stack[..|stack| - 1];
    var all, rest := lines[..k + 1], lines[1..];
    assert lines[k + 1] == rest[k] && lines[k + 2..] == rest[k + 1..];
    assert all[..0] == [] && all[0] == lines[0] && all[1..] == rest[..k];
    assert [] + first == first && cur + [] == cur;
    assert Spells(all[..0], [], false);
    assert Parts(all, [], Some(first), false);
  }

  lemma NeedsLines(lines: seq<string>, cur: Block, stack: seq<Open>)
    requires stack != [] && ParseFrom(lines, cur, stack).Some?
    ensures lines != []
  {
  }

  /** What the parser accepts at the top level is a sentence. */
  lemma {:induction false} ParsedSpells(lines: seq<string>, cur: Block) returns (b: Block)
    requires ParseFrom(lines, cur, []).Some?
    ensures Spells(lines, b, false) && ParseFrom(lines, cur, []) == Some(cur + b)
    decreases |lines|
  {
    hide TokenOf, ParseFrom, Spells;
    if lines == [] {
      b := [];
      EndOfLines(cur);
    } else {
      var line, rest := lines[0], lines[1..];
      Step(lines, cur, []);
      SpellsOne(line, false);
      if TokenOf(line).OpenIf? {
        var k, it := ReadIf(lines, cur, [], false);
        var more := ParsedSpells(lines[k + 1..], cur + [it]);
        b := [it] + more;
        SpellsAppend(lines[..k + 1], [it], lines[k + 1..], more, false);
        assert lines == lines[..k + 1] + lines[k + 1..] && cur + [it] + more == cur + b;
      } else {
        var a := if TokenOf(line).Command? then [TokenOf(line).item] else [];
        assert cur + [] == cur;
        var more := ParsedSpells(rest, cur + a);
        b := a + more;
        SpellsAppend([line], a, rest, more, false);
        assert lines == [line] + rest && cur + a + more == cur + b;
      }
    }
  }

  lemma EndOfLines(cur: Block)
    ensures ParseFrom([], cur, []) == Some(cur + []) && Spells([], [], false)
  {
    assert cur + [] == cur;
  }

  /** The parser accepts exactly the sentences of the grammar, each with its
      block: an unclosed If, an EndIf or Else without one and a line that is no
      command are all refused. */
  lemma ParseIsGrammar(lines: seq<string>, b: Block)
    ensures Parse(lines) == Some(b) <==> Spells(lines, b, false)
  {
    hide Spells, ParseFrom;
    if Parse(lines) == Some(b) {
      var c := ParsedSpells(lines, []);
      assert [] + c == c;
    }
    if Spells(lines, b, false) { SentenceParses(lines, b); }
  }
}
