/** The FTP control connection: a buffered line reader over whatever pieces the
    network delivers, and the reply reader of section 4.2 of RFC 959 on it. */
module Ftp {
  import opened Seqs
  import opened Text

  const LF := '\n'
  const CR := '\r'
  const NUL := '\0'
  const BUF_SIZE: nat := 1024
  const CTRL_BUF: nat := 512

  // ------------------------------------------------------- specification

  function Min(a: nat, b: nat): nat { if a < b then a else b }

  /** What the reader keeps of a line: as much as the buffer holds, less a final CR. */
  function Clip(raw: string, room: nat): (line: string)
  {
    var s := raw[..Min(|raw|, room)];
    if s != [] && s[|s| - 1] == CR then s[..|s| - 1] else s
  }

  predicate Digit(c: char) { '0' <= c <= '9' }

  predicate HasCode(line: string) { |line| >= 3 && Digit(line[0]) && Digit(line[1]) && Digit(line[2]) }

  function DigitOf(c: char): (d: nat)
    ensures d < 10
  {
    if Digit(c) then c as int - '0' as int else 0
  }

  function Value(line: string): (v: nat)
    ensures v < 1000
  {
    if HasCode(line) then DigitOf(line[0]) * 100 + DigitOf(line[1]) * 10 + DigitOf(line[2]) else 0
  }

  datatype Response = Lost | Final(code: nat, line: string, rest: string)

  /** Reads lines up to the one that ends the reply; `first` is the code of the
      first line that had one. */
  function Respond(s: string, first: int): (r: Response)
    decreases |s|
  {
    var n := LineEnd(s);
    if n == |s| then Lost
    else
      var line := Clip(s[..n], CTRL_BUF - 1);
      if !HasCode(line) then Respond(s[n + 1..], first)
      else
        var code := Value(line);
        var wanted := if first < 0 then code else first;
        if code == wanted && (|line| == 3 || line[3] == ' ') then Final(code, line, s[n + 1..])
        else Respond(s[n + 1..], wanted)
  }

  /** One line of it. */
  lemma RespondLine(s: string, first: int, line: string)
    requires var n := LineEnd(s); n < |s| && line == Clip(s[..n], CTRL_BUF - 1)
    ensures var rest := s[LineEnd(s) + 1..]; var wanted := if first < 0 then Value(line) else first;
            Respond(s, first) == if !HasCode(line) then Respond(rest, first)
                                 else if Value(line) == wanted && (|line| == 3 || line[3] == ' ') then
                                   Final(Value(line), line, rest)
                                 else Respond(rest, wanted)
  {
  }

  lemma LostIs(s: string, first: int)
    requires LineEnd(s) == |s|
    ensures Respond(s, first) == Lost
  {
  }

  // ---------------------------------------------------------- the reader

  /** The read-ahead buffer with its bounds, and the pieces still to be received. */
  class Control {
    const rx: array<char>
    var len: nat
    var pos: nat
    var chunks: seq<string>

    constructor (chunks: seq<string>)
      requires forall c :: c in chunks ==> 0 < |c| <= BUF_SIZE
      ensures Valid() && fresh(rx) && Pending() == Joined(chunks)
    {
      rx := new char[BUF_SIZE](_ => NUL);
      len, pos, this.chunks := 0, 0, chunks;
    }

    ghost predicate Valid()
      reads this
    {
      rx.Length == BUF_SIZE && pos <= len <= BUF_SIZE && forall c :: c in chunks ==> 0 < |c| <= BUF_SIZE
    }

    /** All that is still to be read, however it will arrive. */
    ghost function Pending(): string
      requires Valid()
      reads this, rx
    {
      rx[pos..len] + Joined(chunks)
    }

    /** A new connection drops what the last one left in the buffer. */
    method Reset()
      requires Valid()
      modifies this`len, this`pos
      ensures Valid() && Pending() == Joined(chunks)
    {
      len, pos := 0, 0;
    }

    /** Receives the next piece into the empty buffer; false at the end. */
    method Fill() returns (ok: bool)
      requires Valid() && pos == len
      modifies this, rx
      ensures Valid() && Pending() == old(Pending())
      ensures ok ==> pos < len
      ensures !ok ==> Pending() == ""
    {
      pos, len := 0, 0;
      if chunks == [] { return false; }
      var c := chunks[0];
      var i := 0;
      while i < |c|
        invariant 0 <= i <= |c| && rx[..i] == c[..i]
        modifies rx
      {
        rx[i] := c[i];
        i := i + 1;
      }
      len, chunks := |c|, chunks[1..];
      return true;
    }

    /** The next character, receiving more when the buffer is used up. */
    method Take() returns (ok: bool, c: char)
      requires Valid()
      modifies this, rx
      ensures Valid() && ok == (old(Pending()) != "")
      ensures ok ==> old(Pending()) == [c] + Pending()
      ensures !ok ==> Pending() == ""
    {
      ok, c := true, NUL;
      if pos == len { ok := Fill(); }
      if ok {
        c := rx[pos];
        assert Pending()[0] == c;
        pos := pos + 1;
      }
    }

    /** Consumes one line with its LF and keeps as much of it as `buf` holds. */
    method Gather(buf: array<char>) returns (ok: bool, i: nat)
      requires Valid() && buf != rx && buf.Length >= 2
      modifies this, rx, buf
      ensures Valid()
      ensures var s := old(Pending()); var e := LineEnd(s);
              if e == |s| then !ok && Pending() == ""
              else ok && i == Min(e, buf.Length - 1) && buf[..i] == s[..i] && Pending() == s[e + 1..]
    {
      hide Joined, LineEnd, OneLine;
      ghost var s := Pending();
      ghost var got := 0;
      i := 0;
      while true
        invariant Valid() && 0 <= got <= LineEnd(s) && Pending() == s[got..]
        invariant i == Min(got, buf.Length - 1) && buf[..i] == s[..i]
        decreases |s| - got
      {
        ghost var was := Pending();
        var c;
        ok, c := Take();
        if !ok { return; }
        NextIs(s, got, c, Pending());
        EndsAt(s, got);
        if c == LF { return; }
        if i < buf.Length - 1 {
          assert i == got && s[..i + 1] == s[..i] + [c];
          buf[i] := c;
          i := i + 1;
        }
        got := got + 1;
      }
    }

    /** Reads one line into `buf`, dropping what does not fit; -1 at the end. */
    method ReadLine(buf: array<char>) returns (n: int)
      requires Valid() && buf != rx && buf.Length >= 2
      modifies this, rx, buf
      ensures Valid() && n < buf.Length
      ensures var s := old(Pending()); var e := LineEnd(s);
              if e == |s| then n == -1 && Pending() == ""
              else n >= 0 && buf[..n] == Clip(s[..e], buf.Length - 1) && buf[n] == NUL && Pending() == s[e + 1..]
    {
      hide LineEnd, Joined;
      ghost var s := Pending();
      var ok, i := Gather(buf);
      if !ok { return -1; }
      assert s[..LineEnd(s)][..i] == s[..i];
      if i > 0 && buf[i - 1] == CR { i := i - 1; }
      buf[i] := NUL;
      return i;
    }

    /** Reads one reply; -1 when the connection ends first. `last` is its final line. */
    method Reply() returns (code: int, last: string)
      requires Valid()
      modifies this, rx
      ensures Valid()
      ensures match Respond(old(Pending()), -1)
              case Lost => code == -1 && Pending() == ""
              case Final(c, line, rest) => code == c && last == line && Pending() == rest
    {
      hide LineEnd, Joined, Value, Clip, Respond;
      var line := new char[CTRL_BUF](_ => NUL);
      var first := -1;
      while true
        invariant Valid() && Respond(Pending(), first) == Respond(old(Pending()), -1)
        invariant first >= -1
        decreases |Pending()|
      {
        ghost var s := Pending();
        var len := ReadLine(line);
        if len >= 0 { RespondLine(s, first, line[..len]); } else { LostIs(s, first); }
        if len < 0 { return -1, ""; }
        last := line[..len];
        if HasCode(last) {
          code := Value(last);
          if first < 0 { first := code; }
          if code == first && (len == 3 || last[3] == ' ') { return; }
        }
      }
    }
  }

  // ------------------------------------------------------ well-formed replies

  /** A reply of section 4.2 of RFC 959: a code with its final line's text, and
      for a multi-line reply the text of the first line and the lines between. */
  datatype Reply =
    | Single(code: string, text: string)
    | Multi(code: string, opening: string, middle: seq<string>, text: string)

  /** A final line is the bare code, or the code, a space and text. */
  predicate FinalText(text: string) { OneLine(text) && (text == "" || text[0] == ' ') }

  /** A line between may be anything that is not itself a final line of the reply. */
  predicate Between(code: string, line: string) {
    OneLine(line) && !(code <= line && (|line| == |code| || line[|code|] == ' '))
  }

  predicate WellFormed(r: Reply) {
    && |r.code| == 3 && HasCode(r.code) && FinalText(r.text)
    && (r.Multi? ==> OneLine(r.opening) && forall i :: 0 <= i < |r.middle| ==> Between(r.code, r.middle[i]))
  }

  function Line(text: string): string { text + [CR, LF] }

  function Lines(texts: seq<string>): string {
    if texts == [] then "" else Line(texts[0]) + Lines(texts[1..])
  }

  /** A reply on the wire. */
  function Wire(r: Reply): string {
    match r
    case Single(code, text) => Line(code + text)
    case Multi(code, opening, middle, text) => Line(code + "-" + opening) + (Lines(middle) + Line(code + text))
  }

  function Stream(replies: seq<Reply>): string {
    if replies == [] then "" else Wire(replies[0]) + Stream(replies[1..])
  }

  lemma {:induction false} LineEndIs(s: string, n: nat)
    requires n < |s| && s[n] == LF && forall i :: 0 <= i < n ==> s[i] != LF
    ensures LineEnd(s) == n
  {
  }

  lemma FirstLine(text: string, rest: string)
    requires OneLine(text)
    ensures var s := Line(text) + rest;
            LineEnd(s) == |text| + 1 < |s| && s[..|text| + 1] == text + [CR] && s[|text| + 2..] == rest
  {
    LineEndIs(Line(text) + rest, |text| + 1);
  }

  /** Clipping leaves the start of a line as it was, and short lines whole. */
  lemma ClipKeeps(text: string)
    ensures var line := Clip(text + [CR], CTRL_BUF - 1);
            && line <= text && (|text| <= 510 ==> line == text) && (|text| > 510 ==> |line| >= 510)
  {
    if |text| <= 510 {
      assert (text + [CR])[..|text| + 1] == text + [CR];
    }
  }

  lemma FinalLine(code: string, text: string, rest: string, first: int)
    requires |code| == 3 && HasCode(code) && FinalText(text) && (first < 0 || first == Value(code))
    ensures Respond(Line(code + text) + rest, first) == Final(Value(code), Clip(code + text + [CR], CTRL_BUF - 1), rest)
  {
    hide Respond, Clip, Value, LineEnd, Line;
    FirstLine(code + text, rest);
    ClipKeeps(code + text);
    RespondLine(Line(code + text) + rest, first, Clip(code + text + [CR], CTRL_BUF - 1));
    Digits(Clip(code + text + [CR], CTRL_BUF - 1), code, text);
  }

  /** A line that starts with the code has the code's value. */
  lemma Digits(line: string, code: string, text: string)
    requires |code| == 3 && HasCode(code) && line <= code + text && |line| >= 3
    ensures HasCode(line) && Value(line) == Value(code)
    ensures |line| > 3 ==> text != "" && line[3] == text[0]
  {
    assert forall i :: 0 <= i < 3 ==> line[i] == code[i];
  }

  lemma SameDigits(a: nat, b: nat, c: nat, d: nat, e: nat, f: nat)
    requires a < 10 && b < 10 && c < 10 && d < 10 && e < 10 && f < 10
    requires a * 100 + b * 10 + c == d * 100 + e * 10 + f
    ensures a == d && b == e && c == f
  {
  }

  lemma SameValue(a: string, b: string)
    requires |b| == 3 && HasCode(a) && HasCode(b) && Value(a) == Value(b)
    ensures b <= a
  {
    hide DigitOf;
    SameDigits(DigitOf(a[0]), DigitOf(a[1]), DigitOf(a[2]), DigitOf(b[0]), DigitOf(b[1]), DigitOf(b[2]));
    SameDigit(a[0], b[0]); SameDigit(a[1], b[1]); SameDigit(a[2], b[2]);
    assert a[..3] == b;
  }

  lemma SameDigit(a: char, b: char)
    requires Digit(a) && Digit(b) && DigitOf(a) == DigitOf(b)
    ensures a == b
  {
  }

  lemma MiddleLine(code: string, text: string, rest: string)
    requires |code| == 3 && HasCode(code) && Between(code, text)
    ensures Respond(Line(text) + rest, Value(code)) == Respond(rest, Value(code))
  {
    hide Respond, Clip, Value, LineEnd, Line;
    FirstLine(text, rest);
    ClipKeeps(text);
    var line := Clip(text + [CR], CTRL_BUF - 1);
    RespondLine(Line(text) + rest, Value(code), line);
    if HasCode(line) && Value(line) == Value(code) { SameValue(line, code); }
  }

  lemma {:induction false} MiddleLines(code: string, texts: seq<string>, rest: string)
    requires |code| == 3 && HasCode(code) && forall i :: 0 <= i < |texts| ==> Between(code, texts[i])
    ensures Respond(Lines(texts) + rest, Value(code)) == Respond(rest, Value(code))
  {
    hide Respond, Value, HasCode, Between, Line;
    if texts == [] {
      assert Lines(texts) + rest == rest;
    } else {
      MiddleLine(code, texts[0], Lines(texts[1..]) + rest);
      MiddleLines(code, texts[1..], rest);
      assert Lines(texts) + rest == Line(texts[0]) + (Lines(texts[1..]) + rest);
    }
  }

  lemma OpeningLine(code: string, opening: string, rest: string)
    requires |code| == 3 && HasCode(code) && OneLine(opening)
    ensures Respond(Line(code + "-" + opening) + rest, -1) == Respond(rest, Value(code))
  {
    hide Respond, Clip, Value, LineEnd, Line;
    var text := code + "-" + opening;
    var line := Clip(text + [CR], CTRL_BUF - 1);
    FirstLine(text, rest);
    ClipKeeps(text);
    RespondLine(Line(text) + rest, -1, line);
    assert text == code + ("-" + opening);
    Digits(line, code, "-" + opening);
  }

  function FinalLineOf(r: Reply): string { Clip(r.code + r.text + [CR], CTRL_BUF - 1) }

  /** The three digits of a code spell its value. */
  lemma ValueSpelled(code: string)
    requires |code| == 3 && HasCode(code)
    ensures ParseNat(code) == Some(Value(code))
  {
    var two := code[..2];
    assert two[..1] == [code[0]];
    assert ParseNat(two[..1]) == Some(DigitOf(code[0]));
    assert ParseNat(two) == Some(10 * DigitOf(code[0]) + DigitOf(code[1]));
  }

  /** What a caller gets for the reply `r`: the number its code spells, its final
      line whole up to 510 characters and its first 511 otherwise (510 when the
      last of them is a CR), and a stream that goes on with `rest`. */
  ghost predicate Answers(got: Response, r: Reply, rest: string) {
    && got.Final? && ParseNat(r.code) == Some(got.code) && got.rest == rest
    && var sent := r.code + r.text;
       if |sent| <= 510 then got.line == sent
       else got.line == sent[..if sent[510] == CR then 510 else 511]
  }

  /** One reply is read to its last line and no further, overlong lines included. */
  lemma OneReply(r: Reply, rest: string)
    requires WellFormed(r)
    ensures Answers(Respond(Wire(r) + rest, -1), r, rest)
  {
    ReplyFinal(r, rest);
    ValueSpelled(r.code);
    LongLine(r.code + r.text);
  }

  lemma LongLine(text: string)
    ensures Clip(text + [CR], CTRL_BUF - 1)
            == if |text| <= 510 then text else if text[510] == CR then text[..510] else text[..511]
  {
    var all := text + [CR];
    if |text| <= 510 {
      assert all[..|all|] == all;
    } else {
      assert all[..511] == text[..511] && text[..511][..510] == text[..510];
    }
  }

  lemma ReplyFinal(r: Reply, rest: string)
    requires WellFormed(r)
    ensures Respond(Wire(r) + rest, -1) == Final(Value(r.code), FinalLineOf(r), rest)
  {
    match r
    case Single(code, text) => FinalLine(code, text, rest, -1);
    case Multi(code, opening, middle, text) =>
      var tail := Line(code + text) + rest;
      assert Wire(r) + rest == Line(code + "-" + opening) + (Lines(middle) + tail);
      OpeningLine(code, opening, Lines(middle) + tail);
      MiddleLines(code, middle, tail);
      FinalLine(code, text, rest, Value(code));
  }

  lemma NextReply(replies: seq<Reply>, rest: string)
    requires replies != [] && WellFormed(replies[0])
    ensures Respond(Stream(replies) + rest, -1) == Final(Value(replies[0].code), FinalLineOf(replies[0]),
                                                         Stream(replies[1..]) + rest)
  {
    hide Respond, WellFormed, Wire;
    var tail := Stream(replies[1..]) + rest;
    assert Stream(replies) + rest == Wire(replies[0]) + tail;
    ReplyFinal(replies[0], tail);
  }

  /** What is left of a stream after `k` replies have been read. */
  ghost function After(s: string, k: nat): string
    decreases k
  {
    if k == 0 then s
    else match Respond(s, -1) case Lost => "" case Final(_, _, rest) => After(rest, k - 1)
  }

  /** The reader never loses its place: whatever came before, the reply read
      after `k` others is the `k`-th one of the stream, up to its last line. */
  lemma {:induction false} KthReply(replies: seq<Reply>, k: nat, rest: string)
    requires k < |replies| && forall i :: 0 <= i < |replies| ==> WellFormed(replies[i])
    ensures Answers(Respond(After(Stream(replies) + rest, k), -1), replies[k], Stream(replies[k + 1..]) + rest)
  {
    hide Respond, WellFormed, Stream, Value, FinalLineOf, Answers, Wire;
    var tail := Stream(replies[1..]) + rest;
    if k > 0 {
      NextReply(replies, rest);
      KthReply(replies[1..], k - 1, rest);
      assert replies[1..][k..] == replies[k + 1..];
    } else {
      StreamHead(replies, rest);
      OneReply(replies[0], tail);
    }
  }

  lemma StreamHead(replies: seq<Reply>, rest: string)
    requires replies != []
    ensures Stream(replies) + rest == Wire(replies[0]) + (Stream(replies[1..]) + rest)
  {
  }

  lemma NoReplies(rest: string)
    ensures Stream([]) + rest == rest
  {
  }

  /** Reads as many replies as there are in what arrives, over any division of
      the stream into pieces. */
  method ReadReplies(control: Control, replies: seq<Reply>, ghost rest: string) returns (codes: seq<int>)
    requires control.Valid() && forall i :: 0 <= i < |replies| ==> WellFormed(replies[i])
    requires control.Pending() == Stream(replies) + rest
    modifies control, control.rx
    ensures control.Valid() && control.Pending() == rest
    ensures |codes| == |replies|
    ensures forall i :: 0 <= i < |codes| ==> codes[i] >= 0 && ParseNat(replies[i].code) == Some(codes[i])
  {
    hide Respond, Joined, Stream, WellFormed, Value, FinalLineOf, ParseNat;
    codes := [];
    assert replies[0..] == replies;
    while |codes| < |replies|
      invariant |codes| <= |replies| && control.Valid() && control.Pending() == Stream(replies[|codes|..]) + rest
      invariant forall i :: 0 <= i < |codes| ==> codes[i] >= 0 && ParseNat(replies[i].code) == Some(codes[i])
      decreases |replies| - |codes|
    {
      NextReply(replies[|codes|..], rest);
      CodeSpelled(replies[|codes|]);
      assert replies[|codes|..][1..] == replies[|codes| + 1..];
      var code, _ := control.Reply();
      codes := codes + [code];
    }
    assert replies[|codes|..] == [];
    NoReplies(rest);
  }

  lemma CodeSpelled(r: Reply)
    requires WellFormed(r)
    ensures ParseNat(r.code) == Some(Value(r.code))
  {
    ValueSpelled(r.code);
  }

  // ------------------------------------------------------------ any stream

  /** The complete lines of a stream, as the reader keeps them. */
  function Kept(s: string): (ls: seq<string>)
    decreases |s|
  {
    var n := LineEnd(s);
    if n == |s| then [] else [Clip(s[..n], CTRL_BUF - 1)] + Kept(s[n + 1..])
  }

  /** What follows the first `k` lines. */
  function Beyond(s: string, k: nat): (t: string)
    decreases k
  {
    if k == 0 || LineEnd(s) == |s| then s else Beyond(s[LineEnd(s) + 1..], k - 1)
  }

  /** Line `f` is the first one with a code. */
  ghost predicate Opens(ls: seq<string>, f: nat) {
    f < |ls| && HasCode(ls[f]) && forall j :: 0 <= j < f ==> !HasCode(ls[j])
  }

  /** Line `k` has the code that the reply opened with, followed by a space or by
      nothing. That code is `given`, or else the one of the first line with a code. */
  ghost predicate Closes(ls: seq<string>, given: Option<string>, k: nat, code: string) {
    && k < |ls| && |code| == 3 && code <= ls[k] && (|ls[k]| == 3 || ls[k][3] == ' ')
    && match given
       case Some(g) => code == g
       case None => exists f :: 0 <= f <= k && Opens(ls, f) && code <= ls[f]
  }

  /** The reply ends with line `k`, the first one that can end it. */
  ghost predicate EndsReply(ls: seq<string>, given: Option<string>, k: nat, code: string) {
    Closes(ls, given, k, code) && forall j, other :: 0 <= j < k ==> !Closes(ls, given, j, other)
  }

  /** A reply that ends with line `k` of the stream was read: its number, that
      line, and the stream after it. */
  ghost predicate ReadTo(s: string, given: Option<string>, got: Response, k: nat, code: string) {
    && EndsReply(Kept(s), given, k, code)
    && got.Final? && ParseNat(code) == Some(got.code) && got.line == Kept(s)[k] && got.rest == Beyond(s, k + 1)
  }

  /** For every stream whatever: a reply is read exactly if some line ends one,
      and then it is read to the first such line. */
  lemma AnyStream(s: string)
    ensures var got := Respond(s, -1);
            if got.Lost? then forall k, code :: !Closes(Kept(s), None, k, code)
            else exists k, code :: ReadTo(s, None, got, k, code)
  {
    StreamFrom(s, None);
  }

  function Opened(given: Option<string>): int {
    match given case None => -1 case Some(g) => Value(g)
  }

  /** The code the reply opened with, after one more line. */
  function Noted(line: string, given: Option<string>): Option<string> {
    if given.None? && HasCode(line) then Some(line[..3]) else given
  }

  predicate IsCode(given: Option<string>) { given.Some? ==> |given.value| == 3 && HasCode(given.value) }

  /** The first line ends the reply. */
  predicate ClosesNow(line: string, given: Option<string>, code: string) {
    |code| == 3 && code <= line && (|line| == 3 || line[3] == ' ') && Noted(line, given) == Some(code)
  }

  lemma ClosesStep(ls: seq<string>, given: Option<string>, k: nat, code: string)
    requires ls != [] && IsCode(given)
    ensures Closes(ls, given, k, code) <==>
              if k == 0 then ClosesNow(ls[0], given, code) else Closes(ls[1..], Noted(ls[0], given), k - 1, code)
  {
    hide HasCode;
    var rest := ls[1..];
    if k == 0 {
      if given.None? && ClosesNow(ls[0], given, code) { assert Opens(ls, 0); }
      if given.None? && Closes(ls, given, 0, code) { assert code == ls[0][..3]; }
    } else if given.None? {
      if HasCode(ls[0]) {
        assert Opens(ls, 0);
        assert forall f :: f > 0 ==> !Opens(ls, f);
        if |code| == 3 { FrontOf(ls[0], code); }
      } else {
        OpensStep(ls);
      }
    }
  }

  lemma FrontOf(line: string, code: string)
    requires |code| == 3 && HasCode(line)
    ensures code <= line <==> code == line[..3]
  {
  }

  lemma OpensStep(ls: seq<string>)
    requires ls != [] && !HasCode(ls[0])
    ensures forall f: nat :: Opens(ls, f) ==> f > 0 && Opens(ls[1..], f - 1)
    ensures forall f: nat :: Opens(ls[1..], f) ==> Opens(ls, f + 1)
  {
    hide HasCode;
    forall f: nat | Opens(ls, f) ensures f > 0 && Opens(ls[1..], f - 1) {
      assert f > 0 && forall j :: 0 <= j < f - 1 ==> ls[1..][j] == ls[j + 1];
    }
    forall f: nat | Opens(ls[1..], f) ensures Opens(ls, f + 1) {
      assert forall j :: 0 < j < f + 1 ==> ls[j] == ls[1..][j - 1];
    }
  }

  /** The test of the reader is that of the specification. */
  lemma NowIs(line: string, given: Option<string>, code: string)
    requires IsCode(given)
    ensures var wanted := if Opened(given) < 0 then Value(line) else Opened(given);
            && (ClosesNow(line, given, code) <==>
                  HasCode(line) && Value(line) == wanted && (|line| == 3 || line[3] == ' ') && code == line[..3])
            && (HasCode(line) ==> Opened(Noted(line, given)) == wanted)
            && IsCode(Noted(line, given)) && (!HasCode(line) ==> Noted(line, given) == given)
  {
    if HasCode(line) {
      Digits(line[..3], line[..3], "");
      Digits(line, line[..3], line[3..]);
      if given.Some? && Value(line) == Value(given.value) { SameValue(line, given.value); }
      if given.Some? && given.value <= line {
        assert given.value == line[..3];
        Digits(line, given.value, line[3..]);
      }
      if ClosesNow(line, given, code) { assert code == line[..3]; }
    }
  }

  lemma KeptStep(s: string)
    requires LineEnd(s) < |s|
    ensures var n := LineEnd(s);
            Kept(s) != [] && Kept(s)[0] == Clip(s[..n], CTRL_BUF - 1) && Kept(s)[1..] == Kept(s[n + 1..])
  {
    hide LineEnd, Clip, OneLine;
    var line, more := Clip(s[..LineEnd(s)], CTRL_BUF - 1), Kept(s[LineEnd(s) + 1..]);
    assert Kept(s) == [line] + more;
    assert ([line] + more)[1..] == more;
  }

  lemma BeyondStep(s: string, k: nat)
    requires LineEnd(s) < |s|
    ensures Beyond(s, k + 1) == Beyond(s[LineEnd(s) + 1..], k)
  {
  }

  lemma {:induction false} StreamFrom(s: string, given: Option<string>)
    requires IsCode(given)
    ensures var got := Respond(s, Opened(given));
            if got.Lost? then forall k, code :: !Closes(Kept(s), given, k, code)
            else exists k, code :: ReadTo(s, given, got, k, code)
    decreases |s|
  {
    hide Respond, Value, Closes, ParseNat, LineEnd, Kept, Clip, Beyond, ClosesNow, Noted;
    var n := LineEnd(s);
    if n == |s| {
      LostIs(s, Opened(given));
      NothingKept(s, given);
    } else {
      KeptStep(s);
      var rest, line := s[n + 1..], Kept(s)[0];
      var next := Noted(line, given);
      RespondLine(s, Opened(given), line);
      forall code ensures ClosesNow(line, given, code) <==>
          HasCode(line) && Value(line) == Opened(next) && (|line| == 3 || line[3] == ' ') && code == line[..3] {
        NowIs(line, given, code);
      }
      NowIs(line, given, "");
      forall k: nat, code ensures Closes(Kept(s), given, k, code) <==>
          if k == 0 then ClosesNow(line, given, code) else Closes(Kept(rest), next, k - 1, code) {
        ClosesStep(Kept(s), given, k, code);
      }
      var got := Respond(s, Opened(given));
      if HasCode(line) && ClosesNow(line, given, line[..3]) {
        ValueSpelled(line[..3]);
        Digits(line, line[..3], line[3..]);
        assert EndsReply(Kept(s), given, 0, line[..3]);
        BeyondStep(s, 0);
        NothingBeyond(rest);
        assert ReadTo(s, given, got, 0, line[..3]);
      } else {
        StreamFrom(rest, next);
        if got.Final? {
          var k: nat, code :| ReadTo(rest, next, got, k, code);
          assert EndsReply(Kept(s), given, k + 1, code);
          ClosesIn(Kept(rest), next, k, code);
          assert Kept(rest)[k] == Kept(s)[k + 1];
          BeyondStep(s, k + 1);
          assert ReadTo(s, given, got, k + 1, code);
        }
      }
    }
  }

  lemma NothingKept(s: string, given: Option<string>)
    requires LineEnd(s) == |s|
    ensures Kept(s) == [] && forall k: nat, code :: !Closes([], given, k, code)
  {
  }

  lemma ClosesIn(ls: seq<string>, given: Option<string>, k: nat, code: string)
    requires Closes(ls, given, k, code)
    ensures k < |ls|
  {
  }

  lemma NothingBeyond(s: string)
    ensures Beyond(s, 0) == s
  {
  }

  /** The first LF from `got` on, where the line has none before. */
  lemma EndsAt(s: string, got: nat)
    requires got <= LineEnd(s) && got < |s|
    ensures if s[got] == LF then LineEnd(s) == got else got < LineEnd(s)
  {
    if got < LineEnd(s) { assert s[..LineEnd(s)][got] == s[got]; }
  }

  lemma NextIs(s: string, got: nat, c: char, rest: string)
    requires got <= |s| && s[got..] == [c] + rest
    ensures got < |s| && s[got] == c && rest == s[got + 1..]
  {
    assert ([c] + rest)[1..] == rest;
  }
}
