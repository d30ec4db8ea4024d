/** Character-level helpers shared by the script models: case folding,
    word and line splitting, and decimal numbers. */
module Text {
  import opened Seqs
  function LowerChar(c: char): char {
    if 'A' <= c <= 'Z' then (c as int + 32) as char else c
  }

  function UpperChar(c: char): char {
    if 'a' <= c <= 'z' then (c as int - 32) as char else c
  }

  function Lower(s: string): (r: string)
    ensures |r| == |s|
  {
    seq(|s|, i requires 0 <= i < |s| => LowerChar(s[i]))
  }

  function Upper(s: string): (r: string)
    ensures |r| == |s|
  {
    seq(|s|, i requires 0 <= i < |s| => UpperChar(s[i]))
  }

  lemma LowerConcat(a: string, b: string)
    ensures Lower(a + b) == Lower(a) + Lower(b)
  {
  }

  predicate IsSpace(c: char) {
    c == ' ' || '\t' <= c <= '\r'
  }

  /** A maximal run of non-blank characters, as a whitespace split yields. */
  predicate IsWord(w: string) {
    w != [] && forall i :: 0 <= i < |w| ==> !IsSpace(w[i])
  }

  /** Length of the word that starts `s`. */
  function WordEnd(s: string): (k: nat)
    ensures k <= |s|
    ensures forall i :: 0 <= i < k ==> !IsSpace(s[i])
    ensures k < |s| ==> IsSpace(s[k])
  {
    if s == [] || IsSpace(s[0]) then 0 else 1 + WordEnd(s[1..])
  }

  /** The whitespace split of a line. */
  function SplitWords(s: string): (ws: seq<string>)
    ensures forall w :: w in ws ==> IsWord(w)
    decreases |s|
  {
    if s == [] then []
    else if IsSpace(s[0]) then SplitWords(s[1..])
    else
      var k := WordEnd(s);
      [s[..k]] + SplitWords(s[k..])
  }

  function Spaces(n: nat): string {
    if n == 0 then "" else " " + Spaces(n - 1)
  }

  function Join(ws: seq<string>): string {
    if ws == [] then ""
    else if |ws| == 1 then ws[0]
    else ws[0] + " " + Join(ws[1..])
  }

  /** One script line: indentation, then the words one blank apart. */
  function Render(indent: nat, ws: seq<string>): string {
    Spaces(indent) + Join(ws)
  }

  lemma {:induction false} WordEndExact(w: string, rest: string)
    requires forall i :: 0 <= i < |w| ==> !IsSpace(w[i])
    requires rest == [] || IsSpace(rest[0])
    ensures WordEnd(w + rest) == |w|
  {
    if w == [] {
      assert w + rest == rest;
    } else {
      WordEndExact(w[1..], rest);
      assert (w + rest)[1..] == w[1..] + rest;
    }
  }

  lemma SplitFirst(w: string, rest: string)
    requires IsWord(w)
    requires rest == [] || IsSpace(rest[0])
    ensures SplitWords(w + rest) == [w] + SplitWords(rest)
  {
    WordEndExact(w, rest);
    assert (w + rest)[..|w|] == w;
    assert (w + rest)[|w|..] == rest;
  }

  lemma {:induction false} SplitJoin(ws: seq<string>)
    requires forall w :: w in ws ==> IsWord(w)
    ensures SplitWords(Join(ws)) == ws
  {
    if ws == [] {
    } else if |ws| == 1 {
      SplitFirst(ws[0], []);
      assert ws[0] + [] == ws[0];
      assert ws == [ws[0]];
    } else {
      SplitJoin(ws[1..]);
      var tail := " " + Join(ws[1..]);
      SplitFirst(ws[0], tail);
      assert ws[0] + tail == Join(ws);
      assert tail[1..] == Join(ws[1..]);
    }
  }

  lemma {:induction false} SplitIndented(n: nat, s: string)
    ensures SplitWords(Spaces(n) + s) == SplitWords(s)
  {
    if n == 0 {
      assert Spaces(0) + s == s;
    } else {
      SplitIndented(n - 1, s);
      assert (Spaces(n) + s)[1..] == Spaces(n - 1) + s;
    }
  }

  /** Splitting a rendered line gives back the words it was rendered from. */
  lemma SplitRender(indent: nat, ws: seq<string>)
    requires forall w :: w in ws ==> IsWord(w)
    ensures SplitWords(Render(indent, ws)) == ws
  {
    SplitIndented(indent, Join(ws));
    SplitJoin(ws);
  }

  function Total(ws: seq<string>): nat {
    if ws == [] then 0 else |ws[0]| + 1 + Total(ws[1..])
  }

  lemma {:induction false} RenderLength(indent: nat, ws: seq<string>)
    ensures |Render(indent, ws)| <= indent + Total(ws)
  {
    SpacesLength(indent);
    JoinLength(ws);
  }

  lemma {:induction false} SpacesLength(n: nat)
    ensures |Spaces(n)| == n
    ensures forall i :: 0 <= i < n ==> Spaces(n)[i] == ' '
  {
    if n > 0 { SpacesLength(n - 1); }
  }

  lemma {:induction false} JoinLength(ws: seq<string>)
    ensures |Join(ws)| <= Total(ws)
  {
    if |ws| > 0 { JoinLength(ws[1..]); }
  }

  // ------------------------------------------------------------- lines

  predicate OneLine(s: string) {
    forall i :: 0 <= i < |s| ==> s[i] != '\n'
  }

  function LineEnd(s: string): (k: nat)
    ensures k <= |s|
    ensures OneLine(s[..k])
    ensures k < |s| ==> s[k] == '\n'
  {
    if s == [] || s[0] == '\n' then 0
    else
      var k := LineEnd(s[1..]);
      assert s[..k + 1] == [s[0]] + s[1..][..k];
      k + 1
  }

  /** The split of a text at its newlines; the last piece may be empty. */
  function SplitLines(s: string): (ls: seq<string>)
    ensures ls != []
    decreases |s|
  {
    var k := LineEnd(s);
    if k == |s| then [s] else [s[..k]] + SplitLines(s[k + 1..])
  }

  /** Every line followed by a newline, as the installer writes a text file. */
  function JoinLines(ls: seq<string>): string {
    if ls == [] then "" else ls[0] + "\n" + JoinLines(ls[1..])
  }

  lemma {:induction false} LineEndExact(l: string, rest: string)
    requires OneLine(l)
    ensures LineEnd(l + "\n" + rest) == |l|
  {
    if l == [] {
      assert (l + "\n" + rest)[0] == '\n';
    } else {
      LineEndExact(l[1..], rest);
      assert (l + "\n" + rest)[1..] == l[1..] + "\n" + rest;
    }
  }

  /** A text written line by line splits back into those lines and an empty rest. */
  lemma {:induction false} SplitJoinLines(ls: seq<string>)
    requires forall l :: l in ls ==> OneLine(l)
    ensures SplitLines(JoinLines(ls)) == ls + [""]
  {
    if ls != [] {
      var rest := JoinLines(ls[1..]);
      var s := ls[0] + "\n" + rest;
      SplitJoinLines(ls[1..]);
      LineEndExact(ls[0], rest);
      assert s[..|ls[0]|] == ls[0];
      assert s[|ls[0]| + 1..] == rest;
    }
  }

  // ----------------------------------------------------------- numbers

  predicate IsDigit(c: char) { '0' <= c <= '9' }

  function DigitChar(d: nat): char
    requires d < 10
  {
    (d + '0' as int) as char
  }

  function Decimal(n: nat): (s: string)
    ensures s != [] && forall i :: 0 <= i < |s| ==> IsDigit(s[i])
  {
    if n < 10 then [DigitChar(n)] else Decimal(n / 10) + [DigitChar(n % 10)]
  }

  /** The value of a string of decimal digits; None for anything else. */
  function ParseNat(s: string): Option<nat> {
    if s == [] then None
    else
      var last := s[|s| - 1];
      if !IsDigit(last) then None
      else if |s| == 1 then Some(last as int - '0' as int)
      else match ParseNat(s[..|s| - 1])
        case None => None
        case Some(v) => Some(10 * v + (last as int - '0' as int))
  }

  lemma {:induction false} ParseDecimal(n: nat)
    ensures ParseNat(Decimal(n)) == Some(n)
  {
    if n >= 10 {
      ParseDecimal(n / 10);
      assert Decimal(n)[..|Decimal(n)| - 1] == Decimal(n / 10);
    }
  }
}
