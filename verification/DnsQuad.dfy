/** Dotted IPv4 addresses: the test for one, and the reverse name that a lookup
    of one asks for. */
module DnsQuad {
  import opened Seqs
  import opened Octets
  import opened DnsName

  predicate IsDigit(c: Octet) { 48 <= c <= 57 }

  predicate AllDigits(s: Text) { forall i :: 0 <= i < |s| ==> IsDigit(s[i]) }

  function DigitOf(c: Octet): (d: nat) { if IsDigit(c) then c as nat - 48 else 0 }

  /** The value of a string of digits. */
  function Value(s: Text): (v: nat) {
    if s == [] then 0 else 10 * Value(s[..|s| - 1]) + DigitOf(s[|s| - 1])
  }

  function DigitRun(s: Text): (n: nat)
    ensures n <= |s| && AllDigits(s[..n]) && (n < |s| ==> !IsDigit(s[n]))
  {
    if s == [] || !IsDigit(s[0]) then 0
    else
      var n := DigitRun(s[1..]);
      assert s[..n + 1] == [s[0]] + s[1..][..n];
      n + 1
  }

  /** One number of an address. */
  predicate Byte(s: Text) { 1 <= |s| <= 3 && AllDigits(s) && Value(s) <= 255 }

  /** The numbers of an address of `parts` parts. */
  function Quad(s: Text, parts: nat): (r: Option<seq<nat>>)
    requires parts >= 1
    ensures r.Some? ==> |r.value| == parts && forall i :: 0 <= i < parts ==> r.value[i] <= 255
    decreases parts
  {
    var d := DigitRun(s);
    if !Byte(s[..d]) then None
    else if parts == 1 then (if d == |s| then Some([Value(s[..d])]) else None)
    else if d == |s| || s[d] != DOT then None
    else match Quad(s[d + 1..], parts - 1)
      case None => None
      case Some(vs) => Some([Value(s[..d])] + vs)
  }

  lemma {:induction false} RunCovers(s: Text, n: nat)
    requires n <= |s| && AllDigits(s[..n])
    ensures DigitRun(s) >= n
  {
    if n > 0 {
      assert s[..n][0] == s[0] && s[..n][1..] == s[1..][..n - 1];
      RunCovers(s[1..], n - 1);
    }
  }

  lemma DigitRunIs(s: Text, n: nat)
    requires n <= |s| && AllDigits(s[..n]) && (n < |s| ==> !IsDigit(s[n]))
    ensures DigitRun(s) == n
  {
    RunCovers(s, n);
    if n < |s| { RunStops(s, n); }
  }

  lemma {:induction false} RunStops(s: Text, n: nat)
    requires n < |s| && !IsDigit(s[n])
    ensures DigitRun(s) <= n
  {
    if n > 0 { RunStops(s[1..], n - 1); }
  }

  /** The digits at the start and the first part, whichever is longer. */
  lemma FirstPart(s: Text)
    ensures var d, first := DigitRun(s), Split(s)[0];
            && first == s[..DotAt(s)]
            && (AllDigits(first) ==> d == |first|)
            && ((d < |s| && s[d] == DOT) || d == |s| ==> d == |first|)
  {
    var d, k := DigitRun(s), DotAt(s);
    if AllDigits(s[..k]) { RunCovers(s, k); }
    if k < |s| { RunStops(s, k); }
    if d == |s| || s[d] == DOT { DotBound(s, d); }
  }

  lemma DotBound(s: Text, d: nat)
    requires d <= |s| && (d == |s| || s[d] == DOT)
    ensures DotAt(s) <= d
  {
  }

  predicate Bytes(ps: seq<Text>) { forall i :: 0 <= i < |ps| ==> Byte(ps[i]) }

  function Values(ps: seq<Text>): (vs: seq<nat>)
    ensures |vs| == |ps| && forall i :: 0 <= i < |ps| ==> vs[i] == Value(ps[i])
  {
    seq(|ps|, i requires 0 <= i < |ps| => Value(ps[i]))
  }

  lemma BytesCons(p: Text, ps: seq<Text>)
    ensures Bytes([p] + ps) <==> Byte(p) && Bytes(ps)
    ensures Values([p] + ps) == [Value(p)] + Values(ps)
  {
    hide Byte, Value;
    var all := [p] + ps;
    if Bytes(all) {
      assert all[0] == p;
      forall i | 0 <= i < |ps| ensures Byte(ps[i]) { assert all[i + 1] == ps[i]; }
    }
  }

  lemma {:induction false} SplitStep(s: Text)
    ensures var k := DotAt(s); Split(s) == if k == |s| then [s] else [s[..k]] + Split(s[k + 1..])
  {
  }

  /** One number of an address, up to the first dot. */
  lemma {:induction false} QuadStep(s: Text, parts: nat)
    requires parts >= 1
    ensures var k := DotAt(s); var first := s[..k];
            Quad(s, parts) == if !Byte(first) then None
                              else if parts == 1 then (if k == |s| then Some([Value(first)]) else None)
                              else if k == |s| then None
                              else match Quad(s[k + 1..], parts - 1)
                                case None => None
                                case Some(vs) => Some([Value(first)] + vs)
  {
    hide Byte, Value, Split, DigitRun;
    FirstPart(s);
    ByteIsDigits(s[..DotAt(s)]);
    ByteIsDigits(s[..DigitRun(s)]);
  }

  /** An address is four numbers up to 255, of one to three digits, between dots. */
  lemma {:induction false} QuadIsSplit(s: Text, parts: nat)
    requires parts >= 1
    ensures Quad(s, parts) == if |Split(s)| == parts && Bytes(Split(s)) then Some(Values(Split(s))) else None
    decreases parts
  {
    hide Byte, Value, Split, Quad, DigitRun, DotAt, Values, Bytes;
    var k := DotAt(s);
    SplitStep(s);
    QuadStep(s, parts);
    BytesCons(s[..k], []);
    BytesNone();
    if k == |s| {
      assert s[..k] == s && [s] + [] == [s];
      assert [Value(s)] + [] == [Value(s)];
    } else {
      BytesCons(s[..k], Split(s[k + 1..]));
      if parts > 1 { QuadIsSplit(s[k + 1..], parts - 1); }
    }
  }

  lemma BytesNone()
    ensures Bytes([]) && Values([]) == []
  {
  }

  lemma ByteIsDigits(s: Text)
    ensures Byte(s) ==> AllDigits(s)
  {
  }

  method IsIpv4(s: Text) returns (ok: bool)
    ensures ok == Quad(s, 4).Some?
  {
    hide Byte, Value, Quad;
    var rest := s;
    for part := 0 to 4
      invariant part < 4 ==> Quad(s, 4).Some? == Quad(rest, 4 - part).Some?
      invariant part == 4 ==> Quad(s, 4).Some? == (rest == [])
    {
      var n;
      ok, n := Number(rest, 4 - part);
      if !ok { return; }
      QuadNext(rest, 4 - part);
      if part < 3 {
        if n == |rest| || rest[n] != DOT { return false; }
        n := n + 1;
      }
      rest := rest[n..];
    }
    return rest == [];
  }

  lemma QuadNext(s: Text, parts: nat)
    requires parts >= 1 && Byte(s[..DigitRun(s)])
    ensures var d := DigitRun(s);
            Quad(s, parts).Some? <==>
              if parts == 1 then d == |s| else d < |s| && s[d] == DOT && Quad(s[d + 1..], parts - 1).Some?
  {
  }

  /** Reads one number; false when it cannot be part of an address. */
  method Number(s: Text, ghost parts: nat) returns (ok: bool, n: nat)
    requires parts >= 1
    ensures ok ==> n == DigitRun(s) && Byte(s[..n])
    ensures !ok ==> Quad(s, parts).None?
  {
    var v: nat := 0;
    n := 0;
    assert s[..0] == [];
    while n < |s| && IsDigit(s[n])
      invariant n <= |s| && n <= 3 && AllDigits(s[..n]) && v == Value(s[..n]) <= 255
    {
      assert s[..n + 1][..n] == s[..n];
      v := v * 10 + DigitOf(s[n]);
      n := n + 1;
      if v > 255 || n > 3 {
        TooBig(s, n, parts);
        return false, n;
      }
    }
    DigitRunIs(s, n);
    ok := n > 0;
  }

  /** Digits that are too many or too large already rule the address out. */
  lemma TooBig(s: Text, n: nat, parts: nat)
    requires parts >= 1 && 1 <= n <= |s| && AllDigits(s[..n]) && (Value(s[..n]) > 255 || n > 3)
    ensures Quad(s, parts).None?
  {
    var d := DigitRun(s);
    RunCovers(s, n);
    ValueGrows(s[..d], n);
    assert s[..d][..n] == s[..n];
  }

  lemma {:induction false} ValueGrows(s: Text, n: nat)
    requires AllDigits(s) && n <= |s|
    ensures Value(s[..n]) <= Value(s)
  {
    if n == |s| {
      assert s[..n] == s;
    } else {
      ValueGrows(s[..|s| - 1], n);
      assert s[..|s| - 1][..n] == s[..n];
    }
  }

  // ----------------------------------------------------------- reverse name

  /** A number without leading zeros; the encoder's numbers have at most three digits. */
  function Dec(v: nat): (s: Text)
    ensures 1 <= |s| <= 3 && AllDigits(s) && DOT !in s
  {
    if v >= 100 then [48 + v / 100 % 10, 48 + v / 10 % 10, 48 + v % 10]
    else if v >= 10 then [48 + v / 10, 48 + v % 10]
    else [48 + v]
  }

  /** Printing a number and reading it gives it back. */
  lemma DecValue(v: nat)
    requires v < 1000
    ensures Value(Dec(v)) == v
  {
    if v >= 100 {
      ValueThree(48 + v / 100 % 10, 48 + v / 10 % 10, 48 + v % 10);
    } else if v >= 10 {
      ValueTwo(48 + v / 10, 48 + v % 10);
    } else {
      ValueOne(48 + v);
    }
  }

  lemma ValueOne(a: Octet)
    ensures Value([a]) == DigitOf(a)
  {
    assert [a][..0] == [];
  }

  lemma ValueTwo(a: Octet, b: Octet)
    ensures Value([a, b]) == 10 * DigitOf(a) + DigitOf(b)
  {
    ValueOne(a);
    assert [a, b][..1] == [a];
  }

  lemma ValueThree(a: Octet, b: Octet, c: Octet)
    ensures Value([a, b, c]) == 100 * DigitOf(a) + 10 * DigitOf(b) + DigitOf(c)
  {
    ValueTwo(a, b);
    assert [a, b, c][..2] == [a, b];
  }

  /** ".in-addr.arpa" as its two labels. */
  const IN_ADDR: Text := [105, 110, 45, 97, 100, 100, 114]
  const ARPA: Text := [97, 114, 112, 97]

  /** The numbers as the query encoder reads them: digits and dots until the
      fourth dot or the end. */
  function Numbers(s: Text, part: nat, digits: nat, vals: seq<nat>): (r: Option<seq<nat>>)
    requires part <= 4 && |vals| == 4 && digits <= 3
    ensures r.Some? ==> |r.value| == 4
    decreases |s|
  {
    if s == [] || part == 4 then (if part == 3 then Some(vals) else None)
    else if s[0] == DOT then Numbers(s[1..], part + 1, 0, vals)
    else if !IsDigit(s[0]) || digits == 3 then None
    else Numbers(s[1..], part, digits + 1, vals[part := vals[part] * 10 + DigitOf(s[0])])
  }

  /** A run of digits goes into the present number. */
  lemma {:induction false} NumbersRun(run: Text, rest: Text, part: nat, vals: seq<nat>)
    requires part < 4 && |vals| == 4 && AllDigits(run) && |run| <= 3 && vals[part] == 0
    ensures Numbers(run + rest, part, 0, vals) == Numbers(rest, part, |run|, vals[part := Value(run)])
  {
    NumbersRunFrom(run, 0, rest, part, vals);
    assert run[..0] == [] && run[0..] == run && vals[part := 0] == vals && run[..|run|] == run;
  }

  lemma ValueNext(s: Text, k: nat)
    requires AllDigits(s) && k < |s|
    ensures Value(s[..k + 1]) == 10 * Value(s[..k]) + DigitOf(s[k])
  {
    assert s[..k + 1][..k] == s[..k];
  }

  lemma {:induction false} NumbersRunFrom(run: Text, k: nat, rest: Text, part: nat, vals: seq<nat>)
    requires part < 4 && |vals| == 4 && AllDigits(run) && k <= |run| <= 3
    ensures Numbers(run[k..] + rest, part, k, vals[part := Value(run[..k])])
            == Numbers(rest, part, |run|, vals[part := Value(run)])
    decreases |run| - k
  {
    hide Value, Numbers;
    if k == |run| {
      assert run[k..] + rest == rest && run[..k] == run;
    } else {
      NumbersRunFrom(run, k + 1, rest, part, vals);
      ValueNext(run, k);
      var s, now := run[k..] + rest, vals[part := Value(run[..k])];
      assert s[0] == run[k] && s[1..] == run[k + 1..] + rest;
      NumbersDigit(s, part, k, now);
      assert now[part := now[part] * 10 + DigitOf(run[k])] == vals[part := Value(run[..k + 1])];
    }
  }

  lemma NumbersDigit(s: Text, part: nat, digits: nat, vals: seq<nat>)
    requires part < 4 && |vals| == 4 && digits < 3 && s != [] && IsDigit(s[0])
    ensures Numbers(s, part, digits, vals) == Numbers(s[1..], part, digits + 1,
                                                      vals[part := vals[part] * 10 + DigitOf(s[0])])
  {
  }

  /** On an address the encoder's numbers are the address's. */
  lemma NumbersOfQuad(s: Text)
    requires Quad(s, 4).Some?
    ensures Numbers(s, 0, 0, [0, 0, 0, 0]) == Some(Quad(s, 4).value)
  {
    NumbersTail(s, 0, [0, 0, 0, 0]);
    assert [0, 0, 0, 0][..0] + Quad(s, 4).value == Quad(s, 4).value;
  }

  lemma {:induction false} NumbersTail(s: Text, part: nat, vals: seq<nat>)
    requires part < 4 && |vals| == 4 && Quad(s, 4 - part).Some? && forall i :: part <= i < 4 ==> vals[i] == 0
    ensures Numbers(s, part, 0, vals) == Some(vals[..part] + Quad(s, 4 - part).value)
    decreases 4 - part
  {
    hide Value, Quad, Byte, Numbers, DigitRun;
    var left := 4 - part;
    QuadParts(s, left);
    var d := DigitRun(s);
    var v := Value(s[..d]);
    assert s == s[..d] + s[d..];
    NumbersRun(s[..d], s[d..], part, vals);
    var more := vals[part := v];
    NumbersDot(s[d..], part, d, more);
    if part == 3 {
      LastPart(vals, v);
    } else {
      var next := s[d + 1..];
      assert s[d..][1..] == next;
      NumbersTail(next, part + 1, more);
      SetPart(vals, part, v, Quad(next, left - 1).value);
    }
  }

  lemma LastPart(vals: seq<nat>, v: nat)
    requires |vals| == 4
    ensures vals[3 := v] == vals[..3] + [v]
  {
  }

  lemma SetPart(vals: seq<nat>, part: nat, v: nat, q: seq<nat>)
    requires part < |vals|
    ensures vals[part := v][..part + 1] + q == vals[..part] + ([v] + q)
  {
  }

  /** The first number of an address and what follows it. */
  lemma QuadParts(s: Text, parts: nat)
    requires parts >= 1 && Quad(s, parts).Some?
    ensures var d := DigitRun(s); var v := Value(s[..d]);
            && d <= 3
            && (if parts == 1 then d == |s| && Quad(s, parts).value == [v]
                else d < |s| && s[d] == DOT && Quad(s[d + 1..], parts - 1).Some?
                     && Quad(s, parts).value == [v] + Quad(s[d + 1..], parts - 1).value)
  {
    hide Value;
  }

  lemma NumbersDot(rest: Text, part: nat, digits: nat, vals: seq<nat>)
    requires part < 4 && |vals| == 4 && digits <= 3
    ensures rest == [] ==> Numbers(rest, part, digits, vals) == if part == 3 then Some(vals) else None
    ensures rest != [] && rest[0] == DOT ==> Numbers(rest, part, digits, vals) == Numbers(rest[1..], part + 1, 0, vals)
  {
  }

  /** The labels of the reverse name: last number first. */
  function ReverseLabels(v: seq<nat>): (labels: seq<Text>)
    requires |v| == 4
    ensures Good(labels) && NoDots(labels) && |labels| == 6
  {
    assert DOT !in IN_ADDR && DOT !in ARPA;
    [Dec(v[3]), Dec(v[2]), Dec(v[1]), Dec(v[0]), IN_ADDR, ARPA]
  }

  method ReadNumbers(name: Text) returns (r: Option<seq<nat>>)
    ensures r == Numbers(name, 0, 0, [0, 0, 0, 0])
  {
    var vals: seq<nat>, s := [0, 0, 0, 0], name;
    var part: nat, idx: nat := 0, 0;
    while s != [] && part < 4
      invariant part <= 4 && idx <= 3 && |vals| == 4
      invariant Numbers(name, 0, 0, [0, 0, 0, 0]) == Numbers(s, part, idx, vals)
      decreases |s|
    {
      if s[0] == DOT {
        part, idx := part + 1, 0;
      } else {
        if !IsDigit(s[0]) || idx == 3 { return None; }
        vals := vals[part := vals[part] * 10 + (s[0] as nat - 48)];
        idx := idx + 1;
      }
      s := s[1..];
    }
    return if part == 3 then Some(vals) else None;
  }
}
