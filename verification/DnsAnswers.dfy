/** What a reply says, without its parser: records that stand one after the
    other, the first that matches, and the address as it is printed. */
module DnsAnswers {
  import opened Seqs
  import opened Octets
  import opened DnsName
  import opened DnsReply
  import DnsQuad

  // --------------------------------------------------------------- names

  /** The labels `labels` stand at `off`, followed by a zero or by a compression
      pointer, and the name ends before `e`. */
  ghost predicate NameTo(pkt: seq<Octet>, off: nat, labels: seq<Text>, e: nat) {
    Good(labels) &&
    var n := |Wire(labels)| - 1;
    && off + n < |pkt| && pkt[off..off + n] == Wire(labels)[..n]
    && (if pkt[off + n] == 0 then e == off + n + 1
        else pkt[off + n] >= 0xC0 && off + n + 1 < |pkt| && e == off + n + 2)
  }

  ghost predicate NameEnds(pkt: seq<Octet>, off: nat, e: nat) {
    exists labels :: NameTo(pkt, off, labels, e)
  }

  /** The parser skips exactly a name. */
  lemma SkipIsName(pkt: seq<Octet>, off: nat, e: nat)
    ensures Skip(pkt, off) == Some(e) <==> NameEnds(pkt, off, e)
  {
    if Skip(pkt, off) == Some(e) { SkippedName(pkt, off, e); }
    if NameEnds(pkt, off, e) {
      var labels :| NameTo(pkt, off, labels, e);
      NameSkipped(pkt, off, labels, e);
    }
  }

  lemma {:induction false} SkippedName(pkt: seq<Octet>, off: nat, e: nat)
    requires Skip(pkt, off) == Some(e)
    ensures NameEnds(pkt, off, e)
    decreases |pkt| - off
  {
    var l := pkt[off] as nat;
    if l == 0 || l >= 0xC0 {
      assert NameTo(pkt, off, [], e);
    } else {
      SkippedName(pkt, off + 1 + l, e);
      var labels :| NameTo(pkt, off + 1 + l, labels, e);
      NameLonger(pkt, off, labels, e);
    }
  }

  lemma NameLonger(pkt: seq<Octet>, off: nat, labels: seq<Text>, e: nat)
    requires off < |pkt| && 0 < pkt[off] < 0x40 && NameTo(pkt, off + 1 + pkt[off] as nat, labels, e)
    ensures NameEnds(pkt, off, e)
  {
    var l := pkt[off] as nat;
    var first := pkt[off + 1..off + 1 + l];
    var all := [first] + labels;
    var w := Wire(labels);
    var n := |w| - 1;
    assert all[1..] == labels && Good(all) && Wire(all) == [l] + first + w;
    assert Wire(all)[..l + 1 + n] == [l] + first + w[..n];
    ThreeSlices(pkt, off, l, n);
    assert NameTo(pkt, off, all, e);
  }

  lemma ThreeSlices(pkt: seq<Octet>, off: nat, l: nat, n: nat)
    requires off + 1 + l + n <= |pkt|
    ensures pkt[off..off + (l + 1 + n)] == [pkt[off]] + pkt[off + 1..off + 1 + l] + pkt[off + 1 + l..off + 1 + l + n]
  {
  }

  lemma {:induction false} NameSkipped(pkt: seq<Octet>, off: nat, labels: seq<Text>, e: nat)
    requires NameTo(pkt, off, labels, e)
    ensures Skip(pkt, off) == Some(e)
    decreases |labels|
  {
    if labels != [] {
      NameShorter(pkt, off, labels, e);
      NameSkipped(pkt, off + 1 + |labels[0]|, labels[1..], e);
    }
  }

  lemma NameShorter(pkt: seq<Octet>, off: nat, labels: seq<Text>, e: nat)
    requires NameTo(pkt, off, labels, e) && labels != []
    ensures off < |pkt| && pkt[off] as nat == |labels[0]| && NameTo(pkt, off + 1 + |labels[0]|, labels[1..], e)
  {
    var first, w := labels[0], Wire(labels[1..]);
    var l, n := |first|, |w| - 1;
    assert Wire(labels) == [l] + first + w;
    assert pkt[off..off + (l + 1 + n)][0] == pkt[off];
    assert pkt[off + 1 + l..off + 1 + l + n] == pkt[off..off + (l + 1 + n)][l + 1..];
    assert ([l] + first + w)[..l + 1 + n][l + 1..] == w[..n];
  }

  // ------------------------------------------------------------- records

  /** A record at `off`: its name, ten octets with type and length, and its data. */
  ghost predicate RecordTo(pkt: seq<Octet>, off: nat, o: nat, rec: Record) {
    && NameEnds(pkt, off, o) && o + 10 <= |pkt|
    && rec.kind == pkt[o] as nat * 256 + pkt[o + 1] as nat && rec.start == o + 10
    && rec.end == rec.start + (pkt[o + 8] as nat * 256 + pkt[o + 9] as nat) && rec.end <= |pkt|
  }

  ghost predicate IsRecord(pkt: seq<Octet>, off: nat, rec: Record) {
    exists o :: RecordTo(pkt, off, o, rec)
  }

  lemma RecordIs(pkt: seq<Octet>, off: nat, rec: Record)
    ensures RecordAt(pkt, off) == Some(rec) <==> IsRecord(pkt, off, rec)
  {
    hide Skip, NameEnds;
    forall o: nat ensures Skip(pkt, off) == Some(o) <==> NameEnds(pkt, off, o) { SkipIsName(pkt, off, o); }
    if RecordAt(pkt, off) == Some(rec) {
      assert RecordTo(pkt, off, Skip(pkt, off).value, rec);
    }
  }

  /** The record answers a question of this type. */
  predicate Matches(want: nat, rec: Record) {
    rec.kind == want && (want == TYPE_PTR || (want == TYPE_A && rec.end - rec.start == 4))
  }

  /** What it says: four octets, or the name that section 4.1.4 of RFC 1035 gives. */
  ghost predicate Yields(pkt: seq<Octet>, rec: Record, f: Found) {
    rec.start <= rec.end <= |pkt| &&
    match f
    case Address(octets) =>
      rec.kind == TYPE_A && rec.end == rec.start + 4 && |octets| == 4
      && forall i :: 0 <= i < 4 ==> octets[i] == pkt[rec.start + i]
    case Host(labels) => rec.kind == TYPE_PTR && IsName(pkt, rec.end, rec.start, labels)
  }

  function StartOf(from: nat, recs: seq<Record>, i: nat): nat
    requires i <= |recs|
  {
    if i == 0 then from else recs[i - 1].end
  }

  /** Records in a row from `from` on, at most `n` of them, of which the last one
      matches and no other, and which gives `f`. */
  ghost predicate FirstAnswer(pkt: seq<Octet>, want: nat, from: nat, n: nat, recs: seq<Record>, f: Found) {
    && 0 < |recs| <= n
    && (forall i :: 0 <= i < |recs| ==> IsRecord(pkt, StartOf(from, recs, i), recs[i]))
    && (forall i :: 0 <= i < |recs| - 1 ==> !Matches(want, recs[i]))
    && Matches(want, recs[|recs| - 1]) && Yields(pkt, recs[|recs| - 1], f)
  }

  lemma {:induction false} AnswerFound(pkt: seq<Octet>, want: nat, from: nat, n: nat, f: Found)
      returns (recs: seq<Record>)
    requires AnswerFrom(pkt, want, from, n) == Some(f)
    ensures FirstAnswer(pkt, want, from, n, recs, f)
    decreases n
  {
    hide RecordAt, IsRecord, IsName, NameOf;
    var rec := RecordAt(pkt, from).value;
    RecordIs(pkt, from, rec);
    if Matches(want, rec) {
      recs := [rec];
      if want == TYPE_PTR { NameIsExpansion(pkt, rec.end, rec.start, f.labels); }
    } else {
      var more := AnswerFound(pkt, want, rec.end, n - 1, f);
      recs := [rec] + more;
      RowLonger(pkt, want, from, n - 1, rec, more, f);
    }
  }

  lemma RowLonger(pkt: seq<Octet>, want: nat, from: nat, n: nat, rec: Record, more: seq<Record>, f: Found)
    requires IsRecord(pkt, from, rec) && !Matches(want, rec) && FirstAnswer(pkt, want, rec.end, n, more, f)
    ensures FirstAnswer(pkt, want, from, n + 1, [rec] + more, f)
  {
    hide IsRecord, Matches, Yields;
    var recs := [rec] + more;
    forall i | 0 <= i < |recs| ensures IsRecord(pkt, StartOf(from, recs, i), recs[i]) {
      if i > 0 { assert recs[i] == more[i - 1] && StartOf(from, recs, i) == StartOf(rec.end, more, i - 1); }
    }
  }

  lemma {:induction false} FoundAnswer(pkt: seq<Octet>, want: nat, from: nat, n: nat, recs: seq<Record>, f: Found)
    requires FirstAnswer(pkt, want, from, n, recs, f)
    ensures AnswerFrom(pkt, want, from, n) == Some(f)
    decreases n
  {
    hide RecordAt, IsRecord, IsName, NameOf;
    var rec := recs[0];
    assert StartOf(from, recs, 0) == from;
    RecordIs(pkt, from, rec);
    if |recs| == 1 {
      if want == TYPE_PTR {
        NameIsExpansion(pkt, rec.end, rec.start, f.labels);
      } else {
        assert pkt[rec.start..rec.end] == f.octets;
      }
    } else {
      RowShorter(pkt, want, from, n, recs, f);
      FoundAnswer(pkt, want, rec.end, n - 1, recs[1..], f);
    }
  }

  lemma RowShorter(pkt: seq<Octet>, want: nat, from: nat, n: nat, recs: seq<Record>, f: Found)
    requires FirstAnswer(pkt, want, from, n, recs, f) && |recs| > 1
    ensures FirstAnswer(pkt, want, recs[0].end, n - 1, recs[1..], f) && !Matches(want, recs[0])
  {
    hide IsRecord, Matches, Yields;
    var rec, more := recs[0], recs[1..];
    forall i | 0 <= i < |more| ensures IsRecord(pkt, StartOf(rec.end, more, i), more[i]) {
      assert more[i] == recs[i + 1] && StartOf(rec.end, more, i) == StartOf(from, recs, i + 1);
    }
  }

  // ----------------------------------------------------------- whole reply

  function AfterQuestion(from: nat, ends: seq<nat>, i: nat): nat
    requires i <= |ends|
  {
    if i == 0 then from else ends[i - 1] + 4
  }

  /** Questions in a row: each a name, which ends at `ends[i]`, and four octets. */
  ghost predicate Asked(pkt: seq<Octet>, from: nat, n: nat, ends: seq<nat>) {
    |ends| == n && forall i :: 0 <= i < n ==> NameEnds(pkt, AfterQuestion(from, ends, i), ends[i])
  }

  lemma {:induction false} QuestionsAsked(pkt: seq<Octet>, from: nat, n: nat) returns (ends: seq<nat>)
    requires Questions(pkt, from, n).Some?
    ensures Asked(pkt, from, n, ends) && Questions(pkt, from, n) == Some(AfterQuestion(from, ends, n))
    decreases n
  {
    hide Skip, NameEnds;
    ends := [];
    if n > 0 {
      var e := Skip(pkt, from).value;
      SkipIsName(pkt, from, e);
      var more := QuestionsAsked(pkt, e + 4, n - 1);
      ends := [e] + more;
      forall i | 0 <= i < n ensures NameEnds(pkt, AfterQuestion(from, ends, i), ends[i]) {
        if i > 0 { assert ends[i] == more[i - 1] && AfterQuestion(from, ends, i) == AfterQuestion(e + 4, more, i - 1); }
      }
    }
  }

  lemma {:induction false} AskedQuestions(pkt: seq<Octet>, from: nat, n: nat, ends: seq<nat>)
    requires Asked(pkt, from, n, ends)
    ensures Questions(pkt, from, n) == Some(AfterQuestion(from, ends, n))
    decreases n
  {
    hide Skip, NameEnds;
    if n > 0 {
      var e, more := ends[0], ends[1..];
      assert AfterQuestion(from, ends, 0) == from;
      SkipIsName(pkt, from, e);
      forall i | 0 <= i < n - 1 ensures NameEnds(pkt, AfterQuestion(e + 4, more, i), more[i]) {
        assert more[i] == ends[i + 1] && AfterQuestion(e + 4, more, i) == AfterQuestion(from, ends, i + 1);
      }
      AskedQuestions(pkt, e + 4, n - 1, more);
    }
  }

  /** The reply gives `f`: after its header and its questions there is a first
      matching record among its answers, and that one says `f`. */
  ghost predicate Says(pkt: seq<Octet>, want: nat, ends: seq<nat>, recs: seq<Record>, f: Found) {
    |pkt| >= 12 &&
    var qdcount, ancount := pkt[4] as nat * 256 + pkt[5] as nat, pkt[6] as nat * 256 + pkt[7] as nat;
    && Asked(pkt, 12, qdcount, ends)
    && FirstAnswer(pkt, want, AfterQuestion(12, ends, qdcount), ancount, recs, f)
  }

  /** For every packet and every type asked for, the parser finds exactly what
      the reply says. */
  lemma AnswerIsFirst(pkt: seq<Octet>, want: nat, f: Found)
    ensures Answer(pkt, want) == Some(f) <==> exists ends, recs :: Says(pkt, want, ends, recs, f)
  {
    hide Questions, AnswerFrom, Asked, FirstAnswer;
    if Answer(pkt, want) == Some(f) {
      var ends := QuestionsAsked(pkt, 12, WordAt(pkt, 4));
      AskedLength(pkt, 12, WordAt(pkt, 4), ends);
      var recs := AnswerFound(pkt, want, AfterQuestion(12, ends, |ends|), WordAt(pkt, 6), f);
      assert Says(pkt, want, ends, recs, f);
    }
    if ends, recs :| Says(pkt, want, ends, recs, f) {
      AskedLength(pkt, 12, WordAt(pkt, 4), ends);
      AskedQuestions(pkt, 12, WordAt(pkt, 4), ends);
      FoundAnswer(pkt, want, AfterQuestion(12, ends, |ends|), WordAt(pkt, 6), recs, f);
      SomeAnswer(pkt, want, AfterQuestion(12, ends, |ends|), WordAt(pkt, 6), recs, f);
    }
  }

  lemma AskedLength(pkt: seq<Octet>, from: nat, n: nat, ends: seq<nat>)
    requires Asked(pkt, from, n, ends)
    ensures |ends| == n
  {
  }

  lemma SomeAnswer(pkt: seq<Octet>, want: nat, from: nat, n: nat, recs: seq<Record>, f: Found)
    requires FirstAnswer(pkt, want, from, n, recs, f)
    ensures n > 0
  {
  }

  // ---------------------------------------------------------- the server

  const SERVER_JUMPS: nat := 8

  /** The server reads every name of a packet with at most eight jumps as what
      section 4.1.4 of RFC 1035 expands it to, and goes on behind the name. */
  lemma ServerReadsName(pkt: seq<Octet>, off: nat, labels: seq<Text>, jumps: nat, e: nat)
    requires Expands(pkt, |pkt|, off, labels, jumps) && jumps <= SERVER_JUMPS && NameEnds(pkt, off, e)
    ensures ReadFrom(pkt, off, [], off, 0) == Some((Dotted(labels), e))
  {
    SkipIsName(pkt, off, e);
    ServerReads(pkt, off, labels, jumps, [], off, 0, e);
    assert [] + labels == labels;
  }

  lemma ReadStep(pkt: seq<Octet>, off: nat, got: seq<Text>, orig: nat, depth: nat)
    requires off < |pkt| && depth <= SERVER_JUMPS
    ensures var l, r := pkt[off] as nat, ReadFrom(pkt, off, got, orig, depth);
            && (l == 0 ==> r == Some((Dotted(got), if depth > 0 then orig else off + 1)))
            && (l >= 0xC0 && off + 1 < |pkt| ==>
                  r == ReadFrom(pkt, (l - 0xC0) * 256 + pkt[off + 1] as nat, got, if depth > 0 then orig else off + 2,
                                depth + 1))
            && (0 < l < 0xC0 && off + 1 + l <= |pkt| ==>
                  r == ReadFrom(pkt, off + 1 + l, got + [pkt[off + 1..off + 1 + l]], orig, depth))
  {
    hide Dotted;
  }

  lemma {:induction false} ServerReads(
      pkt: seq<Octet>, off: nat, labels: seq<Text>, jumps: nat, got: seq<Text>, orig: nat, depth: nat, e: nat)
    requires Expands(pkt, |pkt|, off, labels, jumps) && depth + jumps <= SERVER_JUMPS
    requires depth == 0 ==> Skip(pkt, off) == Some(e)
    requires depth > 0 ==> orig == e
    ensures ReadFrom(pkt, off, got, orig, depth) == Some((Dotted(got + labels), e))
    decreases |labels| + jumps
  {
    hide Dotted, ReadFrom;
    ReadStep(pkt, off, got, orig, depth);
    var l := pkt[off] as nat;
    if l == 0 {
      assert got + labels == got;
    } else if l >= 0xC0 {
      ServerReads(pkt, (l - 0xC0) * 256 + pkt[off + 1] as nat, labels, jumps - 1, got,
                  if depth > 0 then orig else off + 2, depth + 1, e);
    } else {
      ServerReads(pkt, off + 1 + l, labels[1..], jumps, got + [labels[0]], orig, depth, e);
      assert got + [labels[0]] + labels[1..] == got + labels;
    }
  }

  /** A ninth jump is one too many: then the server takes the name for empty. */
  lemma {:induction false} ServerGivesUp(
      pkt: seq<Octet>, off: nat, labels: seq<Text>, jumps: nat, got: seq<Text>, orig: nat, depth: nat)
    requires Expands(pkt, |pkt|, off, labels, jumps) && depth <= SERVER_JUMPS < depth + jumps
    ensures ReadFrom(pkt, off, got, orig, depth).Some? && ReadFrom(pkt, off, got, orig, depth).value.0 == []
    decreases |labels| + jumps
  {
    var l := pkt[off] as nat;
    if l >= 0xC0 {
      if depth < SERVER_JUMPS {
        ServerGivesUp(pkt, (l - 0xC0) * 256 + pkt[off + 1] as nat, labels, jumps - 1, got,
                      if depth > 0 then orig else off + 2, depth + 1);
      }
    } else if l > 0 {
      ServerGivesUp(pkt, off + 1 + l, labels[1..], jumps, got + [labels[0]], orig, depth);
    }
  }

  // ------------------------------------------------------------ addresses

  /** A printed address reads back as its octets, in their order. */
  lemma AddressReads(octets: seq<Octet>)
    requires |octets| == 4
    ensures DnsQuad.Quad(AddressText(octets), 4)
            == Some([octets[0] as nat, octets[1] as nat, octets[2] as nat, octets[3] as nat])
  {
    hide DnsQuad.Quad, DnsQuad.Dec, DnsQuad.Value, Split, Dotted;
    var vs := [octets[0] as nat, octets[1] as nat, octets[2] as nat, octets[3] as nat];
    var ps := [DnsQuad.Dec(vs[0]), DnsQuad.Dec(vs[1]), DnsQuad.Dec(vs[2]), DnsQuad.Dec(vs[3])];
    DottedFour(ps[0], ps[1], ps[2], ps[3]);
    SplitDotted(ps);
    forall i | 0 <= i < 4 ensures DnsQuad.Byte(ps[i]) && DnsQuad.Value(ps[i]) == vs[i] {
      DnsQuad.DecValue(vs[i]);
    }
    DnsQuad.QuadIsSplit(AddressText(octets), 4);
    assert DnsQuad.Values(ps) == vs;
  }

  lemma DottedFour(a: Text, b: Text, c: Text, d: Text)
    ensures Dotted([a, b, c, d]) == a + [DOT] + b + [DOT] + c + [DOT] + d
  {
    assert [a, b, c, d][1..] == [b, c, d] && [b, c, d][1..] == [c, d] && [c, d][1..] == [d];
    assert Dotted([c, d]) == c + [DOT] + d;
    assert Dotted([b, c, d]) == b + [DOT] + (c + [DOT] + d);
    assert Dotted([a, b, c, d]) == a + [DOT] + (b + [DOT] + (c + [DOT] + d));
  }
}
