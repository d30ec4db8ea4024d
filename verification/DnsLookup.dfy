/** The whole lookup: the client's query, the test server's answer to it, and
    what the client's parser makes of that answer. */
module DnsLookup {
  import opened Seqs
  import opened Octets
  import opened DnsName
  import opened DnsQuad
  import opened DnsReply

  // --------------------------------------------------------------- client

  /** The encoder's name buffer holds 266 characters of a name. */
  const NAME_ROOM: nat := 266

  /** The name of the question: for an address the reverse name. */
  function QName(name: Text, reverse: bool): (r: Option<seq<Octet>>) {
    if !reverse then PutLabels(Cut(name, NAME_ROOM))
    else match Numbers(name, 0, 0, [0, 0, 0, 0])
      case None => None
      case Some(v) => PutLabels(Dotted(ReverseLabels(v)))
  }

  method PutQName(q: array<Octet>, name: Text, reverse: bool) returns (o: int)
    requires q.Length >= NAME_ROOM + 2
    modifies q
    ensures match QName(name, reverse) case None => o == -1 case Some(w) => o == |w| <= q.Length && q[..o] == w
  {
    hide PutLabels, Numbers;
    var text := Cut(name, NAME_ROOM);
    if reverse {
      var v := ReadNumbers(name);
      if v == None { return -1; }
      text := Dotted(ReverseLabels(v.value));
      ReverseLength(v.value);
    }
    o := PutName(q, text);
  }

  lemma ReverseLength(v: seq<nat>)
    requires |v| == 4
    ensures |Dotted(ReverseLabels(v))| <= 28
  {
    DottedConcat([Dec(v[3])], [Dec(v[2]), Dec(v[1]), Dec(v[0]), IN_ADDR, ARPA]);
    DottedConcat([Dec(v[2])], [Dec(v[1]), Dec(v[0]), IN_ADDR, ARPA]);
    DottedConcat([Dec(v[1])], [Dec(v[0]), IN_ADDR, ARPA]);
    DottedConcat([Dec(v[0])], [IN_ADDR, ARPA]);
    DottedConcat([IN_ADDR], [ARPA]);
  }

  lemma {:induction false} DottedConcat(a: seq<Text>, b: seq<Text>)
    requires a != [] && b != []
    ensures Dotted(a + b) == Dotted(a) + [DOT] + Dotted(b)
    decreases |a|
  {
    var all := a + b;
    assert all[0] == a[0] && all[1..] == a[1..] + b;
    if |a| > 1 { DottedConcat(a[1..], b); }
  }

  predicate Id(id: seq<Octet>) { |id| == 2 }

  /** One question: recursion desired, class IN. */
  function Query(id: seq<Octet>, qname: seq<Octet>, qtype: nat): (p: seq<Octet>)
    requires Id(id) && qtype < 256
  {
    id + [1, 0, 0, 1, 0, 0, 0, 0, 0, 0] + qname + [0, qtype, 0, 1]
  }

  // --------------------------------------------------------------- server

  /** "tolunbench.test" and its address. */
  const A_NAME: Text := [116, 111, 108, 117, 110, 98, 101, 110, 99, 104, 46, 116, 101, 115, 116]
  const A_ADDR: seq<Octet> := [10, 0, 2, 55]
  /** ".in-addr.arpa" */
  const PTR_SUFFIX: Text := [46] + IN_ADDR + [46] + ARPA
  const PTR_NUMBERS: seq<nat> := [10, 0, 2, 2]
  /** "10.0.2.2" */
  const PTR_IP: Text := [49, 48, 46, 48, 46, 50, 46, 50]
  /** "tolunnet-guest.test" */
  const PTR_LABELS: seq<Text> := [[116, 111, 108, 117, 110, 110, 101, 116, 45, 103, 117, 101, 115, 116],
      [116, 101, 115, 116]]

  function Lower(s: Text): (t: Text)
    ensures |t| == |s| && forall i :: 0 <= i < |s| ==> t[i] == if 65 <= s[i] <= 90 then s[i] + 32 else s[i]
  {
    seq(|s|, i requires 0 <= i < |s| => if 65 <= s[i] <= 90 then s[i] + 32 else s[i])
  }

  function Strip(s: Text): Text
    decreases |s|
  {
    if s != [] && s[0] == DOT then Strip(s[1..])
    else if s != [] && s[|s| - 1] == DOT then Strip(s[..|s| - 1])
    else s
  }

  /** Labels with their lengths, whatever they are, and the final zero. */
  function Lengths(parts: seq<Text>): (r: Option<seq<Octet>>)
  {
    if parts == [] then Some([0])
    else if |parts[0]| > 255 then None
    else match Lengths(parts[1..])
      case None => None
      case Some(w) => Some([|parts[0]|] + parts[0] + w)
  }

  /** The server's encoder; None where it would raise an exception. */
  function EncName(name: Text): Option<seq<Octet>> { Lengths(Split(Strip(name))) }

  method Encode(name: Text) returns (r: Option<seq<Octet>>)
    ensures r == EncName(name)
  {
    var parts := Split(Strip(name));
    var out: seq<Octet> := [];
    assert Lengths(parts).Some? ==> [] + Lengths(parts).value == Lengths(parts).value;
    assert parts[0..] == parts;
    for i := 0 to |parts|
      invariant Lengths(parts) == After(out, Lengths(parts[i..]))
    {
      hide Lengths;
      LengthsStep(parts, i, out);
      if |parts[i]| > 255 { return None; }
      out := out + ([|parts[i]|] + parts[i]);
    }
    return Some(out + [0]);
  }

  function After(out: seq<Octet>, r: Option<seq<Octet>>): Option<seq<Octet>> {
    match r case None => None case Some(w) => Some(out + w)
  }

  lemma LengthsStep(parts: seq<Text>, i: nat, out: seq<Octet>)
    requires i < |parts|
    ensures After(out, Lengths(parts[i..]))
            == if |parts[i]| > 255 then None else After(out + ([|parts[i]|] + parts[i]), Lengths(parts[i + 1..]))
  {
    assert parts[i..][1..] == parts[i + 1..];
    var rest := Lengths(parts[i + 1..]);
    if |parts[i]| <= 255 && rest.Some? {
      assert out + ([|parts[i]|] + parts[i] + rest.value) == out + ([|parts[i]|] + parts[i]) + rest.value;
    }
  }

  datatype Served = Silent | Crash | Sent(p: seq<Octet>)

  /** A reply with one question and one answer. */
  function Reply(id: seq<Octet>, name: seq<Octet>, kind: nat, rdata: seq<Octet>): (p: seq<Octet>)
    requires Id(id) && kind < WRAP && |rdata| < WRAP
  {
    id + [0x81, 0x80, 0, 1, 0, 1, 0, 0, 0, 0] + name + Word(kind) + [0, 1]
    + name + Word(kind) + [0, 1, 0, 0, 0, 60] + Word(|rdata|) + rdata
  }

  const WRAP: nat := 0x1_0000

  function Refusal(id: seq<Octet>): seq<Octet> { id + [0x81, 0x83, 0, 0, 0, 0, 0, 0] }

  function Reverse(parts: seq<Text>): seq<Text> {
    if parts == [] then [] else Reverse(parts[1..]) + [parts[0]]
  }

  /** The data of the answer to a question, if the server knows it. */
  function Zone(qname: Text, qtype: nat): (r: Option<seq<Octet>>)
    ensures r.Some? ==> |r.value| < WRAP
  {
    var low := Lower(qname);
    if qtype == TYPE_A && low == A_NAME then Some(A_ADDR)
    else if qtype == TYPE_PTR && EndsWith(low, PTR_SUFFIX)
            && Dotted(Reverse(Split(qname[..|qname| - |PTR_SUFFIX|]))) == PTR_IP then
      Some(Wire(PTR_LABELS))
    else None
  }

  /** The server's handling of one packet. */
  function Serve(data: seq<Octet>): Served {
    if |data| < 12 || WordAt(data, 4) < 1 then Silent
    else match ReadFrom(data, 12, [], 12, 0)
      case None => Crash
      case Some((qname, qend)) =>
        if qend + 4 > |data| then Crash
        else
          var qtype := WordAt(data, qend);
          match Zone(qname, qtype)
          case None => Sent(Refusal(data[..2]))
          case Some(rdata) =>
            match EncName(qname)
            case None => Crash
            case Some(name) => Sent(Reply(data[..2], name, qtype, rdata))
  }

  method Handle(data: seq<Octet>) returns (r: Served)
    ensures r == Serve(data)
  {
    hide ReadFrom, Lengths, Reply, Zone;
    if |data| < 12 || WordAt(data, 4) < 1 { return Silent; }
    var q := ReadName(data, 12);
    if q == None { return Crash; }
    var (qname, qend) := q.value;
    if qend + 4 > |data| { return Crash; }
    var qtype := WordAt(data, qend);
    var rdata := Zone(qname, qtype);
    if rdata == None { return Sent(Refusal(data[..2])); }
    var name := Encode(qname);
    if name == None { return Crash; }
    return Sent(Reply(data[..2], name.value, qtype, rdata.value));
  }

  // ------------------------------------------------- parsing what was built

  lemma {:induction false} SkipWire(before: seq<Octet>, labels: seq<Text>, after: seq<Octet>)
    requires Good(labels)
    ensures Skip(before + Wire(labels) + after, |before|) == Some(|before| + |Wire(labels)|)
    decreases |labels|
  {
    var pkt := before + Wire(labels) + after;
    if labels == [] {
      assert pkt[|before|] == 0;
    } else {
      var l := labels[0];
      var head := [|l|] + l;
      assert pkt[|before|] as nat == |l|;
      SkipWire(before + head, labels[1..], after);
      assert pkt == (before + head) + Wire(labels[1..]) + after;
    }
  }

  lemma NameCons(pkt: seq<Octet>, lim: nat, at: nat, l: Text, ls: seq<Text>, left: nat)
    requires at + 1 + |l| <= lim <= |pkt| && 1 <= |l| <= MAX_LABEL && pkt[at] as nat == |l|
    requires pkt[at + 1..at + 1 + |l|] == l
    requires NameOf(pkt, lim, at + 1 + |l|, left) == Some(ls)
    ensures NameOf(pkt, lim, at, left) == Some([l] + ls)
  {
  }

  /** An uncompressed name is its labels. */
  lemma {:induction false} NameOfWire(before: seq<Octet>, labels: seq<Text>, after: seq<Octet>, left: nat)
    requires Good(labels)
    ensures NameOf(before + Wire(labels) + after, |before| + |Wire(labels)|, |before|, left) == Some(labels)
    decreases |labels|
  {
    var pkt := before + Wire(labels) + after;
    if labels == [] {
      assert pkt[|before|] == 0;
    } else {
      hide NameOf;
      var l, rest := labels[0], labels[1..];
      GoodCons(l, rest);
      assert labels == [l] + rest;
      hide Wire;
      LabelAt(before, l, Wire(rest), after);
      NameOfWire(before + ([|l|] + l), rest, after, left);
      NameCons(pkt, |before| + |Wire(labels)|, |before|, l, rest, left);
    }
  }

  lemma LabelAt(before: seq<Octet>, l: Text, w: seq<Octet>, after: seq<Octet>)
    requires |l| <= MAX_LABEL
    ensures var pkt := before + ([|l|] + l + w) + after;
            && pkt[|before|] as nat == |l| && pkt[|before| + 1..|before| + 1 + |l|] == l
            && pkt == (before + ([|l|] + l)) + w + after
  {
  }

  /** Where the parser finds the record of a built reply. */
  lemma ReplyRecord(id: seq<Octet>, labels: seq<Text>, kind: nat, rdata: seq<Octet>)
    requires Id(id) && Good(labels) && kind < WRAP && |rdata| < WRAP
    ensures var w := Wire(labels); var p := Reply(id, w, kind, rdata); var start := 2 * |w| + 26;
            && |p| == start + |rdata| && WordAt(p, 4) == 1 && WordAt(p, 6) == 1
            && Questions(p, 12, 1) == Some(16 + |w|)
            && RecordAt(p, 16 + |w|) == Some(Record(kind, start, start + |rdata|))
            && p[start..] == rdata
  {
    hide Wire, Skip;
    var w := Wire(labels);
    var p := Reply(id, w, kind, rdata);
    var head := id + [0x81, 0x80, 0, 1, 0, 1, 0, 0, 0, 0];
    var tail := Word(kind) + [0, 1, 0, 0, 0, 60] + Word(|rdata|) + rdata;
    var middle := Word(kind) + [0, 1];
    assert p == head + w + (middle + w + tail);
    SkipWire(head, labels, middle + w + tail);
    assert Questions(p, 16 + |w|, 0) == Some(16 + |w|);
    assert p == (head + w + middle) + w + tail;
    SkipWire(head + w + middle, labels, tail);
    ReplyFields(head + w + middle + w, kind, rdata, p);
  }

  lemma ReplyFields(front: seq<Octet>, kind: nat, rdata: seq<Octet>, p: seq<Octet>)
    requires kind < WRAP && |rdata| < WRAP
    requires p == front + (Word(kind) + [0, 1, 0, 0, 0, 60] + Word(|rdata|) + rdata)
    ensures var o := |front|;
            |p| == o + 10 + |rdata| && WordAt(p, o) == kind && WordAt(p, o + 8) == |rdata| && p[o + 10..] == rdata
  {
    var o := |front|;
    assert p[o..o + 2] == Word(kind);
    assert p[o + 8..o + 10] == Word(|rdata|);
    WordIs(p, o, kind);
    WordIs(p, o + 8, |rdata|);
  }

  lemma WordIs(p: seq<Octet>, at: nat, v: nat)
    requires at + 2 <= |p| && v < WRAP && p[at..at + 2] == Word(v)
    ensures WordAt(p, at) == v
  {
    assert p[at..at + 2][0] == p[at] && p[at..at + 2][1] == p[at + 1];
  }

  /** Server to client: the parser returns the address that the reply encodes. */
  lemma AddressRoundTrip(id: seq<Octet>, labels: seq<Text>, rdata: seq<Octet>)
    requires Id(id) && Good(labels) && |rdata| == 4
    ensures Answer(Reply(id, Wire(labels), TYPE_A, rdata), TYPE_A) == Some(Address(rdata))
  {
    hide Wire, Reply, Questions, RecordAt;
    ReplyRecord(id, labels, TYPE_A, rdata);
    var p := Reply(id, Wire(labels), TYPE_A, rdata);
    assert p[|p| - 4..|p|] == p[|p| - 4..];
  }

  /** Server to client: the parser returns the host name that the reply encodes. */
  lemma HostRoundTrip(id: seq<Octet>, labels: seq<Text>, host: seq<Text>, rdata: seq<Octet>)
    requires Id(id) && Good(labels) && Good(host) && rdata == Wire(host) && |rdata| < WRAP
    ensures Answer(Reply(id, Wire(labels), TYPE_PTR, rdata), TYPE_PTR) == Some(Host(host))
  {
    hide Wire, Reply, Questions, RecordAt, NameOf;
    var p := Reply(id, Wire(labels), TYPE_PTR, rdata);
    ReplyRecord(id, labels, TYPE_PTR, rdata);
    var start := |p| - |rdata|;
    assert p == p[..start] + rdata + [];
    NameOfWire(p[..start], host, [], MAX_JUMPS);
  }

  // ------------------------------------------------------------ end to end

  /** What the client makes of the server's answer. */
  function Outcome(r: Served, want: nat): Option<Found> {
    match r case Sent(p) => Answer(p, want) case _ => None
  }

  /** The server reads the client's question: its name, type and identifier. */
  lemma QueryServed(id: seq<Octet>, labels: seq<Text>, qtype: nat)
    requires Id(id) && Good(labels) && qtype < 256
    ensures var data := Query(id, Wire(labels), qtype); var qname := Dotted(labels);
            Serve(data) == match Zone(qname, qtype)
                           case None => Sent(Refusal(id))
                           case Some(rdata) =>
                             match EncName(qname)
                             case None => Crash
                             case Some(name) => Sent(Reply(id, name, qtype, rdata))
  {
    hide Wire, ReadFrom, Zone, Lengths, Strip, Reply, EncName, Dotted;
    var w := Wire(labels);
    var data := Query(id, w, qtype);
    var head := id + [1, 0, 0, 1, 0, 0, 0, 0, 0, 0];
    var tail: seq<Octet> := [0, qtype, 0, 1];
    assert data == head + w + tail;
    ReadWire(head, labels, tail, [], 12);
    assert [] + labels == labels;
    var qend := 12 + |w|;
    assert WordAt(data, 4) == 1;
    assert data[qend] == 0 && data[qend + 1] as nat == qtype;
    assert data[..2] == id;
  }

  lemma RefusalFails(id: seq<Octet>, want: nat)
    requires Id(id)
    ensures Answer(Refusal(id), want) == None
  {
  }

  /** The server's encoder agrees with the client's on names it can read. */
  lemma {:induction false} LengthsIsWire(labels: seq<Text>)
    requires Good(labels)
    ensures Lengths(labels) == Some(Wire(labels))
    decreases |labels|
  {
    if labels != [] { LengthsIsWire(labels[1..]); }
  }

  lemma StripDotted(labels: seq<Text>)
    requires labels != [] && Good(labels) && NoDots(labels)
    ensures Strip(Dotted(labels)) == Dotted(labels)
  {
    DottedEnds(labels);
  }

  lemma {:induction false} DottedEnds(labels: seq<Text>)
    requires labels != [] && Good(labels) && NoDots(labels)
    ensures var t := Dotted(labels); t != [] && t[0] != DOT && t[|t| - 1] != DOT
    decreases |labels|
  {
    var l := labels[0];
    assert l[0] in l && l[|l| - 1] in l;
    if |labels| > 1 {
      DottedEnds(labels[1..]);
      var t := Dotted(labels[1..]);
      assert (l + [DOT] + t)[|l| + |t|] == t[|t| - 1];
    }
  }

  lemma EncodesBack(labels: seq<Text>)
    requires labels != [] && Good(labels) && NoDots(labels)
    ensures EncName(Dotted(labels)) == Some(Wire(labels))
  {
    StripDotted(labels);
    SplitDotted(labels);
    LengthsIsWire(labels);
  }

  /** A lookup by labels: found exactly when the server's zone has the name. */
  lemma LookupLabels(id: seq<Octet>, labels: seq<Text>, qtype: nat)
    requires Id(id) && labels != [] && Good(labels) && NoDots(labels) && (qtype == TYPE_A || qtype == TYPE_PTR)
    ensures var z := Zone(Dotted(labels), qtype);
            Outcome(Serve(Query(id, Wire(labels), qtype)), qtype)
            == if z == None then None else if qtype == TYPE_A then Some(Address(A_ADDR)) else Some(Host(PTR_LABELS))
  {
    hide Wire, Reply, Answer, Serve, EncName, Dotted, Query;
    QueryServed(id, labels, qtype);
    EncodesBack(labels);
    RefusalFails(id, qtype);
    var z := Zone(Dotted(labels), qtype);
    if z.Some? {
      ZoneData(Dotted(labels), qtype);
      if qtype == TYPE_A {
        AddressRoundTrip(id, labels, z.value);
      } else {
        HostRoundTrip(id, labels, PTR_LABELS, z.value);
      }
    }
  }

  lemma ZoneData(qname: Text, qtype: nat)
    requires Zone(qname, qtype).Some?
    ensures qtype == TYPE_A ==> Zone(qname, qtype).value == A_ADDR
    ensures qtype == TYPE_PTR ==> Zone(qname, qtype).value == Wire(PTR_LABELS)
    ensures Good(PTR_LABELS)
  {
  }

  /** Looking a name up: the address comes back if and only if the name, without
      one trailing dot and whatever its case, is the one the server knows. */
  lemma LookupName(id: seq<Octet>, name: Text)
    requires Id(id) && |name| <= 253 && QName(name, false).Some?
    ensures var base := Dotted(LabelsOf(name));
            && (name == base || name == base + [DOT])
            && Outcome(Serve(Query(id, QName(name, false).value, TYPE_A)), TYPE_A)
               == if Lower(base) == A_NAME then Some(Address(A_ADDR)) else None
  {
    hide Wire, Serve, Answer, Query, PutLabels, LabelsOf, Dotted;
    PutLabelsIs(name);
    LabelsBack(name);
    var labels := LabelsOf(name);
    if labels == [] {
      QueryServed(id, labels, TYPE_A);
      RefusalFails(id, TYPE_A);
      NoLabels();
    } else {
      LookupLabels(id, labels, TYPE_A);
    }
  }

  lemma NoLabels()
    ensures Dotted([]) == [] && Zone([], TYPE_A) == None && Lower([]) != A_NAME
  {
  }

  // --------------------------------------------------------- reverse lookups

  /** The four numbers in order, as the server puts them together again. */
  function Forward(v: seq<nat>): Text
    requires |v| == 4
  {
    Dotted([Dec(v[0]), Dec(v[1]), Dec(v[2]), Dec(v[3])])
  }

  lemma ReverseName(v: seq<nat>)
    requires |v| == 4
    ensures var name := Dotted(ReverseLabels(v));
            && EndsWith(name, PTR_SUFFIX)
            && Dotted(Reverse(Split(name[..|name| - |PTR_SUFFIX|]))) == Forward(v)
  {
    hide Dec;
    var front := [Dec(v[3]), Dec(v[2]), Dec(v[1]), Dec(v[0])];
    var back := [IN_ADDR, ARPA];
    assert ReverseLabels(v) == front + back;
    DottedConcat(front, back);
    DottedConcat([IN_ADDR], [ARPA]);
    assert back == [IN_ADDR] + [ARPA];
    var name := Dotted(ReverseLabels(v));
    assert name == Dotted(front) + PTR_SUFFIX;
    SplitDotted(front);
    assert name[..|name| - |PTR_SUFFIX|] == Dotted(front);
    ReverseFour(Dec(v[3]), Dec(v[2]), Dec(v[1]), Dec(v[0]));
  }

  lemma ReverseFour(a: Text, b: Text, c: Text, d: Text)
    ensures Reverse([a, b, c, d]) == [d, c, b, a]
  {
    assert [a, b, c, d][1..] == [b, c, d] && [b, c, d][1..] == [c, d] && [c, d][1..] == [d] && [d][1..] == [];
    assert Reverse([d]) == [d];
    assert Reverse([c, d]) == [d, c];
    assert Reverse([b, c, d]) == [d, c, b];
  }

  lemma ForwardInjective(v: seq<nat>, w: seq<nat>)
    requires |v| == 4 && |w| == 4 && (forall i :: 0 <= i < 4 ==> v[i] < 1000 && w[i] < 1000)
    ensures Forward(v) == Forward(w) <==> v == w
  {
    hide Dec, Dotted;
    var a, b := [Dec(v[0]), Dec(v[1]), Dec(v[2]), Dec(v[3])], [Dec(w[0]), Dec(w[1]), Dec(w[2]), Dec(w[3])];
    SplitDotted(a);
    SplitDotted(b);
    if Forward(v) == Forward(w) {
      assert a == b;
      assert a[0] == b[0] && a[1] == b[1] && a[2] == b[2] && a[3] == b[3];
      DecValue(v[0]); DecValue(v[1]); DecValue(v[2]); DecValue(v[3]);
      DecValue(w[0]); DecValue(w[1]); DecValue(w[2]); DecValue(w[3]);
    }
  }

  lemma KnownIp()
    ensures Forward(PTR_NUMBERS) == PTR_IP
  {
    assert Dec(10) == [49, 48] && Dec(0) == [48] && Dec(2) == [50];
    DottedConcat([Dec(10)], [Dec(0), Dec(2), Dec(2)]);
    DottedConcat([Dec(0)], [Dec(2), Dec(2)]);
    DottedConcat([Dec(2)], [Dec(2)]);
  }

  lemma LowerSuffix(s: Text)
    requires EndsWith(s, PTR_SUFFIX)
    ensures EndsWith(Lower(s), PTR_SUFFIX)
  {
    var k := |s| - |PTR_SUFFIX|;
    forall i | 0 <= i < |PTR_SUFFIX| ensures Lower(s)[k..][i] == PTR_SUFFIX[i] { assert s[k..][i] == s[k + i]; }
  }

  /** The server reads the reversed name and finds the address in it. */
  lemma ReverseZone(v: seq<nat>)
    requires |v| == 4 && forall i :: 0 <= i < 4 ==> v[i] <= 255
    ensures Zone(Dotted(ReverseLabels(v)), TYPE_PTR).Some? <==> v == PTR_NUMBERS
  {
    hide Dotted, Dec, Split, ReverseLabels;
    ReverseName(v);
    LowerSuffix(Dotted(ReverseLabels(v)));
    KnownIp();
    ForwardInjective(v, PTR_NUMBERS);
  }

  /** Looking an address up: the question is the reverse name of its numbers,
      and the host comes back if and only if they are the known ones. */
  lemma LookupAddress(id: seq<Octet>, name: Text)
    requires Id(id) && Quad(name, 4).Some?
    ensures var v := Quad(name, 4).value;
            && QName(name, true) == Some(Wire(ReverseLabels(v)))
            && Outcome(Serve(Query(id, Wire(ReverseLabels(v)), TYPE_PTR)), TYPE_PTR)
               == if v == PTR_NUMBERS then Some(Host(PTR_LABELS)) else None
  {
    hide Wire, Serve, Answer, Query, PutLabels, Dotted, Numbers, Quad, ReverseLabels, Zone;
    var v := Quad(name, 4).value;
    NumbersOfQuad(name);
    var labels := ReverseLabels(v);
    ReverseNotEmpty(v);
    PutDotted(labels);
    ReverseZone(v);
    LookupLabels(id, labels, TYPE_PTR);
  }

  lemma ReverseNotEmpty(v: seq<nat>)
    requires |v| == 4
    ensures ReverseLabels(v) != []
  {
  }

  lemma PutDotted(labels: seq<Text>)
    requires labels != [] && Good(labels) && NoDots(labels)
    ensures PutLabels(Dotted(labels)) == Some(Wire(labels))
  {
    PutLabelsIs(Dotted(labels));
    SplitDotted(labels);
  }
}
