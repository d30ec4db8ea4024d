/** The reply parser of the lookup command: total on every packet, and a pointer
    name it returns is the expansion of section 4.1.4 of RFC 1035. */
module DnsReply {
  import opened Seqs
  import opened Octets
  import opened DnsName
  import DnsQuad

  const TYPE_A: nat := 1
  const TYPE_PTR: nat := 12
  const MAX_JUMPS: nat := 32

  // ------------------------------------------------- names by RFC 1035

  /** The name at `off` is `labels`, reached over `jumps` compression pointers.
      Up to the first pointer it must end before `lim`. */
  ghost predicate Expands(pkt: seq<Octet>, lim: nat, off: nat, labels: seq<Text>, jumps: nat)
    requires lim <= |pkt|
    decreases |labels| + jumps
  {
    off < lim &&
    var l := pkt[off] as nat;
    if l == 0 then labels == [] && jumps == 0
    else if l >= 0xC0 then
      off + 1 < lim && jumps > 0 && Expands(pkt, |pkt|, (l - 0xC0) * 256 + pkt[off + 1] as nat, labels, jumps - 1)
    else
      l < 0x40 && off + 1 + l <= lim && labels != [] && labels[0] == pkt[off + 1..off + 1 + l]
      && Expands(pkt, lim, off + 1 + l, labels[1..], jumps)
  }

  /** What the parser's loop over a name finds with `left` jumps to go. */
  function NameOf(pkt: seq<Octet>, lim: nat, off: nat, left: nat): (r: Option<seq<Text>>)
    requires lim <= |pkt|
    ensures r.Some? ==> Good(r.value)
    decreases left, lim - off
  {
    if off >= lim then None
    else
      var l := pkt[off] as nat;
      if l == 0 then Some([])
      else if l >= 0xC0 then
        if off + 1 >= lim || left == 0 then None
        else NameOf(pkt, |pkt|, (l - 0xC0) * 256 + pkt[off + 1] as nat, left - 1)
      else if l >= 0x40 || off + 1 + l > lim then None
      else match NameOf(pkt, lim, off + 1 + l, left)
        case None => None
        case Some(ls) => Some([pkt[off + 1..off + 1 + l]] + ls)
  }

  /** The jumps that the name at `off` takes. */
  function Jumps(pkt: seq<Octet>, lim: nat, off: nat, left: nat): (j: nat)
    requires lim <= |pkt|
    ensures j <= left
    decreases left, lim - off
  {
    if off >= lim then 0
    else
      var l := pkt[off] as nat;
      if l == 0 then 0
      else if l >= 0xC0 then
        if off + 1 >= lim || left == 0 then 0
        else 1 + Jumps(pkt, |pkt|, (l - 0xC0) * 256 + pkt[off + 1] as nat, left - 1)
      else if l >= 0x40 || off + 1 + l > lim then 0
      else Jumps(pkt, lim, off + 1 + l, left)
  }

  lemma {:induction false} FoundExpands(pkt: seq<Octet>, lim: nat, off: nat, left: nat)
    requires lim <= |pkt| && NameOf(pkt, lim, off, left).Some?
    ensures Expands(pkt, lim, off, NameOf(pkt, lim, off, left).value, Jumps(pkt, lim, off, left))
    decreases left, lim - off
  {
    var l := pkt[off] as nat;
    if l >= 0xC0 {
      FoundExpands(pkt, |pkt|, (l - 0xC0) * 256 + pkt[off + 1] as nat, left - 1);
    } else if l > 0 {
      FoundExpands(pkt, lim, off + 1 + l, left);
    }
  }

  lemma {:induction false} ExpandsFound(pkt: seq<Octet>, lim: nat, off: nat, labels: seq<Text>, jumps: nat, left: nat)
    requires lim <= |pkt| && Expands(pkt, lim, off, labels, jumps) && jumps <= left
    ensures NameOf(pkt, lim, off, left) == Some(labels)
    decreases |labels| + jumps
  {
    var l := pkt[off] as nat;
    if l >= 0xC0 {
      ExpandsFound(pkt, |pkt|, (l - 0xC0) * 256 + pkt[off + 1] as nat, labels, jumps - 1, left - 1);
    } else if l > 0 {
      ExpandsFound(pkt, lim, off + 1 + l, labels[1..], jumps, left);
      assert labels == [labels[0]] + labels[1..];
    }
  }

  ghost predicate IsName(pkt: seq<Octet>, lim: nat, off: nat, labels: seq<Text>)
    requires lim <= |pkt|
  {
    exists jumps: nat :: Expands(pkt, lim, off, labels, jumps) && jumps <= MAX_JUMPS
  }

  /** The parser finds a name exactly when there is one within 32 jumps, and it
      is that one. */
  lemma NameIsExpansion(pkt: seq<Octet>, lim: nat, off: nat, labels: seq<Text>)
    requires lim <= |pkt|
    ensures NameOf(pkt, lim, off, MAX_JUMPS) == Some(labels) <==> IsName(pkt, lim, off, labels)
  {
    if NameOf(pkt, lim, off, MAX_JUMPS) == Some(labels) {
      FoundExpands(pkt, lim, off, MAX_JUMPS);
      var j := Jumps(pkt, lim, off, MAX_JUMPS);
      assert Expands(pkt, lim, off, labels, j) && j <= MAX_JUMPS;
      assert IsName(pkt, lim, off, labels);
    }
    if IsName(pkt, lim, off, labels) {
      var jumps: nat :| Expands(pkt, lim, off, labels, jumps) && jumps <= MAX_JUMPS;
      ExpandsFound(pkt, lim, off, labels, jumps, MAX_JUMPS);
      assert NameOf(pkt, lim, off, MAX_JUMPS) == Some(labels);
    }
  }

  /** A limit only ever shortens: the name is also the packet's own name there. */
  lemma {:induction false} ExpandsInPacket(pkt: seq<Octet>, lim: nat, off: nat, labels: seq<Text>, jumps: nat)
    requires lim <= |pkt| && Expands(pkt, lim, off, labels, jumps)
    ensures Expands(pkt, |pkt|, off, labels, jumps)
    decreases |labels| + jumps
  {
    var l := pkt[off] as nat;
    if 0 < l < 0xC0 { ExpandsInPacket(pkt, lim, off + 1 + l, labels[1..], jumps); }
  }

  // ------------------------------------------------------------- records

  /** The offset past a name, compressed or not. */
  function Skip(pkt: seq<Octet>, off: nat): (r: Option<nat>)
    ensures r.Some? ==> off < r.value <= |pkt|
    decreases |pkt| - off
  {
    if off >= |pkt| then None
    else
      var l := pkt[off] as nat;
      if l == 0 then Some(off + 1)
      else if l >= 0xC0 then (if off + 1 >= |pkt| then None else Some(off + 2))
      else if l >= 0x40 then None
      else Skip(pkt, off + 1 + l)
  }

  function Questions(pkt: seq<Octet>, off: nat, n: nat): (r: Option<nat>)
    decreases n
  {
    if n == 0 then Some(off)
    else match Skip(pkt, off)
      case None => None
      case Some(e) => Questions(pkt, e + 4, n - 1)
  }

  datatype Found = Address(octets: seq<Octet>) | Host(labels: seq<Text>)

  /** A resource record: its type, and its data from `start` to `end`. */
  datatype Record = Record(kind: nat, start: nat, end: nat)

  function RecordAt(pkt: seq<Octet>, off: nat): (r: Option<Record>)
    ensures r.Some? ==> off < r.value.start <= r.value.end <= |pkt|
  {
    match Skip(pkt, off)
    case None => None
    case Some(o) =>
      if o + 10 > |pkt| || o + 10 + WordAt(pkt, o + 8) > |pkt| then None
      else Some(Record(WordAt(pkt, o), o + 10, o + 10 + WordAt(pkt, o + 8)))
  }

  /** The first matching answer among `n` records from `off` on. */
  function AnswerFrom(pkt: seq<Octet>, want: nat, off: nat, n: nat): (r: Option<Found>)
    decreases n
  {
    if n == 0 then None
    else match RecordAt(pkt, off)
      case None => None
      case Some(rec) =>
        if rec.kind == want == TYPE_A && rec.end - rec.start == 4 then Some(Address(pkt[rec.start..rec.end]))
        else if rec.kind == want == TYPE_PTR then
          match NameOf(pkt, rec.end, rec.start, MAX_JUMPS) case None => None case Some(ls) => Some(Host(ls))
        else AnswerFrom(pkt, want, rec.end, n - 1)
  }

  function Answer(pkt: seq<Octet>, want: nat): (r: Option<Found>) {
    if |pkt| < 12 || WordAt(pkt, 6) == 0 then None
    else match Questions(pkt, 12, WordAt(pkt, 4))
      case None => None
      case Some(off) => AnswerFrom(pkt, want, off, WordAt(pkt, 6))
  }

  // --------------------------------------------------------------- parser

  function Cut(t: Text, room: nat): (r: Text)
    ensures |r| <= room
  {
    if |t| <= room then t else t[..room]
  }

  lemma CutMore(t: Text, u: Text, room: nat)
    ensures Cut(Cut(t, room) + u, room) == Cut(t + u, room)
  {
  }

  /** Appends as much of `t` as fits. */
  method Append(out: array<Octet>, o: nat, t: Text) returns (n: nat)
    requires o < out.Length
    modifies out
    ensures o <= n < out.Length && out[..n] == Cut(old(out[..o]) + t, out.Length - 1)
  {
    n := o;
    var k := 0;
    ghost var was := out[..o];
    assert t[..0] == [];
    while k < |t| && n < out.Length - 1
      invariant 0 <= k <= |t| && n == o + k < out.Length && out[..n] == was + t[..k]
    {
      out[n] := t[k];
      n, k := n + 1, k + 1;
    }
    if k == |t| {
      assert t[..k] == t;
    } else {
      assert (was + t)[..out.Length - 1] == was + t[..k];
    }
  }

  lemma DottedMore(labels: seq<Text>, l: Text)
    ensures Dotted(labels + [l]) == if labels == [] then l else Dotted(labels) + [DOT] + l
    decreases |labels|
  {
    var all := labels + [l];
    if labels != [] {
      assert all[0] == labels[0] && all[1..] == labels[1..] + [l];
      DottedMore(labels[1..], l);
    }
  }

  method SkipName(pkt: seq<Octet>, start: nat) returns (r: Option<nat>)
    ensures r == Skip(pkt, start)
  {
    var off := start;
    while off < |pkt|
      invariant Skip(pkt, start) == Skip(pkt, off)
      decreases |pkt| - off
    {
      var l := pkt[off] as nat;
      if l == 0 { return Some(off + 1); }
      if l >= 0xC0 { return if off + 1 >= |pkt| then None else Some(off + 2); }
      if l >= 0x40 { return None; }
      off := off + 1 + l;
    }
    return None;
  }

  /** Writes the name of a PTR record; every read is inside the packet and every
      write inside the output. */
  method WriteName(pkt: seq<Octet>, start: nat, end: nat, out: array<Octet>) returns (o: int)
    requires start <= end <= |pkt| && out.Length >= 2
    modifies out
    ensures match NameOf(pkt, end, start, MAX_JUMPS)
            case None => o == -1
            case Some(ls) => 0 <= o < out.Length && out[..o] == Cut(Dotted(ls), out.Length - 1) && out[o] == 0
  {
    hide NameOf;
    var p: nat, lim: nat, guard: nat := start, end, 0;
    var n: nat := 0;
    ghost var got: seq<Text> := [];
    GotNone(pkt, end, start);
    assert out[..n] == Cut(Dotted(got), out.Length - 1);
    hide Dotted, Cut, Good, Prepend;
    while true
      invariant lim <= |pkt| && 0 <= guard <= MAX_JUMPS && n < out.Length && Good(got)
      invariant out[..n] == Cut(Dotted(got), out.Length - 1)
      invariant NameOf(pkt, end, start, MAX_JUMPS) == Prepend(got, NameOf(pkt, lim, p, MAX_JUMPS - guard))
      decreases MAX_JUMPS - guard, lim - p
    {
      NameStep(pkt, lim, p, MAX_JUMPS - guard, got);
      if p >= lim { return -1; }
      var l := pkt[p] as nat;
      if l == 0 { break; }
      if l >= 0xC0 {
        if p + 1 >= lim { return -1; }
        p := (l - 0xC0) * 256 + pkt[p + 1] as nat;
        lim := |pkt|;
        guard := guard + 1;
        if guard > MAX_JUMPS { return -1; }
      } else {
        if l >= 0x40 || p + 1 + l > lim { return -1; }
        ghost var part := pkt[p + 1..p + 1 + l];
        n := WriteLabel(out, n, pkt[p + 1..p + 1 + l], got);
        GoodMore(got, part);
        got := got + [part];
        p := p + 1 + l;
      }
    }
    out[n] := 0;
    return n;
  }

  lemma GoodMore(got: seq<Text>, part: Text)
    requires Good(got) && 1 <= |part| <= MAX_LABEL
    ensures Good(got + [part])
  {
  }

  function Prepend(got: seq<Text>, r: Option<seq<Text>>): Option<seq<Text>> {
    match r case None => None case Some(ls) => Some(got + ls)
  }

  lemma GotNone(pkt: seq<Octet>, lim: nat, off: nat)
    requires lim <= |pkt|
    ensures NameOf(pkt, lim, off, MAX_JUMPS) == Prepend([], NameOf(pkt, lim, off, MAX_JUMPS))
  {
    var r := NameOf(pkt, lim, off, MAX_JUMPS);
    if r.Some? { assert [] + r.value == r.value; }
  }

  /** One round of the loop over a name. */
  lemma NameStep(pkt: seq<Octet>, lim: nat, p: nat, left: nat, got: seq<Text>)
    requires lim <= |pkt|
    ensures var r := Prepend(got, NameOf(pkt, lim, p, left));
            if p >= lim then r == None
            else
              var l := pkt[p] as nat;
              if l == 0 then r == Some(got)
              else if l >= 0xC0 then
                r == if p + 1 >= lim || left == 0 then None
                     else Prepend(got, NameOf(pkt, |pkt|, (l - 0xC0) * 256 + pkt[p + 1] as nat, left - 1))
              else if l >= 0x40 || p + 1 + l > lim then r == None
              else r == Prepend(got + [pkt[p + 1..p + 1 + l]], NameOf(pkt, lim, p + 1 + l, left))
  {
    assert got + [] == got;
    if p < lim && 0 < pkt[p] as nat < 0x40 && p + 1 + pkt[p] as nat <= lim {
      var l := pkt[p] as nat;
      var part := pkt[p + 1..p + 1 + l];
      var more := NameOf(pkt, lim, p + 1 + l, left);
      if more.Some? { assert got + ([part] + more.value) == got + [part] + more.value; }
    }
  }

  /** Appends a label, with a dot before it unless it is the first. */
  method WriteLabel(out: array<Octet>, o: nat, part: Text, ghost got: seq<Text>) returns (n: nat)
    requires o < out.Length && out.Length >= 2 && out[..o] == Cut(Dotted(got), out.Length - 1) && Good(got)
    modifies out
    ensures n < out.Length && out[..n] == Cut(Dotted(got + [part]), out.Length - 1)
  {
    DottedMore(got, part);
    ghost var room := out.Length - 1;
    n := o;
    if got != [] { DottedNotEmpty(got); }
    if o > 0 {
      n := Append(out, n, [DOT]);
      CutMore(Dotted(got), [DOT], room);
    }
    ghost var before := if got == [] then [] else Dotted(got) + [DOT];
    assert out[..n] == Cut(before, room);
    n := Append(out, n, part);
    CutMore(before, part, room);
  }

  lemma DottedNotEmpty(labels: seq<Text>)
    requires labels != [] && Good(labels)
    ensures Dotted(labels) != []
  {
  }

  /** An address as text. */
  function AddressText(octets: seq<Octet>): (t: Text)
    requires |octets| == 4
    ensures |t| <= 15
  {
    DnsQuad.Dec(octets[0] as nat) + [DOT] + DnsQuad.Dec(octets[1] as nat) + [DOT]
    + DnsQuad.Dec(octets[2] as nat) + [DOT] + DnsQuad.Dec(octets[3] as nat)
  }

  /** What the user is shown. */
  function Shown(f: Found): (t: Text)
    requires f.Address? ==> |f.octets| == 4
  {
    match f case Address(octets) => AddressText(octets) case Host(labels) => Dotted(labels)
  }

  /** The output buffer after a search with result `r`. */
  ghost predicate Reports(out: array<Octet>, rc: int, r: Option<Found>)
    reads out
  {
    match r
    case None => rc == -1
    case Some(f) => rc == 0 && (f.Address? ==> |f.octets| == 4)
                    && exists o :: 0 <= o < out.Length && out[o] == 0 && out[..o] == Cut(Shown(f), out.Length - 1)
  }

  /** The reply parser: -1, or 0 with the NUL-terminated answer, cut to the
      buffer. It ends on every packet and stays inside both buffers. */
  method ParseReply(pkt: seq<Octet>, want: nat, out: array<Octet>) returns (rc: int)
    requires out.Length >= 16
    modifies out
    ensures Reports(out, rc, Answer(pkt, want))
  {
    hide Questions, AnswerFrom;
    if |pkt| < 12 { return -1; }
    var ancount := WordAt(pkt, 6);
    if ancount == 0 { return -1; }
    var off := SkipQuestions(pkt, WordAt(pkt, 4));
    if off == None { return -1; }
    rc := FirstMatch(pkt, want, off.value, ancount, out);
  }

  method SkipQuestions(pkt: seq<Octet>, qdcount: nat) returns (r: Option<nat>)
    ensures r == Questions(pkt, 12, qdcount)
  {
    var off: nat := 12;
    for qd := 0 to qdcount
      invariant Questions(pkt, 12, qdcount) == Questions(pkt, off, qdcount - qd)
    {
      var e := SkipName(pkt, off);
      if e == None { return None; }
      off := e.value + 4;
    }
    return Some(off);
  }

  method FirstMatch(pkt: seq<Octet>, want: nat, from: nat, ancount: nat, out: array<Octet>) returns (rc: int)
    requires out.Length >= 16
    modifies out
    ensures Reports(out, rc, AnswerFrom(pkt, want, from, ancount))
  {
    hide NameOf, Dotted, AddressText, RecordAt;
    var off := from;
    for an := 0 to ancount
      invariant AnswerFrom(pkt, want, from, ancount) == AnswerFrom(pkt, want, off, ancount - an)
    {
      var rec := ReadRecord(pkt, off);
      if rec == None { return -1; }
      var start, end := rec.value.start, rec.value.end;
      if rec.value.kind == want == TYPE_A && end - start == 4 {
        WriteAddress(pkt[start..end], out);
        return 0;
      }
      if rec.value.kind == want == TYPE_PTR {
        var o := WriteName(pkt, start, end, out);
        return if o < 0 then -1 else 0;
      }
      off := end;
    }
    return -1;
  }

  method ReadRecord(pkt: seq<Octet>, off: nat) returns (r: Option<Record>)
    ensures r == RecordAt(pkt, off)
  {
    var e := SkipName(pkt, off);
    if e == None || e.value + 10 > |pkt| { return None; }
    var o := e.value;
    var kind, rdlength := WordAt(pkt, o), WordAt(pkt, o + 8);
    if o + 10 + rdlength > |pkt| { return None; }
    return Some(Record(kind, o + 10, o + 10 + rdlength));
  }

  method WriteAddress(octets: seq<Octet>, out: array<Octet>)
    requires |octets| == 4 && out.Length >= 16
    modifies out
    ensures exists o :: 0 <= o < out.Length && out[o] == 0 && out[..o] == Cut(AddressText(octets), out.Length - 1)
  {
    var t := AddressText(octets);
    var o := Append(out, 0, t);
    out[o] := 0;
    assert out[..0] + t == t;
  }

  /** A host name the parser returns stands in the data of a PTR record of the
      packet, and is the name there as section 4.1.4 of RFC 1035 expands it. */
  ghost predicate HostRecord(pkt: seq<Octet>, labels: seq<Text>, off: nat) {
    var rec := RecordAt(pkt, off);
    rec.Some? && rec.value.kind == TYPE_PTR && IsName(pkt, rec.value.end, rec.value.start, labels)
    && IsName(pkt, |pkt|, rec.value.start, labels)
  }

  lemma {:induction false} HostIsExpansion(pkt: seq<Octet>, off: nat, n: nat)
    requires AnswerFrom(pkt, TYPE_PTR, off, n).Some?
    ensures var f := AnswerFrom(pkt, TYPE_PTR, off, n).value; f.Host? && exists at: nat :: HostRecord(pkt, f.labels, at)
    decreases n
  {
    var rec := RecordAt(pkt, off).value;
    if rec.kind == TYPE_PTR {
      var labels := NameOf(pkt, rec.end, rec.start, MAX_JUMPS).value;
      NameIsExpansion(pkt, rec.end, rec.start, labels);
      NameInPacket(pkt, rec.end, rec.start, labels);
      assert HostRecord(pkt, labels, off);
    } else {
      HostIsExpansion(pkt, rec.end, n - 1);
    }
  }

  lemma NameInPacket(pkt: seq<Octet>, lim: nat, off: nat, labels: seq<Text>)
    requires lim <= |pkt| && IsName(pkt, lim, off, labels)
    ensures IsName(pkt, |pkt|, off, labels)
  {
    var jumps: nat :| Expands(pkt, lim, off, labels, jumps) && jumps <= MAX_JUMPS;
    ExpandsInPacket(pkt, lim, off, labels, jumps);
  }
}
