/** Domain names: the encoder of the lookup command, the reader and encoder of
    the test server, and the round trips between them. */
module DnsName {
  import opened Seqs
  import opened Octets

  type Text = seq<Octet>

  const DOT: Octet := 46
  const MAX_LABEL: nat := 63

  // --------------------------------------------------------------- labels

  function DotAt(s: Text): (n: nat)
    ensures n <= |s| && (n < |s| ==> s[n] == DOT) && forall i :: 0 <= i < n ==> s[i] != DOT
  {
    if s == [] || s[0] == DOT then 0 else 1 + DotAt(s[1..])
  }

  /** Python's split at dots: always at least one part. */
  function Split(s: Text): (parts: seq<Text>)
    ensures parts != []
    decreases |s|
  {
    var d := DotAt(s);
    if d == |s| then [s] else [s[..d]] + Split(s[d + 1..])
  }

  function Dotted(labels: seq<Text>): Text {
    if labels == [] then []
    else if |labels| == 1 then labels[0]
    else labels[0] + [DOT] + Dotted(labels[1..])
  }

  predicate NoDots(labels: seq<Text>) { forall i :: 0 <= i < |labels| ==> DOT !in labels[i] }

  lemma DotAtIs(a: Text, s: Text)
    requires DOT !in a
    ensures DotAt(a) == |a| && DotAt(a + [DOT] + s) == |a|
  {
    var t := a + [DOT] + s;
    assert t[|a|] == DOT;
    assert forall i :: 0 <= i < |a| ==> t[i] == a[i];
  }

  lemma {:induction false} SplitDotted(labels: seq<Text>)
    requires labels != [] && NoDots(labels)
    ensures Split(Dotted(labels)) == labels
    decreases |labels|
  {
    if |labels| == 1 {
      DotAtIs(labels[0], []);
    } else {
      var rest := Dotted(labels[1..]);
      DotAtIs(labels[0], rest);
      SplitDotted(labels[1..]);
      var t := labels[0] + [DOT] + rest;
      assert t[..|labels[0]|] == labels[0] && t[|labels[0]| + 1..] == rest;
    }
  }

  lemma {:induction false} DottedSplit(s: Text)
    ensures Dotted(Split(s)) == s && NoDots(Split(s))
    decreases |s|
  {
    var d := DotAt(s);
    if d < |s| {
      DottedSplit(s[d + 1..]);
      assert s == s[..d] + [DOT] + s[d + 1..];
    }
  }

  /** The labels a name stands for: one trailing dot does not count. */
  function LabelsOf(name: Text): (labels: seq<Text>) {
    var parts := Split(name);
    if parts[|parts| - 1] == [] then parts[..|parts| - 1] else parts
  }

  predicate Good(labels: seq<Text>) { forall i :: 0 <= i < |labels| ==> 1 <= |labels[i]| <= MAX_LABEL }

  /** Labels with their lengths and the final zero: section 3.1 of RFC 1035. */
  function Wire(labels: seq<Text>): (w: seq<Octet>)
    requires Good(labels)
    ensures w != []
  {
    if labels == [] then [0] else [|labels[0]|] + labels[0] + Wire(labels[1..])
  }

  // ----------------------------------------------------------- the client

  /** The encoder's loop on what is left of the name. */
  function PutLabels(name: Text): (r: Option<seq<Octet>>)
    ensures r.Some? ==> |r.value| <= |name| + 2
    decreases |name|
  {
    if name == [] then Some([0])
    else
      var d := DotAt(name);
      if d == 0 || d > MAX_LABEL then None
      else if d == |name| then Some([d] + name + [0])
      else match PutLabels(name[d + 1..])
        case None => None
        case Some(q) => Some([d] + name[..d] + q)
  }

  /** The encoder accepts exactly the names whose labels have 1 to 63 octets,
      and writes them. */
  lemma {:induction false} PutLabelsIs(name: Text)
    ensures PutLabels(name) == if Good(LabelsOf(name)) then Some(Wire(LabelsOf(name))) else None
    decreases |name|
  {
    hide Split, LabelsOf, Wire, Good;
    var d := DotAt(name);
    LabelsStep(name);
    GoodNone();
    if name == [] {
    } else if d == |name| {
      GoodCons(name, []);
      assert [name] + [] == [name];
    } else {
      PutLabelsIs(name[d + 1..]);
      GoodCons(name[..d], LabelsOf(name[d + 1..]));
    }
  }

  lemma {:induction false} LabelsStep(name: Text)
    ensures var d := DotAt(name);
            LabelsOf(name) == if name == [] then [] else if d == |name| then [name]
                              else [name[..d]] + LabelsOf(name[d + 1..])
  {
    var d := DotAt(name);
    if d < |name| {
      var more := Split(name[d + 1..]);
      assert Split(name) == [name[..d]] + more;
    } else {
      assert Split(name) == [name];
    }
  }

  lemma GoodNone()
    ensures Good([]) && Wire([]) == [0]
  {
  }

  lemma GoodCons(l: Text, ls: seq<Text>)
    ensures Good([l] + ls) <==> 1 <= |l| <= MAX_LABEL && Good(ls)
    ensures Good([l] + ls) ==> Wire([l] + ls) == [|l|] + l + Wire(ls)
  {
    var all := [l] + ls;
    assert all[1..] == ls && all[0] == l;
    if Good(all) {
      forall i | 0 <= i < |ls| ensures 1 <= |ls[i]| <= MAX_LABEL { assert all[i + 1] == ls[i]; }
    }
  }

  /** The encoder, writing into its buffer; -1 for a bad name. */
  method PutName(q: array<Octet>, name: Text) returns (o: int)
    requires q.Length >= |name| + 2
    modifies q
    ensures match PutLabels(name) case None => o == -1 case Some(w) => o == |w| && q[..o] == w
  {
    hide PutLabels, Written;
    var p: Text := name;
    o := 0;
    ghost var done: seq<Octet> := [];
    WrittenStart(name);
    while p != []
      invariant 0 <= o && o + |p| <= |name| + (if p == [] then 1 else 0) && q[..o] == done && Written(name, p, done)
      decreases |p|
    {
      var d := FindDot(p);
      WrittenStep(name, p, done);
      if d == 0 || d > MAX_LABEL { return -1; }
      q[o] := d;
      CopyText(q, o + 1, p[..d]);
      assert q[..o + 1 + d] == done + [d] + p[..d];
      done := done + [d] + p[..d];
      o := o + 1 + d;
      p := if d == |p| then [] else p[d + 1..];
    }
    WrittenEnd(name, done);
    q[o] := 0;
    o := o + 1;
  }

  /** The loop has written `done` and `p` is left. */
  ghost predicate Written(name: Text, p: Text, done: seq<Octet>) {
    PutLabels(name) == match PutLabels(p) case None => None case Some(w) => Some(done + w)
  }

  lemma WrittenStart(name: Text)
    ensures Written(name, name, [])
  {
    assert PutLabels(name).Some? ==> [] + PutLabels(name).value == PutLabels(name).value;
  }

  lemma WrittenStep(name: Text, p: Text, done: seq<Octet>)
    requires Written(name, p, done) && p != []
    ensures var d := DotAt(p);
            if d == 0 || d > MAX_LABEL then PutLabels(name) == None
            else Written(name, if d == |p| then [] else p[d + 1..], done + [d] + p[..d])
  {
    var d := DotAt(p);
    if 1 <= d <= MAX_LABEL { PutStep(p, done); }
  }

  lemma WrittenEnd(name: Text, done: seq<Octet>)
    requires Written(name, [], done)
    ensures PutLabels(name) == Some(done + [0])
  {
  }

  /** One label of the loop. */
  lemma {:induction false} PutStep(p: Text, done: seq<Octet>)
    requires p != [] && 1 <= DotAt(p) <= MAX_LABEL
    ensures var d := DotAt(p); var rest := if d == |p| then [] else p[d + 1..];
            match PutLabels(rest)
            case None => PutLabels(p) == None
            case Some(w) => PutLabels(p).Some? && done + PutLabels(p).value == done + [d] + p[..d] + w
  {
    var d := DotAt(p);
    if d == |p| { assert p[..d] == p; }
  }

  method CopyText(q: array<Octet>, at: nat, s: Text)
    requires at + |s| <= q.Length
    modifies q
    ensures q[..at] == old(q[..at]) && q[at..at + |s|] == s
  {
    var k := 0;
    while k < |s|
      invariant 0 <= k <= |s| && q[..at] == old(q[..at])
      invariant forall i :: 0 <= i < k ==> q[at + i] == s[i]
    {
      q[at + k] := s[k];
      k := k + 1;
    }
  }

  method FindDot(s: Text) returns (d: nat)
    ensures d == DotAt(s)
  {
    d := 0;
    while d < |s| && s[d] != DOT
      invariant d <= |s| && forall i :: 0 <= i < d ==> s[i] != DOT
    {
      d := d + 1;
    }
    DotUnique(s, d);
  }

  lemma DotUnique(s: Text, d: nat)
    requires d <= |s| && (d < |s| ==> s[d] == DOT) && forall i :: 0 <= i < d ==> s[i] != DOT
    ensures d == DotAt(s)
  {
  }

  // ----------------------------------------------------------- the server

  /** The server's reader: the name's labels and where the question goes on. An
      index beyond the packet, which would raise an exception, is None. */
  function ReadFrom(pkt: seq<Octet>, off: nat, labels: seq<Text>, orig: nat, depth: nat): (r: Option<(Text, nat)>)
    requires depth <= 9
    decreases 9 - depth, |pkt| - off
  {
    if off >= |pkt| || depth > 8 then Some(([], orig + 1))
    else
      var l := pkt[off] as nat;
      if l == 0 then Some((Dotted(labels), if depth > 0 then orig else off + 1))
      else if l >= 0xC0 then
        if off + 1 >= |pkt| then None
        else ReadFrom(pkt, (l - 0xC0) * 256 + pkt[off + 1] as nat, labels, if depth > 0 then orig else off + 2,
                      depth + 1)
      else
        var end := if off + 1 + l <= |pkt| then off + 1 + l else |pkt|;
        ReadFrom(pkt, off + 1 + l, labels + [pkt[off + 1..end]], orig, depth)
  }

  method ReadName(pkt: seq<Octet>, start: nat) returns (r: Option<(Text, nat)>)
    ensures r == ReadFrom(pkt, start, [], start, 0)
  {
    var off: nat, orig: nat, labels: seq<Text>, jumped := start, start, [], false;
    var depth: nat := 0;
    while true
      invariant depth <= 9 && jumped == (depth > 0)
      invariant ReadFrom(pkt, start, [], start, 0) == ReadFrom(pkt, off, labels, orig, depth)
      decreases 9 - depth, |pkt| - off
    {
      if off >= |pkt| || depth > 8 { return Some(([], orig + 1)); }
      var l := pkt[off] as nat;
      if l == 0 {
        off := off + 1;
        break;
      }
      if l >= 0xC0 {
        if off + 1 >= |pkt| { return None; }
        if !jumped { orig := off + 2; }
        off := (l - 0xC0) * 256 + pkt[off + 1] as nat;
        jumped, depth := true, depth + 1;
      } else {
        var end := if off + 1 + l <= |pkt| then off + 1 + l else |pkt|;
        labels := labels + [pkt[off + 1..end]];
        off := off + 1 + l;
      }
    }
    return Some((Dotted(labels), if jumped then orig else off));
  }

  /** The server reads encoded labels back, wherever they stand. */
  lemma {:induction false} ReadWire(before: seq<Octet>, labels: seq<Text>, after: seq<Octet>, got: seq<Text>, orig: nat)
    requires Good(labels)
    ensures ReadFrom(before + Wire(labels) + after, |before|, got, orig, 0)
            == Some((Dotted(got + labels), |before| + |Wire(labels)|))
    decreases |labels|
  {
    var pkt := before + Wire(labels) + after;
    if labels == [] {
      assert got + labels == got;
      assert pkt[|before|] == 0;
    } else {
      var l := labels[0];
      var head := [|l|] + l;
      assert pkt[|before|] as nat == |l|;
      assert pkt[|before| + 1..|before| + 1 + |l|] == l;
      ReadWire(before + head, labels[1..], after, got + [l], orig);
      assert pkt == (before + head) + Wire(labels[1..]) + after;
      assert got + [l] + labels[1..] == got + labels;
    }
  }

  /** Client to server: the name comes back without its trailing dot, and the
      question goes on right behind it. */
  lemma NameRoundTrip(name: Text, before: seq<Octet>, after: seq<Octet>)
    requires PutLabels(name).Some?
    ensures var q := PutLabels(name).value; var r := ReadFrom(before + q + after, |before|, [], |before|, 0);
            && r.Some? && r.value.1 == |before| + |q|
            && (name == r.value.0 || name == r.value.0 + [DOT])
  {
    hide PutLabels, Wire, ReadFrom, Dotted, LabelsOf;
    PutLabelsIs(name);
    var labels := LabelsOf(name);
    ReadWire(before, labels, after, [], |before|);
    assert [] + labels == labels;
    LabelsBack(name);
  }

  /** A name is its labels between dots, with at most one dot more. */
  lemma LabelsBack(name: Text)
    ensures var base := Dotted(LabelsOf(name)); (name == base || name == base + [DOT]) && NoDots(LabelsOf(name))
  {
    DottedSplit(name);
    var parts, labels := Split(name), LabelsOf(name);
    if parts[|parts| - 1] == [] && |parts| > 1 {
      DottedLast(labels);
      assert parts == labels + [[]];
    }
  }

  lemma {:induction false} DottedLast(labels: seq<Text>)
    requires labels != []
    ensures Dotted(labels + [[]]) == Dotted(labels) + [DOT]
    decreases |labels|
  {
    var all := labels + [[]];
    assert all[1..] == labels[1..] + [[]] && all[0] == labels[0];
    if |labels| == 1 {
      assert all[1..] == [[]] && Dotted(all[1..]) == [];
    } else {
      DottedLast(labels[1..]);
    }
  }
}
