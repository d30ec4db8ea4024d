/** LhA archives of stored members: the writer of level 0 headers, appending an
    extra member, and the minimal reader of the package check. */
module Lha {
  import opened Octets

  /** A file name in Latin-1 and its contents. */
  datatype Member = Member(name: seq<Octet>, data: seq<Octet>)

  datatype Result<T> = Ok(value: T) | Fail

  const BACKSLASH: Octet := 92
  const SLASH: Octet := 47

  /** "-lh0-" */
  const METHOD: seq<Octet> := [45, 108, 104, 48, 45]

  // -------------------------------------------------------------- numbers

  /** Four octets, least significant first. */
  function Long(v: nat): (s: seq<Octet>)
    requires v < 0x1_0000_0000
    ensures |s| == 4 && LongAt(s, 0) == v
  {
    LongParts(v);
    [v % 256, v / 256 % 256, v / 0x1_0000 % 256, v / 0x100_0000]
  }

  lemma LongParts(v: nat)
    requires v < 0x1_0000_0000
    ensures v == v % 256 + 256 * (v / 256 % 256) + 0x1_0000 * (v / 0x1_0000 % 256) + 0x100_0000 * (v / 0x100_0000)
    ensures v / 0x100_0000 < 256
  {
    var a := v / 256;
    var b := a / 256;
    assert b == v / 0x1_0000 && b / 256 == v / 0x100_0000;
    assert v == 256 * a + v % 256 && a == 256 * b + a % 256 && b == 256 * (b / 256) + b % 256;
  }

  function LongAt(s: seq<Octet>, at: nat): (v: nat)
    requires at + 4 <= |s|
  {
    s[at] as nat + 256 * (s[at + 1] as nat) + 0x1_0000 * (s[at + 2] as nat) + 0x100_0000 * (s[at + 3] as nat)
  }

  lemma LongAtSlice(s: seq<Octet>, at: nat)
    requires at + 4 <= |s|
    ensures LongAt(s, at) == LongAt(s[at..at + 4], 0)
  {
  }

  /** The CRC-16 of the archive format, bit by bit. */
  function CrcBits(crc: bv16, n: nat): bv16
    decreases n
  {
    if n == 0 then crc else CrcBits(if crc & 1 == 1 then (crc >> 1) ^ 0xA001 else crc >> 1, n - 1)
  }

  function Crc(data: seq<Octet>): bv16 {
    if data == [] then 0 else CrcBits(Crc(data[..|data| - 1]) ^ (data[|data| - 1] as bv16), 8)
  }

  function Sum(s: seq<Octet>): nat {
    if s == [] then 0 else Sum(s[..|s| - 1]) + s[|s| - 1] as nat
  }

  // --------------------------------------------------------------- writer

  /** A path in the archive uses slashes. */
  function Amiga(name: seq<Octet>): (r: seq<Octet>)
    ensures |r| == |name|
    ensures forall i :: 0 <= i < |name| ==> r[i] == if name[i] == BACKSLASH then SLASH else name[i]
  {
    seq(|name|, i requires 0 <= i < |name| => if name[i] == BACKSLASH then SLASH else name[i])
  }

  /** Names of at most 233 octets fit the header's one-octet size, and sizes its
      four-octet fields; anything else stops the writer. */
  predicate Fits(m: Member) { |m.name| <= 233 && |m.data| < 0x1_0000_0000 }

  function HeaderBody(m: Member, stamp: nat): (h: seq<Octet>)
    requires Fits(m) && stamp < 0x1_0000_0000
    ensures |h| == 22 + |m.name|
  {
    METHOD + Long(|m.data|) + Long(|m.data|) + Long(stamp) + [0x20, 0, |m.name|] + Amiga(m.name)
    + LittleWord(Crc(m.data) as nat)
  }

  function LittleWord(v: nat): (s: seq<Octet>)
    requires v < 0x1_0000
    ensures |s| == 2
  {
    [v % 256, v / 256]
  }

  /** Header and contents of one member. */
  function Entry(m: Member, stamp: nat): (e: seq<Octet>)
    requires Fits(m) && stamp < 0x1_0000_0000
  {
    var h := HeaderBody(m, stamp);
    [|h|, Sum(h) % 256] + h + m.data
  }

  /** Members that all fit, with a time stamp for each. */
  predicate Writable(ms: seq<Member>, stamps: seq<nat>) {
    |stamps| == |ms| && forall i :: 0 <= i < |ms| ==> Fits(ms[i]) && stamps[i] < 0x1_0000_0000
  }

  function Entries(ms: seq<Member>, stamps: seq<nat>): (e: seq<Octet>)
    requires Writable(ms, stamps)
  {
    if ms == [] then [] else Entries(ms[..|ms| - 1], stamps[..|ms| - 1]) + Entry(ms[|ms| - 1], stamps[|ms| - 1])
  }

  method BuildHeader(m: Member, stamp: nat) returns (r: Result<seq<Octet>>)
    requires stamp < 0x1_0000_0000
    ensures r.Ok? == Fits(m)
    ensures r.Ok? ==> r.value + m.data == Entry(m, stamp)
  {
    hide Crc, Long, LongAt;
    if |m.data| >= 0x1_0000_0000 || |m.name| > 255 { return Fail; }
    var hdr := METHOD;
    hdr := hdr + Long(|m.data|);
    hdr := hdr + Long(|m.data|);
    hdr := hdr + Long(stamp);
    hdr := hdr + [0x20];
    hdr := hdr + [0];
    hdr := hdr + [|m.name|];
    hdr := hdr + Amiga(m.name);
    var crc := Checksum16(m.data);
    hdr := hdr + LittleWord(crc as nat);
    if |hdr| > 255 { return Fail; }
    assert hdr == HeaderBody(m, stamp);
    var sum := 0;
    for i := 0 to |hdr|
      invariant sum == Sum(hdr[..i])
    {
      assert hdr[..i + 1][..i] == hdr[..i];
      sum := sum + hdr[i] as nat;
    }
    assert hdr[..|hdr|] == hdr;
    return Ok([|hdr|, sum % 256] + hdr);
  }

  method Checksum16(data: seq<Octet>) returns (crc: bv16)
    ensures crc == Crc(data)
  {
    hide CrcBits;
    crc := 0;
    for i := 0 to |data|
      invariant crc == Crc(data[..i])
    {
      assert data[..i + 1][..i] == data[..i];
      crc := ShiftOut(crc ^ (data[i] as bv16));
    }
    assert data[..|data|] == data;
  }

  method ShiftOut(start: bv16) returns (crc: bv16)
    ensures crc == CrcBits(start, 8)
  {
    crc := start;
    for k := 0 to 8
      invariant CrcBits(start, 8) == CrcBits(crc, 8 - k)
    {
      crc := if crc & 1 == 1 then (crc >> 1) ^ 0xA001 else crc >> 1;
    }
  }

  /** The archive of a list of files, with its end marker. */
  method Pack(ms: seq<Member>, stamps: seq<nat>) returns (r: Result<seq<Octet>>)
    requires |stamps| == |ms| && forall i :: 0 <= i < |ms| ==> stamps[i] < 0x1_0000_0000
    ensures r.Ok? == forall i :: 0 <= i < |ms| ==> Fits(ms[i])
    ensures r.Ok? ==> r.value == Entries(ms, stamps) + [0]
  {
    hide Entry;
    var out: seq<Octet> := [];
    for i := 0 to |ms|
      invariant forall k :: 0 <= k < i ==> Fits(ms[k])
      invariant out == Entries(ms[..i], stamps[..i])
    {
      var h := BuildHeader(ms[i], stamps[i]);
      if h.Fail? { return Fail; }
      assert ms[..i + 1][..i] == ms[..i] && stamps[..i + 1][..i] == stamps[..i];
      out := out + (h.value + ms[i].data);
    }
    assert ms[..|ms|] == ms && stamps[..|ms|] == stamps;
    return Ok(out + [0]);
  }

  /** Appends a member over the end marker of an existing archive. */
  method Extra(archive: seq<Octet>, m: Member, stamp: nat) returns (r: Result<seq<Octet>>)
    requires archive != [] && stamp < 0x1_0000_0000
    ensures r.Ok? == Fits(m)
    ensures r.Ok? ==> r.value == archive[..|archive| - 1] + Entry(m, stamp) + [0]
  {
    var h := BuildHeader(m, stamp);
    if h.Fail? { return Fail; }
    return Ok(archive[..|archive| - 1] + (h.value + m.data) + [0]);
  }

  // --------------------------------------------------------------- reader

  function Slice(s: seq<Octet>, from: nat, to: nat): (r: seq<Octet>)
    requires from <= to
  {
    if from >= |s| then [] else if to > |s| then s[from..] else s[from..to]
  }

  /** One member at `pos` and where the next one starts. */
  function ReadOne(data: seq<Octet>, pos: nat): (r: Result<(Member, nat)>)
    requires pos < |data|
    ensures r.Ok? ==> r.value.1 > pos
  {
    var size := data[pos] as nat;
    var hdr := Slice(data, pos + 2, pos + 2 + size);
    if |hdr| < 22 || hdr[0..5] != METHOD then Fail
    else
      var comp, orig := LongAt(hdr, 5), LongAt(hdr, 9);
      if comp != orig then Fail
      else
        var start := pos + 2 + size;
        Ok((Member(Slice(hdr, 20, 20 + hdr[19] as nat), Slice(data, start, start + comp)), start + comp))
  }

  /** The reader refuses exactly what is cut short, has another method, or says two
      different sizes, and takes name and contents from where they stand. */
  lemma ReadOneIs(data: seq<Octet>, pos: nat)
    requires pos < |data|
    ensures var size, left := data[pos] as nat, |data| - (pos + 2);
            && (ReadOne(data, pos).Fail? <==>
                  size < 22 || left < 22 || data[pos + 2..pos + 7] != METHOD
                  || data[pos + 7..pos + 11] != data[pos + 11..pos + 15])
            && (ReadOne(data, pos).Ok? && left >= size ==>
                  var (m, next) := ReadOne(data, pos).value;
                  && next == pos + 2 + size + LongAt(data, pos + 7)
                  && (20 + data[pos + 21] as nat <= size ==> m.name == data[pos + 22..pos + 22 + data[pos + 21] as nat])
                  && (next <= |data| ==> m.data == data[pos + 2 + size..next]))
  {
    hide LongAt;
    var size := data[pos] as nat;
    var hdr := Slice(data, pos + 2, pos + 2 + size);
    if |hdr| >= 22 {
      assert forall i :: 0 <= i < |hdr| ==> hdr[i] == data[pos + 2 + i];
      assert hdr[0..5] == data[pos + 2..pos + 7];
      LongAtSlice(hdr, 5); LongAtSlice(hdr, 9); LongAtSlice(data, pos + 7);
      assert hdr[5..9] == data[pos + 7..pos + 11] && hdr[9..13] == data[pos + 11..pos + 15];
      SameLong(hdr[5..9], hdr[9..13]);
    }
  }

  lemma SameLong(a: seq<Octet>, b: seq<Octet>)
    requires |a| == |b| == 4
    ensures LongAt(a, 0) == LongAt(b, 0) <==> a == b
  {
    if LongAt(a, 0) == LongAt(b, 0) {
      assert a[0] == b[0] && a[1] == b[1] && a[2] == b[2] && a[3] == b[3];
    }
  }

  /** All members from `pos` on. */
  function ReadFrom(data: seq<Octet>, pos: nat): (r: Result<seq<Member>>)
    decreases |data| - pos
  {
    if pos >= |data| || data[pos] == 0 then Ok([])
    else match ReadOne(data, pos)
      case Fail => Fail
      case Ok((m, next)) =>
        match ReadFrom(data, next)
        case Fail => Fail
        case Ok(ms) => Ok([m] + ms)
  }

  method ReadMembers(data: seq<Octet>) returns (r: Result<seq<Member>>)
    ensures r == ReadFrom(data, 0)
  {
    var pos: nat, members := 0, [];
    assert ReadFrom(data, 0).Ok? ==> [] + ReadFrom(data, 0).value == ReadFrom(data, 0).value;
    while pos < |data| && data[pos] != 0
      invariant ReadFrom(data, 0) == match ReadFrom(data, pos) case Fail => Fail case Ok(ms) => Ok(members + ms)
      decreases |data| - pos
    {
      var one := ReadOne(data, pos);
      if one.Fail? { return Fail; }
      ghost var rest := ReadFrom(data, one.value.1);
      assert rest.Ok? ==> members + ([one.value.0] + rest.value) == members + [one.value.0] + rest.value;
      members := members + [one.value.0];
      pos := one.value.1;
    }
    assert members + [] == members;
    return Ok(members);
  }

  // ----------------------------------------------------------- round trip

  function Renamed(m: Member): Member { m.(name := Amiga(m.name)) }

  /** The fields of a header, where readers of the format look for them: method,
      both sizes, time stamp, attribute, level, name and the CRC of the data. */
  lemma HeaderFields(m: Member, stamp: nat)
    requires Fits(m) && stamp < 0x1_0000_0000
    ensures var h := HeaderBody(m, stamp);
            && h[0..5] == METHOD && LongAt(h, 5) == |m.data| && LongAt(h, 9) == |m.data|
            && LongAt(h, 13) == stamp && h[17] == 0x20 && h[18] == 0
            && h[19] as nat == |m.name| && h[20..20 + |m.name|] == Amiga(m.name)
            && h[20 + |m.name|] as nat + 256 * (h[21 + |m.name|] as nat) == Crc(m.data) as nat
  {
    hide Long, LongAt, Crc;
    var h := HeaderBody(m, stamp);
    LongAtSlice(h, 5);
    LongAtSlice(h, 9);
    LongAtSlice(h, 13);
    assert h[5..9] == Long(|m.data|);
    assert h[9..13] == Long(|m.data|);
    assert h[13..17] == Long(stamp);
    assert h[20 + |m.name|..] == LittleWord(Crc(m.data) as nat);
  }

  lemma EntryAt(before: seq<Octet>, h: seq<Octet>, sum: Octet, data: seq<Octet>, after: seq<Octet>)
    requires |h| < 256
    ensures var all, pos := before + ([|h|, sum] + h + data) + after, |before|;
            && all[pos] as nat == |h| && all[pos + 2..pos + 2 + |h|] == h
            && all[pos + 2 + |h|..pos + 2 + |h| + |data|] == data
  {
  }

  /** The reader takes an entry apart exactly, wherever it stands. */
  lemma EntryRead(before: seq<Octet>, m: Member, stamp: nat, after: seq<Octet>)
    requires Fits(m) && stamp < 0x1_0000_0000
    ensures var e := Entry(m, stamp); var data := before + e + after;
            && |e| > 0 && data[|before|] != 0
            && ReadOne(data, |before|) == Ok((Renamed(m), |before| + |e|))
  {
    hide LongAt, HeaderBody, Sum, Amiga, Crc;
    var h := HeaderBody(m, stamp);
    HeaderFields(m, stamp);
    EntryAt(before, h, Sum(h) % 256, m.data, after);
  }

  lemma {:induction false} EntriesPrefix(ms: seq<Member>, stamps: seq<nat>, k: nat)
    requires Writable(ms, stamps) && k <= |ms|
    ensures Entries(ms[..k], stamps[..k]) <= Entries(ms, stamps)
    decreases |ms|
  {
    hide Entry;
    if k == |ms| {
      assert ms[..k] == ms && stamps[..k] == stamps;
    } else {
      var n := |ms| - 1;
      EntriesPrefix(ms[..n], stamps[..n], k);
      assert ms[..n][..k] == ms[..k] && stamps[..n][..k] == stamps[..k];
    }
  }

  function AllRenamed(ms: seq<Member>): (r: seq<Member>)
    ensures |r| == |ms| && forall i :: 0 <= i < |ms| ==> r[i] == Renamed(ms[i])
  {
    seq(|ms|, i requires 0 <= i < |ms| => Renamed(ms[i]))
  }

  lemma EntriesNext(ms: seq<Member>, stamps: seq<nat>, k: nat)
    requires Writable(ms, stamps) && k < |ms|
    ensures Entries(ms[..k + 1], stamps[..k + 1]) == Entries(ms[..k], stamps[..k]) + Entry(ms[k], stamps[k])
  {
    hide Entry;
    assert ms[..k + 1][..k] == ms[..k] && stamps[..k + 1][..k] == stamps[..k];
  }

  lemma SplitAt(front: seq<Octet>, data: seq<Octet>)
    requires front <= data
    ensures data == front + data[|front|..]
  {
  }

  /** From the start of the k-th entry the reader returns the members from k on. */
  lemma {:induction false} ReadsFrom(ms: seq<Member>, stamps: seq<nat>, k: nat, after: seq<Octet>)
    requires Writable(ms, stamps) && k <= |ms|
    ensures var data := Entries(ms, stamps) + [0] + after;
            ReadFrom(data, |Entries(ms[..k], stamps[..k])|) == Ok(AllRenamed(ms[k..]))
    decreases |ms| - k
  {
    hide Entry, ReadOne, Renamed, Entries;
    var all := Entries(ms, stamps);
    var data := all + [0] + after;
    if k == |ms| {
      assert ms[..k] == ms && stamps[..k] == stamps;
      assert data[|all|] == 0;
      assert AllRenamed(ms[k..]) == [];
    } else {
      var before := Entries(ms[..k], stamps[..k]);
      var e := Entry(ms[k], stamps[k]);
      EntriesNext(ms, stamps, k);
      EntriesPrefix(ms, stamps, k + 1);
      var rest := data[|before + e|..];
      SplitAt(before + e, data);
      EntryRead(before, ms[k], stamps[k], rest);
      ReadsFrom(ms, stamps, k + 1, after);
      assert AllRenamed(ms[k..]) == [Renamed(ms[k])] + AllRenamed(ms[k + 1..]);
    }
  }

  /** The reader returns exactly the members that were packed, with slashes in
      their names; anything behind the end marker is not looked at. */
  lemma RoundTrip(ms: seq<Member>, stamps: seq<nat>, after: seq<Octet>)
    requires Writable(ms, stamps)
    ensures ReadFrom(Entries(ms, stamps) + [0] + after, 0) == Ok(AllRenamed(ms))
  {
    ReadsFrom(ms, stamps, 0, after);
    assert ms[0..] == ms && Entries(ms[..0], stamps[..0]) == [];
  }

  /** An appended member reads back as one more at the end. */
  lemma ExtraRoundTrip(ms: seq<Member>, stamps: seq<nat>, m: Member, stamp: nat)
    requires Writable(ms, stamps) && Fits(m) && stamp < 0x1_0000_0000
    ensures var archive := Entries(ms, stamps) + [0];
            ReadFrom(archive[..|archive| - 1] + Entry(m, stamp) + [0], 0) == Ok(AllRenamed(ms) + [Renamed(m)])
  {
    hide Entry, ReadFrom, Renamed;
    var archive := Entries(ms, stamps) + [0];
    assert archive[..|archive| - 1] == Entries(ms, stamps);
    var more, stamped := ms + [m], stamps + [stamp];
    assert more[..|ms|] == ms && stamped[..|ms|] == stamps;
    RoundTrip(more, stamped, []);
    assert Entries(more, stamped) + [0] + [] == archive[..|archive| - 1] + Entry(m, stamp) + [0];
    assert AllRenamed(more) == AllRenamed(ms) + [Renamed(m)];
  }

  /** The whole path: pack, append, read. */
  method PackAndRead(ms: seq<Member>, stamps: seq<nat>, m: Member, stamp: nat) returns (r: Result<seq<Member>>)
    requires |stamps| == |ms| && (forall i :: 0 <= i < |ms| ==> stamps[i] < 0x1_0000_0000) && stamp < 0x1_0000_0000
    ensures r == if Fits(m) && (forall i :: 0 <= i < |ms| ==> Fits(ms[i])) then Ok(AllRenamed(ms) + [Renamed(m)])
                 else Fail
  {
    var archive := Pack(ms, stamps);
    if archive.Fail? { return Fail; }
    var longer := Extra(archive.value, m, stamp);
    if longer.Fail? { return Fail; }
    ExtraRoundTrip(ms, stamps, m, stamp);
    r := ReadMembers(longer.value);
  }
}
