/** The lockstep sender of the test peer and the whole GET: client and sender
    over a channel that may lose, duplicate and reorder packets and inject
    packets of other kinds, but delivers no block 65536 or more blocks late. */
module TftpGetNet {
  import opened Octets
  import opened Tftp
  import C = TftpGet

  const ROUNDS: nat := 3

  // ------------------------------------------------------------- sender

  /** The read-request loop of the server; idle while it waits for a request. */
  datatype Sender = Sender(busy: bool, block: nat, offset: nat, round: nat)

  datatype Cue = Request | Incoming(p: Packet) | Lull

  datatype Reply = Reply(s: Sender, data: seq<Packet>)

  const IDLE := Sender(false, 0, 0, 0)

  predicate IsAck(p: Packet) { |p| >= 4 && p[0] == 0 && p[1] == OP_ACK }

  function Current(src: seq<Octet>, s: Sender): Packet
    requires s.block < WRAP
  {
    DataPacket(s.block, Chunk(src, s.offset))
  }

  /** Sends the block at `offset`; the transfer ends after a short one. */
  function Offer(src: seq<Octet>, block: nat, offset: nat): (r: Reply)
    requires block < WRAP
  {
    var s := Sender(|Chunk(src, offset)| == BLK, block, offset, 0);
    Reply(s, [Current(src, s)])
  }

  function Round(s: Sender): Sender {
    s.(round := s.round + 1, busy := s.round + 1 < ROUNDS)
  }

  function SenderStep(src: seq<Octet>, s: Sender, c: Cue): (r: Reply)
    requires s.block < WRAP
    ensures r.s.block < WRAP
  {
    if !s.busy then (if c.Request? then Offer(src, 1, 0) else Reply(s, []))
    else if c.Incoming? && IsAck(c.p) && PktBlock(c.p) == s.block then
      Offer(src, (s.block + 1) % WRAP, s.offset + BLK)
    else Reply(Round(s), if c.Lull? || (c.Incoming? && IsAck(c.p)) then [Current(src, s)] else [])
  }

  function SenderRun(src: seq<Octet>, cues: seq<Cue>): (r: Reply)
    ensures r.s.block < WRAP
  {
    if cues == [] then Reply(IDLE, [])
    else
      var r := SenderRun(src, cues[..|cues| - 1]);
      var n := SenderStep(src, r.s, cues[|cues| - 1]);
      Reply(n.s, r.data + n.data)
  }

  lemma SenderNext(src: seq<Octet>, cues: seq<Cue>, k: nat)
    requires k < |cues|
    ensures var r := SenderRun(src, cues[..k]); var n := SenderStep(src, r.s, cues[k]);
            SenderRun(src, cues[..k + 1]) == Reply(n.s, r.data + n.data)
  {
    assert cues[..k + 1][..k] == cues[..k];
  }

  /** The server loop: for each request the loop over blocks, for each block
      three rounds of waiting for its ACK. */
  method Serve(src: seq<Octet>, cues: seq<Cue>) returns (data: seq<Packet>)
    ensures data == SenderRun(src, cues).data
  {
    var i: nat := 0;
    ghost var s := IDLE;
    data := [];
    while i < |cues|
      invariant i <= |cues| && SenderRun(src, cues[..i]) == Reply(s, data) && (i < |cues| ==> !s.busy)
      decreases |cues| - i
    {
      SenderNext(src, cues, i);
      if cues[i].Request? {
        i, data := Transfer(src, cues, i, data);
        s := SenderRun(src, cues[..i]).s;
      } else {
        i := i + 1;
      }
    }
    assert cues[..i] == cues;
  }

  /** The server is about to send block `block + 1` from `offset`. */
  ghost predicate Offering(src: seq<Octet>, cues: seq<Cue>, block: nat, offset: nat, data: seq<Packet>) {
    var r := Offer(src, (block + 1) % WRAP, offset);
    SenderRun(src, cues) == Reply(r.s, data + r.data)
  }

  /** One transfer: sends blocks from the first until a short one or until a
      block stays unacknowledged. */
  method Transfer(src: seq<Octet>, cues: seq<Cue>, k: nat, sent: seq<Packet>) returns (i: nat, data: seq<Packet>)
    requires k < |cues| && cues[k].Request?
    requires !SenderRun(src, cues[..k]).s.busy && SenderRun(src, cues[..k]).data == sent
    ensures k < i <= |cues| && SenderRun(src, cues[..i]).data == data
    ensures i < |cues| ==> !SenderRun(src, cues[..i]).s.busy
  {
    SenderNext(src, cues, k);
    i, data := k + 1, sent;
    var block: nat, offset: nat, going := 0, 0, true;
    while going
      invariant k < i <= |cues| && block < WRAP
      invariant going ==> Offering(src, cues[..i], block, offset, data)
      invariant !going ==> SenderRun(src, cues[..i]).data == data && (i < |cues| ==> !SenderRun(src, cues[..i]).s.busy)
      decreases |cues| - i, going
    {
      block := (block + 1) % WRAP;
      data := data + [DataPacket(block, Chunk(src, offset))];
      if |Chunk(src, offset)| < BLK {
        going := false;
      } else {
        going, i, data := AwaitAck(src, cues, i, block, offset, data);
        offset := offset + BLK;
      }
    }
  }

  /** Three rounds of waiting for the ACK of a block. */
  method AwaitAck(src: seq<Octet>, cues: seq<Cue>, k: nat, block: nat, offset: nat, sent: seq<Packet>)
      returns (acked: bool, i: nat, data: seq<Packet>)
    requires k <= |cues| && block < WRAP
    requires SenderRun(src, cues[..k]) == Reply(Sender(true, block, offset, 0), sent)
    ensures k <= i <= |cues|
    ensures acked ==> k < i && Offering(src, cues[..i], block, offset + BLK, data)
    ensures !acked ==> SenderRun(src, cues[..i]).data == data && (i < |cues| ==> !SenderRun(src, cues[..i]).s.busy)
  {
    hide SenderRun, Chunk, DataPacket, Word, WordAt;
    acked, i, data := false, k, sent;
    var round: nat := 0;
    while !acked && round < ROUNDS && i < |cues|
      invariant k <= i <= |cues| && round <= ROUNDS
      invariant !acked ==> SenderRun(src, cues[..i]) == Reply(Sender(round < ROUNDS, block, offset, round), data)
      invariant acked ==> k < i && Offering(src, cues[..i], block, offset + BLK, data)
      decreases |cues| - i
    {
      SenderNext(src, cues, i);
      var c := cues[i];
      i := i + 1;
      if c.Incoming? && IsAck(c.p) && PktBlock(c.p) == block {
        acked := true;
      } else {
        if c.Lull? || (c.Incoming? && IsAck(c.p)) {
          data := data + [DataPacket(block, Chunk(src, offset))];
        }
        round := round + 1;
      }
    }
  }

  // ------------------------------------------------------------ network

  /** A packet that was sent, with the block it really belongs to: the position
      the 16-bit number on the wire stands for. */
  /** Nothing ever leaves `data` and `acks`: a packet in them may be delivered
      never, once or often, and in any order. */
  datatype Net = Net(client: C.Getter, server: Sender, data: seq<Sent>, acks: seq<Sent>)

  datatype Move =
    | Deliver(k: nat, wrote: nat) | Junk(p: Packet) | Silence | Break
    | Ask | Acknowledge(k: nat) | Stray(p: Packet) | Lull

  /** The number of blocks the client has taken. */
  function Accepted(g: C.Getter): nat {
    |g.file| / BLK + if g.phase.Received? then 1 else 0
  }

  function Index(s: Sender): nat { s.offset / BLK + 1 }

  /** The channel delivers no packet 65536 or more blocks behind the block its
      receiver waits for. Packets that are neither DATA for the client nor ACK
      for the server may come from anywhere. */
  predicate Enabled(n: Net, m: Move) {
    match m
    case Deliver(k, _) => k < |n.data| && Accepted(n.client) + 1 < n.data[k].index + WRAP
    case Junk(p) => !C.IsData(p)
    case Acknowledge(k) => k < |n.acks| && Index(n.server) < n.acks[k].index + WRAP
    case Stray(p) => !IsAck(p)
    case _ => true
  }

  function ClientMove(n: Net, e: C.Event): Net
    requires C.Ok(n.client)
  {
    var o := C.Step(n.client, e);
    n.(client := o.g, acks := n.acks + Tag(Accepted(o.g), o.acks))
  }

  function ServerMove(src: seq<Octet>, n: Net, c: Cue): Net
    requires n.server.block < WRAP
  {
    var r := SenderStep(src, n.server, c);
    n.(server := r.s, data := n.data + Tag(Index(r.s), r.data))
  }

  predicate Sane(n: Net) { C.Ok(n.client) && n.server.block < WRAP }

  function Next(src: seq<Octet>, n: Net, m: Move): (r: Net)
    requires Sane(n) && Enabled(n, m)
    ensures Sane(r)
  {
    match m
    case Deliver(k, wrote) => ClientMove(n, C.Arrival(n.data[k].p, wrote))
    case Junk(p) => ClientMove(n, C.Arrival(p, 0))
    case Silence => ClientMove(n, C.Silence)
    case Break => ClientMove(n, C.Break)
    case Ask => ServerMove(src, n, Request)
    case Acknowledge(k) => ServerMove(src, n, Incoming(n.acks[k].p))
    case Stray(p) => ServerMove(src, n, Incoming(p))
    case Lull => ServerMove(src, n, Cue.Lull)
  }

  const INIT := Net(C.START, IDLE, [], [])

  /** `n` is reached by the moves in order, each one allowed where it happens. */
  ghost predicate Reaches(src: seq<Octet>, moves: seq<Move>, n: Net) {
    if moves == [] then n == INIT
    else exists p :: Reaches(src, moves[..|moves| - 1], p) && Sane(p) && Enabled(p, moves[|moves| - 1])
                     && n == Next(src, p, moves[|moves| - 1])
  }

  // ---------------------------------------------------------- invariant

  ghost predicate ClientOk(src: seq<Octet>, g: C.Getter) {
    && |g.file| <= |src| && g.file == src[..|g.file|]
    && g.last == Accepted(g) % WRAP
    && (!g.phase.WriteError? && !g.phase.Received? ==> |g.file| % BLK == 0)
    && (g.phase.Received? ==> g.file == src)
  }

  ghost predicate DataOk(src: seq<Octet>, d: Sent, accepted: nat) {
    1 <= d.index <= accepted + 1 && d.index <= Blocks(src) && d.p == DataPacket(d.index % WRAP, BlockOf(src, d.index))
  }

  ghost predicate AckOk(a: Sent, accepted: nat) {
    a.index <= accepted && a.p == AckPacket(a.index % WRAP)
  }

  /** The sender is never more than one block ahead of the client, also when a
      repeated request makes it start over. */
  ghost predicate SenderOk(src: seq<Octet>, s: Sender, accepted: nat) {
    s.busy ==> s.offset % BLK == 0 && s.offset + BLK <= |src| && s.block == Index(s) % WRAP && Index(s) <= accepted + 1
  }

  ghost predicate Inv(src: seq<Octet>, n: Net) {
    var a := Accepted(n.client);
    && Sane(n) && ClientOk(src, n.client) && SenderOk(src, n.server, a)
    && (forall k :: 0 <= k < |n.data| ==> DataOk(src, n.data[k], a))
    && (forall k :: 0 <= k < |n.acks| ==> AckOk(n.acks[k], a))
  }

  ghost predicate ClientKeeps(src: seq<Octet>, g: C.Getter, o: C.Outcome) {
    && C.Ok(o.g) && ClientOk(src, o.g) && Accepted(g) <= Accepted(o.g)
    && forall k :: 0 <= k < |o.acks| ==> o.acks[k] == AckPacket(Accepted(o.g) % WRAP)
  }

  /** Taking the next block: the file grows by exactly that block. */
  lemma TakeNext(src: seq<Octet>, g: C.Getter, payload: seq<Octet>, wrote: nat)
    requires ClientOk(src, g) && C.Waiting(g) && Accepted(g) < Blocks(src) && payload == BlockOf(src, Accepted(g) + 1)
    ensures var a := Accepted(g); var b := (a + 1) % WRAP;
            && (wrote < |payload| ==> ClientOk(src, g.(phase := C.WriteError, file := g.file + payload[..wrote]))
                                      && (|g.file| + wrote) / BLK == a)
            && ClientOk(src, C.Getter(if |payload| < BLK then C.Received else C.Receiving, b, g.file + payload, 0))
            && (|g.file| + |payload|) / BLK + (if |payload| < BLK then 1 else 0) == a + 1
  {
    hide BlockOf;
    var a := Accepted(g);
    BlockLength(src, a + 1);
    assert |g.file| == BLK * a;
    if wrote < |payload| {
      assert g.file + payload[..wrote] == src[..|g.file| + wrote];
    }
  }

  lemma TakeKeeps(src: seq<Octet>, g: C.Getter, d: Sent, wrote: nat)
    requires C.Ok(g) && ClientOk(src, g) && C.Waiting(g)
    requires DataOk(src, d, Accepted(g)) && Accepted(g) + 1 < d.index + WRAP
    ensures ClientKeeps(src, g, C.Take(g, d.p, wrote))
  {
    hide BlockOf, Word, WordAt;
    var a := Accepted(g);
    assert (g.last + 1) % WRAP == (a + 1) % WRAP;
    if PktBlock(d.p) == (g.last + 1) % WRAP {
      SameBlock(d.index, a + 1);
      TakeNext(src, g, d.p[4..], wrote);
    }
  }

  lemma ClientStepKeeps(src: seq<Octet>, g: C.Getter, e: C.Event)
    requires C.Ok(g) && ClientOk(src, g)
    requires e.Arrival? ==> !C.IsData(e.p)
    ensures ClientKeeps(src, g, C.Step(g, e))
  {
  }

  lemma ClientMoveKeeps(src: seq<Octet>, n: Net, e: C.Event)
    requires Inv(src, n) && ClientKeeps(src, n.client, C.Step(n.client, e))
    ensures Inv(src, ClientMove(n, e))
  {
    hide DataPacket, AckPacket, BlockOf, C.Step, ClientOk;
  }

  lemma OfferKeeps(src: seq<Octet>, block: nat, offset: nat, accepted: nat)
    requires offset % BLK == 0 && offset <= |src| && offset / BLK <= accepted && block == (offset / BLK + 1) % WRAP
    ensures var r := Offer(src, block, offset);
            SenderOk(src, r.s, accepted) && forall d :: d in Tag(Index(r.s), r.data) ==> DataOk(src, d, accepted)
  {
    assert BLK * (offset / BLK) == offset;
  }

  lemma ServerStepKeeps(src: seq<Octet>, s: Sender, c: Cue, accepted: nat)
    requires s.block < WRAP && SenderOk(src, s, accepted)
    requires s.busy && c.Incoming? && IsAck(c.p) && PktBlock(c.p) == s.block ==> Index(s) <= accepted
    ensures var r := SenderStep(src, s, c);
            SenderOk(src, r.s, accepted) && forall d :: d in Tag(Index(r.s), r.data) ==> DataOk(src, d, accepted)
  {
    hide Offer, DataPacket, DataOk, Current, SenderOk, Round, WordAt;
    if !s.busy {
      OfferKeeps(src, 1, 0, accepted);
    } else if c.Incoming? && IsAck(c.p) && PktBlock(c.p) == s.block {
      NextOffset(src, s, accepted);
      OfferKeeps(src, (s.block + 1) % WRAP, s.offset + BLK, accepted);
    } else {
      RoundKeeps(src, s, accepted);
    }
  }

  lemma NextOffset(src: seq<Octet>, s: Sender, accepted: nat)
    requires s.block < WRAP && SenderOk(src, s, accepted) && s.busy && Index(s) <= accepted
    ensures var o := s.offset + BLK;
            o % BLK == 0 && o <= |src| && o / BLK <= accepted && (s.block + 1) % WRAP == (o / BLK + 1) % WRAP
  {
    assert (s.offset + BLK) / BLK == s.offset / BLK + 1;
  }

  lemma RoundKeeps(src: seq<Octet>, s: Sender, accepted: nat)
    requires s.block < WRAP && SenderOk(src, s, accepted) && s.busy
    ensures SenderOk(src, Round(s), accepted) && Index(Round(s)) == Index(s)
    ensures DataOk(src, Sent(Index(s), Current(src, s)), accepted)
  {
    assert BLK * (s.offset / BLK) == s.offset;
  }

  lemma ServerMoveKeeps(src: seq<Octet>, n: Net, c: Cue)
    requires Inv(src, n)
    requires n.server.busy && c.Incoming? && IsAck(c.p) && PktBlock(c.p) == n.server.block ==>
               Index(n.server) <= Accepted(n.client)
    ensures Inv(src, ServerMove(src, n, c))
  {
    hide DataPacket, AckPacket, BlockOf, SenderStep, ClientOk, SenderOk, DataOk;
    ServerStepKeeps(src, n.server, c, Accepted(n.client));
    var r := SenderStep(src, n.server, c);
    var t := Tag(Index(r.s), r.data);
    forall k | 0 <= k < |n.data + t| ensures DataOk(src, (n.data + t)[k], Accepted(n.client)) {
      if k >= |n.data| { assert (n.data + t)[k] in t; }
    }
  }

  lemma NextKeeps(src: seq<Octet>, n: Net, m: Move)
    requires Inv(src, n) && Enabled(n, m)
    ensures Inv(src, Next(src, n, m))
  {
    hide DataPacket, AckPacket, BlockOf, SenderStep, C.Step, ClientOk, SenderOk;
    match m
    case Deliver(k, wrote) =>
      DeliverKeeps(src, n.client, n.data[k], wrote);
      ClientMoveKeeps(src, n, C.Arrival(n.data[k].p, wrote));
    case Junk(p) =>
      ClientStepKeeps(src, n.client, C.Arrival(p, 0));
      ClientMoveKeeps(src, n, C.Arrival(p, 0));
    case Silence =>
      ClientStepKeeps(src, n.client, C.Silence);
      ClientMoveKeeps(src, n, C.Silence);
    case Break =>
      ClientStepKeeps(src, n.client, C.Break);
      ClientMoveKeeps(src, n, C.Break);
    case Ask => ServerMoveKeeps(src, n, Request);
    case Acknowledge(k) =>
      AckCounts(src, n.server, n.acks[k], Accepted(n.client));
      ServerMoveKeeps(src, n, Incoming(n.acks[k].p));
    case Stray(p) => ServerMoveKeeps(src, n, Incoming(p));
    case Lull => ServerMoveKeeps(src, n, Cue.Lull);
  }

  lemma DeliverKeeps(src: seq<Octet>, g: C.Getter, d: Sent, wrote: nat)
    requires C.Ok(g) && ClientOk(src, g) && DataOk(src, d, Accepted(g)) && Accepted(g) + 1 < d.index + WRAP
    ensures ClientKeeps(src, g, C.Step(g, C.Arrival(d.p, wrote)))
  {
    hide C.Take, BlockOf, ClientOk;
    if C.Waiting(g) { TakeKeeps(src, g, d, wrote); }
  }

  /** An ACK young enough and equal in 16 bits is the ACK of the block in flight. */
  lemma AckCounts(src: seq<Octet>, s: Sender, a: Sent, accepted: nat)
    requires SenderOk(src, s, accepted) && AckOk(a, accepted) && Index(s) < a.index + WRAP
    ensures s.busy && PktBlock(a.p) == s.block ==> Index(s) <= accepted
  {
    if s.busy && PktBlock(a.p) == s.block && Index(s) > a.index {
      SameBlock(Index(s), a.index);
    }
  }

  lemma {:induction false} Reachable(src: seq<Octet>, moves: seq<Move>, n: Net)
    requires Reaches(src, moves, n)
    ensures Inv(src, n)
  {
    if moves != [] {
      var m := moves[|moves| - 1];
      var p :| Reaches(src, moves[..|moves| - 1], p) && Sane(p) && Enabled(p, m) && n == Next(src, p, m);
      Reachable(src, moves[..|moves| - 1], p);
      NextKeeps(src, p, m);
    }
  }

  /** GET is safe in every run: the file is always a prefix of the source, of
      whole blocks unless a write failed, and it is the source when the client
      reports it received. */
  lemma GetSafety(src: seq<Octet>, moves: seq<Move>, n: Net)
    requires Reaches(src, moves, n)
    ensures n.client.file <= src
    ensures n.client.phase.Received? ==> n.client.file == src
    ensures !n.client.phase.Received? && !n.client.phase.WriteError? ==> |n.client.file| % BLK == 0
  {
    hide Reaches, DataOk, AckOk, SenderOk;
    Reachable(src, moves, n);
  }

  // ------------------------------------------- completion and tightness

  /** The run without losses: one DATA and one ACK for each block. */
  function Straight(a: nat): seq<Move> {
    if a == 0 then [Ask] else Straight(a - 1) + [Deliver(a - 1, BLK), Acknowledge(a - 1)]
  }

  function StraightData(src: seq<Octet>, n: nat): seq<Sent> {
    seq(n, k requires 0 <= k => Sent(k + 1, DataPacket((k + 1) % WRAP, BlockOf(src, k + 1))))
  }

  function StraightAcks(n: nat): seq<Sent> {
    seq(n, k requires 0 <= k => Sent(k + 1, AckPacket((k + 1) % WRAP)))
  }

  /** The network after `a` blocks of it. */
  function StraightNet(src: seq<Octet>, a: nat): Net
    requires a < Blocks(src)
  {
    Net(if a == 0 then C.START else C.Getter(C.Receiving, a % WRAP, src[..BLK * a], 0),
        Sender(BLK * (a + 1) <= |src|, (a + 1) % WRAP, BLK * a, 0), StraightData(src, a + 1), StraightAcks(a))
  }

  lemma StraightClient(src: seq<Octet>, a: nat)
    requires a < Blocks(src)
    ensures var n := StraightNet(src, a); var m := Deliver(a, BLK);
            && Sane(n) && Enabled(n, m) && Accepted(n.client) == a
            && Next(src, n, m) == Net(C.Getter(if a + 1 < Blocks(src) then C.Receiving else C.Received, (a + 1) % WRAP,
                                               src[..BLK * a] + BlockOf(src, a + 1), 0), n.server, n.data,
                                                   StraightAcks(a + 1))
  {
    hide BlockOf, DataPacket, AckPacket, C.Step;
    var n := StraightNet(src, a);
    StraightTake(src, a);
    var p := DataPacket((a + 1) % WRAP, BlockOf(src, a + 1));
    assert n.data[a] == Sent(a + 1, p);
    var o := C.Step(n.client, C.Arrival(p, BLK));
    assert n.acks + Tag(a + 1, o.acks) == StraightAcks(a + 1);
  }

  /** The client takes the next block of a run without losses. */
  lemma StraightTake(src: seq<Octet>, a: nat)
    requires a < Blocks(src)
    ensures var g := StraightNet(src, a).client; var b := (a + 1) % WRAP;
            var more := C.Getter(if a + 1 < Blocks(src) then C.Receiving else C.Received, b,
                                 src[..BLK * a] + BlockOf(src, a + 1), 0);
            && C.Step(g, C.Arrival(DataPacket(b, BlockOf(src, a + 1)), BLK)) == C.Outcome(more, [AckPacket(b)])
            && Accepted(g) == a && Accepted(more) == a + 1
  {
    hide BlockOf, Word, WordAt, StraightData, StraightAcks, DataPacket, AckPacket;
    var g := StraightNet(src, a).client;
    BlockLength(src, a + 1);
    assert |g.file| == BLK * a;
    assert (g.last + 1) % WRAP == (a + 1) % WRAP;
  }

  lemma BlockIs(src: seq<Octet>, i: nat)
    requires i > 0
    ensures BlockOf(src, i) == Chunk(src, BLK * (i - 1))
  {
  }

  lemma StraightStep(src: seq<Octet>, a: nat)
    requires a + 1 < Blocks(src)
    ensures var n := StraightNet(src, a); var m := Deliver(a, BLK); var k := Acknowledge(a);
            Sane(n) && Enabled(n, m) && Enabled(Next(src, n, m), k)
              && Next(src, Next(src, n, m), k) == StraightNet(src, a + 1)
  {
    hide BlockOf, DataPacket, AckPacket, SenderStep, C.Step, StraightData;
    var n := StraightNet(src, a);
    StraightClient(src, a);
    BlockLength(src, a + 1);
    var mid := Next(src, n, Deliver(a, BLK));
    var p := AckPacket((a + 1) % WRAP);
    assert mid.acks[a] == Sent(a + 1, p);
    StraightServer(src, a);
  }

  lemma StraightServer(src: seq<Octet>, a: nat)
    requires a + 1 < Blocks(src)
    ensures var r := SenderStep(src, Sender(true, (a + 1) % WRAP, BLK * a, 0), Incoming(AckPacket((a + 1) % WRAP)));
            && r.s == Sender(BLK * (a + 2) <= |src|, (a + 2) % WRAP, BLK * (a + 1), 0)
            && StraightData(src, a + 1) + Tag(a + 2, r.data) == StraightData(src, a + 2)
  {
    hide BlockOf, Word, WordAt;
    BlockIs(src, a + 2);
    assert ((a + 1) % WRAP + 1) % WRAP == (a + 2) % WRAP;
  }

  lemma {:induction false} StraightReaches(src: seq<Octet>, a: nat)
    requires a < Blocks(src)
    ensures Reaches(src, Straight(a), StraightNet(src, a))
  {
    hide Reaches, Next, Enabled, Sane, StraightNet;
    if a == 0 {
      FirstStep(src);
    } else {
      StraightReaches(src, a - 1);
      StraightStep(src, a - 1);
      var n := StraightNet(src, a - 1);
      ReachesOne(src, Straight(a - 1), n, Deliver(a - 1, BLK));
      ReachesOne(src, Straight(a - 1) + [Deliver(a - 1, BLK)], Next(src, n, Deliver(a - 1, BLK)), Acknowledge(a - 1));
      assert Straight(a) == Straight(a - 1) + [Deliver(a - 1, BLK)] + [Acknowledge(a - 1)];
    }
  }

  lemma FirstStep(src: seq<Octet>)
    ensures Reaches(src, Straight(0), StraightNet(src, 0))
  {
    assert Reaches(src, [], INIT);
    assert Straight(0) == [] + [Ask];
    assert StraightData(src, 1) == [] + Tag(1, [DataPacket(1, BlockOf(src, 1))]);
    ReachesOne(src, [], INIT, Ask);
  }

  lemma ReachesOne(src: seq<Octet>, moves: seq<Move>, n: Net, m: Move)
    requires Reaches(src, moves, n) && Sane(n) && Enabled(n, m)
    ensures Reaches(src, moves + [m], Next(src, n, m))
  {
    var all := moves + [m];
    assert all[..|all| - 1] == moves;
  }

  /** Every file can be fetched: some run ends with the client reporting it received. */
  lemma GetCompletes(src: seq<Octet>)
    ensures exists moves, n :: Reaches(src, moves, n) && n.client.phase.Received? && n.client.file == src
  {
    var a := |src| / BLK;
    StraightReaches(src, a);
    StraightClient(src, a);
    BlockLength(src, a + 1);
    ReachesOne(src, Straight(a), StraightNet(src, a), Deliver(a, BLK));
  }

  /** The age bound is the exact one: a reachable state and a sent packet just
      65536 blocks old, whose delivery would put a wrong block in the file. */
  lemma GetBoundIsTight(src: seq<Octet>)
    requires |src| >= BLK * WRAP && BlockOf(src, 1) != BlockOf(src, WRAP + 1)
    ensures exists moves, n ::
              && Reaches(src, moves, n) && Sane(n) && |n.data| > 0
              && Accepted(n.client) + 1 == n.data[0].index + WRAP
              && !(ClientMove(n, C.Arrival(n.data[0].p, BLK)).client.file <= src)
  {
    hide Reaches, Straight, Enabled, Next, BlockOf, StraightData, StraightAcks, C.Step, DataPacket;
    StraightReaches(src, WRAP);
    StraightClient(src, WRAP);
    StaleTaken(src);
  }

  lemma StaleTaken(src: seq<Octet>)
    requires |src| >= BLK * WRAP && BlockOf(src, 1) != BlockOf(src, WRAP + 1)
    ensures var n := StraightNet(src, WRAP);
            && Sane(n) && |n.data| > 0 && n.data[0].index == 1
            && !(ClientMove(n, C.Arrival(n.data[0].p, BLK)).client.file <= src)
  {
    hide BlockOf, Word, WordAt, StraightAcks;
    var n := StraightNet(src, WRAP);
    BlockLength(src, 1);
    BlockLength(src, WRAP + 1);
    var first := BlockOf(src, 1);
    assert n.data[0] == Sent(1, DataPacket(1, first));
    var o := C.Step(n.client, C.Arrival(n.data[0].p, BLK));
    var grown := src[..BLK * WRAP] + first;
    assert o.g.file == grown;
    WrongBlock(src, first);
  }

  lemma WrongBlock(src: seq<Octet>, c: seq<Octet>)
    requires |c| == BLK && |src| >= BLK * WRAP
    ensures src[..BLK * WRAP] + c <= src ==> BlockOf(src, WRAP + 1) == c
  {
    var grown := src[..BLK * WRAP] + c;
    assert grown[BLK * WRAP..] == c;
    assert grown <= src ==> grown == src[..|grown|];
    assert grown <= src ==> src[BLK * WRAP..|grown|] == c;
  }
}
