/** The write-request loop of the test peer and the whole PUT: client and
    receiver over a channel that loses, duplicates and reorders, where a
    repeated request may make the receiver start over. */
module TftpPutNet {
  import opened Octets
  import opened Tftp
  import C = TftpPut

  // ----------------------------------------------------------- receiver

  /** One upload as the server sees it: the block number it expects, its octet
      count, and the payloads it accepted, in order. */
  datatype Receiver = Receiver(live: bool, expected: nat, total: nat, blocks: seq<seq<Octet>>)

  datatype Cue = Request | Incoming(p: Packet) | Lull

  datatype Reply = Reply(v: Receiver, acks: seq<Packet>)

  const IDLE := Receiver(false, 0, 0, [])
  const FRESH := Receiver(true, 1, 0, [])

  predicate IsData(p: Packet) { |p| >= 4 && p[0] == 0 && p[1] == OP_DATA }

  function ReceiverStep(v: Receiver, c: Cue): (r: Reply)
    requires v.expected < WRAP
    ensures r.v.expected < WRAP
  {
    if !v.live then (if c.Request? then Reply(FRESH, [AckPacket(0)]) else Reply(v, []))
    else if c.Lull? then Reply(v.(live := false), [])
    else if c.Incoming? && IsData(c.p) && PktBlock(c.p) == v.expected then
      Reply(Receiver(|c.p| - 4 >= BLK, (v.expected + 1) % WRAP, v.total + |c.p| - 4, v.blocks + [c.p[4..]]),
            [AckPacket(v.expected)])
    else Reply(v, [])
  }

  function ReceiverRun(cues: seq<Cue>): (r: Reply)
    ensures r.v.expected < WRAP
  {
    if cues == [] then Reply(FRESH, [AckPacket(0)])
    else
      var r := ReceiverRun(cues[..|cues| - 1]);
      var n := ReceiverStep(r.v, cues[|cues| - 1]);
      Reply(n.v, r.acks + n.acks)
  }

  lemma ReceiverNext(cues: seq<Cue>, k: nat)
    requires k < |cues|
    ensures var r := ReceiverRun(cues[..k]); var n := ReceiverStep(r.v, cues[k]);
            ReceiverRun(cues[..k + 1]) == Reply(n.v, r.acks + n.acks)
  {
    assert cues[..k + 1][..k] == cues[..k];
  }

  /** One upload, from the ACK of its request to the short block, a timeout or
      the end of the script. */
  method Receive(cues: seq<Cue>) returns (i: nat, total: nat, blocks: seq<seq<Octet>>, acks: seq<Packet>)
    ensures i <= |cues|
    ensures var r := ReceiverRun(cues[..i]);
            r.v.total == total && r.v.blocks == blocks && r.acks == acks && (i == |cues| || !r.v.live)
  {
    var expected: nat, live := 1, true;
    i, total, blocks, acks := 0, 0, [], [AckPacket(0)];
    while live && i < |cues|
      invariant i <= |cues| && expected < WRAP
      invariant ReceiverRun(cues[..i]) == Reply(Receiver(live, expected, total, blocks), acks)
      decreases |cues| - i
    {
      hide ReceiverRun;
      ReceiverNext(cues, i);
      var c := cues[i];
      i := i + 1;
      if c.Lull? {
        live := false;
      } else if c.Incoming? && IsData(c.p) && PktBlock(c.p) == expected {
        total := total + |c.p| - 4;
        blocks := blocks + [c.p[4..]];
        acks := acks + [AckPacket(expected)];
        expected := (expected + 1) % WRAP;
        live := |c.p| - 4 >= BLK;
      }
    }
  }

  // ------------------------------------------------------------ network

  /** `server` is the present upload, `past` the ones a repeated request ended. */
  datatype Net = Net(client: C.Putter, server: Receiver, past: seq<Receiver>, data: seq<Sent>, acks: seq<Sent>)

  datatype Move =
    | Transmit(tick: int) | Answer(k: nat, r: C.Round) | Turn(r: C.Round)
    | Ask | Deliver(k: nat) | Stray(p: Packet) | Lull

  /** The block the client is sending, from 1; 0 before the first. */
  function Index(s: C.Putter): nat {
    if s.offset == 0 && s.block == 0 then 0 else s.offset / BLK + 1
  }

  function With(r: C.Round, p: Packet): C.Round { r.(reply := C.Got(p)) }

  /** Nothing is delivered 65536 or more blocks late: a DATA packet against the
      block the receiver expects, an ACK against the block the client sends, and
      the request, as block 0, against the client too. */
  predicate Enabled(n: Net, m: Move) {
    match m
    case Transmit(_) => true
    case Answer(k, _) => k < |n.acks| && Index(n.client) < n.acks[k].index + WRAP
    case Turn(r) => !C.IsAck(r.reply)
    case Ask => !n.server.live ==> Index(n.client) < WRAP
    case Deliver(k) => k < |n.data| && |n.server.blocks| + 1 < n.data[k].index + WRAP
    case Stray(p) => !IsData(p)
    case Lull => true
  }

  predicate Sane(n: Net) { C.Ok(n.client) && n.server.expected < WRAP }

  function ClientMove(file: seq<Octet>, n: Net, r: C.Round): Net
    requires Sane(n)
  {
    var o := C.Step(file, n.client, r);
    n.(client := o.s, data := n.data + Tag(Index(n.client), o.data))
  }

  /** The packet of a round goes out before the reply of that round comes in. */
  function SendMove(file: seq<Octet>, n: Net, tick: int): Net
    requires Sane(n)
  {
    var o := C.Send(file, n.client, tick);
    n.(client := o.s, data := n.data + Tag(Index(n.client), o.data))
  }

  function ServerMove(n: Net, c: Cue): Net
    requires Sane(n)
  {
    var r := ReceiverStep(n.server, c);
    n.(server := r.v, acks := n.acks + Tag(|r.v.blocks|, r.acks),
       past := if c.Request? && !n.server.live && n.server != IDLE then n.past + [n.server] else n.past)
  }

  function Next(file: seq<Octet>, n: Net, m: Move): (r: Net)
    requires Sane(n) && Enabled(n, m)
    ensures Sane(r)
  {
    match m
    case Transmit(tick) => SendMove(file, n, tick)
    case Answer(k, r) => ClientMove(file, n, With(r, n.acks[k].p))
    case Turn(r) => ClientMove(file, n, r)
    case Ask => ServerMove(n, Request)
    case Deliver(k) => ServerMove(n, Incoming(n.data[k].p))
    case Stray(p) => ServerMove(n, Incoming(p))
    case Lull => ServerMove(n, Cue.Lull)
  }

  const INIT := Net(C.START, IDLE, [], [], [])

  ghost predicate Reaches(file: seq<Octet>, moves: seq<Move>, n: Net) {
    if moves == [] then n == INIT
    else exists p :: Reaches(file, moves[..|moves| - 1], p) && Sane(p) && Enabled(p, moves[|moves| - 1])
                     && n == Next(file, p, moves[|moves| - 1])
  }

  // ---------------------------------------------------------- invariant

  function Flat(blocks: seq<seq<Octet>>): seq<Octet> {
    if blocks == [] then [] else Flat(blocks[..|blocks| - 1]) + blocks[|blocks| - 1]
  }

  ghost predicate ClientOk(file: seq<Octet>, s: C.Putter) {
    && C.Ok(s) && s.offset % BLK == 0 && s.offset <= |file|
    && (Index(s) > 0 ==> s.block == Index(s) % WRAP)
    && (s.phase.Asking? ==> Index(s) == 0)
    && (s.phase.Sending? ==> Index(s) > 0)
    && (s.phase.Completed? ==> Index(s) == Blocks(file))
  }

  /** An upload holds the first blocks of the file, each once and in order. */
  ghost predicate Upload(file: seq<Octet>, v: Receiver, sent: nat) {
    && |v.blocks| <= sent && |v.blocks| <= Blocks(file)
    && (forall k :: 0 <= k < |v.blocks| ==> v.blocks[k] == BlockOf(file, k + 1))
    && v.total == |Flat(v.blocks)|
    && (v == IDLE || v.expected == (|v.blocks| + 1) % WRAP)
    && (v.live ==> |v.blocks| < Blocks(file))
  }

  /** Some upload has accepted `j` blocks. */
  ghost predicate Got(n: Net, j: nat) {
    |n.server.blocks| >= j || exists i :: 0 <= i < |n.past| && |n.past[i].blocks| >= j
  }

  ghost predicate DataOk(file: seq<Octet>, d: Sent, sent: nat) {
    1 <= d.index <= sent && d.index <= Blocks(file) && d.p == DataPacket(d.index % WRAP, BlockOf(file, d.index))
  }

  ghost predicate AckOk(n: Net, a: Sent) {
    Got(n, a.index) && a.p == AckPacket(a.index % WRAP)
  }

  ghost predicate Uploads(file: seq<Octet>, n: Net) {
    && Upload(file, n.server, Index(n.client))
    && forall i :: 0 <= i < |n.past| ==> Upload(file, n.past[i], Index(n.client)) && |n.past[i].blocks| < WRAP
  }

  ghost predicate Inv(file: seq<Octet>, n: Net) {
    && Sane(n) && ClientOk(file, n.client) && Uploads(file, n)
    && (Index(n.client) > 1 ==> Got(n, Index(n.client) - 1))
    && (n.client.phase.Completed? ==> Got(n, Blocks(file)))
    && (forall k :: 0 <= k < |n.data| ==> DataOk(file, n.data[k], Index(n.client)))
    && (forall k :: 0 <= k < |n.acks| ==> AckOk(n, n.acks[k]))
  }

  // ------------------------------------------------------------- client

  /** A client step: the block number goes up by at most one, and only on the
      ACK of the present block. */
  lemma StepIndex(file: seq<Octet>, s: C.Putter, r: C.Round)
    requires ClientOk(file, s)
    ensures var o := C.Step(file, s, r);
            && ClientOk(file, o.s)
            && (Index(o.s) == Index(s) || Index(o.s) == Index(s) + 1)
            && (Index(o.s) > Index(s) || (o.s.phase.Completed? && !s.phase.Completed?) ==>
                  C.IsAck(r.reply) && (s.phase.Asking? || (s.phase.Sending? && PktBlock(r.reply.p) == s.block)))
            && (Index(o.s) > Index(s) && s.phase.Asking? ==> Index(o.s) == 1)
            && (o.s.phase.Completed? ==> !s.phase.Asking? && Index(o.s) == Index(s) == Blocks(file))
            && (o.data != [] ==> Index(s) > 0 && o.data == [DataPacket(Index(s) % WRAP, BlockOf(file, Index(s)))])
  {
    hide DataPacket, C.Elapsed, C.Listen, C.Advance;
    if s.phase.Sending? {
      ListenIndex(file, C.Transmitted(s, r), r);
      assert BLK * (s.offset / BLK) == s.offset;
    }
  }

  lemma ListenIndex(file: seq<Octet>, s: C.Putter, r: C.Round)
    requires ClientOk(file, s) && s.phase.Sending?
    ensures var n := C.Listen(file, s, r);
            && ClientOk(file, n)
            && (Index(n) == Index(s) || Index(n) == Index(s) + 1)
            && (Index(n) > Index(s) || n.phase.Completed? ==> C.IsAck(r.reply) && PktBlock(r.reply.p) == s.block)
            && (n.phase.Completed? ==> Index(n) == Index(s))
  {
    hide DataPacket, C.Elapsed, C.Advance;
    AdvanceIndex(file, s, r.readFails);
  }

  lemma AdvanceIndex(file: seq<Octet>, s: C.Putter, readFails: bool)
    requires ClientOk(file, s) && s.phase.Sending?
    ensures var n := C.Advance(file, s, readFails);
            ClientOk(file, n) && (Index(n) == Index(s) || Index(n) == Index(s) + 1)
              && (n.phase.Completed? ==> Index(n) == Index(s))
  {
    C.NextNumber(s.offset, s.block);
    C.FurtherOn(s.offset, |file|);
  }

  lemma ClientMoveKeeps(file: seq<Octet>, n: Net, r: C.Round)
    requires Inv(file, n)
    requires n.client.phase.Sending? && C.IsAck(r.reply) && PktBlock(r.reply.p) == n.client.block ==>
               Got(n, Index(n.client))
    ensures Inv(file, ClientMove(file, n, r))
  {
    hide DataPacket, AckPacket, BlockOf, C.Step, ClientOk;
    StepIndex(file, n.client, r);
    var m := ClientMove(file, n, r);
    ClientFacts(file, n.client);
    forall j: nat ensures Got(n, j) <==> Got(m, j) {}
    forall k | 0 <= k < |m.data| ensures DataOk(file, m.data[k], Index(m.client)) {
      IndexBound(file, n.client);
    }
    assert Upload(file, m.server, Index(m.client));
  }

  lemma SendMoveKeeps(file: seq<Octet>, n: Net, tick: int)
    requires Inv(file, n)
    ensures Inv(file, SendMove(file, n, tick)) && Index(SendMove(file, n, tick).client) == Index(n.client)
  {
    hide DataPacket, AckPacket, BlockOf, ClientOk, AckOk, C.Send;
    SendIndex(file, n.client, tick);
    IndexBound(file, n.client);
    var m := SendMove(file, n, tick);
    forall j: nat ensures Got(n, j) <==> Got(m, j) {}
    forall k | 0 <= k < |m.acks| ensures AckOk(m, m.acks[k]) { SameAck(n, m, k); }
  }

  lemma SameAck(n: Net, m: Net, k: nat)
    requires k < |n.acks| && AckOk(n, n.acks[k]) && m.acks == n.acks && m.server == n.server && m.past == n.past
    ensures AckOk(m, m.acks[k])
  {
  }

  /** A transmission leaves the client at its block, and is of that block. */
  lemma SendIndex(file: seq<Octet>, s: C.Putter, tick: int)
    requires ClientOk(file, s)
    ensures var o := C.Send(file, s, tick);
            && ClientOk(file, o.s) && Index(o.s) == Index(s) && o.s.phase == s.phase
            && (s.phase.Sending? ==> Index(s) > 0)
            && if s.phase.Sending? && s.resend then o.data == [DataPacket(Index(s) % WRAP, BlockOf(file, Index(s)))]
               else o.data == [] && o.s == s
  {
    hide DataPacket;
    if s.phase.Sending? { assert BLK * (s.offset / BLK) == s.offset; }
  }

  lemma ClientFacts(file: seq<Octet>, s: C.Putter)
    requires ClientOk(file, s)
    ensures s.phase.Asking? ==> Index(s) == 0
    ensures C.Running(s) || !s.phase.Sending?
  {
  }

  lemma IndexBound(file: seq<Octet>, s: C.Putter)
    requires ClientOk(file, s)
    ensures Index(s) <= Blocks(file)
  {
    assert s.offset / BLK <= |file| / BLK;
  }

  // ------------------------------------------------------------- server

  lemma {:induction false} FlatLength(file: seq<Octet>, blocks: seq<seq<Octet>>)
    requires |blocks| <= Blocks(file)
    requires forall k :: 0 <= k < |blocks| ==> blocks[k] == BlockOf(file, k + 1)
    ensures Flat(blocks) == if |blocks| == Blocks(file) then file else file[..BLK * |blocks|]
  {
    if blocks != [] {
      var front := blocks[..|blocks| - 1];
      FlatLength(file, front);
      BlockLength(file, |blocks|);
      assert BLK * |front| == BLK * (|blocks| - 1);
    }
  }

  /** The one block that the receiver can take for the expected one is it. */
  lemma FreshIsExpected(file: seq<Octet>, n: Net, d: Sent)
    requires Inv(file, n) && n.server.live && DataOk(file, d, Index(n.client))
    requires |n.server.blocks| + 1 < d.index + WRAP && PktBlock(d.p) == n.server.expected
    ensures d.index == |n.server.blocks| + 1
  {
    hide BlockOf, DataPacket, AckOk;
    var e := |n.server.blocks| + 1;
    if Index(n.client) > 1 && |n.server.blocks| < Index(n.client) - 1 {
      var i :| 0 <= i < |n.past| && |n.past[i].blocks| >= Index(n.client) - 1;
      assert Index(n.client) <= WRAP;
    }
    assert PktBlock(DataPacket(d.index % WRAP, BlockOf(file, d.index))) == d.index % WRAP;
    SameBlock(d.index, e);
  }

  lemma AcceptKeeps(file: seq<Octet>, v: Receiver, p: Packet, sent: nat)
    requires v.live && Upload(file, v, sent) && |v.blocks| < sent && v.expected < WRAP
    requires p == DataPacket(v.expected, BlockOf(file, |v.blocks| + 1))
    ensures var r := ReceiverStep(v, Incoming(p));
            && Upload(file, r.v, sent) && |r.v.blocks| == |v.blocks| + 1
            && r.acks == [AckPacket((|v.blocks| + 1) % WRAP)]
  {
    hide BlockOf, AckPacket, Word, WordAt, DataPacket, Flat;
    BlockLength(file, |v.blocks| + 1);
    FlatMore(v.blocks, p[4..]);
    assert (v.expected + 1) % WRAP == (|v.blocks| + 2) % WRAP;
  }

  lemma FlatMore(blocks: seq<seq<Octet>>, c: seq<Octet>)
    ensures |Flat(blocks + [c])| == |Flat(blocks)| + |c|
  {
    assert (blocks + [c])[..|blocks|] == blocks;
  }

  lemma ServerMoveKeeps(file: seq<Octet>, n: Net, c: Cue)
    requires Inv(file, n)
    requires var r := ReceiverStep(n.server, c);
             && (Upload(file, r.v, Index(n.client)))
             && (forall k :: 0 <= k < |r.acks| ==> r.acks[k] == AckPacket(|r.v.blocks| % WRAP))
             && (if c.Request? && !n.server.live then Index(n.client) < WRAP else |r.v.blocks| >= |n.server.blocks|)
    ensures Inv(file, ServerMove(n, c))
  {
    hide DataPacket, AckPacket, BlockOf, ReceiverStep, ClientOk, Upload, DataOk;
    var m := ServerMove(n, c);
    UploadSize(file, n.server, Index(n.client));
    forall j: nat | Got(n, j) ensures Got(m, j) { GotKept(n, m, j); }
    forall k | 0 <= k < |m.acks| ensures AckOk(m, m.acks[k]) {
      if k < |n.acks| { assert AckOk(n, n.acks[k]); }
    }
  }

  lemma UploadSize(file: seq<Octet>, v: Receiver, sent: nat)
    requires Upload(file, v, sent)
    ensures |v.blocks| <= sent
  {
  }

  lemma GotKept(n: Net, m: Net, j: nat)
    requires Got(n, j) && n.past <= m.past
    requires |m.server.blocks| >= |n.server.blocks| || n.server == IDLE || n.server in m.past
    ensures Got(m, j)
  {
    if |n.server.blocks| >= j {
      if n.server in m.past {
        var i :| 0 <= i < |m.past| && m.past[i] == n.server;
      }
    } else {
      var i :| 0 <= i < |n.past| && |n.past[i].blocks| >= j;
      assert m.past[i] == n.past[i];
    }
  }

  /** A young ACK with the right 16 bits is the ACK of the present block. */
  lemma AckCounts(file: seq<Octet>, n: Net, a: Sent)
    requires Inv(file, n) && AckOk(n, a) && Index(n.client) < a.index + WRAP && n.client.phase.Sending?
    ensures PktBlock(a.p) == n.client.block ==> Got(n, Index(n.client))
  {
    hide BlockOf, DataPacket, DataOk;
    GotBound(file, n, a.index);
    if PktBlock(a.p) == n.client.block { SameBlock(a.index, Index(n.client)); }
  }

  lemma GotBound(file: seq<Octet>, n: Net, j: nat)
    requires Uploads(file, n) && Got(n, j)
    ensures j <= Index(n.client)
  {
  }

  lemma DeliverKeeps(file: seq<Octet>, n: Net, d: Sent)
    requires Inv(file, n) && DataOk(file, d, Index(n.client)) && |n.server.blocks| + 1 < d.index + WRAP
    ensures Inv(file, ServerMove(n, Incoming(d.p)))
  {
    hide BlockOf, AckPacket, DataPacket, AckOk, ClientOk;
    if n.server.live && PktBlock(d.p) == n.server.expected {
      FreshIsExpected(file, n, d);
      AcceptKeeps(file, n.server, d.p, Index(n.client));
    }
    ServerMoveKeeps(file, n, Incoming(d.p));
  }

  lemma AskKeeps(file: seq<Octet>, n: Net)
    requires Inv(file, n) && (!n.server.live ==> Index(n.client) < WRAP)
    ensures Inv(file, ServerMove(n, Request))
  {
    hide BlockOf, AckPacket, DataPacket, AckOk, ClientOk, DataOk;
    ServerMoveKeeps(file, n, Request);
  }

  lemma NextKeeps(file: seq<Octet>, n: Net, m: Move)
    requires Inv(file, n) && Enabled(n, m)
    ensures Inv(file, Next(file, n, m))
  {
    hide Inv;
    match m
    case Transmit(tick) => SendMoveKeeps(file, n, tick);
    case Answer(k, r) => AnswerKeeps(file, n, k, r);
    case Turn(r) => ClientMoveKeeps(file, n, r);
    case Ask => AskKeeps(file, n);
    case Deliver(k) => DataIsOk(file, n, k); DeliverKeeps(file, n, n.data[k]);
    case Stray(p) => OtherKeeps(file, n, Incoming(p));
    case Lull => OtherKeeps(file, n, Cue.Lull);
  }

  lemma AnswerKeeps(file: seq<Octet>, n: Net, k: nat, r: C.Round)
    requires Inv(file, n) && k < |n.acks| && Index(n.client) < n.acks[k].index + WRAP
    ensures Inv(file, ClientMove(file, n, With(r, n.acks[k].p)))
  {
    hide BlockOf, AckPacket, DataPacket, Uploads, ClientOk, DataOk, C.Step;
    assert AckOk(n, n.acks[k]);
    if n.client.phase.Sending? { AckCounts(file, n, n.acks[k]); }
    ClientMoveKeeps(file, n, With(r, n.acks[k].p));
  }

  lemma DataIsOk(file: seq<Octet>, n: Net, k: nat)
    requires Inv(file, n) && k < |n.data|
    ensures DataOk(file, n.data[k], Index(n.client))
  {
  }

  lemma OtherKeeps(file: seq<Octet>, n: Net, c: Cue)
    requires Inv(file, n) && (c.Lull? || (c.Incoming? && !IsData(c.p)))
    ensures Inv(file, ServerMove(n, c))
  {
    hide BlockOf, AckPacket, DataPacket, AckOk, ClientOk, DataOk;
    ServerMoveKeeps(file, n, c);
  }

  lemma {:induction false} Reachable(file: seq<Octet>, moves: seq<Move>, n: Net)
    requires Reaches(file, moves, n)
    ensures Inv(file, n)
  {
    hide ClientOk, Upload, Next, Enabled;
    if moves == [] {
      InitOk(file);
    } else {
      var m := moves[|moves| - 1];
      var p :| Reaches(file, moves[..|moves| - 1], p) && Sane(p) && Enabled(p, m) && n == Next(file, p, m);
      Reachable(file, moves[..|moves| - 1], p);
      NextKeeps(file, p, m);
    }
  }

  lemma InitOk(file: seq<Octet>)
    ensures Inv(file, INIT)
  {
  }

  /** PUT is safe in every run: each upload holds the first blocks of the file,
      once and in order, with their octet count; and when the client ends with
      success some upload, the only one if the request was served once, has
      accepted all floor(size / 512) + 1 blocks and counted the file's size. */
  lemma PutSafety(file: seq<Octet>, moves: seq<Move>, n: Net)
    requires Reaches(file, moves, n)
    ensures forall v :: v in n.past + [n.server] ==> Flat(v.blocks) <= file && v.total == |Flat(v.blocks)|
    ensures forall v, k :: v in n.past + [n.server] && 0 <= k < |v.blocks| ==> v.blocks[k] == BlockOf(file, k + 1)
    ensures n.client.phase.Completed? ==>
              exists v :: v in n.past + [n.server] && |v.blocks| == |file| / BLK + 1 && Flat(v.blocks) == file
                && v.total == |file| && !v.live
  {
    hide Reaches, BlockOf, DataOk, AckOk, ClientOk;
    Reachable(file, moves, n);
    forall v | v in n.past + [n.server] ensures Upload(file, v, Index(n.client)) && Flat(v.blocks) <= file {
      FlatLength(file, v.blocks);
    }
    if n.client.phase.Completed? {
      var v := if |n.server.blocks| >= Blocks(file) then n.server
               else var i :| 0 <= i < |n.past| && |n.past[i].blocks| >= Blocks(file); n.past[i];
      assert v in n.past + [n.server];
      FlatLength(file, v.blocks);
    }
  }

  // --------------------------------------------------------- a lost ACK

  /** No ACK of block `j` is among those delivered. */
  predicate NoAckOf(moves: seq<Move>, acks: seq<Sent>, j: nat) {
    forall i :: 0 <= i < |moves| && moves[i].Answer? && moves[i].k < |acks| ==> acks[moves[i].k].index != j
  }

  /** Block `j`, or the request as block 0, stays the present one unless its own
      ACK comes. */
  lemma StuckStep(file: seq<Octet>, n: Net, m: Move, j: nat)
    requires Inv(file, n) && Enabled(n, m) && j <= Blocks(file) && Index(n.client) <= j && !n.client.phase.Completed?
    requires m.Answer? ==> n.acks[m.k].index != j
    ensures var r := Next(file, n, m); Index(r.client) <= j && !r.client.phase.Completed? && n.acks <= r.acks
  {
    hide BlockOf, AckPacket, DataPacket, DataOk, C.Step, C.Send, ReceiverStep, ClientOk, Uploads;
    if m.Transmit? { SendIndex(file, n.client, m.tick); }
    if m.Answer? || m.Turn? {
      var r := if m.Answer? then With(m.r, n.acks[m.k].p) else m.r;
      StepIndex(file, n.client, r);
      ClientFacts(file, n.client);
      if m.Answer? && Index(n.client) == j {
        assert AckOk(n, n.acks[m.k]);
        GotBound(file, n, n.acks[m.k].index);
        if n.client.phase.Sending? { OtherAck(file, n, n.acks[m.k]); }
      }
    }
  }

  lemma OtherAck(file: seq<Octet>, n: Net, a: Sent)
    requires Inv(file, n) && a in n.acks && Index(n.client) < a.index + WRAP && n.client.phase.Sending?
    requires a.index != Index(n.client)
    ensures PktBlock(a.p) != n.client.block
  {
    hide BlockOf, DataPacket, DataOk;
    assert AckOk(n, a);
    GotBound(file, n, a.index);
    if PktBlock(a.p) == n.client.block { SameBlock(a.index, Index(n.client)); }
  }

  /** The client passes the request or a block only on an ACK of that very one. */
  lemma {:induction false} NeedsEveryAck(file: seq<Octet>, moves: seq<Move>, n: Net, j: nat)
    requires Reaches(file, moves, n) && j <= Blocks(file) && NoAckOf(moves, n.acks, j)
    ensures Index(n.client) <= j && !n.client.phase.Completed?
  {
    hide Next, Enabled, Inv;
    if moves != [] {
      var front, m := moves[..|moves| - 1], moves[|moves| - 1];
      var p :| Reaches(file, front, p) && Sane(p) && Enabled(p, m) && n == Next(file, p, m);
      Reachable(file, front, p);
      AcksGrow(file, p, m);
      forall i | 0 <= i < |front| && front[i].Answer? && front[i].k < |p.acks| ensures p.acks[front[i].k].index != j {
        assert moves[i] == front[i];
      }
      NeedsEveryAck(file, front, p, j);
      if m.Answer? { AnswerThere(p, m); assert n.acks[m.k] == p.acks[m.k]; }
      StuckStep(file, p, m, j);
    }
  }

  lemma AnswerThere(n: Net, m: Move)
    requires m.Answer? && Enabled(n, m)
    ensures m.k < |n.acks|
  {
  }

  lemma AcksGrow(file: seq<Octet>, n: Net, m: Move)
    requires Sane(n) && Enabled(n, m)
    ensures n.acks <= Next(file, n, m).acks
  {
    hide C.Step, ReceiverStep;
  }

  /** The ACKs of an upload served once: one for the request and each block. */
  predicate Numbered(n: Net) {
    && |n.acks| == (if n.server == IDLE then 0 else |n.server.blocks| + 1)
    && (n.server != IDLE ==> n.server.expected == (|n.server.blocks| + 1) % WRAP)
    && forall k :: 0 <= k < |n.acks| ==> n.acks[k].index == k
  }

  lemma CueNumbered(n: Net, c: Cue)
    requires Sane(n) && Numbered(n) && ServerMove(n, c).past == []
    ensures Numbered(ServerMove(n, c)) && n.past == []
  {
    hide AckPacket, ReceiverStep;
    var r := ReceiverStep(n.server, c);
    StepNumbered(n.server, c);
    var t := Tag(|r.v.blocks|, r.acks);
    assert |t| == |r.acks| <= 1;
  }

  /** One ACK for each block accepted, and one for a request. */
  lemma StepNumbered(v: Receiver, c: Cue)
    requires v.expected < WRAP && (v != IDLE ==> v.expected == (|v.blocks| + 1) % WRAP)
    ensures var r := ReceiverStep(v, c);
            && (r.v != IDLE ==> r.v.expected == (|r.v.blocks| + 1) % WRAP)
            && (if !v.live && c.Request? then |r.acks| == 1 && r.v == FRESH
                else |r.v.blocks| == |v.blocks| + |r.acks| && |r.acks| <= 1 && (r.v == IDLE <==> v == IDLE))
  {
    hide AckPacket;
  }

  lemma {:induction false} OneAckEach(file: seq<Octet>, moves: seq<Move>, n: Net)
    requires Reaches(file, moves, n) && n.past == []
    ensures Numbered(n)
  {
    hide Next, Enabled, Numbered;
    if moves == [] {
      InitNumbered();
    } else {
      var front, m := moves[..|moves| - 1], moves[|moves| - 1];
      var p :| Reaches(file, front, p) && Sane(p) && Enabled(p, m) && n == Next(file, p, m);
      PastGrows(file, p, m);
      OneAckEach(file, front, p);
      MoveNumbered(file, p, m);
    }
  }

  lemma MoveNumbered(file: seq<Octet>, n: Net, m: Move)
    requires Sane(n) && Enabled(n, m) && Numbered(n) && Next(file, n, m).past == []
    ensures Numbered(Next(file, n, m)) && n.past == []
  {
    hide C.Step, C.Send, Numbered, ReceiverStep;
    match m
    case Transmit(tick) => SendNumbered(file, n, tick);
    case Answer(k, r) => ClientNumbered(file, n, With(r, n.acks[k].p));
    case Turn(r) => ClientNumbered(file, n, r);
    case Ask => CueNumbered(n, Request);
    case Deliver(k) => CueNumbered(n, Incoming(n.data[k].p));
    case Stray(q) => CueNumbered(n, Incoming(q));
    case Lull => CueNumbered(n, Cue.Lull);
  }

  lemma PastGrows(file: seq<Octet>, n: Net, m: Move)
    requires Sane(n) && Enabled(n, m)
    ensures n.past <= Next(file, n, m).past
  {
    hide C.Step, C.Send, ReceiverStep;
  }

  lemma InitNumbered()
    ensures Numbered(INIT)
  {
  }

  lemma SendNumbered(file: seq<Octet>, n: Net, tick: int)
    requires Sane(n) && Numbered(n)
    ensures Numbered(SendMove(file, n, tick))
  {
    hide C.Send;
  }

  lemma ClientNumbered(file: seq<Octet>, n: Net, r: C.Round)
    requires Sane(n) && Numbered(n)
    ensures Numbered(ClientMove(file, n, r))
  {
    hide C.Step;
  }

  /** The receiver repeats no ACK: when one ACK of a request served once is
      lost, the PUT cannot succeed, however often the client sends again. */
  lemma LostAckEndsPut(file: seq<Octet>, moves: seq<Move>, n: Net, j: nat)
    requires Reaches(file, moves, n) && n.past == [] && j <= Blocks(file)
    requires forall i :: 0 <= i < |moves| && moves[i].Answer? ==> moves[i].k != j
    ensures !n.client.phase.Completed? && Index(n.client) <= j
  {
    hide Reaches;
    OneAckEach(file, moves, n);
    assert NoAckOf(moves, n.acks, j);
    NeedsEveryAck(file, moves, n, j);
  }

  // ------------------------------------------- completion and tightness

  const QUIET := C.Round(false, 0, 0, C.Nothing, 0, false)

  /** The run without losses: each block is sent, delivered and acknowledged once. */
  function Straight(a: nat): seq<Move> {
    if a == 0 then [Ask, Answer(0, QUIET)] else Straight(a - 1) + [Turn(QUIET), Deliver(a - 1), Answer(a, QUIET)]
  }

  function FirstBlocks(file: seq<Octet>, n: nat): seq<seq<Octet>> {
    seq(n, k requires 0 <= k => BlockOf(file, k + 1))
  }

  function StraightData(file: seq<Octet>, n: nat): seq<Sent> {
    seq(n, k requires 0 <= k => Sent(k + 1, DataPacket((k + 1) % WRAP, BlockOf(file, k + 1))))
  }

  function StraightAcks(n: nat): seq<Sent> {
    seq(n, k requires 0 <= k => Sent(k, AckPacket(k % WRAP)))
  }

  /** Block `a + 1` is about to be sent. */
  function StraightNet(file: seq<Octet>, a: nat): Net
    requires a < Blocks(file)
  {
    Net(C.Putter(C.Sending, (a + 1) % WRAP, BLK * a, 0, 0, true, 0),
        Receiver(true, (a + 1) % WRAP, BLK * a, FirstBlocks(file, a)), [], StraightData(file, a), StraightAcks(a + 1))
  }

  /** Block `a + 1` is out and delivered, its ACK is on the way. */
  function Halfway(file: seq<Octet>, a: nat): Net
    requires a < Blocks(file)
  {
    Net(C.Putter(C.Sending, (a + 1) % WRAP, BLK * a, 0, 1, false, 0),
        Receiver(a + 1 < Blocks(file), (a + 2) % WRAP, BLK * a + |BlockOf(file, a + 1)|, FirstBlocks(file, a + 1)),
        [], StraightData(file, a + 1), StraightAcks(a + 2))
  }

  lemma StraightSend(file: seq<Octet>, a: nat)
    requires a < Blocks(file)
    ensures var n := StraightNet(file, a);
            && Sane(n) && Enabled(n, Turn(QUIET))
            && Next(file, n, Turn(QUIET)) == n.(client := Halfway(file, a).client, data := StraightData(file, a + 1))
  {
    hide DataPacket, AckPacket, StraightAcks, FirstBlocks, C.Step, BlockOf;
    var n := StraightNet(file, a);
    StraightRound(file, a);
    var o := C.Step(file, n.client, QUIET);
    assert n.data + Tag(a + 1, o.data) == StraightData(file, a + 1);
  }

  lemma StraightRound(file: seq<Octet>, a: nat)
    requires a < Blocks(file)
    ensures C.Step(file, C.Putter(C.Sending, (a + 1) % WRAP, BLK * a, 0, 0, true, 0), QUIET)
            == C.Outcome(C.Putter(C.Sending, (a + 1) % WRAP, BLK * a, 0, 1, false, 0),
                         [DataPacket((a + 1) % WRAP, BlockOf(file, a + 1))])
  {
    hide DataPacket;
  }

  lemma StraightDeliver(file: seq<Octet>, a: nat)
    requires a < Blocks(file)
    ensures var n := OnTheWay(file, a);
            && Sane(n) && Enabled(n, Deliver(a)) && Next(file, n, Deliver(a)) == Halfway(file, a)
  {
    hide BlockOf, DataPacket, AckPacket, ReceiverStep;
    var n := OnTheWay(file, a);
    StraightTaken(file, a);
    assert n.data[a] == Sent(a + 1, DataPacket((a + 1) % WRAP, BlockOf(file, a + 1)));
    assert n.acks + Tag(a + 1, [AckPacket((a + 1) % WRAP)]) == StraightAcks(a + 2);
  }

  lemma StraightTaken(file: seq<Octet>, a: nat)
    requires a < Blocks(file)
    ensures var b := (a + 1) % WRAP;
            var v, p := Receiver(true, b, BLK * a, FirstBlocks(file, a)), DataPacket(b, BlockOf(file, a + 1));
            ReceiverStep(v, Incoming(p)) == Reply(Halfway(file, a).server, [AckPacket(b)])
  {
    hide BlockOf, Word, WordAt, DataPacket, AckPacket, StraightData, StraightAcks;
    BlockLength(file, a + 1);
    var p := DataPacket((a + 1) % WRAP, BlockOf(file, a + 1));
    assert PktBlock(p) == (a + 1) % WRAP && IsData(p) && p[4..] == BlockOf(file, a + 1);
    assert ((a + 1) % WRAP + 1) % WRAP == (a + 2) % WRAP;
    assert FirstBlocks(file, a) + [BlockOf(file, a + 1)] == FirstBlocks(file, a + 1);
  }

  /** Between the transmission and the delivery. */
  function OnTheWay(file: seq<Octet>, a: nat): Net
    requires a < Blocks(file)
  {
    StraightNet(file, a).(client := Halfway(file, a).client, data := StraightData(file, a + 1))
  }

  lemma StraightAnswer(file: seq<Octet>, a: nat)
    requires a < Blocks(file)
    ensures var n := Halfway(file, a); var m := Answer(a + 1, QUIET);
            && Sane(n) && Enabled(n, m)
            && (a + 1 < Blocks(file) ==> Next(file, n, m) == StraightNet(file, a + 1))
            && (a + 1 == Blocks(file) ==> Next(file, n, m).client.phase.Completed?)
  {
    hide Word, WordAt, StraightData, FirstBlocks;
    var n := Halfway(file, a);
    BlockLength(file, a + 1);
    var p := AckPacket((a + 1) % WRAP);
    assert n.acks[a + 1] == Sent(a + 1, p);
    assert ((a + 1) % WRAP + 1) % WRAP == (a + 2) % WRAP;
    assert n.data + Tag(a + 1, []) == n.data;
  }

  lemma ReachesOne(file: seq<Octet>, moves: seq<Move>, n: Net, m: Move)
    requires Reaches(file, moves, n) && Sane(n) && Enabled(n, m)
    ensures Reaches(file, moves + [m], Next(file, n, m))
  {
    var all := moves + [m];
    assert all[..|all| - 1] == moves;
  }

  lemma StraightHalf(file: seq<Octet>, a: nat, moves: seq<Move>)
    requires a < Blocks(file) && Reaches(file, moves, StraightNet(file, a))
    ensures Reaches(file, moves + [Turn(QUIET)] + [Deliver(a)], Halfway(file, a))
  {
    hide Reaches, Next, Enabled;
    StraightSend(file, a);
    StraightDeliver(file, a);
    ReachesOne(file, moves, StraightNet(file, a), Turn(QUIET));
    ReachesOne(file, moves + [Turn(QUIET)], OnTheWay(file, a), Deliver(a));
  }

  lemma {:induction false} StraightReaches(file: seq<Octet>, a: nat)
    requires a < Blocks(file)
    ensures Reaches(file, Straight(a), StraightNet(file, a))
  {
    hide Reaches, Next, Enabled, StraightNet, Halfway, Sane;
    if a == 0 {
      FirstSteps(file);
    } else {
      StraightReaches(file, a - 1);
      StraightHalf(file, a - 1, Straight(a - 1));
      StraightAnswer(file, a - 1);
      var front := Straight(a - 1) + [Turn(QUIET)] + [Deliver(a - 1)];
      ReachesOne(file, front, Halfway(file, a - 1), Answer(a, QUIET));
      assert Straight(a) == front + [Answer(a, QUIET)];
    }
  }

  lemma FirstSteps(file: seq<Octet>)
    ensures Reaches(file, Straight(0), StraightNet(file, 0))
  {
    hide Next, Enabled, StraightNet, Sane;
    assert Reaches(file, [], INIT);
    FirstAsked(file);
    FirstAnswered(file);
    hide Reaches;
    ReachesOne(file, [], INIT, Ask);
    ReachesOne(file, [] + [Ask], ASKED, Answer(0, QUIET));
    assert Straight(0) == [] + [Ask] + [Answer(0, QUIET)];
  }

  /** The request has arrived and its ACK is on the way. */
  const ASKED := Net(C.START, FRESH, [], [], [Sent(0, AckPacket(0))])

  lemma FirstAsked(file: seq<Octet>)
    ensures Sane(INIT) && Enabled(INIT, Ask) && Next(file, INIT, Ask) == ASKED
  {
    hide Word, WordAt;
    assert INIT.acks + Tag(0, [AckPacket(0)]) == [Sent(0, AckPacket(0))];
  }

  lemma FirstAnswered(file: seq<Octet>)
    ensures Sane(ASKED) && Enabled(ASKED, Answer(0, QUIET))
    ensures Next(file, ASKED, Answer(0, QUIET)) == StraightNet(file, 0)
  {
    hide Word, WordAt, BlockOf;
    assert ASKED.acks == StraightAcks(1);
    assert ASKED.acks[0] == Sent(0, AckPacket(0));
    assert [] + Tag(0, []) == StraightData(file, 0);
    assert FirstBlocks(file, 0) == [];
  }

  /** Every file can be sent: some run ends with success. */
  lemma PutCompletes(file: seq<Octet>)
    ensures exists moves, n :: Reaches(file, moves, n) && n.client.phase.Completed?
  {
    hide Next, Enabled, StraightNet, Halfway, Sane, Straight;
    var a := |file| / BLK;
    StraightReaches(file, a);
    StraightHalf(file, a, Straight(a));
    StraightAnswer(file, a);
    ReachesOne(file, Straight(a) + [Turn(QUIET)] + [Deliver(a)], Halfway(file, a), Answer(a + 1, QUIET));
  }

  /** The age bound is the exact one: a reachable state and a sent DATA packet
      just 65536 blocks old that the receiver would accept as the next block. */
  lemma PutBoundIsTight(file: seq<Octet>)
    requires |file| >= BLK * WRAP && BlockOf(file, 1) != BlockOf(file, WRAP + 1)
    ensures exists moves, n ::
              && Reaches(file, moves, n) && Sane(n) && |n.data| > 0
              && |n.server.blocks| + 1 == n.data[0].index + WRAP
              && ServerMove(n, Incoming(n.data[0].p)).server.blocks == n.server.blocks + [BlockOf(file, 1)]
              && n.server.blocks + [BlockOf(file, 1)] != FirstBlocks(file, WRAP + 1)
  {
    hide Reaches, Straight, Enabled, Next, BlockOf, Word, WordAt, StraightAcks;
    StraightReaches(file, WRAP);
    var n := StraightNet(file, WRAP);
    assert n.data[0] == Sent(1, DataPacket(1, BlockOf(file, 1)));
    assert FirstBlocks(file, WRAP + 1)[WRAP] == BlockOf(file, WRAP + 1);
    assert (n.server.blocks + [BlockOf(file, 1)])[WRAP] == BlockOf(file, 1);
  }

  /** The same for ACKs: an ACK just 65536 blocks old makes the client report a
      file as sent whose last block nobody has. */
  lemma PutAckBoundIsTight(file: seq<Octet>)
    requires Blocks(file) == WRAP + 1
    ensures exists moves, n ::
              && Reaches(file, moves, n) && Sane(n) && n.past == [] && |n.acks| > 1
              && Index(n.client) == n.acks[1].index + WRAP
              && ClientMove(file, n, With(QUIET, n.acks[1].p)).client.phase.Completed?
              && |n.server.blocks| < Blocks(file)
  {
    hide Reaches, Straight, Enabled, Next, BlockOf, Word, WordAt, StraightData, DataPacket;
    StraightReaches(file, WRAP);
    var n := StraightNet(file, WRAP);
    assert n.acks[1] == Sent(1, AckPacket(1));
    assert (WRAP + 1) % WRAP == 1;
    assert BLK * WRAP / BLK == WRAP;
  }
}
