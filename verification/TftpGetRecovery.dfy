/** GET after losses: what is repeated, and from which states the transfer can
    still be completed by packets that are yet to be sent. */
module TftpGetRecovery {
  import opened Octets
  import opened Tftp
  import opened TftpGetNet
  import C = TftpGet

  // ------------------------------------------------------- what is repeated

  function Ack(a: nat): Sent { Sent(a, AckPacket(a % WRAP)) }

  function Data(src: seq<Octet>, i: nat): Sent
    requires i >= 1
  {
    Sent(i, DataPacket(i % WRAP, BlockOf(src, i)))
  }

  /** In every run: a DATA packet is answered by the ACK of its block if it is the
      next one and could be written, or the last one taken; no other packet is. */
  lemma DeliveryAnswered(src: seq<Octet>, moves: seq<Move>, n: Net, k: nat, wrote: nat)
    requires Reaches(src, moves, n) && Enabled(n, Deliver(k, wrote)) && C.Waiting(n.client)
    ensures Sane(n)
    ensures var a, i := Accepted(n.client), n.data[k].index; var r := Next(src, n, Deliver(k, wrote));
            && r.server == n.server && r.data == n.data
            && if i == a + 1 then
                 if wrote < |BlockOf(src, i)| then r.acks == n.acks && r.client.phase.WriteError?
                 else r.acks == n.acks + [Ack(a + 1)] && Accepted(r.client) == a + 1
                      && r.client.phase == (if i == Blocks(src) then C.Received else C.Receiving)
               else r.client == n.client.(phase := C.Receiving, tries := 0)
                    && r.acks == if i == a then n.acks + [Ack(a)] else n.acks
  {
    hide Reaches, DataPacket, AckPacket, BlockOf;
    Reachable(src, moves, n);
    Delivered(src, n, k, wrote);
  }

  lemma Delivered(src: seq<Octet>, n: Net, k: nat, wrote: nat)
    requires Inv(src, n) && Enabled(n, Deliver(k, wrote)) && C.Waiting(n.client)
    ensures var a, i := Accepted(n.client), n.data[k].index; var r := Next(src, n, Deliver(k, wrote));
            && r.server == n.server && r.data == n.data
            && if i == a + 1 then
                 if wrote < |BlockOf(src, i)| then r.acks == n.acks && r.client.phase.WriteError?
                 else r.acks == n.acks + [Ack(a + 1)] && Accepted(r.client) == a + 1
                      && r.client.phase == (if i == Blocks(src) then C.Received else C.Receiving)
               else r.client == n.client.(phase := C.Receiving, tries := 0)
                    && r.acks == if i == a then n.acks + [Ack(a)] else n.acks
  {
    hide BlockOf, AckPacket, DataPacket, SenderOk, C.Take, ClientOk;
    var a, g, d := Accepted(n.client), n.client, n.data[k];
    assert DataOk(src, d, a);
    Taken(src, g, d.index, wrote);
    var o := C.Take(g, d.p, wrote);
    assert C.Step(g, C.Arrival(d.p, wrote)) == o;
    assert n.acks + [] == n.acks;
    assert forall x :: Tag(Accepted(o.g), [x]) == [Sent(Accepted(o.g), x)];
  }

  /** What the client makes of block `i`. */
  lemma Taken(src: seq<Octet>, g: C.Getter, i: nat, wrote: nat)
    requires C.Ok(g) && ClientOk(src, g) && C.Waiting(g)
    requires 1 <= i <= Accepted(g) + 1 && i <= Blocks(src) && Accepted(g) + 1 < i + WRAP
    ensures var a := Accepted(g); var o := C.Take(g, DataPacket(i % WRAP, BlockOf(src, i)), wrote);
            if i == a + 1 then
              if wrote < |BlockOf(src, i)| then o.acks == [] && o.g.phase.WriteError?
              else o.acks == [AckPacket((a + 1) % WRAP)] && Accepted(o.g) == a + 1
                   && o.g.phase == (if i == Blocks(src) then C.Received else C.Receiving)
            else o.g == g.(phase := C.Receiving, tries := 0) && Accepted(o.g) == a
                 && o.acks == if i == a then [AckPacket(a % WRAP)] else []
  {
    hide BlockOf, Word, WordAt, AckPacket;
    var a, p := Accepted(g), DataPacket(i % WRAP, BlockOf(src, i));
    assert C.IsData(p) && PktBlock(p) == i % WRAP && p[4..] == BlockOf(src, i);
    assert (g.last + 1) % WRAP == (a + 1) % WRAP;
    Unlike(i, a);
    if i == a + 1 {
      TakeNext(src, g, p[4..], wrote);
      BlockLength(src, i);
    } else if i % WRAP == (a + 1) % WRAP {
      SameBlock(i, a + 1);
    }
  }

  /** A block not newer than the last one has its number only if it is that one. */
  lemma Unlike(i: nat, a: nat)
    requires i <= a + 1 && a + 1 < i + WRAP
    ensures i % WRAP == a % WRAP <==> i == a
  {
    if i % WRAP == a % WRAP { SameBlock(i, a); }
  }

  /** In every run: a receiving client repeats its last ACK on each silent round
      but the one at which it gives up. */
  lemma SilenceAnswered(src: seq<Octet>, moves: seq<Move>, n: Net)
    requires Reaches(src, moves, n) && n.client.phase.Receiving?
    ensures Sane(n)
    ensures var a := Accepted(n.client); var r := Next(src, n, Move.Silence);
            && r.server == n.server && r.data == n.data
            && if n.client.tries < RETRIES then
                 r.acks == n.acks + [Ack(a)] && r.client == n.client.(tries := n.client.tries + 1)
               else r.acks == n.acks && r.client.phase.TimedOut?
  {
    hide Reaches, DataPacket, AckPacket, BlockOf;
    Reachable(src, moves, n);
    Silent(src, n);
  }

  lemma Silent(src: seq<Octet>, n: Net)
    requires Inv(src, n) && n.client.phase.Receiving?
    ensures var a := Accepted(n.client); var r := Next(src, n, Move.Silence);
            && r.server == n.server && r.data == n.data
            && if n.client.tries < RETRIES then
                 r.acks == n.acks + [Ack(a)] && r.client == n.client.(tries := n.client.tries + 1)
               else r.acks == n.acks && r.client.phase.TimedOut?
  {
    hide BlockOf, AckPacket, DataPacket, SenderOk;
    var a, o := Accepted(n.client), C.Step(n.client, C.Silence);
    assert n.acks + [] == n.acks;
    assert forall x :: Tag(a, [x]) == [Sent(a, x)];
  }

  /** In every run: a server in a transfer repeats its block on a timeout and on an
      ACK of any other block, three times; on the ACK of the block it sends the next. */
  lemma ServerAnswers(src: seq<Octet>, moves: seq<Move>, n: Net, c: Cue)
    requires Reaches(src, moves, n) && n.server.busy
    requires c.Lull? || (c.Incoming? && IsAck(c.p))
    ensures Sane(n)
    ensures var i := Index(n.server); var r := ServerMove(src, n, c);
            && r.client == n.client && r.acks == n.acks
            && if c.Incoming? && PktBlock(c.p) == i % WRAP then
                 r.data == n.data + [Data(src, i + 1)] && Index(r.server) == i + 1
                 && r.server.busy == (i + 1 < Blocks(src)) && r.server.round == 0
               else
                 r.data == n.data + [Data(src, i)] && Index(r.server) == i
                 && r.server.busy == (n.server.round < 2) && r.server.round == n.server.round + 1
  {
    hide Reaches, DataPacket, AckPacket, BlockOf;
    Reachable(src, moves, n);
    Answered(src, n, c);
  }

  lemma Answered(src: seq<Octet>, n: Net, c: Cue)
    requires Inv(src, n) && n.server.busy && (c.Lull? || (c.Incoming? && IsAck(c.p)))
    ensures var i := Index(n.server); var r := ServerMove(src, n, c);
            && r.client == n.client && r.acks == n.acks
            && if c.Incoming? && PktBlock(c.p) == i % WRAP then
                 r.data == n.data + [Data(src, i + 1)] && Index(r.server) == i + 1
                 && r.server.busy == (i + 1 < Blocks(src)) && r.server.round == 0
               else
                 r.data == n.data + [Data(src, i)] && Index(r.server) == i
                 && r.server.busy == (n.server.round < 2) && r.server.round == n.server.round + 1
  {
    hide DataPacket, AckPacket, ClientOk, BlockOf, SenderStep, SenderOk;
    var i := Index(n.server);
    SenderIs(src, n.server, Accepted(n.client));
    SenderAnswers(src, n.server.round, i, c);
    assert forall j, x :: Tag(j, [x]) == [Sent(j, x)];
  }

  /** The state of a server in a transfer is that of a block and a round. */
  lemma SenderIs(src: seq<Octet>, s: Sender, accepted: nat)
    requires SenderOk(src, s, accepted) && s.busy
    ensures s == Sender(true, Index(s) % WRAP, BLK * (Index(s) - 1), s.round) && BLK * Index(s) <= |src|
  {
  }

  lemma SenderAnswers(src: seq<Octet>, round: nat, i: nat, c: Cue)
    requires i >= 1 && BLK * i <= |src| && (c.Lull? || (c.Incoming? && IsAck(c.p)))
    ensures var r := SenderStep(src, Sender(true, i % WRAP, BLK * (i - 1), round), c);
            if c.Incoming? && PktBlock(c.p) == i % WRAP then
              r.data == [DataPacket((i + 1) % WRAP, BlockOf(src, i + 1))] && Index(r.s) == i + 1
              && r.s.busy == (i + 1 < Blocks(src)) && r.s.round == 0
            else
              r.data == [DataPacket(i % WRAP, BlockOf(src, i))] && Index(r.s) == i
              && r.s.busy == (round < 2) && r.s.round == round + 1
  {
    hide DataPacket, Word, WordAt, Chunk;
    FullBlock(src, i);
    FullBlock(src, i + 1);
    assert (i % WRAP + 1) % WRAP == (i + 1) % WRAP && BLK * (i - 1) + BLK == BLK * i;
  }

  lemma FullBlock(src: seq<Octet>, i: nat)
    requires i >= 1 && BLK * (i - 1) <= |src|
    ensures |Chunk(src, BLK * (i - 1))| == BLK <==> i < Blocks(src)
    ensures (BLK * (i - 1)) / BLK + 1 == i
  {
  }

  /** In every run: what is no DATA packet never changes the file and is never
      answered. A user's break and an ERROR end the transfer; while receiving,
      anything else, runts included, is dropped, but it is no answer to a request. */
  lemma OthersDropped(src: seq<Octet>, moves: seq<Move>, n: Net, p: Packet)
    requires Reaches(src, moves, n) && C.Waiting(n.client) && p != [] && !C.IsData(p)
    ensures Sane(n)
    ensures var r := Next(src, n, Junk(p));
            && r == n.(client := r.client) && r.client == n.client.(phase := r.client.phase)
            && r.client.phase == if n.client.phase.Asking? || (|p| >= 4 && p[1] == 5) then C.Refused else C.Receiving
    ensures Next(src, n, Break) == n.(client := n.client.(phase := C.Interrupted))
  {
    hide Reaches, Inv;
    Reachable(src, moves, n);
    InvSane(src, n);
    assert n.acks + Tag(Accepted(n.client), []) == n.acks;
    assert forall g: C.Getter :: n.acks + Tag(Accepted(g), []) == n.acks;
  }

  // ---------------------------------------------------------------- recovery

  /** A move that brings no packet sent before: neither one of the first `d` DATA
      packets or `k` ACKs, nor a request or a foreign packet. */
  predicate FromNow(m: Move, d: nat, k: nat) {
    match m
    case Deliver(i, _) => i >= d
    case Acknowledge(i) => i >= k
    case Silence => true
    case Lull => true
    case Break => true
    case _ => false
  }

  /** Such moves lead from `n` to `r`. */
  ghost predicate Goes(src: seq<Octet>, n: Net, moves: seq<Move>, r: Net, d: nat, k: nat)
    decreases |moves|
  {
    if moves == [] then r == n
    else
      && Sane(n) && Enabled(n, moves[0]) && FromNow(moves[0], d, k)
      && Goes(src, Next(src, n, moves[0]), moves[1..], r, d, k)
  }

  /** All that was under way may be lost, and still the file can arrive. */
  ghost predicate Recovers(src: seq<Octet>, n: Net) {
    exists moves, r :: Goes(src, n, moves, r, |n.data|, |n.acks|) && r.client.phase.Received? && r.client.file == src
  }

  /** The server is still waiting for the ACK of the block the client needs next
      or has last taken, and one of the two has a repetition left for it. */
  predicate CanRecover(n: Net) {
    var a, i := Accepted(n.client), Index(n.server);
    n.server.busy
    && (|| (i == a + 1 && n.server.round < 2)
        || (i == a && (n.client.tries < RETRIES || n.server.round < 2)))
  }

  lemma GoesFirst(src: seq<Octet>, n: Net, m: Move, moves: seq<Move>, r: Net, d: nat, k: nat)
    requires Sane(n) && Enabled(n, m) && FromNow(m, d, k) && Goes(src, Next(src, n, m), moves, r, d, k)
    ensures Goes(src, n, [m] + moves, r, d, k)
  {
    assert ([m] + moves)[1..] == moves;
  }

  /** The block that the client needs has just been sent. */
  ghost predicate Offered(src: seq<Octet>, n: Net, d: nat, k: nat) {
    var a := Accepted(n.client);
    && Inv(src, n) && n.client.phase.Receiving? && a < Blocks(src) && k <= |n.acks|
    && d < |n.data| && n.data[|n.data| - 1] == Data(src, a + 1)
    && Index(n.server) == a + 1 && n.server.busy == (a + 1 < Blocks(src))
  }

  lemma {:induction false} Finish(src: seq<Octet>, n: Net, d: nat, k: nat) returns (moves: seq<Move>, r: Net)
    requires Offered(src, n, d, k)
    ensures Goes(src, n, moves, r, d, k) && r.client.phase.Received? && r.client.file == src
    decreases Blocks(src) - Accepted(n.client), 0
  {
    hide Inv, Next, Goes, BlockOf, DataPacket, AckPacket;
    var a, m := Accepted(n.client), Deliver(|n.data| - 1, BLK);
    InvSane(src, n);
    ShortBlock(src, a + 1);
    Delivered(src, n, |n.data| - 1, BLK);
    NextKeeps(src, n, m);
    var mid := Next(src, n, m);
    if a + 1 == Blocks(src) {
      InvReceived(src, mid);
      moves, r := [], mid;
      GoesNowhere(src, mid, d, k);
    } else {
      moves, r := AckAndFinish(src, mid, d, k);
    }
    GoesFirst(src, n, m, moves, r, d, k);
    moves := [m] + moves;
  }

  /** The server gets the ACK it waits for, and goes on. */
  lemma {:induction false} AckAndFinish(src: seq<Octet>, n: Net, d: nat, k: nat) returns (moves: seq<Move>, r: Net)
    requires Inv(src, n) && n.client.phase.Receiving? && n.server.busy && Index(n.server) == Accepted(n.client)
    requires d <= |n.data| && k < |n.acks| && n.acks[|n.acks| - 1] == Ack(Accepted(n.client))
    ensures Goes(src, n, moves, r, d, k) && r.client.phase.Received? && r.client.file == src
    decreases Blocks(src) - Accepted(n.client), 1
  {
    hide Goes, Next, Inv, Offered;
    var m := Acknowledge(|n.acks| - 1);
    AckTaken(src, n, d, k);
    moves, r := Finish(src, Next(src, n, m), d, k);
    GoesFirst(src, n, m, moves, r, d, k);
    moves := [m] + moves;
  }

  lemma AckTaken(src: seq<Octet>, n: Net, d: nat, k: nat)
    requires Inv(src, n) && n.client.phase.Receiving? && n.server.busy && Index(n.server) == Accepted(n.client)
    requires d <= |n.data| && k < |n.acks| && n.acks[|n.acks| - 1] == Ack(Accepted(n.client))
    ensures var m := Acknowledge(|n.acks| - 1);
            Sane(n) && Enabled(n, m) && Offered(src, Next(src, n, m), d, k)
            && Accepted(Next(src, n, m).client) == Accepted(n.client)
  {
    hide Inv, BlockOf, DataPacket, AckPacket, WordAt, Word, SenderStep;
    var a, m := Accepted(n.client), Acknowledge(|n.acks| - 1);
    InvSane(src, n);
    assert IsAck(Ack(a).p) && PktBlock(Ack(a).p) == a % WRAP;
    Answered(src, n, Incoming(Ack(a).p));
    NextKeeps(src, n, m);
    InvBlocks(src, Next(src, n, m));
  }

  lemma InvSane(src: seq<Octet>, n: Net)
    requires Inv(src, n)
    ensures Sane(n) && (n.server.busy ==> Index(n.server) <= Accepted(n.client) + 1)
  {
  }

  lemma InvBlocks(src: seq<Octet>, n: Net)
    requires Inv(src, n) && !n.client.phase.Received?
    ensures Accepted(n.client) < Blocks(src)
  {
  }

  lemma InvReceived(src: seq<Octet>, n: Net)
    requires Inv(src, n) && n.client.phase.Received?
    ensures n.client.file == src
  {
  }

  lemma ShortBlock(src: seq<Octet>, i: nat)
    requires i >= 1
    ensures |BlockOf(src, i)| <= BLK
  {
  }

  lemma GoesNowhere(src: seq<Octet>, n: Net, d: nat, k: nat)
    ensures Goes(src, n, [], n, d, k)
  {
  }

  lemma Recovered(src: seq<Octet>, n: Net) returns (moves: seq<Move>, r: Net)
    requires Inv(src, n) && n.client.phase.Receiving? && CanRecover(n)
    ensures Goes(src, n, moves, r, |n.data|, |n.acks|) && r.client.phase.Received? && r.client.file == src
  {
    hide Inv, Next, Goes, BlockOf, DataPacket, AckPacket;
    var a, d, k := Accepted(n.client), |n.data|, |n.acks|;
    InvSane(src, n);
    InvBlocks(src, n);
    if Index(n.server) == a && n.client.tries < RETRIES {
      Silent(src, n);
      NextKeeps(src, n, Move.Silence);
      moves, r := AckAndFinish(src, Next(src, n, Move.Silence), d, k);
      GoesFirst(src, n, Move.Silence, moves, r, d, k);
      moves := [Move.Silence] + moves;
    } else {
      RepeatIs(src, n);
      NextKeeps(src, n, Move.Lull);
      var mid := Next(src, n, Move.Lull);
      if Index(n.server) == a {
        var m := Deliver(d, BLK);
        Delivered(src, mid, d, BLK);
        NextKeeps(src, mid, m);
        moves, r := AckAndFinish(src, Next(src, mid, m), d, k);
        GoesFirst(src, mid, m, moves, r, d, k);
        moves := [m] + moves;
      } else {
        BusyBlocks(src, n);
        moves, r := Finish(src, mid, d, k);
      }
      GoesFirst(src, n, Move.Lull, moves, r, d, k);
      moves := [Move.Lull] + moves;
    }
  }

  lemma RepeatIs(src: seq<Octet>, n: Net)
    requires Inv(src, n) && n.server.busy
    ensures var r := Next(src, n, Move.Lull);
            && r.client == n.client && r.acks == n.acks && r.data == n.data + [Data(src, Index(n.server))]
            && Index(r.server) == Index(n.server) && r.server.busy == (n.server.round < 2)
  {
    hide Inv, BlockOf, DataPacket;
    InvSane(src, n);
    Answered(src, n, Cue.Lull);
  }

  /** A server that waits for an ACK has not sent the last block. */
  lemma BusyBlocks(src: seq<Octet>, n: Net)
    requires Inv(src, n) && n.server.busy
    ensures Index(n.server) < Blocks(src)
  {
  }

  // --------------------------------------------------------- beyond recovery

  /** The server has the block out for the last time. */
  predicate LastChance(n: Net, d: nat) {
    Index(n.server) == Accepted(n.client) + 1 && n.server.round >= 2 && |n.data| == d
  }

  /** Neither side has a repetition left. */
  predicate Spent(n: Net, d: nat, k: nat) {
    Index(n.server) == Accepted(n.client) && n.server.round >= 2 && n.client.tries >= RETRIES
    && |n.data| == d && |n.acks| == k
  }

  /** The server has started over and is at a block the client no longer acknowledges. */
  predicate Behind(n: Net, d: nat, k: nat) {
    var a := Accepted(n.client);
    && Index(n.server) < a
    && (forall i :: d <= i < |n.data| ==> n.data[i].index <= a)
    && (forall i :: k <= i < |n.acks| ==> n.acks[i].index == a)
  }

  /** The short last block is not among what was sent from now on, nor will it be. */
  ghost predicate Doomed(src: seq<Octet>, n: Net, d: nat, k: nat) {
    && Inv(src, n) && d <= |n.data| && k <= |n.acks| && !n.client.phase.Received? && !n.client.phase.Asking?
    && (forall i :: d <= i < |n.data| ==> n.data[i].index < Blocks(src))
    && (!n.server.busy || LastChance(n, d) || Spent(n, d, k) || Behind(n, d, k))
  }

  lemma ClientDoomed(src: seq<Octet>, n: Net, m: Move, d: nat, k: nat)
    requires Doomed(src, n, d, k) && Enabled(n, m) && FromNow(m, d, k) && (m.Deliver? || m.Silence? || m.Break?)
    ensures Doomed(src, Next(src, n, m), d, k)
  {
    hide Inv, BlockOf, DataPacket, AckPacket;
    InvSane(src, n);
    NextKeeps(src, n, m);
    if !C.Waiting(n.client) || m.Break? {
      assert n.acks + Tag(Accepted(n.client), []) == n.acks;
    } else if m.Silence? {
      Silent(src, n);
    } else {
      Delivered(src, n, m.k, m.wrote);
      InvBlocks(src, Next(src, n, m));
    }
  }

  lemma ServerDoomed(src: seq<Octet>, n: Net, m: Move, d: nat, k: nat)
    requires Doomed(src, n, d, k) && Enabled(n, m) && FromNow(m, d, k) && (m.Acknowledge? || m.Lull?)
    ensures Doomed(src, Next(src, n, m), d, k)
  {
    hide Inv, BlockOf, DataPacket, AckPacket;
    InvSane(src, n);
    InvBlocks(src, n);
    NextKeeps(src, n, m);
    if !n.server.busy {
      assert n.data + Tag(Index(n.server), []) == n.data;
    } else {
      BusyBlocks(src, n);
      BusyDoomed(src, n, m, d, k);
    }
  }

  lemma BusyDoomed(src: seq<Octet>, n: Net, m: Move, d: nat, k: nat)
    requires Doomed(src, n, d, k) && Enabled(n, m) && FromNow(m, d, k) && (m.Acknowledge? || m.Lull?)
    requires n.server.busy && Index(n.server) < Blocks(src) && Accepted(n.client) < Blocks(src)
    requires Sane(n) && Inv(src, Next(src, n, m))
    ensures Doomed(src, Next(src, n, m), d, k)
  {
    hide Inv, BlockOf, DataPacket, AckPacket, SenderStep, WordAt;
    if m.Acknowledge? {
      FreshAck(src, n, m.k);
      Answered(src, n, Incoming(n.acks[m.k].p));
    } else {
      Answered(src, n, Cue.Lull);
    }
  }

  /** An ACK says its own block, and only one a whole wrap away looks the same. */
  lemma FreshAck(src: seq<Octet>, n: Net, k: nat)
    requires Inv(src, n) && n.server.busy && Enabled(n, Acknowledge(k))
    ensures var a, i := n.acks[k], Index(n.server);
            && IsAck(a.p) && PktBlock(a.p) == a.index % WRAP && a.index <= Accepted(n.client)
            && (PktBlock(a.p) == i % WRAP ==> i == a.index || i + WRAP <= a.index)
  {
    var a, i := n.acks[k], Index(n.server);
    assert AckOk(a, Accepted(n.client));
    if PktBlock(a.p) == i % WRAP && a.index < i + WRAP { SameBlock(i, a.index); }
  }

  lemma {:induction false} DoomedStays(src: seq<Octet>, n: Net, moves: seq<Move>, r: Net, d: nat, k: nat)
    requires Doomed(src, n, d, k) && Goes(src, n, moves, r, d, k)
    ensures !r.client.phase.Received?
    decreases |moves|
  {
    hide Inv, Next, BlockOf;
    if moves != [] {
      if moves[0].Acknowledge? || moves[0].Lull? {
        ServerDoomed(src, n, moves[0], d, k);
      } else {
        ClientDoomed(src, n, moves[0], d, k);
      }
      DoomedStays(src, Next(src, n, moves[0]), moves[1..], r, d, k);
    }
  }

  /** From every state of every run in which the client receives, however many
      packets are lost: the file can still arrive if and only if the server waits
      for the block the client needs, or has last taken, with a repetition left. */
  lemma GetRecovers(src: seq<Octet>, moves: seq<Move>, n: Net)
    requires Reaches(src, moves, n) && n.client.phase.Receiving?
    ensures Recovers(src, n) <==> CanRecover(n)
  {
    hide Reaches, Inv, Next, Goes;
    Reachable(src, moves, n);
    InvSane(src, n);
    if CanRecover(n) {
      var more, r := Recovered(src, n);
    } else {
      assert Doomed(src, n, |n.data|, |n.acks|);
      if more, r :| Goes(src, n, more, r, |n.data|, |n.acks|) && r.client.phase.Received? && r.client.file == src {
        DoomedStays(src, n, more, r, |n.data|, |n.acks|);
      }
    }
  }
}
