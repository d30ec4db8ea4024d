/** PUT after losses: from which states the transfer can still be completed by
    packets that are yet to be sent. */
module TftpPutRecovery {
  import opened Octets
  import opened Tftp
  import opened TftpPutNet
  import C = TftpPut

  /** A move that brings no packet sent before: neither one of the first `d` DATA
      packets or `k` ACKs, nor a request or a foreign packet for the server. */
  predicate FromNow(m: Move, d: nat, k: nat) {
    match m
    case Transmit(_) => true
    case Answer(i, _) => i >= k
    case Turn(_) => true
    case Deliver(i) => i >= d
    case Lull => true
    case _ => false
  }

  /** Such moves lead from `n` to `r`. */
  ghost predicate Goes(file: seq<Octet>, n: Net, moves: seq<Move>, r: Net, d: nat, k: nat)
    decreases |moves|
  {
    if moves == [] then r == n
    else
      && Sane(n) && Enabled(n, moves[0]) && FromNow(moves[0], d, k)
      && Goes(file, Next(file, n, moves[0]), moves[1..], r, d, k)
  }

  /** All that was under way may be lost, and still the file can be sent. */
  ghost predicate Recovers(file: seq<Octet>, n: Net) {
    exists moves, r :: Goes(file, n, moves, r, |n.data|, |n.acks|) && r.client.phase.Completed?
  }

  /** The receiver waits for the very block that the client sends, and the client
      has a transmission left for it. */
  predicate CanRecover(n: Net) {
    n.server.live && |n.server.blocks| + 1 == Index(n.client) && (n.client.resend || n.client.tries < RETRIES)
  }

  lemma GoesFirst(file: seq<Octet>, n: Net, m: Move, moves: seq<Move>, r: Net, d: nat, k: nat)
    requires Sane(n) && Enabled(n, m) && FromNow(m, d, k) && Goes(file, Next(file, n, m), moves, r, d, k)
    ensures Goes(file, n, [m] + moves, r, d, k)
  {
    assert ([m] + moves)[1..] == moves;
  }

  lemma GoesNowhere(file: seq<Octet>, n: Net, d: nat, k: nat)
    ensures Goes(file, n, [], n, d, k)
  {
  }

  // ---------------------------------------------------------------- recovery

  /** The receiver waits for the block, and the client is about to send it. */
  ghost predicate Due(file: seq<Octet>, n: Net, d: nat, k: nat) {
    && Inv(file, n) && n.client.phase.Sending? && n.client.resend && n.server.live
    && |n.server.blocks| + 1 == Index(n.client) && d <= |n.data| && k <= |n.acks|
  }

  /** The block is out for this time. */
  ghost predicate Out(file: seq<Octet>, n: Net, d: nat, k: nat) {
    var i := Index(n.client);
    && Inv(file, n) && n.client.phase.Sending? && !n.client.resend && n.client.sentAt == 0 && n.server.live
    && |n.server.blocks| + 1 == i && d < |n.data| && k <= |n.acks|
    && n.data[|n.data| - 1] == Sent(i, DataPacket(i % WRAP, BlockOf(file, i)))
  }

  /** The receiver has it, and its ACK is out. */
  ghost predicate Accepted(file: seq<Octet>, n: Net, d: nat, k: nat) {
    var i := Index(n.client);
    && Inv(file, n) && n.client.phase.Sending? && !n.client.resend && n.client.sentAt == 0
    && n.server.live == (i < Blocks(file))
    && |n.server.blocks| == i && d < |n.data| && k < |n.acks|
    && n.acks[|n.acks| - 1] == Sent(i, AckPacket(i % WRAP))
  }

  lemma DueSends(file: seq<Octet>, n: Net, d: nat, k: nat)
    requires Due(file, n, d, k)
    ensures var r := Next(file, n, Transmit(0)); Out(file, r, d, k) && Index(r.client) == Index(n.client)
  {
    hide Inv, BlockOf, DataPacket, AckPacket;
    InvClient(file, n);
    NextKeeps(file, n, Transmit(0));
    SendIndex(file, n.client, 0);
    assert forall j, x :: Tag(j, [x]) == [Sent(j, x)];
  }

  lemma InvClient(file: seq<Octet>, n: Net)
    requires Inv(file, n)
    ensures Sane(n) && ClientOk(file, n.client) && Upload(file, n.server, Index(n.client))
    ensures Index(n.client) <= Blocks(file)
  {
    IndexBound(file, n.client);
  }

  lemma OutArrives(file: seq<Octet>, n: Net, d: nat, k: nat)
    requires Out(file, n, d, k)
    ensures var m := Deliver(|n.data| - 1);
            && Sane(n) && Enabled(n, m) && FromNow(m, d, k)
            && Accepted(file, Next(file, n, m), d, k) && Index(Next(file, n, m).client) == Index(n.client)
  {
    hide Inv, BlockOf, DataPacket, AckPacket, ReceiverStep, Upload, ClientOk;
    var i, m := Index(n.client), Deliver(|n.data| - 1);
    InvClient(file, n);
    NextKeeps(file, n, m);
    Arrives(file, n.server, i);
    assert forall j, x :: Tag(j, [x]) == [Sent(j, x)];
  }

  lemma Arrives(file: seq<Octet>, v: Receiver, i: nat)
    requires v.live && Upload(file, v, i) && |v.blocks| + 1 == i && v.expected < WRAP
    ensures var r := ReceiverStep(v, Incoming(DataPacket(i % WRAP, BlockOf(file, i))));
            |r.v.blocks| == i && r.v.live == (i < Blocks(file)) && r.acks == [AckPacket(i % WRAP)]
  {
    hide BlockOf, AckPacket, Word, WordAt, Flat, DataPacket;
    BlockLength(file, i);
    var p := DataPacket(i % WRAP, BlockOf(file, i));
    assert v.expected == i % WRAP;
    assert PktBlock(p) == v.expected && IsData(p) && p[4..] == BlockOf(file, i);
  }

  lemma AckArrives(file: seq<Octet>, n: Net, d: nat, k: nat)
    requires Accepted(file, n, d, k)
    ensures var m := Answer(|n.acks| - 1, QUIET);
            && Sane(n) && Enabled(n, m) && FromNow(m, d, k)
            && var r := Next(file, n, m);
               if Index(n.client) == Blocks(file) then r.client.phase.Completed?
               else Due(file, r, d, k) && Index(r.client) == Index(n.client) + 1
  {
    hide Inv, BlockOf, DataPacket, AckPacket, Upload, C.Step;
    var i, m := Index(n.client), Answer(|n.acks| - 1, QUIET);
    InvClient(file, n);
    NextKeeps(file, n, m);
    Passes(file, n.client);
    assert n.data + Tag(i, []) == n.data;
  }

  /** The ACK of its block takes the client on. */
  lemma Passes(file: seq<Octet>, s: C.Putter)
    requires ClientOk(file, s) && s.phase.Sending? && !s.resend && s.sentAt == 0
    ensures var i := Index(s); var o := C.Step(file, s, With(QUIET, AckPacket(i % WRAP)));
            && o.data == []
            && if i == Blocks(file) then o.s.phase.Completed?
               else o.s.phase.Sending? && o.s.resend && Index(o.s) == i + 1
  {
    hide Word, WordAt, AckPacket;
    var i := Index(s);
    assert s.offset == BLK * (i - 1) && i <= Blocks(file);
    BlockLength(file, i);
    assert PktBlock(AckPacket(i % WRAP)) == s.block;
    assert (s.offset + BLK) / BLK + 1 == i + 1;
  }

  lemma {:induction false} Finish(file: seq<Octet>, n: Net, d: nat, k: nat) returns (moves: seq<Move>, r: Net)
    requires Due(file, n, d, k)
    ensures Goes(file, n, moves, r, d, k) && r.client.phase.Completed?
    decreases Blocks(file) - Index(n.client)
  {
    hide Inv, Next, Goes, BlockOf, DataPacket, AckPacket, Accepted, Out;
    InvClient(file, n);
    DueSends(file, n, d, k);
    var a := Next(file, n, Transmit(0));
    OutArrives(file, a, d, k);
    var arrive := Deliver(|a.data| - 1);
    var b := Next(file, a, arrive);
    AckArrives(file, b, d, k);
    var answer := Answer(|b.acks| - 1, QUIET);
    var c := Next(file, b, answer);
    if Index(n.client) == Blocks(file) {
      moves, r := [], c;
      GoesNowhere(file, c, d, k);
    } else {
      moves, r := Finish(file, c, d, k);
    }
    GoesFirst(file, b, answer, moves, r, d, k);
    GoesFirst(file, a, arrive, [answer] + moves, r, d, k);
    GoesFirst(file, n, Transmit(0), [arrive] + ([answer] + moves), r, d, k);
    moves := [Transmit(0)] + ([arrive] + ([answer] + moves));
  }

  /** The clock shows the full timeout since the last transmission. */
  function Overdue(s: C.Putter): C.Round { QUIET.(tick := s.sentAt + C.TIMEOUT_TICKS) }

  /** A block that is overdue is sent again. */
  lemma Resends(file: seq<Octet>, n: Net, d: nat, k: nat)
    requires Inv(file, n) && n.client.phase.Sending? && !n.client.resend && n.client.tries < RETRIES
    requires n.server.live && |n.server.blocks| + 1 == Index(n.client) && d <= |n.data| && k <= |n.acks|
    ensures var m := Turn(Overdue(n.client));
            Sane(n) && Enabled(n, m) && FromNow(m, d, k) && Due(file, Next(file, n, m), d, k)
  {
    hide Inv, BlockOf, DataPacket, AckPacket;
    var m := Turn(Overdue(n.client));
    InvClient(file, n);
    NextKeeps(file, n, m);
    assert n.data + Tag(Index(n.client), []) == n.data;
  }

  // --------------------------------------------------------- beyond recovery

  /** The receiver does not wait for the block that the client sends. */
  predicate Astray(n: Net, d: nat) {
    && |n.server.blocks| + 1 != Index(n.client)
    && forall i :: d <= i < |n.data| ==> n.data[i].index == Index(n.client)
  }

  /** The client has no transmission left. */
  predicate Spent(n: Net, d: nat) {
    !n.client.resend && n.client.tries >= RETRIES && |n.data| == d
  }

  /** There is no ACK from now on, nor will there be one. */
  ghost predicate Doomed(file: seq<Octet>, n: Net, d: nat, k: nat) {
    && Inv(file, n) && !n.client.phase.Completed? && !n.client.phase.Asking?
    && d <= |n.data| && |n.acks| == k && (!n.server.live || Astray(n, d) || Spent(n, d))
  }

  lemma ClientDoomed(file: seq<Octet>, n: Net, m: Move, d: nat, k: nat)
    requires Doomed(file, n, d, k) && Enabled(n, m) && (m.Transmit? || m.Turn?)
    ensures Sane(n) && Doomed(file, Next(file, n, m), d, k)
  {
    hide Inv, BlockOf, DataPacket, AckPacket, C.Step, C.Send, Upload;
    InvClient(file, n);
    NextKeeps(file, n, m);
    if m.Transmit? {
      SendIndex(file, n.client, m.tick);
    } else {
      StepIndex(file, n.client, m.r);
      StaysSpent(file, n.client, m.r);
    }
  }

  lemma StaysSpent(file: seq<Octet>, s: C.Putter, r: C.Round)
    requires C.Ok(s) && !s.phase.Asking? && !C.IsAck(r.reply)
    ensures var o := C.Step(file, s, r);
            && !o.s.phase.Asking?
            && (!s.resend && s.tries >= RETRIES ==> !o.s.resend && o.s.tries >= RETRIES && o.data == [])
  {
    hide C.Elapsed, C.Advance, DataPacket, Chunk;
  }

  lemma ServerDoomed(file: seq<Octet>, n: Net, m: Move, d: nat, k: nat)
    requires Doomed(file, n, d, k) && Enabled(n, m) && FromNow(m, d, k) && (m.Deliver? || m.Lull?)
    ensures Sane(n) && Doomed(file, Next(file, n, m), d, k)
  {
    hide Inv, BlockOf, DataPacket, AckPacket, Upload;
    InvClient(file, n);
    NextKeeps(file, n, m);
    if m.Deliver? && n.server.live {
      DataIsOk(file, n, m.k);
      if IsData(n.data[m.k].p) && PktBlock(n.data[m.k].p) == n.server.expected {
        FreshIsExpected(file, n, n.data[m.k]);
      }
    }
    assert n.acks + Tag(|n.server.blocks|, []) == n.acks;
  }

  lemma {:induction false} DoomedStays(file: seq<Octet>, n: Net, moves: seq<Move>, r: Net, d: nat, k: nat)
    requires Doomed(file, n, d, k) && Goes(file, n, moves, r, d, k)
    ensures !r.client.phase.Completed?
    decreases |moves|
  {
    hide Inv, Next, BlockOf;
    if moves != [] {
      if moves[0].Deliver? || moves[0].Lull? {
        ServerDoomed(file, n, moves[0], d, k);
      } else {
        ClientDoomed(file, n, moves[0], d, k);
      }
      DoomedStays(file, Next(file, n, moves[0]), moves[1..], r, d, k);
    }
  }

  /** From every state of every run in which the client sends, however many packets
      are lost: the file can still be sent if and only if the receiver waits for
      the block in hand and the client has a transmission left for it. */
  lemma PutRecovers(file: seq<Octet>, moves: seq<Move>, n: Net)
    requires Reaches(file, moves, n) && n.client.phase.Sending?
    ensures Recovers(file, n) <==> CanRecover(n)
  {
    hide Reaches, Inv, Next, Goes;
    Reachable(file, moves, n);
    var d, k := |n.data|, |n.acks|;
    if !CanRecover(n) {
      assert Doomed(file, n, d, k);
      if more, r :| Goes(file, n, more, r, d, k) && r.client.phase.Completed? { DoomedStays(file, n, more, r, d, k); }
    } else if n.client.resend {
      var more, r := Finish(file, n, d, k);
    } else {
      Resends(file, n, d, k);
      var m := Turn(Overdue(n.client));
      var more, r := Finish(file, Next(file, n, m), d, k);
      GoesFirst(file, n, m, more, r, d, k);
    }
  }
}
