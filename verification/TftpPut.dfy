/** TFTP PUT: the sending client with its retransmission deadline, for every
    behaviour of the network, the clock and the user. */
module TftpPut {
  import opened Octets
  import opened Tftp

  const TIMEOUT_TICKS: int := 150
  const STRAY_MAX: nat := 64
  const DAY_TICKS: int := 24 * 60 * 3000

  /** The most rounds one block can take. */
  const BLOCK_ROUNDS: nat := RETRIES + STRAY_MAX + 1

  datatype Phase = Asking | Sending | Completed | TimedOut | Flooded | Refused | ReadError | Interrupted

  /** The variables of the PUT branch; `offset` is where the block in the packet
      buffer starts in the file. */
  datatype Putter = Putter(phase: Phase, block: nat, offset: nat, tries: nat, stray: nat, resend: bool, sentAt: int)

  /** What waiting for a packet gives: none, one, or Ctrl-C. */
  datatype Reply = Nothing | Got(p: Packet) | Stop

  /** What the outside does in one round of a loop: Ctrl-C at the top, the clock
      when a packet went out, before the wait and after it, the reply, and
      whether a following read of the file fails. */
  datatype Round = Round(brk: bool, sendTick: int, tick: int, reply: Reply, after: int, readFails: bool)

  datatype Outcome = Outcome(s: Putter, data: seq<Packet>)

  const START := Putter(Asking, 0, 0, 0, 0, false, 0)

  /** Ticks since `since`, across midnight. */
  function Elapsed(now: int, since: int): int {
    if now - since < 0 then now - since + DAY_TICKS else now - since
  }

  predicate Ok(s: Putter) { s.block < WRAP }

  function Current(file: seq<Octet>, s: Putter): Packet
    requires Ok(s)
  {
    DataPacket(s.block, Chunk(file, s.offset))
  }

  /** Reads the block at `offset` and numbers it. */
  function Begin(s: Putter, offset: nat, readFails: bool): (n: Putter)
    ensures Ok(s) ==> Ok(n)
  {
    if readFails then s.(phase := ReadError)
    else Putter(Sending, (s.block + 1) % WRAP, offset, 0, 0, true, s.sentAt)
  }

  /** After the ACK of a block: a short block was the last one. */
  function Advance(file: seq<Octet>, s: Putter, readFails: bool): (n: Putter)
    ensures Ok(s) ==> Ok(n)
  {
    if |Chunk(file, s.offset)| == BLK then Begin(s, s.offset + BLK, readFails) else s.(phase := Completed)
  }

  lemma AdvanceLast(file: seq<Octet>, s: Putter, readFails: bool)
    requires |Chunk(file, s.offset)| < BLK
    ensures Advance(file, s, readFails) == s.(phase := Completed)
  {
  }

  /** The deadline has passed: retransmit, or give up. */
  function Late(s: Putter): Putter {
    var more := s.(tries := s.tries + 1);
    if more.tries > RETRIES then more.(phase := TimedOut) else more.(resend := true)
  }

  predicate IsError(r: Reply) { r.Got? && |r.p| >= 4 && r.p[1] == OP_ERROR }

  predicate IsAck(r: Reply) { r.Got? && |r.p| >= 4 && r.p[1] == OP_ACK }

  function AskStep(s: Putter, r: Round): (n: Putter)
    ensures Ok(s) ==> Ok(n)
  {
    if r.brk || r.reply.Stop? then s.(phase := Interrupted)
    else if r.reply.Nothing? || r.reply.p == [] then
      s.(tries := s.tries + 1, phase := if s.tries + 1 < RETRIES then Asking else TimedOut)
    else if !IsAck(r.reply) then s.(phase := Refused)
    else Begin(s, 0, r.readFails)
  }

  /** The rest of a round once the packet is out. */
  function Listen(file: seq<Octet>, s: Putter, r: Round): (n: Putter)
    requires Ok(s)
    ensures Ok(n)
  {
    if Elapsed(r.tick, s.sentAt) >= TIMEOUT_TICKS then Late(s)
    else if r.reply.Stop? then s.(phase := Interrupted)
    else if IsError(r.reply) then s.(phase := Refused)
    else if IsAck(r.reply) && PktBlock(r.reply.p) == s.block then Advance(file, s, r.readFails)
    else if Elapsed(r.after, s.sentAt) >= TIMEOUT_TICKS then Late(s)
    else if s.stray + 1 > STRAY_MAX then s.(stray := s.stray + 1, phase := Flooded)
    else s.(stray := s.stray + 1)
  }

  function Transmitted(s: Putter, r: Round): Putter {
    if s.resend then s.(resend := false, sentAt := r.sendTick) else s
  }

  function Step(file: seq<Octet>, s: Putter, r: Round): (o: Outcome)
    requires Ok(s)
    ensures Ok(o.s)
  {
    if s.phase.Asking? then Outcome(AskStep(s, r), [])
    else if !s.phase.Sending? then Outcome(s, [])
    else if r.brk then Outcome(s.(phase := Interrupted), [])
    else Outcome(Listen(file, Transmitted(s, r), r), if s.resend then [Current(file, s)] else [])
  }

  /** The first half of a round: the packet goes out if it is due. */
  function Send(file: seq<Octet>, s: Putter, tick: int): (o: Outcome)
    requires Ok(s)
    ensures Ok(o.s)
  {
    if s.phase.Sending? && s.resend then Outcome(s.(resend := false, sentAt := tick), [Current(file, s)])
    else Outcome(s, [])
  }

  /** A round is its transmission and then the wait. */
  lemma StepIsSend(file: seq<Octet>, s: Putter, r: Round)
    requires Ok(s) && !r.brk
    ensures var t := Send(file, s, r.sendTick);
            Step(file, s, r) == Outcome(Step(file, t.s, r).s, t.data) && Step(file, t.s, r).data == []
  {
    hide Current, Listen;
  }

  /** The client and everything it sent after `n` rounds with the outside `env`. */
  function After(file: seq<Octet>, env: nat -> Round, n: nat): (o: Outcome)
    ensures Ok(o.s)
  {
    if n == 0 then Outcome(START, [])
    else
      var o := After(file, env, n - 1);
      var t := Step(file, o.s, env(n - 1));
      Outcome(t.s, o.data + t.data)
  }

  predicate Running(s: Putter) { s.phase.Asking? || s.phase.Sending? }

  /** One more round of the request loop. */
  lemma AskNext(file: seq<Octet>, env: nat -> Round, n: nat)
    ensures var o := After(file, env, n);
            o.s.phase.Asking? ==> After(file, env, n + 1) == Outcome(AskStep(o.s, env(n)), o.data)
  {
    hide AskStep;
    var o := After(file, env, n);
    assert o.data + [] == o.data;
  }

  // -------------------------------------------------------- termination

  /** The facts every reachable state of the client keeps. */
  ghost predicate Shape(file: seq<Octet>, s: Putter) {
    && Ok(s) && s.offset % BLK == 0 && s.offset <= |file|
    && (s.phase.Asking? ==> s.tries < RETRIES && s.block == 0 && s.offset == 0)
    && (s.phase.Sending? ==> s.tries <= RETRIES && s.stray <= STRAY_MAX && s.block == (s.offset / BLK + 1) % WRAP)
  }

  lemma StepShape(file: seq<Octet>, s: Putter, r: Round)
    requires Shape(file, s)
    ensures Shape(file, Step(file, s, r).s)
  {
    hide Advance, Shape, Elapsed, DataPacket;
    IdleShape(file, s, r);
    if s.phase.Sending? && !r.brk { ListenShape(file, Transmitted(s, r), r); }
  }

  lemma ListenShape(file: seq<Octet>, s: Putter, r: Round)
    requires Shape(file, s) && s.phase.Sending?
    ensures Shape(file, Listen(file, s, r)) && Shape(file, Transmitted(s, r))
  {
    hide Advance, Elapsed;
    AdvanceShape(file, s, r.readFails);
  }

  lemma IdleShape(file: seq<Octet>, s: Putter, r: Round)
    requires Shape(file, s)
    ensures s.phase.Asking? ==> Shape(file, AskStep(s, r))
    ensures s.phase.Sending? ==> Shape(file, Transmitted(s, r)) && Shape(file, s.(phase := Interrupted))
  {
  }

  lemma AdvanceShape(file: seq<Octet>, s: Putter, readFails: bool)
    requires Shape(file, s) && s.phase.Sending?
    ensures Shape(file, Advance(file, s, readFails))
  {
    NextNumber(s.offset, s.block);
  }

  lemma NextNumber(offset: nat, block: nat)
    requires offset % BLK == 0 && block == (offset / BLK + 1) % WRAP
    ensures (block + 1) % WRAP == ((offset + BLK) / BLK + 1) % WRAP && (offset + BLK) % BLK == 0
  {
  }

  lemma {:induction false} AfterShape(file: seq<Octet>, env: nat -> Round, n: nat)
    ensures Shape(file, After(file, env, n).s)
  {
    hide Shape, Step;
    if n == 0 {
      StartShape(file);
    } else {
      AfterShape(file, env, n - 1);
      StepShape(file, After(file, env, n - 1).s, env(n - 1));
    }
  }

  lemma StartShape(file: seq<Octet>)
    ensures Shape(file, START)
  {
  }

  /** How many more rounds there can be at most. */
  ghost function Fuel(file: seq<Octet>, s: Putter): int {
    if s.phase.Asking? then RETRIES - s.tries + BLOCK_ROUNDS * Blocks(file)
    else if s.phase.Sending? then
      RETRIES - s.tries + STRAY_MAX - s.stray + 1 + BLOCK_ROUNDS * (|file| / BLK - s.offset / BLK)
    else 0
  }

  lemma StepBurns(file: seq<Octet>, s: Putter, r: Round)
    requires Shape(file, s) && Running(s)
    ensures Fuel(file, s) >= 1
    ensures Fuel(file, Step(file, s, r).s) < Fuel(file, s)
  {
    hide DataPacket, Listen;
    assert s.offset / BLK <= |file| / BLK;
    if s.phase.Sending? { ListenBurns(file, Transmitted(s, r), r); }
  }

  lemma ListenBurns(file: seq<Octet>, s: Putter, r: Round)
    requires Shape(file, s) && s.phase.Sending?
    ensures Fuel(file, Listen(file, s, r)) < Fuel(file, s)
  {
    hide Elapsed, Advance;
    assert s.offset / BLK <= |file| / BLK;
    AdvanceBurns(file, s, r.readFails);
  }

  lemma AdvanceBurns(file: seq<Octet>, s: Putter, readFails: bool)
    requires Shape(file, s) && s.phase.Sending?
    ensures Fuel(file, Advance(file, s, readFails)) < Fuel(file, s)
  {
    FurtherOn(s.offset, |file|);
  }

  lemma FurtherOn(offset: nat, size: nat)
    requires offset <= size
    ensures offset / BLK <= size / BLK && (offset + BLK) / BLK == offset / BLK + 1
    ensures offset + BLK <= size ==> offset / BLK + 1 <= size / BLK
  {
  }

  lemma StepSettled(file: seq<Octet>, s: Putter, r: Round)
    requires Ok(s) && !Running(s)
    ensures Step(file, s, r) == Outcome(s, [])
  {
  }

  lemma {:induction false} AfterBurns(file: seq<Octet>, env: nat -> Round, n: nat)
    ensures var s := After(file, env, n).s; Running(s) ==> Fuel(file, s) + n <= RETRIES + BLOCK_ROUNDS * Blocks(file)
  {
    hide Shape, Step;
    if n > 0 {
      AfterBurns(file, env, n - 1);
      AfterShape(file, env, n - 1);
      var s := After(file, env, n - 1).s;
      if Running(s) { StepBurns(file, s, env(n - 1)); } else { StepSettled(file, s, env(n - 1)); }
    }
  }

  /** PUT ends for every network, clock and user: after five rounds of asking
      and 70 for each block it is over. */
  lemma PutEnds(file: seq<Octet>, env: nat -> Round, n: nat)
    requires n >= RETRIES + BLOCK_ROUNDS * Blocks(file)
    ensures !Running(After(file, env, n).s)
  {
    AfterBurns(file, env, n);
    AfterShape(file, env, n);
    if Running(After(file, env, n).s) { StepBurns(file, After(file, env, n).s, env(n)); }
  }

  // ----------------------------------------------------------- patience

  /** A round of the request loop that brought nothing. */
  predicate Idle(r: Round) { !r.brk && (r.reply.Nothing? || (r.reply.Got? && r.reply.p == [])) }

  lemma {:induction false} AskingIdle(file: seq<Octet>, env: nat -> Round, n: nat)
    requires After(file, env, n).s.phase.Asking?
    ensures forall i :: 0 <= i < n ==> Idle(env(i))
    ensures After(file, env, n).s.tries == n
  {
    hide Listen, Current;
    if n > 0 {
      if !After(file, env, n - 1).s.phase.Asking? { StepOffset(file, After(file, env, n - 1).s, env(n - 1)); }
      AskingIdle(file, env, n - 1);
    }
  }

  /** The request is given up for want of an answer after exactly five idle rounds;
      an ACK of any block starts the transfer, any other packet refuses it. */
  lemma AskPatience(file: seq<Octet>, env: nat -> Round, n: nat)
    requires After(file, env, n).s.phase.Asking?
    ensures var r, s := env(n), After(file, env, n + 1).s;
            && (s.phase.TimedOut? <==> Idle(r) && n == 4)
            && (s.phase.Asking? <==> Idle(r) && n < 4)
            && (s.phase.Sending? <==> !r.brk && IsAck(r.reply) && !r.readFails)
            && (s.phase.Interrupted? <==> r.brk || r.reply.Stop?)
            && (s.phase.Refused? <==> !r.brk && !Idle(r) && r.reply.Got? && !IsAck(r.reply))
  {
    hide Current, Listen;
    AskingIdle(file, env, n);
    AfterShape(file, env, n);
    AskNext(file, env, n);
  }

  /** While a block is out and its deadline has not passed, the reply decides: an
      ERROR refuses, a break ends, only the ACK of the block passes it, and anything
      else is counted as stray. */
  lemma ReplyRules(file: seq<Octet>, env: nat -> Round, n: nat)
    requires After(file, env, n).s.phase.Sending? && !env(n).brk
    requires var t := Transmitted(After(file, env, n).s, env(n)).sentAt;
             Elapsed(env(n).tick, t) < TIMEOUT_TICKS && Elapsed(env(n).after, t) < TIMEOUT_TICKS
    ensures var a, b, p := After(file, env, n).s, After(file, env, n + 1).s, env(n).reply;
            && (p.Stop? ==> b.phase.Interrupted?)
            && (p.Got? && |p.p| >= 4 && p.p[1] == 5 ==> b.phase.Refused?)
            && (b.offset == a.offset + BLK || b.phase.Completed? ==>
                  p.Got? && |p.p| >= 4 && p.p[1] == 4 && PktBlock(p.p) == a.block)
            && (p.Nothing? || (p.Got? && (|p.p| < 4 || (p.p[1] != 5 && (p.p[1] != 4 || PktBlock(p.p) != a.block)))) ==>
                  b.offset == a.offset && b.tries == a.tries && b.stray == a.stray + 1 && !b.resend
                  && b.phase == if a.stray + 1 > STRAY_MAX then Flooded else Sending)
  {
    hide Current, Elapsed, Chunk, After;
    AfterStep(file, env, n);
  }

  lemma AfterStep(file: seq<Octet>, env: nat -> Round, n: nat)
    ensures After(file, env, n + 1).s == Step(file, After(file, env, n).s, env(n)).s
  {
    hide Step;
  }

  // ---------------------------------------------------------- one block

  ghost predicate Starts(s: Putter) { s.phase.Sending? && s.tries == 0 && s.stray == 0 && s.resend }

  function Copies(p: Packet, n: nat): seq<Packet> { seq(n, _ => p) }

  /** While a block lasts, every round is a retry or a stray packet, and only
      the first round and the retries sent it. */
  lemma {:induction false} InBlock(file: seq<Octet>, env: nat -> Round, k: nat, j: nat)
    requires Starts(After(file, env, k).s)
    requires var s := After(file, env, k + j).s; s.phase.Sending? && s.offset == After(file, env, k).s.offset
    ensures var a, b := After(file, env, k), After(file, env, k + j);
            && b.s.block == a.s.block && b.s.tries + b.s.stray == j
            && b.data == a.data + Copies(Current(file, a.s), b.s.tries + if b.s.resend then 0 else 1)
  {
    hide Step, Current;
    if j > 0 {
      OffsetMonotone(file, env, k, j - 1);
      var a, b := After(file, env, k), After(file, env, k + j - 1);
      StepOffset(file, b.s, env(k + j - 1));
      InBlock(file, env, k, j - 1);
      StepInBlock(file, b.s, env(k + j - 1));
      SameCurrent(file, a.s, b.s);
      var p := Current(file, a.s);
      var c: nat := b.s.tries + if b.s.resend then 0 else 1;
      assert Copies(p, c) + [p] == Copies(p, c + 1);
      assert Copies(p, c) + [] == Copies(p, c);
    }
  }

  lemma SameCurrent(file: seq<Octet>, s: Putter, t: Putter)
    requires Ok(s) && Ok(t) && s.block == t.block && s.offset == t.offset
    ensures Current(file, s) == Current(file, t)
  {
  }

  /** One round inside a block: a retry or a stray packet. */
  lemma StepInBlock(file: seq<Octet>, s: Putter, r: Round)
    requires Ok(s) && s.phase.Sending?
    requires var n := Step(file, s, r).s; n.phase.Sending? && n.offset == s.offset
    ensures var o := Step(file, s, r);
            && o.s.block == s.block && o.s.tries + o.s.stray == s.tries + s.stray + 1
            && o.data == (if s.resend then [Current(file, s)] else [])
            && o.s.tries + (if o.s.resend then 0 else 1) == s.tries + 1
  {
    hide Chunk, DataPacket, Elapsed;
  }

  lemma StepOffset(file: seq<Octet>, s: Putter, r: Round)
    requires Ok(s) && !s.phase.Asking?
    ensures var n := Step(file, s, r).s;
            !n.phase.Asking? && n.offset >= s.offset && (n.phase.Sending? ==> s.phase.Sending?)
  {
    hide Chunk, DataPacket, Elapsed, Current;
  }

  lemma {:induction false} OffsetMonotone(file: seq<Octet>, env: nat -> Round, k: nat, j: nat)
    requires After(file, env, k).s.phase.Sending?
    ensures !After(file, env, k + j).s.phase.Asking?
    ensures After(file, env, k + j).s.offset >= After(file, env, k).s.offset
  {
    hide Step;
    if j > 0 {
      OffsetMonotone(file, env, k, j - 1);
      StepOffset(file, After(file, env, k + j - 1).s, env(k + j - 1));
    }
  }

  /** The rounds of the block that starts in round `k`: at most 70, with at most
      six transmissions, all of the same packet. */
  lemma PutBlockBound(file: seq<Octet>, env: nat -> Round, k: nat, j: nat)
    requires Starts(After(file, env, k).s)
    requires var s := After(file, env, k + j).s; s.phase.Sending? && s.offset == After(file, env, k).s.offset
    ensures j + 1 <= BLOCK_ROUNDS
    ensures exists c :: 0 <= c <= RETRIES + 1 &&
              After(file, env, k + j + 1).data == After(file, env,
                                                        k).data + Copies(Current(file, After(file, env, k).s), c)
  {
    hide Chunk, DataPacket, Listen;
    InBlock(file, env, k, j);
    AfterShape(file, env, k + j);
    var a, b := After(file, env, k), After(file, env, k + j);
    var p := Current(file, a.s);
    var c: nat := b.s.tries + if b.s.resend then 0 else 1;
    assert Copies(p, c) + [p] == Copies(p, c + 1);
    assert Copies(p, c) + [] == Copies(p, c);
    var d := After(file, env, k + j + 1).data;
    assert d == a.data + Copies(p, c) || d == a.data + Copies(p, c + 1);
  }

  // ----------------------------------------------------------- deadline

  predicate Sends(file: seq<Octet>, env: nat -> Round, m: nat) {
    var s := After(file, env, m).s;
    s.phase.Sending? && s.resend && !env(m).brk
  }

  /** The last round before `m` that transmitted, or -1. */
  function LastSend(file: seq<Octet>, env: nat -> Round, m: nat): (k: int)
    ensures -1 <= k < m
    ensures k >= 0 ==> Sends(file, env, k)
  {
    if m == 0 then -1 else if Sends(file, env, m - 1) then m - 1 else LastSend(file, env, m - 1)
  }

  lemma {:induction false} SentAtIsLast(file: seq<Octet>, env: nat -> Round, m: nat)
    ensures var s := After(file, env, m).s; var k := LastSend(file, env, m);
            && (k >= 0 ==> s.sentAt == env(k).sendTick)
            && (s.phase.Sending? && !Starts(s) ==> k >= 0)
  {
    hide Step;
    if m > 0 {
      SentAtIsLast(file, env, m - 1);
      StepSends(file, After(file, env, m - 1).s, env(m - 1));
    }
  }

  /** The time of transmission changes only when something is transmitted, and
      a block that was not transmitted yet is at its start. */
  lemma StepSends(file: seq<Octet>, s: Putter, r: Round)
    requires Ok(s)
    ensures var n := Step(file, s, r).s;
            && (if s.phase.Sending? && s.resend && !r.brk then n.sentAt == r.sendTick else n.sentAt == s.sentAt)
            && (n.phase.Sending? && !s.phase.Sending? ==> Starts(n))
            && (n.phase.Sending? && !Starts(n) && s.phase.Sending? && !s.resend ==> !Starts(s))
            && (n.phase.Sending? && s.phase.Sending? ==> !r.brk)
  {
    hide Chunk, DataPacket, Elapsed, Current;
  }

  /** No packet that arrives makes the client repeat a block early: when round
      `m` repeats the block of round `m - 1`, the clock had already shown the
      full timeout since the last transmission. */
  lemma NoEarlyResend(file: seq<Octet>, env: nat -> Round, m: nat)
    requires m > 0 && Sends(file, env, m)
    requires var b := After(file, env, m - 1).s; b.phase.Sending? && b.offset == After(file, env, m).s.offset
    ensures var k := LastSend(file, env, m);
            k >= 0 && (Elapsed(env(m - 1).tick, env(k).sendTick) >= TIMEOUT_TICKS
                       || Elapsed(env(m - 1).after, env(k).sendTick) >= TIMEOUT_TICKS)
  {
    hide Step, Elapsed, LastSend, Starts;
    SentAtIsLast(file, env, m);
    StepRepeats(file, After(file, env, m - 1).s, env(m - 1));
  }

  /** A block that is to be sent again has waited for the full timeout. */
  lemma StepRepeats(file: seq<Octet>, s: Putter, r: Round)
    requires Ok(s) && s.phase.Sending?
    requires var n := Step(file, s, r).s; n.phase.Sending? && n.resend && n.offset == s.offset
    ensures var n := Step(file, s, r).s;
            && !Starts(n)
            && (Elapsed(r.tick, n.sentAt) >= TIMEOUT_TICKS || Elapsed(r.after, n.sentAt) >= TIMEOUT_TICKS)
  {
    hide Chunk, DataPacket, Elapsed, Current;
  }

  // --------------------------------------------------------- the client

  /** The PUT branch with its variables as fields. `chunk` is the payload in the
      packet buffer and `data` everything sent. */
  class Client {
    const file: seq<Octet>
    var phase: Phase
    var block: nat
    var offset: nat
    var chunk: seq<Octet>
    var tries: nat
    var stray: nat
    var resend: bool
    var sentAt: int
    var data: seq<Packet>

    constructor (file: seq<Octet>)
      ensures View() == Outcome(START, []) && this.file == file
    {
      this.file := file;
      phase, block, offset, chunk, data := Asking, 0, 0, [], [];
      tries, stray, resend, sentAt := 0, 0, false, 0;
    }

    ghost function View(): Outcome
      reads this
    {
      Outcome(Putter(phase, block, offset, tries, stray, resend, sentAt), data)
    }

    /** The request loop, until the first ACK, of whatever block, has arrived. */
    method Ask(env: nat -> Round) returns (n: nat, acked: bool)
      requires View() == Outcome(START, [])
      modifies this
      ensures n <= RETRIES && offset == 0
      ensures acked ==> Answered(env, n) && phase.Asking?
      ensures !acked ==> View() == After(file, env, n) && !Running(View().s)
    {
      n, acked := 0, false;
      while phase.Asking? && !acked
        invariant !acked ==> View() == After(file, env, n) && !phase.Sending?
        invariant acked ==> Answered(env, n) && phase.Asking?
        invariant offset == 0 && block == 0 && n <= RETRIES
        invariant phase.Asking? && !acked ==> tries < RETRIES && n == tries
        decreases !acked, phase.Asking?, RETRIES - tries
      {
        hide After;
        AskNext(file, env, n);
        var r := env(n);
        n := n + 1;
        if r.brk || r.reply.Stop? {
          phase := Interrupted;
        } else if r.reply.Nothing? || r.reply.p == [] {
          tries := tries + 1;
          if tries == RETRIES { phase := TimedOut; }
        } else if |r.reply.p| < 4 || r.reply.p[1] != OP_ACK {
          phase := Refused;
        } else {
          acked := true;
        }
      }
    }

    /** The last round brought the awaited ACK and the next block is not read yet. */
    ghost predicate Answered(env: nat -> Round, n: nat)
      reads this
    {
      n > 0 && Ok(View().s) && After(file, env, n).data == data
      && if phase.Asking? then offset == 0 && After(file, env, n).s == Begin(View().s, 0, env(n - 1).readFails)
         else
           && phase.Sending? && chunk == Chunk(file, offset)
           && After(file, env, n).s == Advance(file, View().s, env(n - 1).readFails)
    }

    /** One round of that loop; true when it brought the ACK. */
    method Exchange(r: Round) returns (acked: bool)
      requires phase.Sending? && Ok(View().s) && chunk == Chunk(file, offset)
      modifies this`phase, this`tries, this`stray, this`resend, this`sentAt, this`data
      ensures Step(file, old(View().s), r).s == if acked then Advance(file, View().s, r.readFails) else View().s
      ensures data == old(data) + Step(file, old(View().s), r).data
      ensures acked ==> phase.Sending?
    {
      hide Chunk, DataPacket;
      acked := false;
      if r.brk {
        phase := Interrupted;
        return;
      }
      if resend {
        data := data + [DataPacket(block, chunk)];
        sentAt := r.sendTick;
        resend := false;
      }
      if Elapsed(r.tick, sentAt) < TIMEOUT_TICKS {
        if r.reply.Stop? {
          phase := Interrupted;
          return;
        }
        if IsError(r.reply) {
          phase := Refused;
          return;
        }
        if IsAck(r.reply) && PktBlock(r.reply.p) == block {
          acked := true;
          return;
        }
        if Elapsed(r.after, sentAt) < TIMEOUT_TICKS {
          stray := stray + 1;
          if stray > STRAY_MAX { phase := Flooded; }
          return;
        }
      }
      tries := tries + 1;
      if tries > RETRIES { phase := TimedOut; } else { resend := true; }
    }

    /** The loop of one block, until its ACK. */
    method SendBlock(env: nat -> Round, k: nat) returns (n: nat, acked: bool)
      requires View() == After(file, env, k) && Starts(View().s) && chunk == Chunk(file, offset)
      modifies this`phase, this`tries, this`stray, this`resend, this`sentAt, this`data
      ensures k < n <= k + BLOCK_ROUNDS
      ensures acked ==> Answered(env, n) && phase.Sending?
      ensures !acked ==> View() == After(file, env, n) && !Running(View().s)
    {
      hide Step, Advance;
      n, acked := k, false;
      while phase.Sending? && !acked
        invariant acked ==> phase.Sending? && Answered(env, n)
        invariant !acked ==> View() == After(file, env, n) && !phase.Asking?
        invariant phase.Sending? && !acked ==> tries <= RETRIES && stray <= STRAY_MAX && n - k == tries + stray
        invariant !phase.Sending? || acked ==> k < n <= k + BLOCK_ROUNDS
        decreases k + BLOCK_ROUNDS - n, !acked
      {
        AfterShape(file, env, n);
        AfterShape(file, env, n + 1);
        ghost var s := View().s;
        StepOffset(file, s, env(n));
        acked := Exchange(env(n));
        if phase.Sending? && !acked { StepInBlock(file, s, env(n)); }
        n := n + 1;
      }
    }

    /** Reads the next block into the packet buffer. */
    method Load(env: nat -> Round, n: nat) returns (ok: bool)
      requires Answered(env, n) && (phase.Asking? || |chunk| == BLK) && offset <= |file|
      modifies this
      ensures View() == After(file, env, n) && ok == !env(n - 1).readFails
      ensures !ok ==> offset == old(offset) && phase.ReadError?
      ensures ok ==> Starts(View().s) && chunk == Chunk(file, offset)
      ensures ok ==> offset == (if old(phase).Asking? then 0 else old(offset) + BLK)
      ensures offset <= |file|
    {
      hide After;
      ok := !env(n - 1).readFails;
      if ok {
        offset := if phase.Asking? then 0 else offset + BLK;
        chunk := Chunk(file, offset);
        phase, block := Sending, (block + 1) % WRAP;
        tries, stray, resend := 0, 0, true;
      } else {
        phase := ReadError;
      }
    }

    /** One turn of the outer loop; true when a full block was acknowledged. */
    method NextBlock(env: nat -> Round, k: nat) returns (n: nat, more: bool)
      requires Answered(env, k) && (phase.Asking? || |chunk| == BLK) && offset <= |file|
      modifies this
      ensures n <= k + BLOCK_ROUNDS
      ensures more ==> Answered(env, n) && phase.Sending? && |chunk| == BLK && offset + BLK <= |file|
      ensures more ==> offset == if old(phase).Asking? then 0 else old(offset) + BLK
      ensures !more ==> View() == After(file, env, n) && !Running(View().s)
    {
      hide After, Step, Chunk, Advance, Begin;
      n := k;
      more := Load(env, n);
      if more {
        n, more := SendBlock(env, n);
        if more && |chunk| < BLK {
          AdvanceLast(file, View().s, env(n - 1).readFails);
          phase, more := Completed, false;
        }
      }
    }

    /** The whole command: it ends within the rounds that the blocks allow. */
    method Put(env: nat -> Round) returns (n: nat)
      requires View() == Outcome(START, [])
      modifies this
      ensures View() == After(file, env, n) && !Running(View().s)
      ensures n <= RETRIES + BLOCK_ROUNDS * Blocks(file)
    {
      hide After, Step, Chunk, Advance, Begin;
      var more;
      n, more := Ask(env);
      ghost var blocks: nat := 0;
      while more
        invariant more ==> Answered(env, n) && offset <= |file|
        invariant more ==>
                    if blocks == 0 then phase.Asking?
                    else phase.Sending? && |chunk| == BLK && offset == BLK * (blocks - 1)
        invariant !more ==> View() == After(file, env, n) && !Running(View().s)
        invariant n <= RETRIES + BLOCK_ROUNDS * blocks
        invariant blocks <= Blocks(file) && (more ==> BLK * blocks <= |file|)
        decreases Blocks(file) - blocks, more
      {
        n, more := NextBlock(env, n);
        blocks := blocks + 1;
      }
    }
  }
}
