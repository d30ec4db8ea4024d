/** TFTP GET: the receiving client, for every sequence of packets, silences and
    interruptions. */
module TftpGet {
  import opened Octets
  import opened Tftp

  // ------------------------------------------------------------- client

  datatype Phase = Asking | Receiving | Received | TimedOut | WriteError | Refused | Interrupted

  /** The variables of the GET branch. `tries` counts the silent rounds. */
  datatype Getter = Getter(phase: Phase, last: nat, file: seq<Octet>, tries: nat)

  /** What the network, the disk or the user does next. Silence is a timeout or
      a packet from a foreign transfer ID. `wrote` is how much of the payload
      Write() manages to put in the file. */
  datatype Event = Arrival(p: Packet, wrote: nat) | Silence | Break

  datatype Outcome = Outcome(g: Getter, acks: seq<Packet>)

  const START := Getter(Asking, 0, [], 0)

  predicate Ok(g: Getter) { g.last < WRAP }

  predicate IsData(p: Packet) { |p| >= 4 && p[1] == OP_DATA }

  /** One pass of the transfer loop over a DATA packet. */
  function Take(g: Getter, p: Packet, wrote: nat): (r: Outcome)
    requires Ok(g) && IsData(p)
    ensures Ok(r.g)
  {
    var block, payload := PktBlock(p), p[4..];
    if block == (g.last + 1) % WRAP then
      if wrote < |payload| then Outcome(g.(phase := WriteError, file := g.file + payload[..wrote]), [])
      else
        Outcome(Getter(if |payload| < BLK then Received else Receiving, block, g.file + payload, 0), [AckPacket(block)])
    else
      Outcome(g.(phase := Receiving, tries := 0), if block == g.last then [AckPacket(block)] else [])
  }

  /** A round without a packet: the request goes out again, or the last block
      is acknowledged again so that the sender repeats the next one. */
  function Quiet(g: Getter): (r: Outcome)
    requires Ok(g)
    ensures Ok(r.g)
  {
    var more := g.(tries := g.tries + 1);
    if g.phase.Asking? then Outcome(if more.tries < RETRIES then more else more.(phase := TimedOut), [])
    else if more.tries > RETRIES then Outcome(more.(phase := TimedOut), [])
    else Outcome(more, [AckPacket(g.last)])
  }

  predicate Waiting(g: Getter) { g.phase.Asking? || g.phase.Receiving? }

  function Step(g: Getter, e: Event): (r: Outcome)
    requires Ok(g)
    ensures Ok(r.g)
  {
    if !Waiting(g) then Outcome(g, [])
    else match e
      case Break => Outcome(g.(phase := Interrupted), [])
      case Silence => Quiet(g)
      case Arrival(p, wrote) =>
        if p == [] then Quiet(g)
        else if IsData(p) then Take(g, p, wrote)
        else if g.phase.Asking? || (|p| >= 4 && p[1] == OP_ERROR) then Outcome(g.(phase := Refused), [])
        else Outcome(g, [])
  }

  /** Everything the client has done after `events`. */
  function Run(events: seq<Event>): (r: Outcome)
    ensures Ok(r.g)
  {
    if events == [] then Outcome(START, [])
    else
      var r := Run(events[..|events| - 1]);
      var s := Step(r.g, events[|events| - 1]);
      Outcome(s.g, r.acks + s.acks)
  }

  lemma RunNext(events: seq<Event>, k: nat)
    requires k < |events|
    ensures var r := Run(events[..k]); var s := Step(r.g, events[k]);
            Run(events[..k + 1]) == Outcome(s.g, r.acks + s.acks)
  {
    assert events[..k + 1][..k] == events[..k];
  }

  lemma {:induction false} RunSettled(events: seq<Event>, k: nat)
    requires k <= |events| && !Waiting(Run(events[..k]).g)
    ensures Run(events) == Run(events[..k])
    decreases |events| - k
  {
    if k == |events| {
      assert events[..k] == events;
    } else {
      RunNext(events, k);
      RunSettled(events, k + 1);
    }
  }

  // ------------------------------------------------------------ patience

  predicate IsSilent(e: Event) { e.Silence? || (e.Arrival? && e.p == []) }

  function Silences(events: seq<Event>): nat {
    if events == [] then 0
    else Silences(events[..|events| - 1]) + if IsSilent(events[|events| - 1]) then 1 else 0
  }

  lemma StepTries(g: Getter, e: Event)
    requires Ok(g)
    ensures var n := Step(g, e).g;
            && (Waiting(n) ==> Waiting(g) && n.tries <= RETRIES + g.tries)
            && (IsSilent(e) && Waiting(g) ==> n.tries == g.tries + 1 && (Waiting(n) ==> n.tries <= RETRIES))
            && (!IsSilent(e) ==> n.tries <= g.tries && (n.phase.TimedOut? ==> g.phase.TimedOut?))
            && (!Waiting(g) ==> n == g)
            && (n.phase.TimedOut? && !g.phase.TimedOut? ==> n.tries >= RETRIES)
  {
  }

  /** The client gives up for want of an answer only after five silent rounds. */
  lemma {:induction false} TimeoutNeedsSilence(events: seq<Event>)
    ensures Run(events).g.tries <= Silences(events)
    ensures Run(events).g.phase.TimedOut? ==> Silences(events) >= RETRIES
  {
    hide Step;
    if events != [] {
      var front := events[..|events| - 1];
      TimeoutNeedsSilence(front);
      StepTries(Run(front).g, events[|events| - 1]);
    }
  }

  /** And it does give up after six silent rounds in a row, whatever came before. */
  lemma SilenceEnds(events: seq<Event>, k: nat)
    requires k + RETRIES + 1 <= |events| && forall i :: k <= i < |events| ==> IsSilent(events[i])
    ensures !Waiting(Run(events).g)
  {
    SilentRounds(events, k, |events|);
    assert events[..|events|] == events;
  }

  lemma {:induction false} SilentRounds(events: seq<Event>, k: nat, n: nat)
    requires k <= n <= |events| && forall i :: k <= i < n ==> IsSilent(events[i])
    ensures var g := Run(events[..n]).g; Waiting(g) ==> g.tries >= n - k && (n > k ==> g.tries <= RETRIES)
  {
    hide Step;
    if n > k {
      SilentRounds(events, k, n - 1);
      RunNext(events, n - 1);
      StepTries(Run(events[..n - 1]).g, events[n - 1]);
    }
  }

  /** The GET branch with its variables as fields; `acks` is what was sent. */
  class Client {
    var phase: Phase
    var last: nat
    var file: seq<Octet>
    var tries: nat
    var acks: seq<Packet>

    constructor ()
      ensures View() == Outcome(START, [])
    {
      phase, last, file, tries, acks := Asking, 0, [], 0, [];
    }

    ghost function View(): Outcome
      reads this
    {
      Outcome(Getter(phase, last, file, tries), acks)
    }

    /** The client holds a DATA packet that it has not looked at yet. */
    ghost predicate Holds(rx: Packet, wrote: nat, events: seq<Event>)
      reads this
    {
      IsData(rx) && phase.Receiving? && last < WRAP
      && Run(events) == Outcome(Take(View().g, rx, wrote).g, acks + Take(View().g, rx, wrote).acks)
    }

    /** The request loop: asks until the first reply arrives. */
    method Ask(events: seq<Event>) returns (i: nat, rx: Packet, wrote: nat)
      requires View() == Outcome(START, [])
      modifies this
      ensures i <= |events|
      ensures rx == [] ==> View() == Run(events[..i]) && (i == |events| || !Waiting(View().g))
      ensures rx != [] ==> Holds(rx, wrote, events[..i])
    {
      i, rx, wrote := 0, [], 0;
      while phase.Asking? && i < |events|
        invariant i <= |events| && last == 0 && file == [] && acks == []
        invariant phase.Receiving? <==> rx != []
        invariant rx == [] ==> View() == Run(events[..i])
        invariant rx != [] ==> Holds(rx, wrote, events[..i])
        decreases |events| - i
      {
        RunNext(events, i);
        var e := events[i];
        i := i + 1;
        if e.Break? {
          phase := Interrupted;
        } else if e.Silence? || e.p == [] {
          tries := tries + 1;
          if tries == RETRIES { phase := TimedOut; }
        } else if IsData(e.p) {
          phase, rx, wrote := Receiving, e.p, e.wrote;
        } else {
          phase := Refused;
        }
      }
    }

    /** One DATA packet: write and acknowledge it, or repeat the last ACK. */
    method Pass(rx: Packet, wrote: nat)
      requires IsData(rx) && phase.Receiving? && last < WRAP
      modifies this
      ensures View() == Outcome(Take(old(View().g), rx, wrote).g, old(acks) + Take(old(View().g), rx, wrote).acks)
    {
      var block, dlen := PktBlock(rx), |rx| - 4;
      if block == (last + 1) % WRAP {
        if wrote < dlen {
          phase, file := WriteError, file + rx[4..][..wrote];
          return;
        }
        file := file + rx[4..];
        last := block;
        acks := acks + [AckPacket(block)];
        if dlen < BLK { phase := Received; }
      } else if block == last {
        acks := acks + [AckPacket(block)];
      }
      tries := 0;
    }

    /** The waiting loop: repeats the last ACK on a timeout, drops what is not DATA. */
    method Await(events: seq<Event>, k: nat) returns (i: nat, rx: Packet, wrote: nat)
      requires k <= |events| && View() == Run(events[..k]) && !phase.Asking?
      modifies this
      ensures k <= i <= |events| && (rx != [] ==> k < i)
      ensures rx == [] ==> View() == Run(events[..i]) && (i == |events| || !Waiting(View().g))
      ensures rx != [] ==> Holds(rx, wrote, events[..i])
    {
      i, rx, wrote := k, [], 0;
      while phase.Receiving? && rx == [] && i < |events|
        invariant k <= i <= |events| && (rx != [] ==> k < i) && !phase.Asking?
        invariant rx == [] ==> View() == Run(events[..i])
        invariant rx != [] ==> Holds(rx, wrote, events[..i])
        decreases |events| - i
      {
        hide Run, Take, AckPacket;
        RunNext(events, i);
        var e := events[i];
        i := i + 1;
        if e.Break? {
          phase := Interrupted;
        } else if e.Silence? || e.p == [] {
          tries := tries + 1;
          if tries > RETRIES { phase := TimedOut; } else { acks := acks + [AckPacket(last)]; }
        } else if IsData(e.p) {
          rx, wrote := e.p, e.wrote;
        } else if |e.p| >= 4 && e.p[1] == OP_ERROR {
          phase := Refused;
        }
      }
    }

    method Get(events: seq<Event>)
      requires View() == Outcome(START, [])
      modifies this
      ensures View() == Run(events)
    {
      var i, rx, wrote := Ask(events);
      while rx != []
        invariant i <= |events|
        invariant rx == [] ==> View() == Run(events[..i]) && (i == |events| || !Waiting(View().g))
        invariant rx != [] ==> Holds(rx, wrote, events[..i])
        decreases |events| - i, |rx|
      {
        Pass(rx, wrote);
        i, rx, wrote := Await(events, i);
      }
      if i == |events| { assert events[..i] == events; } else { RunSettled(events, i); }
    }
  }
}
