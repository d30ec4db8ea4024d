/** The Telnet command: the five-state receive filter that compacts its buffer
    in place, option negotiation, and the encoder for the network virtual
    terminal of RFC 854. */
module Telnet {
  import opened Seqs
  import opened Octets

  const IAC: Octet := 255
  const DONT: Octet := 254
  const DO: Octet := 253
  const WONT: Octet := 252
  const WILL: Octet := 251
  const SB: Octet := 250
  const SE: Octet := 240
  const CR: Octet := 13
  const LF: Octet := 10

  // ------------------------------------------------------------- options

  /** What we know of an option on the server's side. */
  datatype Him = No | Yes | WantYes

  predicate Wanted(opt: Octet) { opt == 1 || opt == 3 }

  /** An option command, received or sent. */
  datatype Command = Command(cmd: Octet, opt: Octet)

  /** The option's new state and the answer, if any. */
  function Answer(him: Him, c: Command): (Him, seq<Command>) {
    if c.cmd == WILL then
      if him.WantYes? then (Yes, [])
      else if him.Yes? then (Yes, [])
      else if Wanted(c.opt) then (Yes, [Command(DO, c.opt)])
      else (No, [Command(DONT, c.opt)])
    else if c.cmd == WONT then (No, if him.Yes? then [Command(DONT, c.opt)] else [])
    else if c.cmd == DO then (him, [Command(WONT, c.opt)])
    else (him, [])
  }

  type Options = s: seq<Him> | |s| == 256 witness seq(256, _ => No)

  // -------------------------------------------------------------- filter

  datatype Mode = Plain | AfterIac | AfterCmd | InSb | SbIac

  datatype Filter = Filter(mode: Mode, cmd: Octet, him: Options)

  /** The filter after some input, with the data and the answers it gave. */
  datatype Output = Output(f: Filter, data: seq<Octet>, sent: seq<Command>)

  predicate IsOption(c: Octet) { c == DO || c == DONT || c == WILL || c == WONT }

  function Feed(f: Filter, c: Octet): (r: Output) {
    match f.mode
    case Plain => if c == IAC then Output(f.(mode := AfterIac), [], []) else Output(f, [c], [])
    case AfterIac =>
      if c == IAC then Output(f.(mode := Plain), [IAC], [])
      else if c == SB then Output(f.(mode := InSb), [], [])
      else if IsOption(c) then Output(f.(mode := AfterCmd, cmd := c), [], [])
      else Output(f.(mode := Plain), [], [])
    case AfterCmd =>
      var (him, sent) := Answer(f.him[c], Command(f.cmd, c));
      Output(f.(mode := Plain, him := f.him[c := him]), [], sent)
    case InSb => Output(if c == IAC then f.(mode := SbIac) else f, [], [])
    case SbIac => Output(f.(mode := if c == SE then Plain else InSb), [], [])
  }

  function Filtered(f: Filter, s: seq<Octet>): (r: Output)
    ensures |r.data| <= |s|
    decreases |s|
  {
    if s == [] then Output(f, [], [])
    else
      var a := Feed(f, s[0]);
      var b := Filtered(a.f, s[1..]);
      Output(b.f, a.data + b.data, a.sent + b.sent)
  }

  /** The filter over pieces, as they are received. */
  function Pieces(f: Filter, chunks: seq<seq<Octet>>): (r: Output)
    decreases |chunks|
  {
    if chunks == [] then Output(f, [], [])
    else
      var a := Filtered(f, chunks[0]);
      var b := Pieces(a.f, chunks[1..]);
      Output(b.f, a.data + b.data, a.sent + b.sent)
  }

  lemma {:induction false} FilteredAppend(f: Filter, s: seq<Octet>, t: seq<Octet>)
    ensures var a := Filtered(f, s); var b := Filtered(a.f, t);
            Filtered(f, s + t) == Output(b.f, a.data + b.data, a.sent + b.sent)
    decreases |s|
  {
    hide Feed;
    if s == [] {
      assert s + t == t;
    } else {
      var first := Feed(f, s[0]);
      FilteredAppend(first.f, s[1..], t);
      assert (s + t)[1..] == s[1..] + t;
    }
  }

  /** How the stream is cut into pieces makes no difference to the output, the
      answers or the state. */
  lemma {:induction false} ChunkingIrrelevant(f: Filter, chunks: seq<seq<Octet>>)
    ensures Pieces(f, chunks) == Filtered(f, Joined(chunks))
    decreases |chunks|
  {
    if chunks != [] {
      ChunkingIrrelevant(Filtered(f, chunks[0]).f, chunks[1..]);
      FilteredAppend(f, chunks[0], Joined(chunks[1..]));
    }
  }

  // ------------------------------------------------ meaning of a stream

  /** What a Telnet stream is made of: data, a command without an option, an
      option command, and a subnegotiation. */
  datatype Segment = Data(s: seq<Octet>) | Control(code: Octet) | Option(c: Command) | Sub(body: seq<Piece>)

  /** Inside a subnegotiation: an octet, or one escaped by an IAC. */
  datatype Piece = Lone(c: Octet) | Escaped(c: Octet)

  predicate Inside(p: Piece) { if p.Lone? then p.c != IAC else p.c != SE }

  predicate Proper(g: Segment) {
    match g
    case Control(c) => c != IAC && c != SB && !IsOption(c)
    case Option(c) => IsOption(c.cmd)
    case Sub(body) => forall i :: 0 <= i < |body| ==> Inside(body[i])
    case Data(_) => true
  }

  function Doubled(s: seq<Octet>): seq<Octet> {
    if s == [] then [] else (if s[0] == IAC then [IAC, IAC] else [s[0]]) + Doubled(s[1..])
  }

  function Spelled(body: seq<Piece>): seq<Octet> {
    if body == [] then [] else (if body[0].Lone? then [body[0].c] else [IAC, body[0].c]) + Spelled(body[1..])
  }

  function Wire(g: Segment): seq<Octet> {
    match g
    case Data(s) => Doubled(s)
    case Control(c) => [IAC, c]
    case Option(c) => [IAC, c.cmd, c.opt]
    case Sub(body) => [IAC, SB] + (Spelled(body) + [IAC, SE])
  }

  function Stream(gs: seq<Segment>): seq<Octet> {
    if gs == [] then [] else Wire(gs[0]) + Stream(gs[1..])
  }

  /** Data is kept, an option command answered, the rest skipped. */
  function MeaningOf(f: Filter, g: Segment): Output {
    match g
    case Data(s) => Output(f, s, [])
    case Option(c) =>
      var (him, sent) := Answer(f.him[c.opt], c);
      Output(f.(cmd := c.cmd, him := f.him[c.opt := him]), [], sent)
    case _ => Output(f, [], [])
  }

  /** The data of a stream. */
  function DataOf(gs: seq<Segment>): seq<Octet> {
    if gs == [] then [] else (if gs[0].Data? then gs[0].s else []) + DataOf(gs[1..])
  }

  /** The option commands of a stream, in order. */
  function CommandsOf(gs: seq<Segment>): seq<Command> {
    if gs == [] then [] else (if gs[0].Option? then [gs[0].c] else []) + CommandsOf(gs[1..])
  }

  /** The table of negotiation: what we answer to a command about an option that
      is `before` on the server's side, and what that makes of it. */
  predicate Row(received: Octet, wanted: bool, before: Him, after: Him, reply: seq<Octet>) {
    || (received == DO && after == before && reply == [WONT])
    || (received == DONT && after == before && reply == [])
    || (received == WILL && before == No && wanted && after == Yes && reply == [DO])
    || (received == WILL && before == No && !wanted && after == No && reply == [DONT])
    || (received == WILL && before != No && after == Yes && reply == [])
    || (received == WONT && before == Yes && after == No && reply == [DONT])
    || (received == WONT && before != Yes && after == No && reply == [])
  }

  /** A command goes by a row of the table, and no other option is touched. */
  ghost predicate Tabled(him: Options, c: Command, sent: seq<Command>, after: Options) {
    exists reply :: Row(c.cmd, Wanted(c.opt), him[c.opt], after[c.opt], reply)
      && after == him[c.opt := after[c.opt]]
      && sent == (if reply == [] then [] else [Command(reply[0], c.opt)])
  }

  /** Commands in turn, each by the table, with these answers altogether. */
  ghost predicate Negotiated(him: Options, cs: seq<Command>, sent: seq<Command>, after: Options)
    decreases |cs|
  {
    if cs == [] then sent == [] && after == him
    else exists k: nat, mid: Options {:trigger Negotiated(mid, cs[1..], sent[k..], after)} ::
      k <= |sent| && Tabled(him, cs[0], sent[..k], mid) && Negotiated(mid, cs[1..], sent[k..], after)
  }

  lemma {:induction false} DoubledPasses(f: Filter, s: seq<Octet>)
    requires f.mode.Plain?
    ensures Filtered(f, Doubled(s)) == Output(f, s, [])
  {
    hide Feed;
    if s != [] {
      hide Filtered;
      var head := if s[0] == IAC then [IAC, IAC] else [s[0]];
      DoubledPasses(f, s[1..]);
      QuotedPasses(f, s[0]);
      FilteredAppend(f, head, Doubled(s[1..]));
    }
  }

  lemma QuotedPasses(f: Filter, c: Octet)
    requires f.mode.Plain?
    ensures Filtered(f, if c == IAC then [IAC, IAC] else [c]) == Output(f, [c], [])
  {
    hide Filtered;
    OneOctet(f, c);
    TwoOctets(f, IAC, IAC);
  }

  /** A subnegotiation is skipped whatever is in it. */
  lemma {:induction false} BodySkipped(f: Filter, body: seq<Piece>)
    requires f.mode.InSb? && forall i :: 0 <= i < |body| ==> Inside(body[i])
    ensures Filtered(f, Spelled(body)) == Output(f, [], [])
  {
    hide Feed;
    if body != [] {
      hide Filtered;
      var head := if body[0].Lone? then [body[0].c] else [IAC, body[0].c];
      BodySkipped(f, body[1..]);
      PieceSkipped(f, body[0]);
      FilteredAppend(f, head, Spelled(body[1..]));
    }
  }

  lemma PieceSkipped(f: Filter, p: Piece)
    requires f.mode.InSb? && Inside(p)
    ensures Filtered(f, if p.Lone? then [p.c] else [IAC, p.c]) == Output(f, [], [])
  {
    hide Filtered;
    if p.Lone? { OneOctet(f, p.c); } else { TwoOctets(f, IAC, p.c); }
  }

  lemma SegmentMeaning(f: Filter, g: Segment)
    requires f.mode.Plain? && Proper(g)
    ensures Filtered(f, Wire(g)) == MeaningOf(f, g) && MeaningOf(f, g).f.mode.Plain?
  {
    hide Filtered;
    match g
    case Data(s) => DoubledPasses(f, s);
    case Control(c) => TwoOctets(f, IAC, c);
    case Option(c) =>
      TwoOctets(f, IAC, c.cmd);
      var mid := f.(mode := AfterCmd, cmd := c.cmd);
      OneOctet(mid, c.opt);
      FilteredAppend(f, [IAC, c.cmd], [c.opt]);
      assert [IAC, c.cmd, c.opt] == [IAC, c.cmd] + [c.opt];
    case Sub(body) =>
      var inside := f.(mode := InSb);
      TwoOctets(f, IAC, SB);
      BodySkipped(inside, body);
      TwoOctets(inside, IAC, SE);
      FilteredAppend(inside, Spelled(body), [IAC, SE]);
      FilteredAppend(f, [IAC, SB], Spelled(body) + [IAC, SE]);
  }

  /** A stream of segments comes out as its data, with its option commands
      answered in order by the table and everything else skipped. */
  lemma {:induction false} FilterMeaning(f: Filter, gs: seq<Segment>)
    requires f.mode.Plain? && forall i :: 0 <= i < |gs| ==> Proper(gs[i])
    ensures var r := Filtered(f, Stream(gs));
            && r.f.mode.Plain? && r.data == DataOf(gs)
            && Negotiated(f.him, CommandsOf(gs), r.sent, r.f.him)
    decreases |gs|
  {
    hide Filtered, Wire, MeaningOf, Proper, Negotiated, Tabled;
    if gs == [] {
      FilteredNone(f);
      NegotiatedNone(f.him);
    } else {
      SegmentMeaning(f, gs[0]);
      var a := MeaningOf(f, gs[0]);
      var b := Filtered(a.f, Stream(gs[1..]));
      FilterMeaning(a.f, gs[1..]);
      FilteredAppend(f, Wire(gs[0]), Stream(gs[1..]));
      MeaningTabled(f, gs[0]);
      if gs[0].Option? {
        assert CommandsOf(gs) == [gs[0].c] + CommandsOf(gs[1..]);
        NegotiatedMore(f.him, gs[0].c, a.sent, a.f.him, CommandsOf(gs[1..]), b.sent, b.f.him);
      } else {
        assert a.sent + b.sent == b.sent && CommandsOf(gs) == CommandsOf(gs[1..]);
      }
    }
  }

  lemma MeaningTabled(f: Filter, g: Segment)
    requires Proper(g)
    ensures var r := MeaningOf(f, g);
            && r.data == (if g.Data? then g.s else [])
            && if g.Option? then Tabled(f.him, g.c, r.sent, r.f.him) else r.sent == [] && r.f.him == f.him
  {
    if g.Option? { AnswerTabled(f.him, g.c); }
  }

  /** What `tn_handle_opt` does is in the table. */
  lemma AnswerTabled(him: Options, c: Command)
    requires IsOption(c.cmd)
    ensures var (h, a) := Answer(him[c.opt], c); Tabled(him, c, a, him[c.opt := h])
  {
    var (h, a) := Answer(him[c.opt], c);
    assert Row(c.cmd, Wanted(c.opt), him[c.opt], him[c.opt := h][c.opt], if a == [] then [] else [a[0].cmd]);
  }

  lemma NegotiatedNone(him: Options)
    ensures Negotiated(him, [], [], him)
  {
  }

  lemma NegotiatedMore(
      him: Options, c: Command, a: seq<Command>, mid: Options, cs: seq<Command>, b: seq<Command>, after: Options)
    requires Tabled(him, c, a, mid) && Negotiated(mid, cs, b, after)
    ensures Negotiated(him, [c] + cs, a + b, after)
  {
    assert ([c] + cs)[1..] == cs && (a + b)[..|a|] == a && (a + b)[|a|..] == b;
  }

  /** The option command that the filter is in, where it is in one. */
  predicate InCommand(f: Filter) { f.mode.AfterCmd? ==> IsOption(f.cmd) }

  /** On every stream, octet by octet: an octet that completes an option command
      draws the answer of the table, and no other octet draws one. */
  lemma AnswersByTable(f: Filter, s: seq<Octet>, i: nat)
    requires InCommand(f) && i < |s|
    ensures var a, b := Filtered(f, s[..i]), Filtered(f, s[..i + 1]);
            && InCommand(a.f) && a.sent <= b.sent
            && if a.f.mode.AfterCmd? then
                 Tabled(a.f.him, Command(a.f.cmd, s[i]), b.sent[|a.sent|..], b.f.him)
               else b.sent == a.sent && b.f.him == a.f.him
  {
    hide Filtered, Answer, Tabled;
    InCommandStays(f, s[..i]);
    FilteredNext(f, s, i);
    var a := Filtered(f, s[..i]).f;
    if a.mode.AfterCmd? { AnswerTabled(a.him, Command(a.cmd, s[i])); }
  }

  lemma {:induction false} InCommandStays(f: Filter, s: seq<Octet>)
    requires InCommand(f)
    ensures InCommand(Filtered(f, s).f)
    decreases |s|
  {
    if s != [] { InCommandStays(Feed(f, s[0]).f, s[1..]); }
  }

  /** Such an octet follows IAC and the command, outside everything else. */
  lemma CommandIs(f: Filter, s: seq<Octet>, i: nat)
    requires f.mode.Plain? && i <= |s|
    ensures Filtered(f, s[..i]).f.mode.AfterCmd? <==>
              i >= 2 && IsOption(s[i - 1]) && s[i - 2] == IAC && Filtered(f, s[..i - 2]).f.mode.Plain?
    ensures Filtered(f, s[..i]).f.mode.AfterCmd? ==> Filtered(f, s[..i]).f.cmd == s[i - 1]
  {
    hide Filtered, Answer;
    assert s[..0] == [];
    FilteredNone(f);
    if i >= 1 { FilteredNext(f, s, i - 1); }
    if i >= 2 { FilteredNext(f, s, i - 2); }
  }

  // ------------------------------------------------- rules of negotiation

  lemma FirstAnswer(him: Options, cs: seq<Command>, sent: seq<Command>, after: Options) returns (k: nat, mid: Options)
    requires cs != [] && Negotiated(him, cs, sent, after)
    ensures k <= |sent| && Tabled(him, cs[0], sent[..k], mid) && Negotiated(mid, cs[1..], sent[k..], after)
  {
    k, mid :| k <= |sent| && Tabled(him, cs[0], sent[..k], mid) && Negotiated(mid, cs[1..], sent[k..], after);
  }

  lemma NothingAnswered(him: Options, sent: seq<Command>, after: Options)
    requires Negotiated(him, [], sent, after)
    ensures sent == [] && after == him
  {
  }

  lemma OneRefused(him: Options, c: Command, sent: seq<Command>, after: Options, opt: Octet)
    requires Tabled(him, c, sent, after)
    ensures multiset(sent)[Command(WONT, opt)] == multiset([c])[Command(DO, opt)]
  {
  }

  lemma {:induction false} CountSplit(s: seq<Command>, k: nat, c: Command)
    requires k <= |s|
    ensures multiset(s)[c] == multiset(s[..k])[c] + multiset(s[k..])[c]
  {
    assert s == s[..k] + s[k..];
  }

  /** As many refusals as requests, for every option and every stream of commands. */
  lemma {:induction false} RequestsRefused(
      him: Options, cs: seq<Command>, sent: seq<Command>, after: Options, opt: Octet)
    requires Negotiated(him, cs, sent, after)
    ensures multiset(sent)[Command(WONT, opt)] == multiset(cs)[Command(DO, opt)]
    decreases |cs|
  {
    hide Negotiated, Tabled;
    if cs == [] {
      NothingAnswered(him, sent, after);
    } else {
      var k, mid := FirstAnswer(him, cs, sent, after);
      RequestsRefused(mid, cs[1..], sent[k..], after, opt);
      OneRefused(him, cs[0], sent[..k], mid, opt);
      CountSplit(sent, k, Command(WONT, opt));
      CountSplit(cs, 1, Command(DO, opt));
      assert cs[..1] == [cs[0]];
    }
  }

  /** Whether the server has an option on is decided by its last word about it:
      a WONT turns it off, a WILL turns a wanted one on. */
  lemma {:induction false} LastWordCounts(
      him: Options, cs: seq<Command>, sent: seq<Command>, after: Options, j: nat)
    requires Negotiated(him, cs, sent, after)
    requires j < |cs| && (cs[j].cmd == WILL || cs[j].cmd == WONT)
    requires forall i :: j < i < |cs| && cs[i].opt == cs[j].opt ==> cs[i].cmd == DO || cs[i].cmd == DONT
    ensures cs[j].cmd == WONT ==> after[cs[j].opt] == No
    ensures cs[j].cmd == WILL && Wanted(cs[j].opt) ==> after[cs[j].opt] == Yes
    decreases |cs|
  {
    var k, mid := FirstAnswer(him, cs, sent, after);
    if j > 0 {
      assert cs[1..][j - 1] == cs[j];
      LastWordCounts(mid, cs[1..], sent[k..], after, j - 1);
    } else {
      Unspoken(mid, cs[1..], sent[k..], after, cs[0].opt);
    }
  }

  lemma {:induction false} Unspoken(him: Options, cs: seq<Command>, sent: seq<Command>, after: Options, opt: Octet)
    requires Negotiated(him, cs, sent, after)
    requires forall i :: 0 <= i < |cs| && cs[i].opt == opt ==> cs[i].cmd == DO || cs[i].cmd == DONT
    ensures after[opt] == him[opt]
    decreases |cs|
  {
    if cs != [] {
      var k, mid := FirstAnswer(him, cs, sent, after);
      Unspoken(mid, cs[1..], sent[k..], after, opt);
    }
  }

  /** An answer goes out only with a change of state or as a refusal, and none
      to the answer to our own request. */
  lemma AnswerRules(him: Him, c: Command)
    ensures var (h, a) := Answer(him, c);
            && |a| <= 1
            && (a != [] ==> h != him || c.cmd == DO || (c.cmd == WILL && h == No && a[0].cmd == DONT))
            && (him.WantYes? && (c.cmd == WILL || c.cmd == WONT) ==> a == [] && !h.WantYes?)
            && (c.cmd == WILL && !him.No? ==> h == Yes) && (c.cmd == WONT ==> h == No)
  {
  }

  /** Only wanted options are on, or asked for, at the server's side. */
  predicate Modest(him: Options) { forall i :: 0 <= i < 256 && him[i] != No ==> Wanted(i) }

  /** Whatever the server sends, no unwanted option comes on at its side, and
      we neither ask for one nor offer any of our own. */
  lemma {:induction false} NeverEnables(f: Filter, s: seq<Octet>)
    requires Modest(f.him)
    ensures var r := Filtered(f, s);
            && Modest(r.f.him)
            && forall i :: 0 <= i < |r.sent| ==>
              r.sent[i].cmd != WILL && (r.sent[i].cmd == DO ==> Wanted(r.sent[i].opt))
    decreases |s|
  {
    if s != [] { NeverEnables(Feed(f, s[0]).f, s[1..]); }
  }

  // ------------------------------------------------------------- encoder

  /** One console octet for the network: a bare LF gets a CR, an IAC is doubled. */
  function Enc(c: Octet, afterCr: bool): (r: seq<Octet>) {
    if c == LF && !afterCr then [CR, LF] else if c == IAC then [IAC, IAC] else [c]
  }

  function Nvt(s: seq<Octet>, afterCr: bool): (r: seq<Octet>)
    ensures |r| <= 2 * |s|
  {
    if s == [] then []
    else Enc(s[0], afterCr) + Nvt(s[1..], s[0] == CR)
  }

  /** Every bare LF as CR LF. */
  function CrLf(s: seq<Octet>, afterCr: bool): seq<Octet> {
    if s == [] then [] else (if s[0] == LF && !afterCr then [CR, LF] else [s[0]]) + CrLf(s[1..], s[0] == CR)
  }

  /** The server side of the same filter gets the console's text back, with each
      bare LF as CR LF and no option command in between. */
  lemma {:induction false} NvtRoundTrip(f: Filter, s: seq<Octet>, afterCr: bool)
    requires f.mode.Plain?
    ensures Filtered(f, Nvt(s, afterCr)) == Output(f, CrLf(s, afterCr), [])
  {
    if s != [] {
      NvtRoundTrip(f, s[1..], s[0] == CR);
      FilteredAppend(f, Enc(s[0], afterCr), Nvt(s[1..], s[0] == CR));
      HeadPasses(f, s[0], afterCr);
    }
  }

  lemma HeadPasses(f: Filter, c: Octet, afterCr: bool)
    requires f.mode.Plain?
    ensures Filtered(f, Enc(c, afterCr)) == Output(f, if c == LF && !afterCr then [CR, LF] else [c], [])
  {
    OneOctet(f, c);
    TwoOctets(f, CR, LF);
    TwoOctets(f, IAC, IAC);
  }

  lemma OneOctet(f: Filter, c: Octet)
    ensures Filtered(f, [c]) == Feed(f, c)
  {
    assert [c][1..] == [];
  }

  lemma TwoOctets(f: Filter, a: Octet, b: Octet)
    ensures var x := Feed(f, a); var y := Feed(x.f, b);
            Filtered(f, [a, b]) == Output(y.f, x.data + y.data, x.sent + y.sent)
  {
    assert [a, b][1..] == [b];
    OneOctet(Feed(f, a).f, b);
  }

  /** No LF goes out without its CR. */
  lemma {:induction false} NoBareLf(s: seq<Octet>, afterCr: bool, k: nat)
    requires k < |CrLf(s, afterCr)| && CrLf(s, afterCr)[k] == LF
    ensures if k == 0 then afterCr else CrLf(s, afterCr)[k - 1] == CR
  {
    var head := if s[0] == LF && !afterCr then [CR, LF] else [s[0]];
    var tail := CrLf(s[1..], s[0] == CR);
    assert CrLf(s, afterCr) == head + tail;
    if k >= |head| { NoBareLf(s[1..], s[0] == CR, k - |head|); }
  }

  lemma {:induction false} NvtAppend(s: seq<Octet>, t: seq<Octet>, afterCr: bool)
    ensures Nvt(s + t, afterCr) == Nvt(s, afterCr) + Nvt(t, if s == [] then afterCr else s[|s| - 1] == CR)
  {
    hide Enc, Nvt;
    if s == [] {
      assert s + t == t;
      NvtEmpty(afterCr);
    } else {
      NvtAppend(s[1..], t, s[0] == CR);
      assert (s + t)[1..] == s[1..] + t;
      NvtHead(s + t, afterCr);
      NvtHead(s, afterCr);
      if |s| == 1 { NvtEmpty(s[0] == CR); }
    }
  }

  lemma NvtEmpty(afterCr: bool)
    ensures Nvt([], afterCr) == []
  {
  }

  lemma NvtHead(s: seq<Octet>, afterCr: bool)
    requires s != []
    ensures Nvt(s, afterCr) == Enc(s[0], afterCr) + Nvt(s[1..], s[0] == CR)
  {
  }

  /** Encoding a text buffer by buffer gives the encoding of the whole text if
      and only if no CR LF is cut in two. */
  lemma NvtSplit(s: seq<Octet>, t: seq<Octet>)
    ensures Nvt(s + t, false) == Nvt(s, false) + Nvt(t, false) <==>
              !(s != [] && s[|s| - 1] == CR && t != [] && t[0] == LF)
  {
    NvtAppend(s, t, false);
    if s != [] && s[|s| - 1] == CR && t != [] {
      var u := Nvt(t[1..], t[0] == CR);
      if t[0] == LF {
        assert Nvt(t, true) == [LF] + u && Nvt(t, false) == [CR, LF] + u;
        assert |Nvt(s + t, false)| < |Nvt(s, false) + Nvt(t, false)|;
      } else {
        assert Nvt(t, true) == Nvt(t, false);
      }
    }
  }

  /** The encoder: the output never needs more than twice the room. */
  method ToNvt(input: array<Octet>, n: nat, out: array<Octet>) returns (o: nat)
    requires n <= input.Length && 2 * n <= out.Length && input != out
    modifies out
    ensures o <= 2 * n && out[..o] == Nvt(input[..n], false)
  {
    hide Nvt;
    o := 0;
    var i := 0;
    ghost var s := input[..n];
    NvtNone();
    while i < n
      invariant 0 <= i <= n && o <= 2 * i && out[..o] == Nvt(s[..i], false)
    {
      var c := input[i];
      NvtNext(s, i);
      ghost var before := out[..o];
      if c == LF && (i == 0 || input[i - 1] != CR) {
        out[o] := CR;
        o := o + 1;
      } else if c == IAC {
        out[o] := IAC;
        o := o + 1;
      }
      out[o] := c;
      o := o + 1;
      assert out[..o] == before + Enc(c, i > 0 && input[i - 1] == CR);
      i := i + 1;
    }
    assert s[..n] == s;
  }

  lemma NvtNone()
    ensures Nvt([], false) == []
  {
  }

  lemma NvtNext(s: seq<Octet>, i: nat)
    requires i < |s|
    ensures Nvt(s[..i + 1], false) == Nvt(s[..i], false) + Enc(s[i], i > 0 && s[i - 1] == CR)
  {
    hide Enc;
    NvtAppend(s[..i], [s[i]], false);
    NvtOne(s[i], i > 0 && s[i - 1] == CR);
    assert s[..i + 1] == s[..i] + [s[i]];
  }

  lemma NvtOne(c: Octet, afterCr: bool)
    ensures Nvt([c], afterCr) == Enc(c, afterCr)
  {
    assert [c][1..] == [];
    assert Nvt([], c == CR) == [];
  }

  // ------------------------------------------------------------- session

  /** The state of the receiving side; `sent` is what it answered. */
  class Session {
    const him: array<Him>
    var mode: Mode
    var cmd: Octet
    var sent: seq<Command>

    /** A new connection: the two options we asked for are on their way. */
    constructor ()
      ensures Valid() && fresh(him) && sent == [Command(DO, 1), Command(DO, 3)]
      ensures View() == Filter(Plain, 0, seq(256, i => if i == 1 || i == 3 then WantYes else No))
    {
      him := new Him[256](i => if i == 1 || i == 3 then WantYes else No);
      mode, cmd, sent := Plain, 0, [Command(DO, 1), Command(DO, 3)];
    }

    ghost predicate Valid() { him.Length == 256 }

    ghost function View(): Filter
      requires Valid()
      reads this, him
    {
      Filter(mode, cmd, him[..])
    }

    /** Handles one option command. */
    method HandleOption(opt: Octet)
      requires Valid()
      modifies him, this`sent
      ensures var (h, a) := Answer(old(him[opt]), Command(cmd, opt));
              him[..] == old(him[..])[opt := h] && sent == old(sent) + a
    {
      if cmd == WILL {
        if him[opt].WantYes? {
          him[opt] := Yes;
        } else if him[opt].No? {
          if Wanted(opt) {
            him[opt] := Yes;
            sent := sent + [Command(DO, opt)];
          } else {
            sent := sent + [Command(DONT, opt)];
          }
        }
      } else if cmd == WONT {
        if him[opt].Yes? {
          him[opt] := No;
          sent := sent + [Command(DONT, opt)];
        } else if him[opt].WantYes? {
          him[opt] := No;
        }
      } else if cmd == DO {
        sent := sent + [Command(WONT, opt)];
      }
    }

    /** One octet of input; true when it is data. */
    method Next(c: Octet) returns (keep: bool)
      requires Valid()
      modifies this, him
      ensures var r := Feed(old(View()), c);
              View() == r.f && sent == old(sent) + r.sent && r.data == (if keep then [c] else [])
    {
      keep := false;
      match mode {
        case Plain => if c == IAC { mode := AfterIac; } else { keep := true; }
        case AfterIac =>
          if c == IAC {
            keep, mode := true, Plain;
          } else if c == SB {
            mode := InSb;
          } else if IsOption(c) {
            cmd, mode := c, AfterCmd;
          } else {
            mode := Plain;
          }
        case AfterCmd =>
          HandleOption(c);
          mode := Plain;
        case InSb => if c == IAC { mode := SbIac; }
        case SbIac => mode := if c == SE then Plain else InSb;
      }
    }

    /** Filters what was received within its own buffer: the data ends up in
        front, and no octet is overwritten before it has been read. */
    method Compact(rx: array<Octet>, got: nat) returns (w: nat)
      requires Valid() && got <= rx.Length
      modifies this, him, rx
      ensures w <= got
      ensures var r := Filtered(old(View()), old(rx[..got]));
              View() == r.f && sent == old(sent) + r.sent && rx[..w] == r.data
      ensures rx[got..] == old(rx[got..])
    {
      hide Feed, Filtered;
      FilteredNone(View());
      w := 0;
      var i := 0;
      ghost var input, start := rx[..got], View();
      while i < got
        invariant w <= i <= got && forall k :: i <= k < rx.Length ==> rx[k] == old(rx[k])
        invariant var r := Filtered(start, input[..i]); View() == r.f && sent == old(sent) + r.sent && rx[..w] == r.data
      {
        var c := rx[i];
        assert c == input[i];
        FilteredNext(start, input, i);
        var keep := Next(c);
        if keep {
          rx[w] := c;
          w := w + 1;
          assert rx[..w] == rx[..w - 1] + [c];
        }
        i := i + 1;
      }
      assert input[..got] == input;
      assert rx[got..] == old(rx[got..]);
    }
  }

  lemma FilteredNone(f: Filter)
    ensures Filtered(f, []) == Output(f, [], [])
  {
  }

  lemma FilteredNext(f: Filter, s: seq<Octet>, i: nat)
    requires i < |s|
    ensures var a := Filtered(f, s[..i]); var b := Feed(a.f, s[i]);
            Filtered(f, s[..i + 1]) == Output(b.f, a.data + b.data, a.sent + b.sent)
  {
    hide Feed;
    FilteredAppend(f, s[..i], [s[i]]);
    OneOctet(Filtered(f, s[..i]).f, s[i]);
    assert s[..i + 1] == s[..i] + [s[i]];
  }

  // ---------------------------------------------------------- negotiation

  /** Two ends of this kind and the option commands in flight between them. */
  datatype Talk = Talk(a: Options, b: Options, toA: seq<Command>, toB: seq<Command>)

  /** A command can draw an answer of a lower rank only. */
  function Rank(c: Command): nat {
    if c.cmd == WILL then 4 else if c.cmd == DO then 3 else if c.cmd == WONT then 2 else 1
  }

  function Weight(q: seq<Command>): nat {
    if q == [] then 0 else Rank(q[0]) + Weight(q[1..])
  }

  lemma {:induction false} WeightAppend(p: seq<Command>, q: seq<Command>)
    ensures Weight(p + q) == Weight(p) + Weight(q)
  {
    if p == [] {
      assert p + q == q;
    } else {
      assert (p + q)[1..] == p[1..] + q;
      WeightAppend(p[1..], q);
    }
  }

  /** The next command reaches A, or B. */
  function Receive(t: Talk, atA: bool): Talk
    requires if atA then t.toA != [] else t.toB != []
  {
    if atA then
      var c := t.toA[0];
      var (h, r) := Answer(t.a[c.opt], c);
      Talk(t.a[c.opt := h], t.b, t.toA[1..], t.toB + r)
    else
      var c := t.toB[0];
      var (h, r) := Answer(t.b[c.opt], c);
      Talk(t.a, t.b[c.opt := h], t.toA + r, t.toB[1..])
  }

  lemma ReceiveSheds(t: Talk, atA: bool)
    requires if atA then t.toA != [] else t.toB != []
    ensures var n := Receive(t, atA); Weight(n.toA) + Weight(n.toB) < Weight(t.toA) + Weight(t.toB)
  {
    if atA {
      var (_, r) := Answer(t.a[t.toA[0].opt], t.toA[0]);
      WeightAppend(t.toB, r);
      AnswerWeight(t.a[t.toA[0].opt], t.toA[0]);
    } else {
      var (_, r) := Answer(t.b[t.toB[0].opt], t.toB[0]);
      WeightAppend(t.toA, r);
      AnswerWeight(t.b[t.toB[0].opt], t.toB[0]);
    }
  }

  lemma AnswerWeight(him: Him, c: Command)
    ensures Weight(Answer(him, c).1) < Rank(c)
  {
  }

  /** Deliveries in the order of `turns` (true for A) are possible from `t`. */
  predicate Possible(t: Talk, turns: seq<bool>)
    decreases |turns|
  {
    turns == [] || ((if turns[0] then t.toA != [] else t.toB != []) && Possible(Receive(t, turns[0]), turns[1..]))
  }

  /** Two ends of this kind cannot answer each other for ever: however the
      commands cross, there are no more deliveries than the weight in flight. */
  lemma {:induction false} NegotiationEnds(t: Talk, turns: seq<bool>)
    requires Possible(t, turns)
    ensures |turns| <= Weight(t.toA) + Weight(t.toB)
    decreases |turns|
  {
    if turns != [] {
      ReceiveSheds(t, turns[0]);
      NegotiationEnds(Receive(t, turns[0]), turns[1..]);
    }
  }
}
