/** Masked passphrase editing: the edit hook that keeps a hidden text in step
    with a string gadget that only ever holds asterisks. */
module Masked {

  const NUL := '\0'
  const CAP: nat := 63

  /** The edit operations the hook tells apart; Other is any of the rest. */
  datatype EditOp = Undo | Reset | ReplaceChar | Other

  /** What the gadget is about to do: its old text, its new text and cursor, and
      whether it means to use them. */
  datatype Proposal = Proposal(op: EditOp, prev: string, work: string, pos: int, use: bool)

  /** What the hook leaves: the hidden text and the proposal as changed. */
  datatype Verdict = Verdict(hidden: string, work: string, pos: int, use: bool, beep: bool)

  predicate Printable(c: char) { c as int >= 32 && c as int != 127 && c != '\"' }

  predicate AllPrintable(s: string) { forall i :: 0 <= i < |s| ==> Printable(s[i]) }

  function Stars(n: nat): (s: string)
    ensures |s| == n && forall i :: 0 <= i < n ==> s[i] == '*'
  {
    seq(n, _ => '*')
  }

  function Reject(hidden: string, p: Proposal): Verdict {
    Verdict(hidden, p.work, p.pos, false, true)
  }

  /** The hook on a used key press of a masked gadget. */
  function Judge(hidden: string, p: Proposal): (v: Verdict) {
    var was, now, pos := |p.prev|, |p.work|, p.pos;
    if was != |hidden| then Verdict("", "", 0, p.use, false)
    else if p.op.Undo? || p.op.Reset? then Reject(hidden, p)
    else if now > was then
      var k := now - was;
      if now > CAP || pos < k || pos > now || !AllPrintable(p.work[pos - k..pos]) then Reject(hidden, p)
      else
        Verdict(hidden[..pos - k] + p.work[pos - k..pos] + hidden[pos - k..],
                p.work[..pos - k] + Stars(k) + p.work[pos..], pos, p.use, false)
    else if now < was then
      var k := was - now;
      if pos < 0 || pos + k > was then Reject(hidden, p)
      else Verdict(hidden[..pos] + hidden[pos + k..], p.work, pos, p.use, false)
    else if p.op.ReplaceChar? then
      if pos < 1 || pos > now || !Printable(p.work[pos - 1]) then Reject(hidden, p)
      else Verdict(hidden[pos - 1 := p.work[pos - 1]], p.work[pos - 1 := '*'], pos, p.use, false)
    else if p.work != Stars(now) then Reject(hidden, p)
    else Verdict(hidden, p.work, pos, p.use, false)
  }

  // ---------------------------------------------------------- the gadget

  /** The hidden text, and the masked gadget's text and cursor. */
  datatype State = State(hidden: string, shown: string, cursor: nat)

  /** What the user can do to a string gadget. Undo and Reset bring back some
      earlier gadget text; Rewrite is any other change of the same length;
      Discard is an edit that the gadget itself gives up. */
  datatype Action =
    | Type(text: string) | DeleteBack(n: nat) | DeleteForward(n: nat) | Clear | Overwrite(c: char)
    | MoveTo(to: nat) | UndoTo(text: string, to: nat) | ResetTo(text: string, to: nat) | Rewrite(text: string, to: nat)
    | Discard(text: string, to: nat)

  /** The gadget offers an action only where it makes sense. */
  predicate Possible(a: Action, len: nat, cursor: nat) {
    match a
    case Type(text) => text != []
    case DeleteBack(n) => 0 < n <= cursor
    case DeleteForward(n) => 0 < n <= len - cursor
    case Clear => len > 0
    case Overwrite(_) => cursor < len
    case MoveTo(to) => to <= len
    case Rewrite(text, _) => |text| == len && text != Stars(len)
    case _ => true
  }

  /** The text and cursor after an action on a gadget that shows `text`. */
  function Edit(a: Action, text: string, cursor: nat): (string, nat)
    requires cursor <= |text| && Possible(a, |text|, cursor)
  {
    match a
    case Type(t) => (text[..cursor] + t + text[cursor..], cursor + |t|)
    case DeleteBack(n) => (text[..cursor - n] + text[cursor..], cursor - n)
    case DeleteForward(n) => (text[..cursor] + text[cursor + n..], cursor)
    case Clear => ("", 0)
    case Overwrite(c) => (text[cursor := c], cursor + 1)
    case MoveTo(to) => (text, to)
    case UndoTo(t, to) => (t, to)
    case ResetTo(t, to) => (t, to)
    case Rewrite(t, to) => (t, to)
    case Discard(t, to) => (t, to)
  }

  function Kind(a: Action): EditOp {
    if a.UndoTo? then Undo else if a.ResetTo? then Reset else if a.Overwrite? then ReplaceChar else Other
  }

  /** One key press: the gadget proposes, the hook judges, and the gadget takes
      what is still marked for use. The hook leaves alone what the gadget does
      not mean to use. */
  function Press(s: State, a: Action): (n: State)
    requires s.cursor <= |s.shown| && Possible(a, |s.shown|, s.cursor)
  {
    var (work, to) := Edit(a, s.shown, s.cursor);
    if a.Discard? then s
    else
      var v := Judge(s.hidden, Proposal(Kind(a), s.shown, work, to, true));
      if v.use && v.pos >= 0 then State(v.hidden, v.work, v.pos) else s.(hidden := v.hidden)
  }

  // ------------------------------------------------------ the refinement

  /** An ordinary, unmasked text field. */
  datatype Plain = Plain(text: string, cursor: nat)

  /** The actions that masked editing supports. */
  predicate Accepted(a: Action, text: string) {
    match a
    case Type(t) => |text| + |t| <= CAP && AllPrintable(t)
    case Overwrite(c) => Printable(c)
    case DeleteBack(_) => true
    case DeleteForward(_) => true
    case Clear => true
    case MoveTo(_) => true
    case _ => false
  }

  function PlainPress(p: Plain, a: Action): (n: Plain)
    requires p.cursor <= |p.text| && Possible(a, |p.text|, p.cursor)
    ensures n.cursor <= |n.text|
    ensures |p.text| <= CAP ==> |n.text| <= CAP
    ensures AllPrintable(p.text) ==> AllPrintable(n.text)
  {
    if Accepted(a, p.text) then var (t, to) := Edit(a, p.text, p.cursor); Plain(t, to) else p
  }

  ghost predicate Refines(s: State, p: Plain) {
    s.hidden == p.text && s.cursor == p.cursor <= |p.text| && s.shown == Stars(|p.text|)
  }

  lemma StarsUnique(s: string)
    requires forall i :: 0 <= i < |s| ==> s[i] == '*'
    ensures s == Stars(|s|)
  {
  }

  /** What a typed text does to the three parts. */
  lemma TypePressed(s: State, p: Plain, t: string)
    requires Refines(s, p) && t != []
    ensures var c := s.cursor;
            Press(s, Type(t))
            == if !Accepted(Type(t), p.text) then s
               else State(s.hidden[..c] + t + s.hidden[c..], s.shown[..c] + Stars(|t|) + s.shown[c..], c + |t|)
  {
    hide Judge, AllPrintable;
    var c := s.cursor;
    var work := s.shown[..c] + t + s.shown[c..];
    assert work[c..c + |t|] == t;
    assert work[..c] == s.shown[..c];
    assert work[c + |t|..] == s.shown[c..];
    JudgeInserts(s.hidden, Proposal(Other, s.shown, work, c + |t|, true), |t|);
  }

  lemma TypeRefines(s: State, p: Plain, t: string)
    requires Refines(s, p) && t != []
    ensures Refines(Press(s, Type(t)), PlainPress(p, Type(t)))
    ensures !Accepted(Type(t), p.text) ==> Press(s, Type(t)) == s
  {
    hide Press, AllPrintable;
    TypePressed(s, p, t);
    var c := s.cursor;
    if Accepted(Type(t), p.text) { StarsUnique(s.shown[..c] + Stars(|t|) + s.shown[c..]); }
  }

  lemma DeleteRefines(s: State, p: Plain, a: Action)
    requires Refines(s, p) && Possible(a, |p.text|, p.cursor) && (a.DeleteBack? || a.DeleteForward? || a.Clear?)
    ensures Refines(Press(s, a), PlainPress(p, a))
  {
    match a
    case DeleteBack(n) => BackRefines(s, p, n);
    case DeleteForward(n) => ForwardRefines(s, p, n);
    case _ => ClearRefines(s, p);
  }

  /** What the hook does with a shorter text of asterisks. */
  lemma JudgeRemoves(hidden: string, op: EditOp, k: nat, pos: nat)
    requires op.Other? && 0 < k && pos + k <= |hidden|
    ensures Judge(hidden, Proposal(op, Stars(|hidden|), Stars(|hidden| - k), pos, true))
            == Verdict(hidden[..pos] + hidden[pos + k..], Stars(|hidden| - k), pos, true, false)
  {
  }

  lemma BackRefines(s: State, p: Plain, n: nat)
    requires Refines(s, p) && 0 < n <= p.cursor
    ensures Refines(Press(s, DeleteBack(n)), PlainPress(p, DeleteBack(n)))
  {
    hide Judge;
    var c := s.cursor;
    StarsUnique(s.shown[..c - n] + s.shown[c..]);
    JudgeRemoves(s.hidden, Other, n, c - n);
  }

  lemma ForwardRefines(s: State, p: Plain, n: nat)
    requires Refines(s, p) && 0 < n <= |p.text| - p.cursor
    ensures Refines(Press(s, DeleteForward(n)), PlainPress(p, DeleteForward(n)))
  {
    hide Judge;
    var c := s.cursor;
    StarsUnique(s.shown[..c] + s.shown[c + n..]);
    JudgeRemoves(s.hidden, Other, n, c);
  }

  lemma ClearRefines(s: State, p: Plain)
    requires Refines(s, p) && |p.text| > 0
    ensures Refines(Press(s, Clear), PlainPress(p, Clear))
  {
    hide Judge;
    StarsUnique("");
    JudgeRemoves(s.hidden, Other, |p.text|, 0);
  }

  lemma OverwriteRefines(s: State, p: Plain, c: char)
    requires Refines(s, p) && p.cursor < |p.text|
    ensures Refines(Press(s, Overwrite(c)), PlainPress(p, Overwrite(c)))
    ensures !Accepted(Overwrite(c), p.text) ==> Press(s, Overwrite(c)) == s
  {
    StarsUnique(s.shown[s.cursor := c][s.cursor := '*']);
  }

  /** One key press: in step before, in step after, and a refused one changes nothing. */
  lemma PressRefines(s: State, p: Plain, a: Action)
    requires Refines(s, p) && Possible(a, |p.text|, p.cursor)
    ensures Refines(Press(s, a), PlainPress(p, a))
    ensures !Accepted(a, p.text) ==> Press(s, a) == s
  {
    match a
    case Type(t) => TypeRefines(s, p, t);
    case Overwrite(c) => OverwriteRefines(s, p, c);
    case DeleteBack(_) => DeleteRefines(s, p, a);
    case DeleteForward(_) => DeleteRefines(s, p, a);
    case Clear => DeleteRefines(s, p, a);
    case _ =>
  }

  /** A session that a text field with the given text could see. */
  predicate Session(p: Plain, actions: seq<Action>)
    requires p.cursor <= |p.text|
    decreases |actions|
  {
    actions == [] || (Possible(actions[0], |p.text|, p.cursor) && Session(PlainPress(p, actions[0]), actions[1..]))
  }

  function PlainRun(p: Plain, actions: seq<Action>): (n: Plain)
    requires p.cursor <= |p.text| && Session(p, actions)
    ensures n.cursor <= |n.text|
    ensures |p.text| <= CAP ==> |n.text| <= CAP
    ensures AllPrintable(p.text) ==> AllPrintable(n.text)
    decreases |actions|
  {
    if actions == [] then p else PlainRun(PlainPress(p, actions[0]), actions[1..])
  }

  /** The states that the masked gadget goes through. */
  ghost predicate Trace(states: seq<State>, actions: seq<Action>) {
    && |states| == |actions| + 1
    && forall i :: 0 <= i < |actions| ==>
         states[i].cursor <= |states[i].shown| && Possible(actions[i], |states[i].shown|, states[i].cursor)
         && states[i + 1] == Press(states[i], actions[i])
  }

  /** Over a whole session the hidden text is what a plain field holds that
      applies just the accepted actions, the gadget shows as many asterisks, and
      the two never get out of step: the hook's recovery branch is dead. */
  lemma {:induction false} MaskedEditing(states: seq<State>, actions: seq<Action>, p: Plain)
    requires Trace(states, actions) && Refines(states[0], p)
    ensures Session(p, actions) && Refines(states[|actions|], PlainRun(p, actions))
    ensures forall i :: 0 <= i <= |actions| ==> |states[i].shown| == |states[i].hidden|
  {
    if actions != [] {
      PressRefines(states[0], p, actions[0]);
      MaskedEditing(states[1..], actions[1..], PlainPress(p, actions[0]));
      forall i | 0 <= i <= |actions| ensures |states[i].shown| == |states[i].hidden| {
        if i > 0 { assert states[i] == states[1..][i - 1]; }
      }
    }
  }

  /** Verdict on a proposal that the gadget may not even mean to use. */
  function Ruling(hidden: string, p: Proposal): Verdict {
    if p.use then Judge(hidden, p) else Verdict(hidden, p.work, p.pos, false, false)
  }

  // ----------------------------------------------------- any gadget at all

  /** What the gadget puts forward outside the part that the hook covers: the
      inserted characters, or the one that is replaced. */
  predicate OthersMasked(p: Proposal) {
    var k := |p.work| - |p.prev|;
    forall i :: 0 <= i < |p.work| ==>
      p.work[i] == '*' || (if k > 0 then p.pos - k <= i < p.pos else k == 0 && p.op.ReplaceChar? && i == p.pos - 1)
  }

  /** Whatever a gadget proposes from a text as long as the hidden one: what it
      may use is again as long as the hidden text, a refusal changes nothing, and
      what it may use is all asterisks if and only if the rest of it was. */
  lemma RulingInStep(hidden: string, p: Proposal)
    requires |p.prev| == |hidden|
    ensures var v := Ruling(hidden, p);
            && (if v.use then |v.work| == |v.hidden| && p.use && !v.beep else v.hidden == hidden && v.beep == p.use)
            && (v.use ==> (v.work == Stars(|v.work|) <==> OthersMasked(p)))
            && (|hidden| <= CAP ==> |v.hidden| <= CAP) && (AllPrintable(hidden) ==> AllPrintable(v.hidden))
  {
    hide Judge, AllPrintable, OthersMasked, Ruling;
    LengthsInStep(hidden, p);
    RulingPrintable(hidden, p);
    var v := Ruling(hidden, p);
    if v.use {
      MaskedIs(hidden, p);
      AllStars(v.work);
    }
  }

  lemma LengthsInStep(hidden: string, p: Proposal)
    requires |p.prev| == |hidden|
    ensures var v := Ruling(hidden, p);
            && (if v.use then |v.work| == |v.hidden| && p.use && !v.beep else v.hidden == hidden && v.beep == p.use)
            && (|hidden| <= CAP ==> |v.hidden| <= CAP)
  {
    hide AllPrintable;
  }

  lemma RulingPrintable(hidden: string, p: Proposal)
    requires |p.prev| == |hidden|
    ensures AllPrintable(hidden) ==> AllPrintable(Ruling(hidden, p).hidden)
  {
    if AllPrintable(hidden) {
      var k := |p.work| - |p.prev|;
      if 0 < k <= p.pos <= |p.work| { PrintableInsert(hidden, p.work[p.pos - k..p.pos], p.pos - k); }
    }
  }

  lemma PrintableInsert(a: string, t: string, at: nat)
    requires at <= |a| && AllPrintable(a)
    ensures AllPrintable(t) ==> AllPrintable(a[..at] + t + a[at..])
  {
  }

  lemma AllStars(w: string)
    ensures w == Stars(|w|) <==> forall i :: 0 <= i < |w| ==> w[i] == '*'
  {
    if forall i :: 0 <= i < |w| ==> w[i] == '*' { StarsUnique(w); }
  }

  /** Where the text that is left for use differs from an asterisk. */
  lemma MaskedIs(hidden: string, p: Proposal)
    requires |p.prev| == |hidden| && Ruling(hidden, p).use
    ensures var v := Ruling(hidden, p);
            |v.work| == |p.work| && ((forall i :: 0 <= i < |v.work| ==> v.work[i] == '*') <==> OthersMasked(p))
  {
    var v := Ruling(hidden, p);
    var k := |p.work| - |p.prev|;
    if k > 0 {
      assert forall i :: 0 <= i < |v.work| ==> v.work[i] == if p.pos - k <= i < p.pos then '*' else p.work[i];
    } else if k == 0 && p.op.ReplaceChar? {
      assert forall i :: 0 <= i < |v.work| ==> v.work[i] == if i == p.pos - 1 then '*' else p.work[i];
    } else {
      assert v.work == p.work;
    }
  }

  /** The hidden text and the one on show, under any proposals of any gadget
      that starts each of them from what it shows. */
  datatype Pair = Pair(hidden: string, shown: string)

  function Take(s: Pair, p: Proposal): Pair {
    var v := Ruling(s.hidden, p);
    Pair(v.hidden, if v.use then v.work else s.shown)
  }

  predicate Driven(pairs: seq<Pair>, ps: seq<Proposal>) {
    && |pairs| == |ps| + 1
    && forall i :: 0 <= i < |ps| ==> ps[i].prev == pairs[i].shown && pairs[i + 1] == Take(pairs[i], ps[i])
  }

  /** No proposal ever leads to the hook's recovery branch: the two texts have
      the same length in every state of every run. */
  lemma {:induction false} NeverOutOfStep(pairs: seq<Pair>, ps: seq<Proposal>, i: nat)
    requires Driven(pairs, ps) && |pairs[0].shown| == |pairs[0].hidden| <= CAP && AllPrintable(pairs[0].hidden)
    requires i <= |ps|
    ensures |pairs[i].shown| == |pairs[i].hidden| <= CAP && AllPrintable(pairs[i].hidden)
  {
    hide Judge, AllPrintable;
    if i > 0 {
      NeverOutOfStep(pairs, ps, i - 1);
      RulingInStep(pairs[i - 1].hidden, ps[i - 1]);
    }
  }

  predicate Starred(s: Pair) { s.shown == Stars(|s.hidden|) }

  /** The proposal is refused, or its text outside the covered part is masked. */
  predicate Discreet(s: Pair, p: Proposal) { Ruling(s.hidden, p).use ==> OthersMasked(p) }

  lemma StepStarred(s: Pair, p: Proposal)
    requires p.prev == s.shown && Starred(s)
    ensures Starred(Take(s, p)) <==> Discreet(s, p)
  {
    hide Judge, OthersMasked;
    RulingInStep(s.hidden, p);
  }

  /** The gadget shows nothing but asterisks throughout if and only if every
      proposal that the hook lets through had them outside the covered part. */
  lemma {:induction false} AlwaysMasked(pairs: seq<Pair>, ps: seq<Proposal>)
    requires Driven(pairs, ps) && Starred(pairs[0])
    ensures (forall i :: 0 <= i < |pairs| ==> Starred(pairs[i])) <==>
              (forall i :: 0 <= i < |ps| ==> Discreet(pairs[i], ps[i]))
    decreases |ps|
  {
    hide Take, Starred, Discreet;
    if ps != [] {
      var pairs', ps' := pairs[1..], ps[1..];
      StepStarred(pairs[0], ps[0]);
      assert pairs[1] == Take(pairs[0], ps[0]) && pairs'[0] == pairs[1];
      if Starred(pairs[1]) {
        AlwaysMasked(pairs', ps');
        assert forall i :: 0 <= i < |pairs'| ==> pairs'[i] == pairs[i + 1];
        assert forall i :: 0 <= i < |ps'| ==> ps'[i] == ps[i + 1];
        if forall i :: 0 <= i < |ps| ==> Discreet(pairs[i], ps[i]) {
          forall i | 0 <= i < |ps'| ensures Discreet(pairs'[i], ps'[i]) { assert Discreet(pairs[i + 1], ps[i + 1]); }
          forall i | 0 <= i < |pairs| ensures Starred(pairs[i]) { if i > 0 { assert Starred(pairs'[i - 1]); } }
        }
        if forall i :: 0 <= i < |pairs| ==> Starred(pairs[i]) {
          forall i | 0 <= i < |pairs'| ensures Starred(pairs'[i]) { assert Starred(pairs[i + 1]); }
          forall i | 0 <= i < |ps| ensures Discreet(pairs[i],
                                                    ps[i]) { if i > 0 { assert Discreet(pairs'[i - 1], ps'[i - 1]); } }
        }
      }
    }
  }

  // ------------------------------------------------------------ the hook

  /** C's strlen: the characters before the first NUL. */
  function StrLen(s: string): (n: nat)
    ensures n <= |s|
    ensures forall i :: 0 <= i < n ==> s[i] != NUL
    ensures n < |s| ==> s[n] == NUL
  {
    if s == [] || s[0] == NUL then 0 else 1 + StrLen(s[1..])
  }

  lemma StrLenIs(s: string, n: nat)
    requires n < |s| && s[n] == NUL && forall i :: 0 <= i < n ==> s[i] != NUL
    ensures StrLen(s) == n
  {
  }

  /** The gadget's work area as the hook sees it. */
  class Work {
    const prev: string
    const op: EditOp
    const buffer: array<char>
    var numChars: nat
    var bufferPos: int
    var use: bool
    var beep: bool

    constructor (op: EditOp, prev: string, buffer: array<char>, numChars: nat, pos: int, use: bool)
      ensures this.prev == prev && this.op == op && this.buffer == buffer && this.numChars == numChars
      ensures bufferPos == pos && this.use == use && !beep
    {
      this.prev, this.op, this.buffer, this.numChars := prev, op, buffer, numChars;
      bufferPos, this.use, beep := pos, use, false;
    }

    ghost predicate Valid()
      reads this
    {
      numChars < buffer.Length
    }

    ghost function View(): Proposal
      requires Valid()
      reads this, buffer
    {
      Proposal(op, prev, buffer[..numChars], bufferPos, use)
    }

    method Refuse()
      modifies this`use, this`beep
      ensures !use && beep
    {
      use, beep := false, true;
    }
  }

  /** Moves `n` characters to a lower place, from the front. */
  method MoveDown(a: array<char>, dst: nat, src: nat, n: nat)
    requires dst <= src && src + n <= a.Length
    modifies a
    ensures forall k :: dst <= k < dst + n ==> a[k] == old(a[k + src - dst])
    ensures forall k :: (0 <= k < dst || dst + n <= k < a.Length) ==> a[k] == old(a[k])
  {
    var i := 0;
    while i < n
      invariant 0 <= i <= n
      invariant forall k :: dst <= k < dst + i ==> a[k] == old(a[k + src - dst])
      invariant forall k :: (0 <= k < dst || dst + i <= k < a.Length) ==> a[k] == old(a[k])
    {
      a[dst + i] := a[src + i];
      i := i + 1;
    }
  }

  /** Moves `n` characters to a higher place, from the back. */
  method MoveUp(a: array<char>, dst: nat, src: nat, n: nat)
    requires src <= dst && dst + n <= a.Length
    modifies a
    ensures forall k :: dst <= k < dst + n ==> a[k] == old(a[k + src - dst])
    ensures forall k :: (0 <= k < dst || dst + n <= k < a.Length) ==> a[k] == old(a[k])
  {
    var i := n;
    while i > 0
      invariant 0 <= i <= n
      invariant forall k :: dst + i <= k < dst + n ==> a[k] == old(a[k + src - dst])
      invariant forall k :: (0 <= k < dst + i || dst + n <= k < a.Length) ==> a[k] == old(a[k])
    {
      i := i - 1;
      a[dst + i] := a[src + i];
    }
  }

  /** C's memmove: the source as it was, whatever the overlap. */
  method MemMove(a: array<char>, dst: nat, src: nat, n: nat)
    requires dst + n <= a.Length && src + n <= a.Length
    modifies a
    ensures a[..dst] == old(a[..dst])
    ensures a[dst..dst + n] == old(a[src..src + n])
    ensures a[dst + n..] == old(a[dst + n..])
  {
    if dst <= src { MoveDown(a, dst, src, n); } else { MoveUp(a, dst, src, n); }
  }

  /** The text a NUL-terminated buffer holds. */
  function Held(s: string): (t: string) { s[..StrLen(s)] }

  lemma HeldIs(s: string, t: string)
    requires |t| < |s| && s[..|t|] == t && s[|t|] == NUL && forall i :: 0 <= i < |t| ==> t[i] != NUL
    ensures Held(s) == t
  {
    assert forall i :: 0 <= i < |t| ==> s[i] == t[i];
    StrLenIs(s, |t|);
  }

  ghost predicate Terminated(a: array<char>)
    reads a
  {
    a.Length == CAP + 1 && StrLen(a[..]) <= CAP
  }

  method Length(a: array<char>) returns (n: nat)
    requires Terminated(a)
    ensures n == StrLen(a[..]) <= CAP
  {
    n := 0;
    while a[n] != NUL
      invariant n < a.Length && forall i :: 0 <= i < n ==> a[i] != NUL
      invariant n <= StrLen(a[..])
      decreases a.Length - n
    {
      assert a[..][StrLen(a[..])] == NUL;
      n := n + 1;
    }
    StrLenIs(a[..], n);
  }

  /** True when every typed character may stand in a passphrase. */
  method Allowed(a: array<char>, from: nat, to: nat) returns (ok: bool)
    requires from <= to <= a.Length
    ensures ok == AllPrintable(a[from..to])
  {
    var i := from;
    while i < to
      invariant from <= i <= to && AllPrintable(a[from..i])
    {
      if !Printable(a[i]) {
        assert a[from..to][i - from] == a[i];
        return false;
      }
      assert a[from..i + 1] == a[from..i] + [a[i]];
      i := i + 1;
    }
    return true;
  }

  /** Copies the typed characters into the gap and covers them. */
  method Cover(secret: array<char>, buffer: array<char>, from: nat, to: nat)
    requires from <= to <= buffer.Length && to <= secret.Length && secret != buffer
    modifies secret, buffer
    ensures secret[..from] == old(secret[..from]) && secret[from..to] == old(buffer[from..to])
    ensures secret[to..] == old(secret[to..])
    ensures buffer[..from] == old(buffer[..from]) && buffer[from..to] == Stars(to - from)
    ensures buffer[to..] == old(buffer[to..])
  {
    var i := from;
    while i < to
      invariant from <= i <= to
      invariant forall j :: 0 <= j < secret.Length ==>
                  secret[j] == if from <= j < i then old(buffer[j]) else old(secret[j])
      invariant forall j :: 0 <= j < buffer.Length ==> buffer[j] == if from <= j < i then '*' else old(buffer[j])
    {
      secret[i] := buffer[i];
      buffer[i] := '*';
      i := i + 1;
    }
  }

  /** Takes the typed characters over into the hidden text. */
  method Absorb(secret: array<char>, buffer: array<char>, at: nat, k: nat, len: nat)
    requires Terminated(secret) && secret != buffer && len == StrLen(secret[..])
    requires len + k <= CAP && len + k < buffer.Length && at <= len && AllPrintable(buffer[at..at + k])
    modifies secret, buffer
    ensures Terminated(secret)
    ensures Held(secret[..]) == old(Held(secret[..])[..at] + buffer[at..at + k] + Held(secret[..])[at..])
    ensures buffer[..at] == old(buffer[..at]) && buffer[at..at + k] == Stars(k)
    ensures buffer[at + k..] == old(buffer[at + k..])
  {
    hide StrLen, Held;
    ghost var s0, typed := secret[..], buffer[at..at + k];
    MemMove(secret, at + k, at, len - at);
    ghost var s1 := secret[..];
    Cover(secret, buffer, at, at + k);
    ghost var s2 := secret[..];
    secret[len + k] := NUL;
    Absorbed(s0, s1, s2, typed, at, len);
    assert secret[..] == s2[len + k := NUL];
  }

  /** The buffer after the move, after the copy and with its new end. */
  lemma Absorbed(s0: string, s1: string, s2: string, typed: string, at: nat, len: nat)
    requires |s0| == |s1| == |s2| && at <= len == StrLen(s0) && len + |typed| < |s0| && AllPrintable(typed)
    requires s1[..at + |typed|] == s0[..at + |typed|]
    requires s1[at + |typed|..at + |typed| + (len - at)] == s0[at..at + (len - at)]
    requires s2[..at] == s1[..at] && s2[at..at + |typed|] == typed && s2[at + |typed|..] == s1[at + |typed|..]
    ensures var s3 := s2[len + |typed| := NUL];
            Held(s3) == Held(s0)[..at] + typed + Held(s0)[at..] && StrLen(s3) == len + |typed|
  {
    hide StrLen, AllPrintable;
    var s3 := s2[len + |typed| := NUL];
    HeldClean(s0);
    AbsorbedFront(s0, s1, s2, |typed|, at, len);
    AbsorbedBack(s0, s1, s2, |typed|, at, len);
    assert s3[at..at + |typed|] == s2[at..at + |typed|];
    Inserted(s3, Held(s0), typed, at);
  }

  lemma AbsorbedFront(s0: string, s1: string, s2: string, k: nat, at: nat, len: nat)
    requires |s0| == |s1| == |s2| && at <= len && len + k < |s0|
    requires s1[..at + k] == s0[..at + k] && s2[..at] == s1[..at]
    ensures s2[len + k := NUL][..at] == s0[..len][..at]
  {
    assert s0[..at] == s0[..at + k][..at];
    assert s1[..at] == s1[..at + k][..at];
  }

  lemma AbsorbedBack(s0: string, s1: string, s2: string, k: nat, at: nat, len: nat)
    requires |s0| == |s1| == |s2| && at <= len && len + k < |s0|
    requires s1[at + k..at + k + (len - at)] == s0[at..at + (len - at)] && s2[at + k..] == s1[at + k..]
    ensures s2[len + k := NUL][at + k..len + k] == s0[..len][at..]
  {
    assert s2[at + k..len + k] == s2[at + k..][..len - at];
    assert s1[at + k..len + k] == s1[at + k..][..len - at];
  }

  lemma HeldClean(s: string)
    ensures forall i :: 0 <= i < |Held(s)| ==> Held(s)[i] != NUL
    ensures |Held(s)| == StrLen(s)
  {
  }

  lemma Inserted(s: string, hidden: string, typed: string, at: nat)
    requires at <= |hidden| && |hidden| + |typed| < |s| && s[|hidden| + |typed|] == NUL
    requires forall i :: 0 <= i < |hidden| ==> hidden[i] != NUL
    requires AllPrintable(typed)
    requires s[..at] == hidden[..at] && s[at..at + |typed|] == typed
    requires s[at + |typed|..|hidden| + |typed|] == hidden[at..]
    ensures Held(s) == hidden[..at] + typed + hidden[at..] && StrLen(s) == |hidden| + |typed|
  {
    var text := hidden[..at] + typed + hidden[at..];
    assert s[..|text|] == text;
    HeldIs(s, text);
    HeldClean(s);
  }

  /** Removes `k` characters of the hidden text. */
  method Drop(secret: array<char>, at: nat, k: nat)
    requires Terminated(secret) && 0 < k && at + k <= StrLen(secret[..])
    modifies secret
    ensures Terminated(secret)
    ensures Held(secret[..]) == old(Held(secret[..])[..at] + Held(secret[..])[at + k..])
  {
    hide StrLen, Held;
    ghost var s0 := secret[..];
    var len := Length(secret);
    MemMove(secret, at, at + k, len - at - k);
    ghost var s1 := secret[..];
    var i := len - k;
    while i < len
      invariant len - k <= i <= len && secret[..len - k] == s1[..len - k]
      invariant forall j :: len - k <= j < i ==> secret[j] == NUL
    {
      secret[i] := NUL;
      i := i + 1;
    }
    Dropped(s0, s1, secret[..], at, k, len);
  }

  /** The buffer after the move and with its new end. */
  lemma Dropped(s0: string, s1: string, s2: string, at: nat, k: nat, len: nat)
    requires |s0| == |s1| == |s2| && 0 < k && at + k <= len == StrLen(s0) && len <= |s0|
    requires s1[..at] == s0[..at] && s1[at..at + (len - at - k)] == s0[at + k..at + k + (len - at - k)]
    requires s2[..len - k] == s1[..len - k] && s2[len - k] == NUL
    ensures Held(s2) == Held(s0)[..at] + Held(s0)[at + k..] && StrLen(s2) == len - k
  {
    hide StrLen;
    var hidden := Held(s0);
    HeldClean(s0);
    var text := hidden[..at] + hidden[at + k..];
    assert s1[..len - k] == s1[..at] + s1[at..at + (len - at - k)];
    assert s2[..len - k] == text;
    HeldIs(s2, text);
    HeldClean(s2);
  }

  /** The edit hook of the masked gadget on a key press. */
  method Hook(secret: array<char>, w: Work)
    requires Terminated(secret) && w.Valid() && secret != w.buffer && !w.beep
    modifies secret, w, w.buffer
    ensures Terminated(secret) && w.Valid()
    ensures var v := Ruling(old(Held(secret[..])), old(w.View()));
            Held(secret[..]) == v.hidden && w.buffer[..w.numChars] == v.work && w.bufferPos == v.pos
              && w.use == v.use && w.beep == v.beep
  {
    if !w.use { return; }
    var wasLen, nowLen, pos := |w.prev|, w.numChars, w.bufferPos;
    var len := Length(secret);
    if wasLen != len {
      forall i | 0 <= i < secret.Length { secret[i] := NUL; }
      w.buffer[0] := NUL;
      w.numChars, w.bufferPos := 0, 0;
      HeldIs(secret[..], "");
    } else if w.op.Reset? || w.op.Undo? {
      w.Refuse();
    } else if nowLen > wasLen {
      HookInsert(secret, w, nowLen - wasLen);
    } else if nowLen < wasLen {
      var k := wasLen - nowLen;
      if pos < 0 || pos + k > wasLen { w.Refuse(); } else { Drop(secret, pos, k); }
    } else if w.op.ReplaceChar? {
      HookReplace(secret, w);
    } else {
      HookSame(w);
    }
  }

  /** The same, in terms of the gadget's text. */
  method TakeTyped(secret: array<char>, buffer: array<char>, n: nat, at: nat, k: nat)
    requires Terminated(secret) && secret != buffer && n == StrLen(secret[..]) + k
    requires n <= CAP && n < buffer.Length && at + k <= n && AllPrintable(buffer[..n][at..at + k])
    modifies secret, buffer
    ensures Terminated(secret)
    ensures Held(secret[..]) == old(Held(secret[..]))[..at] + old(buffer[..n])[at..at + k] + old(Held(secret[..]))[at..]
    ensures buffer[..n] == old(buffer[..n])[..at] + Stars(k) + old(buffer[..n])[at + k..]
  {
    hide StrLen, Held, AllPrintable;
    HeldClean(secret[..]);
    assert buffer[..n][at..at + k] == buffer[at..at + k];
    ghost var work := buffer[..n];
    ghost var tail := buffer[at + k..];
    assert tail[..n - at - k] == work[at + k..];
    Absorb(secret, buffer, at, k, n - k);
    assert buffer[..n] == buffer[..at] + buffer[at..at + k] + buffer[at + k..][..n - at - k];
    assert work[..at] == buffer[..at];
  }

  /** What the hook does with a longer text. */
  lemma JudgeInserts(hidden: string, p: Proposal, k: nat)
    requires p.op.Other? || p.op.ReplaceChar?
    requires |p.prev| == |hidden| && |p.work| == |hidden| + k && k > 0
    ensures Judge(hidden, p)
            == if |p.work| > CAP || p.pos < k || p.pos > |p.work|
              || !AllPrintable(p.work[p.pos - k..p.pos]) then Reject(hidden, p)
               else Verdict(hidden[..p.pos - k] + p.work[p.pos - k..p.pos] + hidden[p.pos - k..],
                            p.work[..p.pos - k] + Stars(k) + p.work[p.pos..], p.pos, p.use, false)
  {
  }

  method HookInsert(secret: array<char>, w: Work, k: nat)
    requires Terminated(secret) && w.Valid() && secret != w.buffer && !w.beep && w.use && !w.op.Undo? && !w.op.Reset?
    requires StrLen(secret[..]) == |w.prev| && w.numChars == |w.prev| + k && k > 0
    modifies secret, w`use, w`beep, w.buffer
    ensures Terminated(secret)
    ensures var v := Judge(old(Held(secret[..])), old(w.View()));
            Held(secret[..]) == v.hidden && w.buffer[..w.numChars] == v.work && w.bufferPos == v.pos
              && w.use == v.use && w.beep == v.beep
  {
    var pos := w.bufferPos;
    if w.numChars > CAP || pos < k || pos > w.numChars {
      w.Refuse();
      return;
    }
    hide StrLen, Held, Judge, AllPrintable;
    HeldClean(secret[..]);
    var ok := Allowed(w.buffer, pos - k, pos);
    assert w.buffer[..w.numChars][pos - k..pos] == w.buffer[pos - k..pos];
    JudgeInserts(Held(secret[..]), w.View(), k);
    if ok { TakeTyped(secret, w.buffer, w.numChars, pos - k, k); } else { w.Refuse(); }
  }

  method HookReplace(secret: array<char>, w: Work)
    requires Terminated(secret) && w.Valid() && secret != w.buffer && !w.beep && w.use && w.op.ReplaceChar?
    requires StrLen(secret[..]) == |w.prev| == w.numChars
    modifies secret, w`use, w`beep, w.buffer
    ensures Terminated(secret)
    ensures var v := Judge(old(Held(secret[..])), old(w.View()));
            Held(secret[..]) == v.hidden && w.buffer[..w.numChars] == v.work && w.bufferPos == v.pos
              && w.use == v.use && w.beep == v.beep
  {
    ghost var hidden := Held(secret[..]);
    var pos := w.bufferPos;
    if pos < 1 || pos > w.numChars || !Printable(w.buffer[pos - 1]) {
      w.Refuse();
      return;
    }
    var c := w.buffer[pos - 1];
    secret[pos - 1] := c;
    w.buffer[pos - 1] := '*';
    assert secret[..w.numChars] == hidden[pos - 1 := c];
    HeldIs(secret[..], hidden[pos - 1 := c]);
  }

  method HookSame(w: Work)
    requires w.Valid() && !w.beep && w.use && w.op.Other? && w.numChars == |w.prev|
    modifies w`use, w`beep
    ensures w.use == (w.buffer[..w.numChars] == Stars(w.numChars)) && w.beep == !w.use
  {
    var i := 0;
    while i < w.numChars
      invariant 0 <= i <= w.numChars && w.buffer[..i] == Stars(i) && w.use && !w.beep
    {
      if w.buffer[i] != '*' {
        assert w.buffer[..w.numChars][i] != Stars(w.numChars)[i];
        w.Refuse();
        return;
      }
      assert w.buffer[..i + 1] == w.buffer[..i] + [w.buffer[i]];
      i := i + 1;
    }
  }
}
