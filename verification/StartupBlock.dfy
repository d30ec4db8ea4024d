/** How the boot lines are merged into S:User-Startup: between their marks if both
    are there, at the end otherwise. */
module StartupBlock {
  import opened Seqs
  import opened StartupUndo

  const BEGIN := ";BEGIN tolunnet\n"
  const END := ";END tolunnet\n"

  const COMMANDS_1 := "If EXISTS C:tolunnet\n"
  const COMMANDS_2 := "Stack 32768\n"
  const COMMANDS_3 := "Run <NIL: >NIL: C:tolunnet\n"
  const COMMANDS_4 := "EndIf\n"
  const COMMANDS := COMMANDS_1 + COMMANDS_2 + COMMANDS_3 + COMMANDS_4

  const BLOCK := BEGIN + COMMANDS + END

  // ---------------------------------------------------------------- search

  predicate At(s: string, w: string, i: nat) { i + |w| <= |s| && s[i..i + |w|] == w }

  /** The first place of `w` from `from` on. */
  function Find(s: string, w: string, from: nat): (r: Option<nat>)
    ensures r.Some? ==> r.value >= from && At(s, w, r.value) && forall i :: from <= i < r.value ==> !At(s, w, i)
    ensures r.None? ==> forall i :: from <= i ==> !At(s, w, i)
    decreases |s| + 1 - from
  {
    if from > |s| then None else if At(s, w, from) then Some(from) else Find(s, w, from + 1)
  }

  /** The merged text; None where the end mark is only in front of the begin mark,
      which is an error. */
  function Merge(us: string): (r: Option<string>) {
    var b, e := Find(us, BEGIN, 0), Find(us, END, 0);
    if b.Some? && e.Some? then
      match Find(us, END, b.value)
      case None => None
      case Some(j) => Some(us[..b.value] + BLOCK + us[j + |END|..])
    else Some(us + BLOCK)
  }

  // ------------------------------------------------------------- semicolons

  predicate NoSemi(s: string) { forall i :: 0 <= i < |s| ==> s[i] != ';' }

  /** A mark starts with its only semicolon. */
  predicate Mark(w: string) { w != [] && w[0] == ';' && NoSemi(w[1..]) }

  lemma Marks()
    ensures Mark(BEGIN) && Mark(END) && |BEGIN| == 16 && |END| == 14
    ensures BEGIN[1] == 'B' && END[1] == 'E'
  {
  }

  lemma CommandsPlain()
    ensures NoSemi(COMMANDS)
  {
    assert NoSemi(COMMANDS_1) && NoSemi(COMMANDS_2) && NoSemi(COMMANDS_3) && NoSemi(COMMANDS_4);
  }

  /** The block has a semicolon at its start and at its end mark only. */
  lemma BlockPlain(j: nat)
    requires 0 < j < |BLOCK| && j != |BLOCK| - |END|
    ensures BLOCK[j] != ';'
  {
    hide COMMANDS;
    Marks(); CommandsPlain();
    if j < 16 {
      assert BLOCK[j] == BEGIN[1..][j - 1];
    } else if j < 16 + |COMMANDS| {
      assert BLOCK[j] == COMMANDS[j - 16];
    } else {
      assert BLOCK[j] == END[1..][j - 17 - |COMMANDS|];
    }
  }

  /** What stands there stands there character by character. */
  lemma AtEach(s: string, w: string, i: nat, n: nat)
    requires n < |w|
    ensures At(s, w, i) ==> i + n < |s| && s[i + n] == w[n]
  {
    if At(s, w, i) { assert s[i..i + |w|][n] == s[i + n]; }
  }

  /** In a text with the block at `i`, a mark from there on can only stand at the
      start or at the end of the block, or behind it. */
  lemma MarkInBlock(s: string, i: nat, w: string, k: nat)
    requires At(s, BLOCK, i) && w != [] && w[0] == ';' && At(s, w, k) && i <= k < i + |BLOCK|
    ensures k == i || k == i + |BLOCK| - |END|
  {
    hide BLOCK, At;
    AtEach(s, w, k, 0);
    AtEach(s, BLOCK, i, k - i);
    if k != i && k != i + |BLOCK| - |END| { BlockPlain(k - i); }
  }

  lemma BlockMarks(s: string, i: nat)
    requires At(s, BLOCK, i)
    ensures At(s, BEGIN, i) && At(s, END, i + |BLOCK| - |END|) && !At(s, END, i)
    ensures !At(s, BEGIN, i + |BLOCK| - |END|)
  {
    hide COMMANDS;
    Marks();
    var e := i + |BLOCK| - |END|;
    assert s[i..i + |BLOCK|][..|BEGIN|] == BEGIN;
    assert s[i..i + |BLOCK|][|BLOCK| - |END|..] == END;
    assert s[i..i + |BEGIN|] == BEGIN && s[e..e + |END|] == END;
    AtEach(s, BEGIN, i, 1); AtEach(s, END, i, 1);
    AtEach(s, BEGIN, e, 1); AtEach(s, END, e, 1);
  }

  /** The first end mark from the block on is the block's own. */
  lemma EndFound(s: string, i: nat)
    requires At(s, BLOCK, i)
    ensures Find(s, END, i) == Some(i + |BLOCK| - |END|)
  {
    hide BLOCK;
    Marks(); BlockLong();
    BlockMarks(s, i);
    var r := Find(s, END, i);
    assert At(s, END, i + |BLOCK| - |END|);
    if r.Some? && r.value < i + |BLOCK| - |END| { MarkInBlock(s, i, END, r.value); }
  }

  lemma BlockLong()
    ensures |BLOCK| >= |BEGIN| + |END|
  {
  }

  /** What is found in front stays found. */
  lemma FindPrefix(s: string, t: string, w: string, n: nat, i: nat)
    requires n <= |s| && n <= |t| && s[..n] == t[..n] && i + |w| <= n && Find(s, w, 0) == Some(i)
    ensures Find(t, w, 0) == Some(i)
  {
    hide At;
    forall k: nat | k <= i ensures At(t, w, k) <==> At(s, w, k) { AtSame(s, t, w, n, k); }
    FindIs(t, w, i);
  }

  lemma AtSame(s: string, t: string, w: string, n: nat, k: nat)
    requires n <= |s| && n <= |t| && s[..n] == t[..n] && k + |w| <= n
    ensures At(t, w, k) <==> At(s, w, k)
  {
    assert s[k..k + |w|] == s[..n][k..k + |w|] && t[k..k + |w|] == t[..n][k..k + |w|];
  }

  lemma FindIs(t: string, w: string, i: nat)
    requires At(t, w, i) && forall k: nat :: k < i ==> !At(t, w, k)
    ensures Find(t, w, 0) == Some(i)
  {
    hide At;
    var r := Find(t, w, 0);
  }

  /** A mark does not run across the seam to a text that begins with a semicolon. */
  lemma NoneAcross(s: string, t: string, w: string, k: nat)
    requires Mark(w) && t != [] && t[0] == ';' && k < |s| < k + |w|
    ensures !At(s + t, w, k)
  {
    hide At;
    var n := |s| - k;
    assert (s + t)[|s|] == ';' && w[n] == w[1..][n - 1];
    AtEach(s + t, w, k, n);
  }

  // ------------------------------------------------------------ merged twice

  /** The merged text when it was merged between marks. */
  lemma BetweenTwice(us: string)
    requires Find(us, BEGIN, 0).Some? && Find(us, END, 0).Some? && Merge(us).Some?
    ensures Merge(Merge(us).value) == Merge(us)
  {
    hide BLOCK, BEGIN, END;
    var i := Find(us, BEGIN, 0).value;
    var j := Find(us, END, i).value;
    var t := Merge(us).value;
    var rest := us[j + |END|..];
    BlockLong(); Placed(us[..i], rest);
    assert At(t, BLOCK, i);
    BlockMarks(t, i);
    SameFront(us, t, i);
    EndFound(t, i);
    assert t[..i] == us[..i] && t[i + |BLOCK|..] == rest;
    assert At(t, END, i + |BLOCK| - |END|);
  }

  lemma Placed(front: string, rest: string)
    ensures At(front + BLOCK + rest, BLOCK, |front|)
  {
    hide BLOCK;
  }

  /** Up to the end of its begin mark the text is the same. */
  lemma SameFront(us: string, t: string, i: nat)
    requires Find(us, BEGIN, 0) == Some(i) && i <= |t| && t[..i] == us[..i] && At(t, BEGIN, i)
    ensures Find(t, BEGIN, 0) == Some(i)
  {
    hide BEGIN;
    var n := i + |BEGIN|;
    assert us[..n] == us[..i] + BEGIN && t[..n] == t[..i] + BEGIN;
    FindPrefix(us, t, BEGIN, n, i);
  }

  /** The merged text when the block went to the end. */
  lemma AppendedTwice(us: string)
    requires Find(us, BEGIN, 0).None? || Find(us, END, 0).None?
    ensures Merge(us) == Some(us + BLOCK)
    ensures Find(us, BEGIN, 0).None? ==> Merge(us + BLOCK) == Some(us + BLOCK)
    ensures Find(us, BEGIN, 0).Some? ==> Merge(us + BLOCK) == Some(us[..Find(us, BEGIN, 0).value] + BLOCK)
  {
    hide BLOCK, BEGIN, END;
    var t, n := us + BLOCK, |us|;
    Marks(); BlockLong(); BlockStarts();
    Placed(us, []);
    assert us + BLOCK + [] == t;
    BlockMarks(t, n);
    EndFound(t, n);
    assert At(t, END, n + |BLOCK| - |END|);
    if Find(us, BEGIN, 0).None? {
      FirstIsSeam(us);
      assert t[..n] == us && t[n + |BLOCK|..] == [];
      assert us + BLOCK + [] == t;
    } else {
      var i := Find(us, BEGIN, 0).value;
      assert t[..n] == us[..n];
      FindPrefix(us, t, BEGIN, n, i);
      EndIsLast(us, i);
      assert t[..i] == us[..i] && t[n + |BLOCK|..] == [];
      assert us[..i] + BLOCK + [] == us[..i] + BLOCK;
    }
  }

  lemma BlockStarts()
    ensures BLOCK != [] && BLOCK[0] == ';'
  {
  }

  lemma InFront(us: string, w: string, k: nat)
    requires k + |w| <= |us|
    ensures At(us + BLOCK, w, k) <==> At(us, w, k)
  {
    hide BLOCK;
    assert (us + BLOCK)[k..k + |w|] == us[k..k + |w|];
  }

  lemma FirstIsSeam(us: string)
    requires Find(us, BEGIN, 0).None? && At(us + BLOCK, BEGIN, |us|)
    ensures Find(us + BLOCK, BEGIN, 0) == Some(|us|)
  {
    hide BLOCK, BEGIN;
    Marks(); BlockStarts();
    var t := us + BLOCK;
    var r := Find(t, BEGIN, 0);
    assert r.Some? && r.value <= |us|;
    if r.value < |us| {
      if r.value + |BEGIN| <= |us| { InFront(us, BEGIN, r.value); } else { NoneAcross(us, BLOCK, BEGIN, r.value); }
    }
  }

  /** Without an end mark of its own, the text's begin mark reaches to the block's. */
  lemma EndIsLast(us: string, i: nat)
    requires Find(us, END, 0).None? && i <= |us|
    ensures Find(us + BLOCK, END, i) == Some(|us| + |BLOCK| - |END|)
  {
    hide BLOCK, END, At;
    Marks(); BlockStarts(); BlockLong();
    var t, n := us + BLOCK, |us|;
    Placed(us, []);
    assert us + BLOCK + [] == t;
    BlockMarks(t, n);
    var r := Find(t, END, i);
    var e := n + |BLOCK| - |END|;
    assert At(t, END, e);
    assert r.Some? && r.value <= e;
    if r.value < n {
      if r.value + |END| <= n { InFront(us, END, r.value); } else { NoneAcross(us, BLOCK, END, r.value); }
    } else if r.value < e {
      MarkInBlock(t, n, END, r.value);
    }
  }

  /** Merging once more changes nothing if and only if the text did not come with a
      begin mark and no end mark. */
  lemma MergeTwice(us: string)
    requires Merge(us).Some?
    ensures Merge(Merge(us).value) == Merge(us) <==>
              !((exists i: nat :: At(us, BEGIN, i)) && forall i: nat :: !At(us, END, i))
  {
    hide BLOCK, BEGIN, END, Merge;
    var b, e := Find(us, BEGIN, 0), Find(us, END, 0);
    if b.Some? && e.Some? {
      BetweenTwice(us);
    } else {
      AppendedTwice(us);
      if b.Some? {
        var t := us[..b.value] + BLOCK;
        MarkFits(us, b.value);
        assert |t| < |us + BLOCK|;
      }
    }
  }

  lemma MarkFits(us: string, i: nat)
    requires At(us, BEGIN, i)
    ensures i < |us|
  {
  }

  /** All but the lines between the marks stays as it is. */
  lemma MergeKeeps(p: string, x: string, q: string)
    requires var us := p + BEGIN + x + END + q;
             Find(us, BEGIN, 0) == Some(|p|) && Find(us, END, |p|) == Some(|p + BEGIN + x|)
    ensures Merge(p + BEGIN + x + END + q) == Some(p + BLOCK + q)
  {
    hide BLOCK, BEGIN, END;
    var us := p + BEGIN + x + END + q;
    assert us[..|p|] == p && us[|p + BEGIN + x| + |END|..] == q;
    assert At(us, END, |p + BEGIN + x|);
  }

  // ------------------------------------------------------- in a history

  /** The merge as the install uses it, on texts without the error. */
  function Boot(us: string): string {
    match Merge(us) case None => us case Some(t) => t
  }

  /** However often it is installed, the boot lines are in the file once. */
  lemma {:induction false} BootedOnce(us: string, k: nat)
    requires k > 0 && !((exists i: nat :: At(us, BEGIN, i)) && forall i: nat :: !At(us, END, i))
    ensures Booted(Boot, us, k) == Boot(us)
  {
    hide BLOCK, BEGIN, END, Merge;
    if k > 1 {
      BootedOnce(us, k - 1);
      if Merge(us).Some? { MergeTwice(us); }
    }
  }
}
