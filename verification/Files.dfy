/** The dictionary file system of the undo simulator: normalised path keys,
    kinds, write protection and the name limit, plus what it means for two
    states to agree on a path. */
module Files {
  import opened Text

  datatype Entry = File(data: string) | Dir

  type Tree = map<string, Entry>

  const ABSENT := 0
  const FILE := 1
  const DIRECTORY := 2
  const NAME_LIMIT := 30

  // -------------------------------------------------------- normalising

  function StripSpace(s: string): string
    decreases |s|
  {
    if s != [] && IsSpace(s[0]) then StripSpace(s[1..])
    else if s != [] && IsSpace(s[|s| - 1]) then StripSpace(s[..|s| - 1])
    else s
  }

  function StripQuote(s: string): string
    decreases |s|
  {
    if s != [] && s[0] == '\"' then StripQuote(s[1..])
    else if s != [] && s[|s| - 1] == '\"' then StripQuote(s[..|s| - 1])
    else s
  }

  function StripSlash(s: string): string
    decreases |s|
  {
    if s != [] && s[|s| - 1] == '/' then StripSlash(s[..|s| - 1]) else s
  }

  /** Resolves the standard assigns of a lower-case path. */
  function Resolve(p: string): string {
    if "sys:" <= p then p
    else if "libs:" <= p then "sys:libs/" + p[5..]
    else if "c:" <= p then "sys:c/" + p[2..]
    else if "s:" <= p then "sys:s/" + p[2..]
    else if "devs:" <= p then "sys:devs/" + p[5..]
    else if "env:" <= p then "sys:env/" + p[4..]
    else p
  }

  function Norm(path: string): string {
    StripSlash(Resolve(Lower(StripQuote(StripSpace(path)))))
  }

  /** Neither blank, quote nor slash: nothing that normalising strips. */
  predicate SolidChar(c: char) {
    !IsSpace(c) && c != '\"' && c != '/'
  }

  /** A path whose two ends normalising leaves alone. */
  predicate SolidEnds(p: string) {
    p != [] && SolidChar(p[0]) && SolidChar(p[|p| - 1])
  }

  lemma NormSolid(p: string)
    requires SolidEnds(p)
    ensures Norm(p) == StripSlash(Resolve(Lower(p)))
  {
    assert StripSpace(p) == p;
    assert StripQuote(p) == p;
  }

  lemma SolidTail(s: string)
    requires s != [] && s[|s| - 1] != '/'
    ensures StripSlash(s) == s
  {
  }

  /** A path already spelled from `SYS:` only changes case. */
  lemma NormSys(p: string)
    requires SolidEnds(p) && "sys:" <= Lower(p)
    ensures Norm(p) == Lower(p)
  {
    NormSolid(p);
    SolidTail(Lower(p));
  }

  lemma {:induction false} NormAssign(p: string, dir: string, cut: nat)
    requires SolidEnds(p) && cut < |p|
    requires Resolve(Lower(p)) == dir + Lower(p)[cut..]
    ensures Norm(p) == dir + Lower(p)[cut..]
  {
    NormSolid(p);
    var r := Resolve(Lower(p));
    assert r[|r| - 1] == Lower(p)[|p| - 1];
    SolidTail(r);
  }

  lemma ShortAssigns(low: string)
    ensures "c:" <= low ==> Resolve(low) == "sys:c/" + low[2..]
    ensures "s:" <= low ==> Resolve(low) == "sys:s/" + low[2..]
  {
    if "c:" <= low { assert low[0] == 'c'; }
    if "s:" <= low { assert low[0] == 's' && low[1] == ':'; }
  }

  lemma LongAssigns(low: string)
    ensures "libs:" <= low ==> Resolve(low) == "sys:libs/" + low[5..]
    ensures "devs:" <= low ==> Resolve(low) == "sys:devs/" + low[5..]
    ensures "env:" <= low ==> Resolve(low) == "sys:env/" + low[4..]
    ensures !("libs:" <= low) && !("c:" <= low) && !("s:" <= low) && !("devs:" <= low) && !("env:" <= low) ==>
              Resolve(low) == low
  {
    if "libs:" <= low { assert low[0] == 'l'; }
    if "devs:" <= low { assert low[0] == 'd'; }
    if "env:" <= low { assert low[0] == 'e'; }
  }

  /** The five assigns, and nothing else, are replaced by their directories. */
  lemma NormAssigns(p: string)
    requires SolidEnds(p)
    ensures var low := Lower(p);
            && ("libs:" < low ==> Norm(p) == "sys:libs/" + low[5..])
            && ("c:" < low ==> Norm(p) == "sys:c/" + low[2..])
            && ("s:" < low ==> Norm(p) == "sys:s/" + low[2..])
            && ("devs:" < low ==> Norm(p) == "sys:devs/" + low[5..])
            && ("env:" < low ==> Norm(p) == "sys:env/" + low[4..])
            && (!("libs:" <= low) && !("c:" <= low) && !("s:" <= low) && !("devs:" <= low) && !("env:" <= low) ==>
                  Norm(p) == low)
  {
    var low := Lower(p);
    assert |low| == |p|;
    hide Lower, Norm, Resolve;
    LongAssigns(low);
    if "libs:" < low { NormAssign(p, "sys:libs/", 5); }
    ShortAssigns(low);
    if "c:" < low { NormAssign(p, "sys:c/", 2); }
    if "s:" < low { NormAssign(p, "sys:s/", 2); }
    if "devs:" < low { NormAssign(p, "sys:devs/", 5); }
    if "env:" < low { NormAssign(p, "sys:env/", 4); }
    if !("libs:" <= low) && !("c:" <= low) && !("s:" <= low) && !("devs:" <= low) && !("env:" <= low) {
      assert low == "" + low[0..];
      NormAssign(p, "", 0);
    }
  }

  // ------------------------------------------------------------ queries

  /** `q` lies below directory `k` (both are keys). */
  predicate Below(q: string, k: string) {
    k + "/" <= q
  }

  predicate AtOrBelow(q: string, k: string) {
    q == k || Below(q, k)
  }

  function Children(m: Tree, k: string): set<string> {
    set q | q in m && Below(q, k)
  }

  /** The simulator's `kind`, on a key. */
  function Kind(m: Tree, k: string): (r: int)
    ensures r == FILE ==> k in m && m[k].File?
  {
    if k == [] || k[|k| - 1] == ':' then DIRECTORY
    else if k in m then (if m[k].Dir? then DIRECTORY else FILE)
    else if Children(m, k) != {} then DIRECTORY
    else ABSENT
  }

  /** The part of a key after its first colon (all of it without one). */
  function AfterColon(k: string): string {
    AfterColonFrom(k, 0)
  }

  function AfterColonFrom(k: string, i: nat): string
    requires i <= |k|
    decreases |k| - i
  {
    if i == |k| then k else if k[i] == ':' then k[i + 1..] else AfterColonFrom(k, i + 1)
  }

  predicate SlashWithin(s: string, i: nat)
    requires i + NAME_LIMIT < |s|
  {
    exists j :: i <= j <= i + NAME_LIMIT && s[j] == '/'
  }

  /** No path component is longer than the file system's name limit: a
      component that long is a stretch of NAME_LIMIT + 1 characters without
      a slash. */
  predicate ShortNames(s: string) {
    forall i :: 0 <= i <= |s| - NAME_LIMIT - 1 ==> SlashWithin(s, i)
  }

  predicate Writable(ro: set<string>, k: string) {
    k !in ro && ShortNames(AfterColon(k))
  }

  /** Where the names of a path start: behind its first colon. */
  lemma {:induction false} AfterColonIs(k: string, i: nat)
    requires i <= |k| && forall j :: 0 <= j < i ==> k[j] != ':'
    ensures i == |k| || k[i] == ':' ==> AfterColon(k) == if i == |k| then k else k[i + 1..]
    decreases i
  {
    AfterColonFromIs(k, i, 0);
  }

  lemma {:induction false} AfterColonFromIs(k: string, i: nat, from: nat)
    requires from <= i <= |k| && forall j :: 0 <= j < i ==> k[j] != ':'
    ensures AfterColonFrom(k, from) == AfterColonFrom(k, i)
    decreases i - from
  {
    if from < i { AfterColonFromIs(k, i, from + 1); }
  }

  lemma LongStretch(s: string, i: nat, j: nat)
    requires ShortNames(s) && i + 30 < j <= |s|
    ensures !NoSlash(s[i..j])
  {
    assert SlashWithin(s, i);
    var t :| i <= t <= i + NAME_LIMIT && s[t] == '/';
    assert s[i..j][t - i] == '/';
  }

  /** A path can be written if and only if it is not protected and has no stretch of
      more than 30 characters without a slash behind its device. */
  lemma WritableIs(ro: set<string>, k: string)
    ensures Writable(ro, k) <==>
              && k !in ro
              && var s := AfterColon(k);
                 forall i, j :: 0 <= i <= j <= |s| && NoSlash(s[i..j]) ==> j - i <= 30
  {
    var s := AfterColon(k);
    if ShortNames(s) {
      forall i, j | 0 <= i <= j <= |s| && NoSlash(s[i..j]) ensures j - i <= 30 {
        if j - i > 30 { LongStretch(s, i, j); }
      }
    } else {
      var i :| 0 <= i <= |s| - NAME_LIMIT - 1 && !SlashWithin(s, i);
      assert NoSlash(s[i..i + 31]);
    }
  }

  // ------------------------------------------------------------- frames

  /** Neither key lies at or below the other. */
  predicate Unrelated(a: string, b: string) {
    a != b && !Below(a, b) && !Below(b, a)
  }

  /** Two states have the same entries at `k` and everywhere below it. */
  ghost predicate AgreeAt(m: Tree, m': Tree, k: string) {
    forall q :: AtOrBelow(q, k) ==> (q in m <==> q in m') && (q in m ==> m[q] == m'[q])
  }

  lemma AgreeKind(m: Tree, m': Tree, k: string)
    requires AgreeAt(m, m', k)
    ensures Kind(m, k) == Kind(m', k)
    ensures Children(m, k) == Children(m', k)
    ensures k in m <==> k in m'
    ensures k in m ==> m[k] == m'[k]
  {
    assert AtOrBelow(k, k);
    forall q | Below(q, k) ensures q in m <==> q in m' {
      assert AtOrBelow(q, k);
    }
    assert Children(m, k) == Children(m', k);
  }

  lemma AgreeTrans(a: Tree, b: Tree, c: Tree, k: string)
    requires AgreeAt(a, b, k) && AgreeAt(b, c, k)
    ensures AgreeAt(a, c, k)
  {
  }

  lemma AgreeWrite(m: Tree, w: string, e: Entry, k: string)
    requires !AtOrBelow(w, k)
    ensures AgreeAt(m, m[w := e], k)
  {
  }

  /** Two keys that differ at one position are unrelated. */
  lemma DifferAt(a: string, b: string, i: nat)
    requires i < |a| && i < |b| && a[i] != b[i]
    ensures Unrelated(a, b)
  {
    assert (b + "/")[i] == b[i];
    assert (a + "/")[i] == a[i];
  }

  predicate NoSlash(s: string) {
    forall i :: 0 <= i < |s| ==> s[i] != '/'
  }

  lemma NotBelowSibling(dir: string, a: string, b: string)
    requires NoSlash(a)
    ensures !Below(dir + a, dir + b)
  {
    var p := dir + b + "/";
    assert p[|dir| + |b|] == '/';
    if |p| <= |dir + a| {
      assert (dir + a)[|dir| + |b|] == a[|b|];
    }
  }

  /** Two different plain names in one directory are unrelated. */
  lemma SiblingNames(dir: string, a: string, b: string)
    requires a != b && NoSlash(a) && NoSlash(b)
    ensures Unrelated(dir + a, dir + b)
  {
    assert (dir + a)[|dir|..] == a;
    assert (dir + b)[|dir|..] == b;
    NotBelowSibling(dir, a, b);
    NotBelowSibling(dir, b, a);
  }

  /** Two keys with a common descendant lie one below the other. */
  lemma CommonDescendant(q: string, p: string, k: string)
    requires Below(q, p) && AtOrBelow(q, k)
    ensures !Unrelated(p, k)
  {
    if q != k {
      if |k| < |p| {
        assert p[..|k| + 1] == q[..|k| + 1];
      } else if |p| < |k| {
        assert k[..|p| + 1] == q[..|p| + 1];
      } else {
        assert p == q[..|p|] == k;
      }
    }
  }

  lemma UnrelatedDelete(m: Tree, p: string, k: string)
    requires Unrelated(p, k)
    ensures AgreeAt(m, m - ({p} + Children(m, p)), k)
  {
    forall q | AtOrBelow(q, k)
      ensures q !in {p} + Children(m, p)
    {
      if Below(q, p) { CommonDescendant(q, p, k); }
    }
  }
}
