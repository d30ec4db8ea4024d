/** What an accepted script can do to one original or one command file, whatever
    its commands: the lint watches Deletes, so the guarantee about the file needs
    that nothing else takes it. */
module LintFiles {
  import opened Seqs
  import opened Text
  import opened Files
  import opened Dos
  import opened Keys
  import opened Lint
  import opened LintKeys
  import opened LintScripts

  /** The directories whose files the lint watches. */
  predicate WatchedDir(d: string) { d == "sys:c" || IsBackupDir(d) }

  /** A file directly in a watched directory. */
  predicate FileIn(k: string, d: string) {
    Below(k, d) && |k| > |d| + 1 && NoSlash(k[|d| + 1..])
  }

  /** The command cannot take the file `k` of `d` away or change it, except by a
      Delete in the watched spelling. */
  predicate Spares(it: Item, d: string, k: string)
    decreases it, 1
  {
    match it
    case If(_, _, thn, els) => SparesAll(thn, d, k) && SparesAll(els, d, k)
    case Copy(_, dst) => !AtOrBelow(k, Norm(dst))
    case Rename(src, _) => Norm(src) != k
    case Delete(target, _) => Norm(target) == k ==> d + "/" <= Lower(target)
    case _ => true
  }

  predicate SparesAll(b: Block, d: string, k: string)
    decreases b, 0
  {
    b == [] || (Spares(b[0], d, k) && SparesAll(b[1..], d, k))
  }

  /** No file stands where a directory above `k` belongs. */
  ghost predicate Housed(m: Tree, k: string) {
    forall a :: a in m && Below(k, a) ==> m[a].Dir?
  }

  /** The event can take `k` away: its own Delete, or one of a directory with ALL. */
  predicate Takes(e: Event, d: string, k: string) {
    e.Deleted? && ((Norm(e.target) == k && d + "/" <= Lower(e.target)) || (Below(k, Norm(e.target)) && e.all))
  }

  ghost predicate Taken(t: seq<Event>, from: nat, d: string, k: string) {
    exists i :: from <= i < |t| && Takes(t[i], d, k)
  }

  ghost predicate Kept(m: Tree, m': Tree, k: string) {
    k in m ==> k in m' && m'[k] == m[k] && Housed(m', k)
  }

  lemma DeleteKeeps(target: string, all: bool, s: State, d: string, k: string)
    requires k in s.m && Housed(s.m, k) && Spares(Delete(target, all), d, k)
    ensures var r := RunDelete(s, target, all);
            Kept(s.m, r.m, k) || (|r.trace| == |s.trace| + 1 && Takes(r.trace[|s.trace|], d, k))
  {
    hide Norm, Writable, Lower, Below;
    var p := Norm(target);
    if !DeleteRefused(s, p, all) && Below(k, p) {
      assert k in Children(s.m, p);
    }
  }

  /** A Rename is refused while its target, or something below it, is there. */
  lemma RenameKeeps(src: string, dst: string, s: State, k: string)
    requires k in s.m && Housed(s.m, k) && Norm(src) != k
    ensures Kept(s.m, RunRename(s, src, dst).m, k)
  {
    hide Norm, Writable, Below;
    var b := Norm(dst);
    if Below(k, b) { assert k in Children(s.m, b); }
  }

  lemma {:induction false} BlockKeeps(b: Block, s: State, depth: nat, d: string, k: string, keys: set<string>)
    requires depth <= MAX_DEPTH && SparesAll(b, d, k) && k in s.m && Housed(s.m, k)
    requires ExecuteKeys(b) <= keys && WriteKeys(b) !! keys && NoneIsFile(s.m, keys)
    ensures var r := ExecBlock(b, s, depth);
            (Kept(s.m, r.m, k) && NoneIsFile(r.m, keys)) || Taken(r.trace, |s.trace|, d, k)
    decreases b, 0
  {
    hide Norm, Kind, Writable, Lower, Below, Takes, Spares, NoneIsFile;
    if b != [] && s.halt == Go {
      var mid := ExecItem(b[0], s, depth);
      ItemKeeps(b[0], s, depth, d, k, keys);
      TraceGrowsItem(b[0], s, depth);
      TraceGrows(b[1..], mid, depth);
      if Kept(s.m, mid.m, k) && NoneIsFile(mid.m, keys) {
        BlockKeeps(b[1..], mid, depth, d, k, keys);
      } else {
        var i :| |s.trace| <= i < |mid.trace| && Takes(mid.trace[i], d, k);
        assert ExecBlock(b[1..], mid, depth).trace[i] == mid.trace[i];
      }
    }
  }

  lemma {:induction false} ItemKeeps(it: Item, s: State, depth: nat, d: string, k: string, keys: set<string>)
    requires depth <= MAX_DEPTH && Spares(it, d, k) && k in s.m && Housed(s.m, k)
    requires ItemExecuteKeys(it) <= keys && ItemWriteKeys(it) !! keys && NoneIsFile(s.m, keys)
    ensures var r := ExecItem(it, s, depth);
            (Kept(s.m, r.m, k) && NoneIsFile(r.m, keys)) || Taken(r.trace, |s.trace|, d, k)
    decreases it, 1
  {
    hide Norm, Kind, Writable, Lower, Below, Takes, NoneIsFile;
    match it {
      case If(neg, test, thn, els) =>
        BlockKeeps(if Holds(s, test) != neg then thn else els, Observe(s, test), depth, d, k, keys);
      case Delete(target, all) =>
        StillNoFile(it, s, keys);
        DeleteKeeps(target, all, s.(rc := 0), d, k);
      case Rename(src, dst) =>
        StillNoFile(it, s, keys);
        RenameKeeps(src, dst, s.(rc := 0), k);
      case Execute(script) => NoScript(s.m, script, keys);
      case _ => StillNoFile(it, s, keys);
    }
  }

  // --------------------------------------- the directories with ALL are others

  lemma {:induction false} SpaceEnd(l: string, t: string)
    requires EndsWith(l, t) && t != [] && forall i :: 0 <= i < |t| ==> !IsSpace(t[i])
    ensures EndsWith(StripSpace(l), t)
    decreases |l|
  {
    assert l[|l| - |t|..][|t| - 1] == l[|l| - 1] == t[|t| - 1];
    if IsSpace(l[0]) {
      assert l[1..][|l| - 1 - |t|..] == l[|l| - |t|..];
      SpaceEnd(l[1..], t);
    }
  }

  lemma {:induction false} QuoteEnd(l: string, t: string)
    requires EndsWith(l, t) && t != [] && forall i :: 0 <= i < |t| ==> t[i] != '\"'
    ensures EndsWith(StripQuote(l), t)
    decreases |l|
  {
    assert l[|l| - |t|..][|t| - 1] == l[|l| - 1] == t[|t| - 1];
    if l[0] == '\"' {
      assert l[1..][|l| - 1 - |t|..] == l[|l| - |t|..];
      QuoteEnd(l[1..], t);
    }
  }

  lemma CutEnd(l: string, t: string, n: nat, front: string)
    requires EndsWith(l, t) && 0 < n <= |l| && l[n - 1] == ':' && ':' !in t
    ensures EndsWith(front + l[n..], t)
  {
    var r := front + l[n..];
    assert r[|r| - |t|..] == l[|l| - |t|..];
  }

  lemma ResolveEnd(l: string, t: string)
    requires EndsWith(l, t) && ':' !in t
    ensures EndsWith(Resolve(l), t)
  {
    if "sys:" <= l {
    } else if "libs:" <= l {
      CutEnd(l, t, 5, "sys:libs/");
    } else if "c:" <= l {
      CutEnd(l, t, 2, "sys:c/");
    } else if "s:" <= l {
      CutEnd(l, t, 2, "sys:s/");
    } else if "devs:" <= l {
      CutEnd(l, t, 5, "sys:devs/");
    } else if "env:" <= l {
      CutEnd(l, t, 4, "sys:env/");
    }
  }

  /** A path that ends like a marker directory is one that does. */
  lemma NormEnd(p: string, t: string)
    requires EndsWith(Lower(p), t) && (t == "/new" || t == "/ours")
    ensures EndsWith(Norm(p), t)
  {
    hide Norm, Lower, EndsWith;
    NormIsLow(p);
    var l := Lower(p);
    SpaceEnd(l, t);
    QuoteEnd(StripSpace(l), t);
    ResolveEnd(StripQuote(StripSpace(l)), t);
    var r := Resolve(StripQuote(StripSpace(l)));
    LastSolid(r, t);
  }

  lemma LastSolid(r: string, t: string)
    requires EndsWith(r, t) && (t == "/new" || t == "/ours")
    ensures StripSlash(r) == r
  {
    assert r[|r| - |t|..][|t| - 1] == r[|r| - 1];
  }

  /** Behind each slash of a watched directory comes neither 'n' nor 'o'. */
  lemma SlashesOf(d: string, i: nat)
    requires WatchedDir(d) && i < |d| && d[i] == '/'
    ensures i + 1 < |d| && d[i + 1] != 'n' && d[i + 1] != 'o'
  {
    DirParts(d);
    TwoSlashes("sys:storage", "tolunnet-backup", "c", i);
    TwoSlashes("sys:storage", "tolunnet-backup", "libs", i);
  }

  lemma TwoSlashes(a: string, b: string, c: string, i: nat)
    requires NoSlash(a) && NoSlash(b) && NoSlash(c)
    ensures var d := a + "/" + b + "/" + c; i < |d| && d[i] == '/' ==> i == |a| || i == |a| + 1 + |b|
  {
  }

  lemma DirParts(d: string)
    requires WatchedDir(d)
    ensures d == "sys:c" || d == "sys:storage" + "/" + "tolunnet-backup" + "/" + "c"
            || d == "sys:storage" + "/" + "tolunnet-backup" + "/" + "libs"
  {
    assert BACKUP_KEY == "sys:storage" + "/" + "tolunnet-backup";
  }

  lemma CharOf(k: string, n: nat, i: nat)
    requires n <= i < |k|
    ensures k[n..][i - n] == k[i]
  {
  }

  /** No directory above a watched file ends like a marker directory. */
  lemma NotAbove(k: string, d: string, a: string, t: string)
    requires WatchedDir(d) && FileIn(k, d) && EndsWith(a, t) && (t == "/new" || t == "/ours")
    ensures !Below(k, a)
  {
    if Below(k, a) {
      assert k[|a|] == '/';
      if |a| > |d| { CharOf(k, |d| + 1, |a|); }
      var i := |a| - |t|;
      assert a[i..][0] == '/' && a[i..][1] == t[1];
      assert a[i] == k[i] && a[i + 1] == k[i + 1];
      assert (d + "/")[i] == k[i] && (d + "/")[i + 1] == k[i + 1];
      SlashesOf(d, i);
    }
  }

  /** What must have been seen before the file went. */
  ghost predicate Cleared(t: seq<Event>, d: string, k: string)
    requires FileIn(k, d) && WatchedDir(d)
  {
    if d == "sys:c" then MarkerSeen(t, k) else CopySeen(t, k)
  }

  lemma ClearedGrows(t: seq<Event>, u: seq<Event>, d: string, k: string)
    requires WatchedDir(d) && FileIn(k, d) && t <= u && Cleared(t, d, k)
    ensures Cleared(u, d, k)
  {
    hide Norm;
    assert forall e :: e in t ==> e in u;
  }

  lemma TakenCleared(past: seq<Event>, e: Event, d: string, k: string)
    requires WatchedDir(d) && FileIn(k, d) && SafeNext(past, e) && Takes(e, d, k)
    ensures Cleared(past, d, k)
  {
    hide Norm, Lower, MarkerSeen, CopySeen, C_DIR_KEY, LIBS_DIR_KEY;
    if Below(k, Norm(e.target)) && e.all {
      if EndsWith(Lower(e.target), "/new") {
        NormEnd(e.target, "/new"); NotAbove(k, d, Norm(e.target), "/new");
      } else {
        NormEnd(e.target, "/ours"); NotAbove(k, d, Norm(e.target), "/ours");
      }
    } else if d == "sys:c" {
      assert "sys:c" + "/" == "sys:c/";
      CommandGuard(past, e.target, e.all);
    } else {
      BackupDirShape(d);
      BackupGuard(past, e.target, e.all);
    }
  }

  /** The lint about files: a file of SYS:C or of the backup directories that was
      there before an accepted script ran, and is gone or changed afterwards, had
      its new/ marker found, or was copied before it went; provided no command
      renames it away, or copies something over it or over a directory above it,
      or deletes it in a spelling that is not watched. */
  lemma FilesSafe(lines: seq<string>, names: seq<string>, m: Tree, ro: set<string>, d: string, k: string)
    requires Accepted(lines, names, m) && WatchedDir(d) && FileIn(k, d) && k in m && Housed(m, k)
    requires SparesAll(Parse(lines).value, d, k)
    ensures var r := RunDos(lines, m, ro, [], 0); (k in r.m && r.m[k] == m[k]) || Cleared(r.trace, d, k)
  {
    hide Norm, Lower, ExecBlock, SafeNext, Cleared, Takes, SparesAll, UndoStructure, NoneIsFile, Parse;
    ParsedSome(lines, names);
    var tree, s := Parse(lines).value, State(m, ro, 0, 10, Go, []);
    BlockKeeps(tree, s, 0, d, k, ExecuteKeys(tree));
    var t := TraceOf(lines, m, ro);
    if !Kept(m, RunDos(lines, m, ro, [], 0).m, k) {
      var i :| 0 <= i < |t| && Takes(t[i], d, k);
      TraceSafe(lines, names, m, ro, i);
      TakenCleared(t[..i], t[i], d, k);
      ClearedGrows(t[..i], t, d, k);
    }
  }

  lemma ParsedSome(lines: seq<string>, names: seq<string>)
    requires UndoStructure(lines, names) == []
    ensures Parse(lines).Some?
  {
  }
}
