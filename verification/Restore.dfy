/** What running the undo script does to the files it is meant to restore,
    for every file system and every set of write-protected paths. */
module Restore {
  import opened Seqs
  import opened Text
  import opened Files
  import opened Dos
  import opened Undo
  import opened Keys

  // ------------------------------------------------------------- frames

  /** No command of the block can touch `k` or anything below it. */
  predicate Leaves(b: Block, k: string)
    decreases b, 0
  {
    b == [] || (LeavesItem(b[0], k) && Leaves(b[1..], k))
  }

  predicate LeavesItem(it: Item, k: string)
    decreases it, 1
  {
    match it
    case If(_, _, thn, els) => Leaves(thn, k) && Leaves(els, k)
    case Copy(_, dst) => Unrelated(Norm(dst), k)
    case Delete(target, _) => Unrelated(Norm(target), k)
    case Rename(src, dst) => Unrelated(Norm(src), k) && Unrelated(Norm(dst), k)
    case Execute(_) => false
    case _ => true
  }

  lemma {:induction false} LeavesExec(b: Block, s: State, d: nat, k: string)
    requires d <= MAX_DEPTH && Leaves(b, k)
    ensures AgreeAt(s.m, ExecBlock(b, s, d).m, k)
    decreases b, 0
  {
    hide Norm;
    if b != [] && s.halt == Go {
      var mid := ExecItem(b[0], s, d);
      LeavesExecItem(b[0], s, d, k);
      LeavesExec(b[1..], mid, d, k);
      AgreeTrans(s.m, mid.m, ExecBlock(b[1..], mid, d).m, k);
    }
  }

  lemma {:induction false} LeavesExecItem(it: Item, s: State, d: nat, k: string)
    requires d <= MAX_DEPTH && LeavesItem(it, k)
    ensures AgreeAt(s.m, ExecItem(it, s, d).m, k)
    decreases it, 1
  {
    hide Norm;
    match it {
      case If(neg, test, thn, els) =>
        LeavesExec(if Holds(s, test) != neg then thn else els, Observe(s, test), d, k);
      case Delete(target, _) => UnrelatedDelete(s.m, Norm(target), k);
      case Rename(src, dst) =>
        assert AgreeAt(s.m, s.m - {Norm(src)}, k);
      case _ =>
    }
  }

  lemma {:induction false} LeavesAppend(a: Block, b: Block, k: string)
    ensures Leaves(a + b, k) <==> Leaves(a, k) && Leaves(b, k)
    decreases |a|
  {
    hide Norm;
    if a == [] {
      assert a + b == b;
    } else {
      assert (a + b)[1..] == a[1..] + b;
      LeavesAppend(a[1..], b, k);
    }
  }

  /** Without FailAt and Execute nothing changes the fail level. */
  predicate Steady(b: Block)
    decreases b, 0
  {
    b == [] || (SteadyItem(b[0]) && Steady(b[1..]))
  }

  predicate SteadyItem(it: Item)
    decreases it, 1
  {
    match it
    case If(_, _, thn, els) => Steady(thn) && Steady(els)
    case FailAt(_) => false
    case Execute(_) => false
    case _ => true
  }

  /** Above code 20 no failing command aborts the script. */
  lemma {:induction false} SteadyExec(b: Block, s: State, d: nat)
    requires d <= MAX_DEPTH && Steady(b)
    requires s.halt == Go && s.failat > FAIL
    ensures var r := ExecBlock(b, s, d); r.halt == Go && r.failat == s.failat && r.ro == s.ro
    decreases b, 0
  {
    hide Norm, Kind;
    if b != [] {
      SteadyExecItem(b[0], s, d);
      SteadyExec(b[1..], ExecItem(b[0], s, d), d);
    }
  }

  lemma {:induction false} SteadyExecItem(it: Item, s: State, d: nat)
    requires d <= MAX_DEPTH && SteadyItem(it)
    requires s.halt == Go && s.failat > FAIL
    ensures var r := ExecItem(it, s, d); r.halt == Go && r.failat == s.failat && r.ro == s.ro
    decreases it, 1
  {
    hide Norm, Kind;
    match it {
      case If(neg, test, thn, els) =>
        SteadyExec(if Holds(s, test) != neg then thn else els, Observe(s, test), d);
      case _ =>
    }
  }

  lemma {:induction false} SteadyAppend(a: Block, b: Block)
    ensures Steady(a + b) <==> Steady(a) && Steady(b)
    decreases |a|
  {
    if a == [] {
      assert a + b == b;
    } else {
      assert (a + b)[1..] == a[1..] + b;
      SteadyAppend(a[1..], b);
    }
  }

  lemma LeavesOne(it: Item, k: string)
    requires LeavesItem(it, k)
    ensures Leaves([it], k)
  {
    assert [it][1..] == [];
  }

  lemma LeavesTwo(a: Item, b: Item, k: string)
    requires LeavesItem(a, k) && LeavesItem(b, k)
    ensures Leaves([a, b], k)
  {
    hide LeavesItem;
    LeavesOne(b, k);
    assert [a, b][1..] == [b];
  }

  lemma SteadyOne(it: Item)
    requires SteadyItem(it)
    ensures Steady([it])
  {
    assert [it][1..] == [];
  }

  lemma SteadyTwo(a: Item, b: Item)
    requires SteadyItem(a) && SteadyItem(b)
    ensures Steady([a, b])
  {
    hide SteadyItem;
    SteadyOne(b);
    assert [a, b][1..] == [b];
  }

  lemma DropLeaves(path: string, all: bool, k: string)
    requires Unrelated(Norm(path), k)
    ensures LeavesItem(Drop(path, all), k)
  {
    LeavesOne(Delete(path, all), k);
  }

  lemma DropSteady(path: string, all: bool)
    ensures SteadyItem(Drop(path, all))
  {
    SteadyOne(Delete(path, all));
  }

  lemma NoteLeaves(text: seq<string>, k: string)
    ensures Leaves([Echo(text)], k) && Steady([Echo(text)])
  {
    LeavesOne(Echo(text), k);
    SteadyOne(Echo(text));
  }

  lemma RestoreLeaves(backup: string, live: string, dir: string, k: string)
    requires Unrelated(Norm(backup), k) && Unrelated(Norm(live), k)
    ensures Leaves(RestoreFile(backup, live, dir), k)
  {
    hide Norm, Unrelated;
    var b := RestoreFile(backup, live, dir);
    NoteLeaves(b[1].thn[0].text, k);
    LeavesOne(Delete(backup, false), k);
    LeavesTwo(b[0], b[1], k);
  }

  lemma RestoreSteady(backup: string, live: string, dir: string)
    ensures Steady(RestoreFile(backup, live, dir))
  {
    var b := RestoreFile(backup, live, dir);
    NoteLeaves(b[1].thn[0].text, "");
    SteadyOne(Delete(backup, false));
    SteadyTwo(b[0], b[1]);
  }

  // ---------------------------------------------------------- unfolding

  lemma ExecOne(it: Item, s: State, d: nat)
    requires d <= MAX_DEPTH && s.halt == Go
    ensures ExecBlock([it], s, d) == ExecItem(it, s, d)
  {
    hide Norm, Kind;
    assert [it][1..] == [];
  }

  lemma ExecTwo(a: Item, b: Item, s: State, d: nat)
    requires d <= MAX_DEPTH && s.halt == Go && ExecItem(a, s, d).halt == Go
    ensures ExecBlock([a, b], s, d) == ExecItem(b, ExecItem(a, s, d), d)
  {
    hide Norm, Kind;
    assert [a, b][1..] == [b];
    ExecOne(b, ExecItem(a, s, d), d);
  }

  // ------------------------------------------------------- file contents

  /** The content of the file at `k`, None without one. */
  function Content(m: Tree, k: string): Option<string> {
    if k in m && m[k].File? then Some(m[k].data) else None
  }

  /** A file or nothing, and nothing below. */
  predicate Plain(m: Tree, k: string) {
    Children(m, k) == {} && (k in m ==> m[k].File?)
  }

  predicate Keylike(k: string) {
    k != [] && k[|k| - 1] != ':'
  }

  lemma PlainKind(m: Tree, k: string)
    requires Plain(m, k) && Keylike(k)
    ensures Kind(m, k) == FILE <==> Content(m, k).Some?
    ensures Kind(m, k) == ABSENT <==> Content(m, k).None?
  {
  }

  lemma AgreePlain(m: Tree, m': Tree, k: string)
    requires AgreeAt(m, m', k)
    ensures Plain(m, k) <==> Plain(m', k)
    ensures Content(m, k) == Content(m', k)
    ensures Kind(m, k) == Kind(m', k)
  {
    AgreeKind(m, m', k);
  }

  // ------------------------------------------------- one restored file

  /** Restore from a plain backup: the Copy either changes nothing and is
      reported, or puts the backup's content in place; only then may the
      backup go. */
  lemma RestoreExec(backup: string, live: string, dir: string, s: State, d: nat)
    requires d <= MAX_DEPTH && s.halt == Go && s.failat > FAIL
    requires Unrelated(Norm(backup), Norm(live))
    requires Plain(s.m, Norm(backup)) && Keylike(Norm(backup)) && Content(s.m, Norm(backup)).Some?
    ensures var r, kb, kl := ExecBlock(RestoreFile(backup, live, dir), s, d), Norm(backup), Norm(live);
            var done := s.m[kl := s.m[kb]];
            && (r.m == s.m || r.m == done || r.m == done - {kb})
            && (Writable(s.ro, kl) ==> r.m == done || r.m == done - {kb})
            && (Writable(s.ro, kl) && Writable(s.ro, kb) ==> r.m == done - {kb})
  {
    hide Norm, Writable;
    var kb, kl := Norm(backup), Norm(live);
    var b := RestoreFile(backup, live, dir);
    PlainKind(s.m, kb);
    var s1 := ExecItem(b[0], s, d);
    assert s1 == RunCopy(s.(rc := 0), backup, live);
    assert s1.halt == Go;
    ExecTwo(b[0], b[1], s, d);
    var s2 := ExecItem(b[1], s1, d);
    if Writable(s.ro, kl) {
      ExecOne(b[1].els[0], s1, d);
      AgreeWrite(s.m, kl, s.m[kb], kb);
      AgreeKind(s.m, s1.m, kb);
      assert Children(s1.m, kb) == {};
      assert {kb} + {} == {kb};
    } else {
      ExecOne(b[1].thn[0], s1, d);
    }
  }

  /** `If EXISTS p / Delete p`: afterwards `p` is gone or untouched. */
  lemma DropExec(path: string, all: bool, s: State, d: nat)
    requires d <= MAX_DEPTH && s.halt == Go
    ensures var r, k := ExecItem(Drop(path, all), s, d), Norm(path);
            && (r.m == s.m || r.m == s.m - ({k} + Children(s.m, k)))
            && (Plain(s.m, k) && Keylike(k) && Writable(s.ro, k) ==> r.m == s.m - {k})
  {
    hide Norm, Writable;
    var k := Norm(path);
    ExecOne(Delete(path, all), Observe(s, Exists(path)), d);
    if Plain(s.m, k) && Keylike(k) {
      PlainKind(s.m, k);
      assert {k} + {} == {k};
      if k !in s.m { assert s.m - {k} == s.m; }
    }
  }

  // -------------------------------------------------- the command files

  /** Every state an install can leave one command file in: untouched, its
      original saved, or marked as created by tolunnet. `orig` is what the
      system had before the first install. */
  predicate Safe(m: Tree, n: string, orig: Option<string>) {
    && Plain(m, LiveKey(n)) && Plain(m, BackupKey(n))
    && (|| (Content(m, LiveKey(n)) == orig && Content(m, BackupKey(n)).None? && Kind(m, NewKey(n)) == ABSENT)
        || (orig.Some? && Content(m, BackupKey(n)) == orig)
        || (orig.None? && Content(m, BackupKey(n)).None? && Kind(m, NewKey(n)) != ABSENT))
  }

  lemma NameUnrelated(n: string)
    requires ValidName(n)
    ensures Unrelated(BackupKey(n), LiveKey(n)) && Unrelated(NewKey(n), LiveKey(n))
    ensures Unrelated(LiveKey(n), BackupKey(n)) && Unrelated(BackupKey(n), NewKey(n))
    ensures Keylike(LiveKey(n)) && Keylike(BackupKey(n)) && Keylike(NewKey(n))
  {
    NameShape(n);
    AreasApart(BackupKey(n), LiveKey(n));
    AreasApart(NewKey(n), LiveKey(n));
    PartsApart(BackupKey(n), NewKey(n));
  }

  lemma NameWritable(n: string)
    requires ValidName(n)
    ensures Writable({}, LiveKey(n)) && Writable({}, BackupKey(n))
  {
    NamesShort(n);
  }

  lemma NameUndoSaved(n: string, orig: Option<string>, s: State, d: nat)
    requires d <= MAX_DEPTH && s.halt == Go && s.failat > FAIL && ValidName(n)
    requires Safe(s.m, n, orig) && Content(s.m, BackupKey(n)).Some?
    ensures var r := ExecItem(NameItem(n), s, d);
            && Plain(r.m, LiveKey(n)) && Plain(r.m, BackupKey(n))
            && (s.ro == {} ==> Content(r.m, LiveKey(n)) == orig && Content(r.m, BackupKey(n)).None?)
            && (Content(r.m, LiveKey(n)) == orig || Content(r.m, BackupKey(n)) == orig)
  {
    hide Norm, Lower, Writable, BackupKey, LiveKey, NewKey;
    NameKeys(n); NameUnrelated(n); NameWritable(n);
    var kb, kl := BackupKey(n), LiveKey(n);
    PlainKind(s.m, kb);
    var s' := Observe(s, Exists(BackupPath(n)));
    RestoreExec(BackupPath(n), LivePath(n), BK + "/C", s', d);
    var done := s.m[kl := s.m[kb]];
    AgreeWrite(s.m, kl, s.m[kb], kb);
    AgreePlain(s.m, done, kb);
    assert Children(done, kl) == Children(s.m, kl);
    assert Children(done - {kb}, kl) == {} by {
      assert Children(done - {kb}, kl) <= Children(done, kl);
    }
    assert Children(done - {kb}, kb) == {} by {
      assert Children(done - {kb}, kb) <= Children(done, kb);
    }
  }

  lemma NameUndoOther(n: string, orig: Option<string>, s: State, d: nat)
    requires d <= MAX_DEPTH && s.halt == Go && s.failat > FAIL && ValidName(n)
    requires Safe(s.m, n, orig) && Content(s.m, BackupKey(n)).None?
    ensures var r := ExecItem(NameItem(n), s, d);
            && Plain(r.m, LiveKey(n)) && Plain(r.m, BackupKey(n))
            && (s.ro == {} ==> Content(r.m, LiveKey(n)) == orig && Content(r.m, BackupKey(n)).None?)
            && (orig.Some? ==> Content(r.m, LiveKey(n)) == orig)
  {
    hide Norm, Lower, Writable, BackupKey, LiveKey, NewKey;
    NameKeys(n); NameUnrelated(n); NameWritable(n);
    var kb, kl := BackupKey(n), LiveKey(n);
    PlainKind(s.m, kb);
    PlainKind(s.m, kl);
    var s1 := Observe(s, Exists(BackupPath(n)));
    var marked := When(NewPath(n), [Drop(LivePath(n))]);
    ExecOne(marked, s1, d);
    var s2 := Observe(s1, Exists(NewPath(n)));
    if Kind(s.m, NewKey(n)) != ABSENT {
      ExecOne(Drop(LivePath(n)), s2, d);
      DropExec(LivePath(n), false, s2, d);
      assert s.m - ({kl} + Children(s.m, kl)) == s.m - {kl};
      assert Children(s.m - {kl}, kl) <= Children(s.m, kl);
      assert Children(s.m - {kl}, kb) <= Children(s.m, kb);
    }
  }

  /** Undoing one command file: without write protection it has its original
      content or absence again; with any protection a saved original stays
      in the live file or in the backup. */
  lemma NameUndo(n: string, orig: Option<string>, s: State, d: nat)
    requires d <= MAX_DEPTH && s.halt == Go && s.failat > FAIL && ValidName(n)
    requires Safe(s.m, n, orig)
    ensures var r := ExecItem(NameItem(n), s, d);
            && Plain(r.m, LiveKey(n)) && Plain(r.m, BackupKey(n))
            && (s.ro == {} ==> Content(r.m, LiveKey(n)) == orig && Content(r.m, BackupKey(n)).None?)
            && (orig.Some? ==> Content(r.m, LiveKey(n)) == orig || Content(r.m, BackupKey(n)) == orig)
  {
    if Content(s.m, BackupKey(n)).Some? {
      NameUndoSaved(n, orig, s, d);
    } else {
      NameUndoOther(n, orig, s, d);
    }
  }

  lemma NameSteady(n: string)
    ensures SteadyItem(NameItem(n))
  {
    RestoreSteady(BackupPath(n), LivePath(n), BK + "/C");
    DropSteady(LivePath(n), false);
    SteadyOne(Drop(LivePath(n)));
    SteadyOne(When(NewPath(n), [Drop(LivePath(n))]));
  }

  lemma {:induction false} NamesSteady(names: seq<string>)
    ensures Steady(NameItems(names))
  {
    if names != [] {
      NameSteady(names[0]);
      NamesSteady(names[1..]);
      assert NameItems(names)[1..] == NameItems(names[1..]);
    }
  }

  /** The block of one name leaves every key alone that is unrelated to its
      live and its backup file. */
  lemma NameLeaves(n: string, k: string)
    requires ValidName(n) && Unrelated(LiveKey(n), k) && Unrelated(BackupKey(n), k)
    ensures LeavesItem(NameItem(n), k)
  {
    hide Norm, Unrelated, LiveKey, BackupKey, NewKey;
    NameKeys(n);
    RestoreLeaves(BackupPath(n), LivePath(n), BK + "/C", k);
    DropLeaves(LivePath(n), false, k);
    LeavesOne(Drop(LivePath(n)), k);
    LeavesOne(When(NewPath(n), [Drop(LivePath(n))]), k);
  }

  lemma OthersLeave(n: string, k: string, rest: seq<string>)
    requires ValidName(n) && forall i :: 0 <= i < |rest| ==> ValidName(rest[i]) && Lower(rest[i]) != Lower(n)
    requires k == LiveKey(n) || k == BackupKey(n) || k == NewKey(n)
    ensures Leaves(NameItems(rest), k)
  {
    if rest != [] {
      var m := rest[0];
      NameShape(n); NameShape(m); OtherName(m, n);
      if k == LiveKey(n) {
        AreasApart(BackupKey(m), k);
      } else {
        AreasApart(LiveKey(m), k);
        if k == NewKey(n) { PartsApart(BackupKey(m), k); }
      }
      NameLeaves(m, k);
      OthersLeave(n, k, rest[1..]);
      assert NameItems(rest)[1..] == NameItems(rest[1..]);
    }
  }
}
