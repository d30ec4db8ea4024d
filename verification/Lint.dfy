/** The structural lint of the undo script, and what an accepted script can
    and cannot do when it runs. */
module Lint {
  import opened Seqs
  import opened Text
  import opened Files
  import opened Dos
  import opened Undo

  datatype Finding =
    | LongLine(line: string)
    | EchoKeyword(line: string)
    | NoParse
    | NoFailAtFirst
    | NoStacksFirst
    | DeleteAll(path: string)
    | UncheckedBackup(path: string)
    | UnmarkedDelete(path: string)
    | StartupOverwritten(src: string)
    | LibraryOverwritten
    | NotRestored(name: string)
    | GroupNotRestored
    | StartupBackupLeft

  // ----------------------------------------------------------- the walk

  /** An enclosing If: its test, the branch taken, the item before it. */
  datatype Cond = Cond(neg: bool, test: Test, thn: bool, prev: Option<Item>)

  const BACKUP_C := "sys:storage/tolunnet-backup/c/"
  const BACKUP_LIBS := "sys:storage/tolunnet-backup/libs/"

  /** Below the two directories of originals, as the lint spells it. */
  predicate IsBackup(low: string) {
    BACKUP_C <= low || BACKUP_LIBS <= low
  }

  predicate IsCommand(low: string) {
    "sys:c/" <= low
  }

  /** The innermost If is the Else of an `If WARN` right after a Copy of p. */
  predicate CopyChecked(conds: seq<Cond>, low: string) {
    conds != [] &&
    var c := conds[|conds| - 1];
    c.test.Warn? && !c.neg && !c.thn && c.prev.Some? && c.prev.value.Copy? && Lower(c.prev.value.src) == low
  }

  /** Some enclosing If established that the path exists (or not). */
  predicate Established(conds: seq<Cond>, low: string, present: bool) {
    exists i :: 0 <= i < |conds| && conds[i].test.Exists? && Lower(conds[i].test.path) == low
                && (conds[i].thn != conds[i].neg) == present
  }

  /** The marker test the lint looks for: a plain If EXISTS, then-branch. */
  predicate Marked(conds: seq<Cond>, low: string) {
    exists i :: 0 <= i < |conds| && conds[i].test.Exists? && Lower(conds[i].test.path) == low && !conds[i].neg
      && conds[i].thn
  }

  function MarkerOf(path: string): string
    requires |path| >= 6
  {
    Lower(BK + "/new/" + path[6..])
  }

  function CheckDelete(path: string, all: bool, conds: seq<Cond>): seq<Finding> {
    var p := Lower(path);
    (if all && !EndsWith(p, "/new") && !EndsWith(p, "/ours") then [DeleteAll(path)] else [])
    + (if IsBackup(p) && !CopyChecked(conds, p) then [UncheckedBackup(path)] else [])
    + (if IsCommand(p) && !Marked(conds, MarkerOf(path)) then [UnmarkedDelete(path)] else [])
  }

  const STARTUP_LOW := "s:user-startup"
  const LIB_LOW := "libs:bsdsocket.library"

  function CheckWrite(isRename: bool, src: string, dst: string, conds: seq<Cond>): seq<Finding> {
    var d := Lower(dst);
    (if d == STARTUP_LOW && !(isRename && Established(conds, d, false)) then [StartupOverwritten(src)] else [])
    + (if d == LIB_LOW && !Established(conds, d, false) then [LibraryOverwritten] else [])
  }

  function Walk(b: Block, conds: seq<Cond>, prev: Option<Item>): seq<Finding>
    decreases b, 0
  {
    if b == [] then [] else Check(b[0], conds, prev) + Walk(b[1..], conds, Some(b[0]))
  }

  function Check(it: Item, conds: seq<Cond>, prev: Option<Item>): seq<Finding>
    decreases it, 1
  {
    match it
    case If(neg, test, thn, els) =>
      Walk(thn, conds + [Cond(neg, test, true, prev)], None) + Walk(els, conds + [Cond(neg, test, false, prev)], None)
    case Delete(target, all) => CheckDelete(target, all, conds)
    case Copy(src, dst) => CheckWrite(false, src, dst, conds)
    case Rename(src, dst) => CheckWrite(true, src, dst, conds)
    case _ => []
  }

  /** All items of a block, nested ones included. */
  function AllItems(b: Block): seq<Item>
    decreases b, 0
  {
    if b == [] then [] else [b[0]] + Nested(b[0]) + AllItems(b[1..])
  }

  function Nested(it: Item): seq<Item>
    decreases it, 1
  {
    if it.If? then AllItems(it.thn) + AllItems(it.els) else []
  }

  predicate Restores(items: seq<Item>, n: string) {
    exists i :: 0 <= i < |items| && items[i].Copy? && Lower(items[i].src) == Lower(BackupPath(n))
                && Lower(items[i].dst) == Lower(LivePath(n))
  }

  predicate RestoresGroup(items: seq<Item>) {
    exists i :: 0 <= i < |items| && items[i].Copy? && Lower(items[i].src) == Lower(BACKUP_UG)
  }

  predicate MovesStartupBackup(items: seq<Item>) {
    exists i :: 0 <= i < |items| &&
      (|| (items[i].Rename? && Lower(items[i].src) == Lower(US_BAK))
       || (items[i].Delete? && Lower(items[i].target) == Lower(US_BAK)))
  }

  function Coverage(items: seq<Item>, names: seq<string>): seq<Finding> {
    if names == [] then []
    else (if Restores(items, names[0]) then [] else [NotRestored(names[0])]) + Coverage(items, names[1..])
  }

  predicate RunsStacksFirst(tree: Block) {
    && |tree| >= 2 && tree[1].If? && !tree[1].neg && tree[1].test == Exists(STACKS)
    && exists i :: 0 <= i < |tree[1].thn| && tree[1].thn[i] == Execute(STACKS)
  }

  function TreeFindings(tree: Block, names: seq<string>): seq<Finding> {
    (if tree == [] || tree[0] != FailAt(21) then [NoFailAtFirst] else [])
    + (if RunsStacksFirst(tree) then [] else [NoStacksFirst])
    + Walk(tree, [], None)
    + Coverage(AllItems(tree), names)
    + (if RestoresGroup(AllItems(tree)) then [] else [GroupNotRestored])
    + (if MovesStartupBackup(AllItems(tree)) then [] else [StartupBackupLeft])
  }

  // ---------------------------------------------------------- the lines

  const LINE_LIMIT := 255

  predicate EchoWord(w: string) {
    Upper(w) == "NOLINE" || Upper(w) == "FIRST" || Upper(w) == "LEN"
  }

  predicate IsEcho(ws: seq<string>) {
    |ws| >= 2 && Upper(ws[0]) == "ECHO"
  }

  function LineFindings(lines: seq<string>): seq<Finding> {
    if lines == [] then []
    else
      var ws := SplitWords(lines[0]);
      (if |lines[0]| > LINE_LIMIT then [LongLine(lines[0])] else [])
      + (if IsEcho(ws) && (exists i :: 1 <= i < |ws| && EchoWord(ws[i])) then [EchoKeyword(lines[0])] else [])
      + LineFindings(lines[1..])
  }

  /** The lint's findings on an undo script. */
  function UndoStructure(lines: seq<string>, names: seq<string>): seq<Finding> {
    match Parse(lines)
    case None => [NoParse]
    case Some(tree) => LineFindings(lines) + TreeFindings(tree, names)
  }

  // ---------------------------------------------------------- soundness

  /** The keys that the block executes as scripts. */
  function ExecuteKeys(b: Block): set<string>
    decreases b, 0
  {
    if b == [] then {} else ItemExecuteKeys(b[0]) + ExecuteKeys(b[1..])
  }

  function ItemExecuteKeys(it: Item): set<string>
    decreases it, 1
  {
    match it
    case If(_, _, thn, els) => ExecuteKeys(thn) + ExecuteKeys(els)
    case Execute(script) => {Norm(script)}
    case _ => {}
  }

  /** The keys that the block copies or renames something to. */
  function WriteKeys(b: Block): set<string>
    decreases b, 0
  {
    if b == [] then {} else ItemWriteKeys(b[0]) + WriteKeys(b[1..])
  }

  function ItemWriteKeys(it: Item): set<string>
    decreases it, 1
  {
    match it
    case If(_, _, thn, els) => WriteKeys(thn) + WriteKeys(els)
    case Copy(_, dst) => {Norm(dst)}
    case Rename(_, dst) => {Norm(dst)}
    case _ => {}
  }

  predicate NoneIsFile(m: Tree, keys: set<string>) {
    forall k :: k in keys ==> Kind(m, k) != FILE
  }

  /** On this system no other script comes into play: what the script executes
      is no file, and the script itself puts none there. */
  predicate Alone(tree: Block, m: Tree) {
    ExecuteKeys(tree) !! WriteKeys(tree) && NoneIsFile(m, ExecuteKeys(tree))
  }

  /** What may happen next, given what happened before. */
  ghost predicate SafeNext(past: seq<Event>, e: Event) {
    match e
    case Deleted(target, all) =>
      var p := Lower(target);
      && (all ==> EndsWith(p, "/new") || EndsWith(p, "/ours"))
      && (IsBackup(p) ==> exists src, dst :: Copied(src, dst) in past && Lower(src) == p)
      && (IsCommand(p) ==> exists q :: Tested(q, true) in past && Lower(q) == MarkerOf(target))
    case Copied(_, dst) =>
      && Lower(dst) != STARTUP_LOW
      && (Lower(dst) == LIB_LOW ==> exists q :: Tested(q, false) in past && Lower(q) == LIB_LOW)
    case Renamed(_, dst) =>
      && (Lower(dst) == STARTUP_LOW ==> exists q :: Tested(q, false) in past && Lower(q) == STARTUP_LOW)
      && (Lower(dst) == LIB_LOW ==> exists q :: Tested(q, false) in past && Lower(q) == LIB_LOW)
    case _ => true
  }

  ghost predicate SafeTrace(t: seq<Event>) {
    forall i :: 0 <= i < |t| ==> SafeNext(t[..i], t[i])
  }

  lemma SafeExtend(t: seq<Event>, e: Event)
    requires SafeTrace(t) && SafeNext(t, e)
    ensures SafeTrace(t + [e])
  {
    hide SafeNext;
    forall i | 0 <= i < |t + [e]| ensures SafeNext((t + [e])[..i], (t + [e])[i]) {
      if i < |t| {
        assert (t + [e])[..i] == t[..i];
      } else {
        assert (t + [e])[..i] == t;
      }
    }
  }

  /** What the run so far has established about one enclosing If. */
  ghost predicate Witnessed(c: Cond, t: seq<Event>) {
    match c.test
    case Exists(path) => Tested(path, c.thn != c.neg) in t
    case Warn => !c.neg && !c.thn && c.prev.Some? && c.prev.value.Copy? ==>
      Copied(c.prev.value.src, c.prev.value.dst) in t
  }

  ghost predicate AllWitnessed(conds: seq<Cond>, t: seq<Event>) {
    forall i :: 0 <= i < |conds| ==> Witnessed(conds[i], t)
  }

  lemma WitnessedGrows(conds: seq<Cond>, t: seq<Event>, u: seq<Event>)
    requires AllWitnessed(conds, t) && t <= u
    ensures AllWitnessed(conds, u)
  {
    assert forall e :: e in t ==> e in u;
    forall i | 0 <= i < |conds| ensures Witnessed(conds[i], u) {
      assert Witnessed(conds[i], t);
    }
  }

  /** After a Copy the return code says whether it happened. */
  ghost predicate CodeTells(prev: Option<Item>, s: State) {
    prev.Some? && prev.value.Copy? && s.rc < 5 ==> Copied(prev.value.src, prev.value.dst) in s.trace
  }

  lemma DeleteSafe(target: string, all: bool, conds: seq<Cond>, t: seq<Event>)
    requires CheckDelete(target, all, conds) == [] && AllWitnessed(conds, t)
    ensures SafeNext(t, Deleted(target, all))
  {
    hide EndsWith, MarkerOf, Lower;
    var p := Lower(target);
    if IsBackup(p) {
      var c := conds[|conds| - 1];
      assert CopyChecked(conds, p);
      assert Witnessed(c, t);
      assert Copied(c.prev.value.src, c.prev.value.dst) in t;
    }
    if IsCommand(p) {
      assert Marked(conds, MarkerOf(target));
      var i :| 0 <= i < |conds| && conds[i].test.Exists? && Lower(conds[i].test.path) == MarkerOf(target)
               && !conds[i].neg && conds[i].thn;
      assert Witnessed(conds[i], t);
      assert Tested(conds[i].test.path, true) in t;
    }
  }

  lemma EstablishedAbsent(conds: seq<Cond>, low: string, t: seq<Event>)
    requires Established(conds, low, false) && AllWitnessed(conds, t)
    ensures exists q :: Tested(q, false) in t && Lower(q) == low
  {
    var i :| 0 <= i < |conds| && conds[i].test.Exists? && Lower(conds[i].test.path) == low
             && (conds[i].thn != conds[i].neg) == false;
    assert Witnessed(conds[i], t);
    assert Tested(conds[i].test.path, false) in t;
  }

  lemma WriteSafe(isRename: bool, src: string, dst: string, conds: seq<Cond>, t: seq<Event>)
    requires CheckWrite(isRename, src, dst, conds) == [] && AllWitnessed(conds, t)
    ensures SafeNext(t, if isRename then Renamed(src, dst) else Copied(src, dst))
  {
    hide Lower, LIB_LOW, STARTUP_LOW;
    if Lower(dst) == STARTUP_LOW { EstablishedAbsent(conds, STARTUP_LOW, t); }
    if Lower(dst) == LIB_LOW { EstablishedAbsent(conds, LIB_LOW, t); }
  }

  /** A command that writes elsewhere puts no script where none was. */
  lemma StillNoFile(it: Item, s: State, keys: set<string>)
    requires !it.If? && !it.Execute? && ItemWriteKeys(it) !! keys && NoneIsFile(s.m, keys)
    ensures NoneIsFile(ExecItem(it, s, 0).m, keys)
  {
    hide Norm, Writable;
    forall k | k in keys ensures Kind(ExecItem(it, s, 0).m, k) != FILE {
      assert Kind(s.m, k) != FILE;
    }
  }

  lemma {:induction false} WalkSound(b: Block, conds: seq<Cond>, prev: Option<Item>, s: State, d: nat,
                                     keys: set<string>)
    requires d <= MAX_DEPTH && Walk(b, conds, prev) == []
    requires ExecuteKeys(b) <= keys && WriteKeys(b) !! keys && NoneIsFile(s.m, keys)
    requires AllWitnessed(conds, s.trace) && CodeTells(prev, s) && SafeTrace(s.trace)
    ensures var r := ExecBlock(b, s, d); s.trace <= r.trace && SafeTrace(r.trace) && NoneIsFile(r.m, keys)
    decreases b, 0
  {
    hide SafeTrace, AllWitnessed, Norm, Kind, Writable, NoneIsFile;
    if b != [] && s.halt == Go {
      var mid := ExecItem(b[0], s, d);
      CheckSound(b[0], conds, prev, s, d, keys);
      WitnessedGrows(conds, s.trace, mid.trace);
      WalkSound(b[1..], conds, Some(b[0]), mid, d, keys);
    }
  }

  lemma {:induction false} CheckSound(it: Item, conds: seq<Cond>, prev: Option<Item>, s: State, d: nat,
                                      keys: set<string>)
    requires d <= MAX_DEPTH && Check(it, conds, prev) == []
    requires ItemExecuteKeys(it) <= keys && ItemWriteKeys(it) !! keys && NoneIsFile(s.m, keys)
    requires AllWitnessed(conds, s.trace) && CodeTells(prev, s) && SafeTrace(s.trace)
    ensures var r := ExecItem(it, s, d);
            s.trace <= r.trace && SafeTrace(r.trace) && CodeTells(Some(it), r) && NoneIsFile(r.m, keys)
    decreases it, 1
  {
    hide SafeTrace, Norm, Kind, Writable, SafeNext, CheckDelete, CheckWrite, NoneIsFile;
    match it {
      case If(neg, test, thn, els) =>
        var taken := Holds(s, test) != neg;
        var c := Cond(neg, test, taken, prev);
        var s1 := Observe(s, test);
        if test.Exists? {
          TestedSafe(s.trace, test.path, Holds(s, test));
        }
        assert Witnessed(c, s1.trace);
        WitnessedGrows(conds, s.trace, s1.trace);
        assert AllWitnessed(conds + [c], s1.trace);
        WalkSound(if taken then thn else els, conds + [c], None, s1, d, keys);
      case Delete(target, all) =>
        StillNoFile(it, s, keys);
        DeleteSafe(target, all, conds, s.trace);
        SafeExtend(s.trace, Deleted(target, all));
      case Copy(src, dst) =>
        StillNoFile(it, s, keys);
        WriteSafe(false, src, dst, conds, s.trace);
        SafeExtend(s.trace, Copied(src, dst));
      case Rename(src, dst) =>
        StillNoFile(it, s, keys);
        WriteSafe(true, src, dst, conds, s.trace);
        SafeExtend(s.trace, Renamed(src, dst));
      case Echo(text) => EchoedSafe(s.trace, text);
      case Execute(script) => NoScript(s.m, script, keys);
      case _ =>
    }
  }

  lemma NoScript(m: Tree, script: string, keys: set<string>)
    requires Norm(script) in keys && NoneIsFile(m, keys)
    ensures Kind(m, Norm(script)) != FILE
  {
  }

  lemma TestedSafe(t: seq<Event>, path: string, present: bool)
    requires SafeTrace(t)
    ensures SafeTrace(t + [Tested(path, present)])
  {
    assert SafeNext(t, Tested(path, present));
    SafeExtend(t, Tested(path, present));
  }

  lemma EchoedSafe(t: seq<Event>, text: seq<string>)
    requires SafeTrace(t)
    ensures SafeTrace(t + [Echoed(text)])
  {
    assert SafeNext(t, Echoed(text));
    SafeExtend(t, Echoed(text));
  }

  /** Every run of a tree that the walk accepts, with every write protection and
      on every file system where no other script comes into play, is safe at
      every step. */
  lemma WalkedSafe(tree: Block, m: Tree, ro: set<string>)
    requires Walk(tree, [], None) == [] && Alone(tree, m)
    ensures SafeTrace(ExecBlock(tree, State(m, ro, 0, 10, Go, []), 0).trace)
  {
    WalkSound(tree, [], None, State(m, ro, 0, 10, Go, []), 0, ExecuteKeys(tree));
  }

  /** The lint accepts the script, and on `m` it is the only one to run. */
  ghost predicate Accepted(lines: seq<string>, names: seq<string>, m: Tree) {
    UndoStructure(lines, names) == [] && Alone(Parse(lines).value, m)
  }

  /** Every run of a script that the whole lint accepts is safe at every step. */
  lemma LintSound(lines: seq<string>, names: seq<string>, m: Tree, ro: set<string>)
    requires Accepted(lines, names, m)
    ensures SafeTrace(RunDos(lines, m, ro, [], 0).trace)
  {
    hide Walk, Coverage, AllItems, RestoresGroup, MovesStartupBackup, RunsStacksFirst, LineFindings, ExecBlock,
         SafeTrace, Alone, Parse;
    var tree := Parse(lines).value;
    assert TreeFindings(tree, names) == [];
    WalkedSafe(tree, m, ro);
  }

  // --------------------------------------------------- what a Delete takes

  /** A Delete without ALL removes the target alone, on every file system on
      which no file has entries below it. */
  lemma DeleteWithoutAll(s: State, target: string)
    requires Norm(target) in s.m && s.m[Norm(target)].File? ==> Children(s.m, Norm(target)) == {}
    ensures var r := RunDelete(s, target, false).m; r == s.m || r == s.m - {Norm(target)}
  {
    hide Norm, Writable;
    var k := Norm(target);
    assert {k} + {} == {k};
  }
}
