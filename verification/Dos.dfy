/** The AmigaDOS subset of the undo simulator: tokeniser, block parser and
    interpreter over the dictionary file system. */
module Dos {
  import opened Seqs
  import opened Text
  import opened Files

  datatype Test = Exists(path: string) | Warn

  datatype Item =
    | If(neg: bool, test: Test, thn: seq<Item>, els: seq<Item>)
    | FailAt(level: int)
    | Echo(text: seq<string>)
    | Copy(src: string, dst: string)
    | Delete(target: string, all: bool)
    | Rename(src: string, dst: string)
    | Execute(script: string)

  type Block = seq<Item>

  // ---------------------------------------------------------- tokeniser

  datatype Token =
    | Blank
    | Bad
    | OpenIf(neg: bool, test: Test)
    | Else
    | EndIf
    | Command(item: Item)

  const NIL := ">NIL:"

  /** The arguments of a command without the output redirection. */
  function Args(ws: seq<string>): seq<string> {
    if ws == [] then []
    else if Upper(ws[0]) == NIL then Args(ws[1..])
    else [ws[0]] + Args(ws[1..])
  }

  predicate HasFlag(ws: seq<string>, flag: string) {
    exists i :: 0 <= i < |ws| && Upper(ws[i]) == flag
  }

  function TokenizeIf(ws: seq<string>): Token {
    var neg := ws != [] && Upper(ws[0]) == "NOT";
    var rest := if neg then ws[1..] else ws;
    if rest == [] then Bad
    else if Upper(rest[0]) == "EXISTS" then
      if |rest| < 2 then Bad else OpenIf(neg, Exists(rest[1]))
    else if Upper(rest[0]) == "WARN" then OpenIf(neg, Warn)
    else Bad
  }

  /** What follows `Run`, without a leading redirection. */
  function AfterRun(ws: seq<string>): (r: seq<string>)
    requires ws != []
    ensures |r| <= |ws|
  {
    if NIL <= ws[0] then
      if |ws[0]| == |NIL| then ws[1..] else [ws[0][|NIL|..]] + ws[1..]
    else ws
  }

  function TokenizeCommand(verb: string, ws: seq<string>): Token {
    var args := Args(ws);
    if verb == "COPY" then
      if |args| < 2 then Bad else Command(Copy(args[0], args[1]))
    else if verb == "DELETE" then
      if args == [] then Bad else Command(Delete(args[0], HasFlag(args[1..], "ALL")))
    else if verb == "RENAME" then
      if |args| < 2 then Bad else Command(Rename(args[0], args[1]))
    else if verb == "ECHO" then Command(Echo(ws))
    else if verb == "EXECUTE" then
      if args == [] then Bad else Command(Execute(args[0]))
    else Bad
  }

  /** The token of one line, given as its words. */
  function Tokenize(ws: seq<string>): Token
    decreases |ws|
  {
    if ws == [] || ws[0] == [] || ws[0][0] == ';' then Blank
    else
      var verb := Upper(ws[0]);
      if verb == "FAILAT" then
        if |ws| < 2 || ParseNat(ws[1]).None? then Bad
        else Command(FailAt(ParseNat(ws[1]).value))
      else if verb == "IF" then TokenizeIf(ws[1..])
      else if verb == "ELSE" then Else
      else if verb == "ENDIF" then EndIf
      else if verb == "RUN" then
        if |ws| < 2 then Bad else Tokenize(AfterRun(ws[1..]))
      else TokenizeCommand(verb, ws[1..])
  }

  // ------------------------------------------------------------- parser

  /** An open If: the items before it, its condition, its then-body once the
      Else was seen. */
  datatype Open = Open(before: Block, neg: bool, test: Test, thn: Block, inElse: bool)

  function Close(o: Open, cur: Block): Block {
    o.before + [if o.inElse then If(o.neg, o.test, o.thn, cur) else If(o.neg, o.test, cur, [])]
  }

  /** The parser after some lines: `cur` is the innermost block so far. */
  function ParseFrom(lines: seq<string>, cur: Block, stack: seq<Open>): Option<Block> {
    if lines == [] then
      if stack == [] then Some(cur) else None
    else
      match Tokenize(SplitWords(lines[0]))
      case Blank => ParseFrom(lines[1..], cur, stack)
      case Bad => None
      case OpenIf(neg, test) =>
        ParseFrom(lines[1..], [], stack + [Open(cur, neg, test, [], false)])
      case Else =>
        if stack == [] then None
        else
          var top := stack[|stack| - 1];
          if top.inElse then ParseFrom(lines[1..], cur, stack)
          else ParseFrom(lines[1..], [], stack[..|stack| - 1] + [top.(thn := cur, inElse := true)])
      case EndIf =>
        if stack == [] then None
        else ParseFrom(lines[1..], Close(stack[|stack| - 1], cur), stack[..|stack| - 1])
      case Command(item) => ParseFrom(lines[1..], cur + [item], stack)
  }

  function Parse(lines: seq<string>): Option<Block> {
    ParseFrom(lines, [], [])
  }

  /** The parser's loop over the lines with its explicit stack. */
  method ParseScript(lines: seq<string>) returns (tree: Option<Block>)
    ensures tree == Parse(lines)
  {
    var cur: Block := [];
    var stack: seq<Open> := [];
    var i := 0;
    while i < |lines|
      invariant 0 <= i <= |lines|
      invariant Parse(lines) == ParseFrom(lines[i..], cur, stack)
    {
      assert lines[i..][0] == lines[i] && lines[i..][1..] == lines[i + 1..];
      match Tokenize(SplitWords(lines[i])) {
        case Blank =>
        case Bad => return None;
        case OpenIf(neg, test) =>
          stack := stack + [Open(cur, neg, test, [], false)];
          cur := [];
        case Else =>
          if stack == [] { return None; }
          var top := stack[|stack| - 1];
          if !top.inElse {
            stack := stack[..|stack| - 1] + [top.(thn := cur, inElse := true)];
            cur := [];
          }
        case EndIf =>
          if stack == [] { return None; }
          cur := Close(stack[|stack| - 1], cur);
          stack := stack[..|stack| - 1];
        case Command(item) => cur := cur + [item];
      }
      i := i + 1;
    }
    assert lines[i..] == [];
    return if stack == [] then Some(cur) else None;
  }

  // -------------------------------------------------------- interpreter

  /** What a run did, in order. */
  datatype Event =
    | Tested(path: string, present: bool)
    | Copied(src: string, dst: string)
    | Deleted(target: string, all: bool)
    | Renamed(src: string, dst: string)
    | Echoed(text: seq<string>)

  /** Aborted: a return code reached the fail level. Crashed: a script that
      does not parse was executed. */
  datatype Halt = Go | Aborted | Crashed

  datatype State = State(m: Tree, ro: set<string>, rc: int, failat: int, halt: Halt, trace: seq<Event>)

  const FAIL := 20
  const MAX_DEPTH := 5

  function Fail(s: State): State {
    s.(rc := FAIL, halt := if FAIL >= s.failat then Aborted else s.halt)
  }

  function Did(s: State, e: Event): State {
    s.(trace := s.trace + [e])
  }

  function RunCopy(s: State, src: string, dst: string): State {
    if Kind(s.m, Norm(src)) != FILE || !Writable(s.ro, Norm(dst)) then Fail(s)
    else Did(s.(m := s.m[Norm(dst) := s.m[Norm(src)]]), Copied(src, dst))
  }

  predicate DeleteRefused(s: State, k: string, all: bool) {
    || Kind(s.m, k) == ABSENT
    || !Writable(s.ro, k)
    || (exists c :: c in Children(s.m, k) && !Writable(s.ro, c))
    || (Kind(s.m, k) == DIRECTORY && Children(s.m, k) != {} && !all)
  }

  function RunDelete(s: State, target: string, all: bool): State {
    var k := Norm(target);
    if DeleteRefused(s, k, all) then Fail(s)
    else Did(s.(m := s.m - ({k} + Children(s.m, k))), Deleted(target, all))
  }

  function RunRename(s: State, src: string, dst: string): State {
    var a, b := Norm(src), Norm(dst);
    if Kind(s.m, a) != FILE || Kind(s.m, b) != ABSENT
       || !Writable(s.ro, a) || !Writable(s.ro, b) then Fail(s)
    else Did(s.(m := (s.m - {a})[b := s.m[a]]), Renamed(src, dst))
  }

  function Holds(s: State, test: Test): bool {
    match test
    case Exists(path) => Kind(s.m, Norm(path)) != ABSENT
    case Warn => s.rc >= 5
  }

  function Observe(s: State, test: Test): State {
    match test
    case Exists(path) => Did(s, Tested(path, Holds(s, test)))
    case Warn => s
  }

  function ExecBlock(b: Block, s: State, depth: nat): State
    requires depth <= MAX_DEPTH
    decreases MAX_DEPTH - depth, b, 0
  {
    if b == [] || s.halt != Go then s
    else ExecBlock(b[1..], ExecItem(b[0], s, depth), depth)
  }

  function ExecItem(it: Item, s: State, depth: nat): State
    requires depth <= MAX_DEPTH
    decreases MAX_DEPTH - depth, it, 1
  {
    match it
    case If(neg, test, thn, els) =>
      ExecBlock(if Holds(s, test) != neg then thn else els, Observe(s, test), depth)
    case FailAt(level) => s.(rc := 0, failat := level)
    case Echo(text) => Did(s.(rc := 0), Echoed(text))
    case Copy(src, dst) => RunCopy(s.(rc := 0), src, dst)
    case Delete(target, all) => RunDelete(s.(rc := 0), target, all)
    case Rename(src, dst) => RunRename(s.(rc := 0), src, dst)
    case Execute(script) =>
      var k := Norm(script);
      if Kind(s.m, k) != FILE || depth > 4 then Fail(s.(rc := 0))
      else
        var sub := RunDos(SplitLines(s.m[k].data), s.m, s.ro, s.trace, depth + 1);
        State(sub.m, s.ro, sub.rc, s.failat,
              if sub.halt == Crashed then Crashed else if sub.rc >= s.failat then Aborted else Go,
              sub.trace)
  }

  /** A whole script from its own fresh return code and fail level. */
  function RunDos(lines: seq<string>, m: Tree, ro: set<string>, trace: seq<Event>, depth: nat): State
    requires depth <= MAX_DEPTH
    decreases MAX_DEPTH - depth
  {
    match Parse(lines)
    case None => State(m, ro, 0, 10, Crashed, trace)
    case Some(tree) => ExecBlock(tree, State(m, ro, 0, 10, Go, trace), depth)
  }

  lemma {:induction false} ExecAppend(a: Block, b: Block, s: State, depth: nat)
    requires depth <= MAX_DEPTH
    ensures ExecBlock(a + b, s, depth) == ExecBlock(b, ExecBlock(a, s, depth), depth)
    decreases |a|
  {
    if a == [] {
      assert a + b == b;
    } else if s.halt == Go {
      assert (a + b)[1..] == a[1..] + b;
      ExecAppend(a[1..], b, ExecItem(a[0], s, depth), depth);
    }
  }

  /** The simulator's mutable state: the file dictionary and the record of
      return code, fail level and abort flag that a script run updates. */
  class Machine {
    var files: Tree
    var protected: set<string>
    var rc: int
    var failat: int
    var halt: Halt
    var trace: seq<Event>

    function Now(): State
      reads this
    {
      State(files, protected, rc, failat, halt, trace)
    }

    constructor (m: Tree, ro: set<string>, before: seq<Event>)
      ensures Now() == State(m, ro, 0, 10, Go, before)
    {
      files, protected, rc, failat, halt, trace := m, ro, 0, 10, Go, before;
    }

    method Refuse()
      modifies this
      ensures Now() == Fail(old(Now()))
      ensures rc == 20 && files == old(files) && trace == old(trace) && failat == old(failat)
      ensures halt == if old(failat) <= 20 then Aborted else old(halt)
    {
      rc := FAIL;
      if FAIL >= failat { halt := Aborted; }
    }

    method Record(e: Event)
      modifies this`trace
      ensures Now() == Did(old(Now()), e)
    {
      trace := trace + [e];
    }

    method DoCopy(src: string, dst: string)
      modifies this
      ensures Now() == RunCopy(old(Now()), src, dst)
      ensures trace != old(trace) <==> Kind(old(files), Norm(src)) == FILE && Writable(old(protected), Norm(dst))
      ensures trace == old(trace) ==> rc == FAIL && files == old(files)
      ensures trace != old(trace) ==>
                rc == old(rc) && Norm(src) in old(files) && files == old(files)[Norm(dst) := old(files)[Norm(src)]]
    {
      if Kind(files, Norm(src)) != FILE || !Writable(protected, Norm(dst)) {
        Refuse();
      } else {
        files := files[Norm(dst) := files[Norm(src)]];
        Record(Copied(src, dst));
      }
    }

    method DoDelete(target: string, all: bool)
      modifies this
      ensures Now() == RunDelete(old(Now()), target, all)
      ensures trace != old(trace) <==>
                && Kind(old(files), Norm(target)) != ABSENT && Writable(old(protected), Norm(target))
                && (forall q :: q in old(files) && Below(q, Norm(target)) ==> Writable(old(protected), q))
                && (|| all || Kind(old(files), Norm(target)) == FILE
                    || forall q :: q in old(files) ==> !Below(q, Norm(target)))
      ensures trace == old(trace) ==> rc == FAIL && files == old(files)
      ensures trace != old(trace) ==>
                rc == old(rc) && forall k :: k in files <==> k in old(files) && !AtOrBelow(k, Norm(target))
    {
      var k := Norm(target);
      var kids := Children(files, k);
      assert forall q :: q in files && Below(q, k) ==> q in kids;
      if Kind(files, k) == ABSENT || !Writable(protected, k)
         || (exists c :: c in kids && !Writable(protected, c)) {
        Refuse();
      } else if Kind(files, k) == DIRECTORY && kids != {} && !all {
        Refuse();
      } else {
        files := files - ({k} + kids);
        Record(Deleted(target, all));
      }
    }

    method DoRename(src: string, dst: string)
      modifies this
      ensures Now() == RunRename(old(Now()), src, dst)
      ensures trace != old(trace) <==>
                && Kind(old(files), Norm(src)) == FILE && Kind(old(files), Norm(dst)) == ABSENT
                && Writable(old(protected), Norm(src)) && Writable(old(protected), Norm(dst))
      ensures trace == old(trace) ==> rc == FAIL && files == old(files)
      ensures trace != old(trace) ==>
                rc == old(rc) && Norm(src) in old(files) && Norm(dst) !in old(files) && Norm(src) !in files
                && Norm(dst) in files && files[Norm(dst)] == old(files)[Norm(src)]
    {
      var a, b := Norm(src), Norm(dst);
      if Kind(files, a) != FILE || Kind(files, b) != ABSENT
         || !Writable(protected, a) || !Writable(protected, b) {
        Refuse();
      } else {
        files := (files - {a})[b := files[a]];
        Record(Renamed(src, dst));
      }
    }

    /** The interpreter's loop over one block. */
    method Run(b: Block, depth: nat)
      requires depth <= MAX_DEPTH
      modifies this
      ensures Now() == ExecBlock(b, old(Now()), depth)
      decreases MAX_DEPTH - depth, b, 2
    {
      var i := 0;
      while i < |b| && halt == Go
        invariant 0 <= i <= |b|
        invariant ExecBlock(b, old(Now()), depth) == ExecBlock(b[i..], Now(), depth)
      {
        ghost var s := Now();
        assert b[i..][0] == b[i] && b[i..][1..] == b[i + 1..];
        Step(b[i], depth);
        assert ExecBlock(b[i..], s, depth) == ExecBlock(b[i + 1..], ExecItem(b[i], s, depth), depth);
        i := i + 1;
      }
    }

    method Step(it: Item, depth: nat)
      requires depth <= MAX_DEPTH
      modifies this
      ensures Now() == ExecItem(it, old(Now()), depth)
      decreases MAX_DEPTH - depth, it, 3
    {
      match it {
        case If(neg, test, thn, els) =>
          var c := Holds(Now(), test);
          if test.Exists? { Record(Tested(test.path, c)); }
          if c != neg { Run(thn, depth); } else { Run(els, depth); }
        case FailAt(level) => rc, failat := 0, level;
        case Echo(text) => rc := 0; Record(Echoed(text));
        case Copy(src, dst) => rc := 0; DoCopy(src, dst);
        case Delete(target, all) => rc := 0; DoDelete(target, all);
        case Rename(src, dst) => rc := 0; DoRename(src, dst);
        case Execute(script) =>
          rc := 0;
          var k := Norm(script);
          if Kind(files, k) != FILE || depth > 4 {
            Refuse();
          } else {
            var sub := new Machine(files, protected, trace);
            sub.RunScript(SplitLines(files[k].data), depth + 1);
            files, rc, trace := sub.files, sub.rc, sub.trace;
            halt := if sub.halt == Crashed then Crashed else if sub.rc >= failat then Aborted else Go;
          }
      }
    }

    method RunScript(lines: seq<string>, depth: nat)
      requires depth <= MAX_DEPTH
      requires Now() == State(files, protected, 0, 10, Go, trace)
      modifies this
      ensures Now() == RunDos(lines, old(files), old(protected), old(trace), depth)
      decreases MAX_DEPTH - depth
    {
      var tree := ParseScript(lines);
      match tree {
        case None => halt := Crashed;
        case Some(b) => Run(b, depth);
      }
    }
  }
}
