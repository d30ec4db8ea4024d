/** One install as seen by a command it does not name: a command of an earlier
    or a later version of the package. */
module InstallOthers {
  import opened Seqs
  import opened Text
  import opened Files
  import opened Installer
  import opened InstallScript
  import opened InstallSteps
  import opened InstallFrames
  import opened InstallNames
  import opened InstallRun
  import opened Restore
  import Undo
  import opened Keys

  /** The list names the command; file names do not depend on case. */
  predicate Named(names: seq<string>, n: string) {
    exists i :: 0 <= i < |names| && Lower(names[i]) == Lower(n)
  }

  // ------------------------------------------------- equal up to the case

  lemma SameKeys(x: string, n: string)
    requires Lower(x) == Lower(n)
    ensures LiveKey(x) == LiveKey(n) && BackupKey(x) == BackupKey(n) && NewKey(x) == NewKey(n)
    ensures forall s: nat :: MarkKey(x, s) == MarkKey(n, s)
  {
  }

  lemma SameState(m: Tree, x: string, n: string, orig: Option<string>, sum: string -> nat)
    requires Lower(x) == Lower(n)
    ensures Fresh(m, x, orig, sum) <==> Fresh(m, n, orig, sum)
    ensures Installed(m, x, orig, sum) <==> Installed(m, n, orig, sum)
    ensures Safe(m, x, orig) <==> Safe(m, n, orig)
  {
    hide LiveKey, BackupKey, NewKey, MarkKey, Plain, Content, Kind;
    SameKeys(x, n);
  }

  // ----------------------------------------------------- markers of others

  /** A checksum marker of one file is neither at nor below that of another. */
  lemma MarksApart(x: string, n: string, d: nat, s: nat)
    requires Undo.ValidName(x) && Undo.ValidName(n) && Lower(x) != Lower(n)
    ensures !AtOrBelow(MarkKey(x, d), MarkKey(n, s))
  {
    hide Lower, Decimal, Unrelated;
    OursNorm(x); OursNorm(n);
    var dir := BACKUP_KEY + "/ours/";
    SiblingNames(dir, Lower(x), Lower(n));
    MarkBelow(x, d); MarkBelow(n, s);
    if AtOrBelow(MarkKey(x, d), MarkKey(n, s)) {
      BelowDeeper(MarkKey(x, d), MarkKey(n, s), OursKey(n));
      CommonDescendant(MarkKey(x, d), OursKey(x), OursKey(n));
    }
  }

  lemma MarkBelow(n: string, s: nat)
    ensures Below(MarkKey(n, s), OursKey(n))
  {
  }

  lemma BelowDeeper(a: string, b: string, c: string)
    requires AtOrBelow(a, b) && Below(b, c)
    ensures AtOrBelow(a, c)
  {
    if a != b { assert (b + "/")[..|c| + 1] == c + "/"; }
  }

  lemma MarkSparesMark(f: Saved, n: string, s: nat)
    requires Undo.ValidName(f.tag) && Undo.ValidName(n) && Lower(f.tag) != Lower(n)
    ensures Spares(Mark(f), MarkKey(n, s))
  {
    hide Norm, AtOrBelow, MarkKey, Lower;
    var k := MarkKey(n, s);
    forall t | CanBe(MarkExp(f), t) ensures !AtOrBelow(Norm(t), k) {
      var d: nat :| t == BK + "/ours/" + f.tag + "/" + Decimal(d);
      assert t == MarkPath(f.tag, d);
      MarkNorm(f.tag, d);
      MarksApart(f.tag, n, d, s);
    }
    assert Spares(TextFile(MarkExp(f), ""), k) && Spares(Skip, k);
  }

  lemma {:induction false} MarkNamesSpareMark(names: seq<string>, n: string, s: nat)
    requires Undo.ValidName(n) && forall i :: 0 <= i < |names| ==>
               Undo.ValidName(names[i]) && Lower(names[i]) != Lower(n)
    ensures SparesAll(MarkNames(names), MarkKey(n, s))
  {
    hide Mark, Spares, MarkKey, Lower, Undo.ValidName;
    if names != [] {
      CommandTag(names[0]);
      MarkSparesMark(Command(names[0]), n, s);
      MarkNamesSpareMark(names[1..], n, s);
    }
  }

  lemma FinishSparesMark(names: seq<string>, n: string, s: nat)
    requires Undo.ValidName(n) && Lower(n) != Lower(UG)
    requires forall i :: 0 <= i < |names| ==> Undo.ValidName(names[i]) && Lower(names[i]) != Lower(n)
    ensures SparesAll(Finish(names), MarkKey(n, s))
  {
    hide Mark, Norm, AtOrBelow, MarkKey, Lower, MarkNames;
    MarkNamesSpareMark(names, n, s);
    UgIsName();
    assert USERGROUP.tag == UG;
    MarkSparesMark(USERGROUP, n, s);
    SKeys(); MarkShape(n, s);
    StartupWritesApart(MarkKey(n, s));
    assert USER_STARTUP == Undo.US;
    assert Spares(Startup, MarkKey(n, s));
    SparesConcat(MarkNames(names), [Mark(USERGROUP), Startup], MarkKey(n, s));
  }

  // --------------------------------------------------- the whole install

  /** Every key of the command is left alone by the install. */
  lemma UnnamedKey(names: seq<string>, copied: seq<string>, n: string, k: string, s: nat, env: Env, st: State)
    requires Undo.ValidNames(names) && Undo.ValidName(n) && !Named(names, n) && Lower(n) != Lower(UG)
    requires forall i :: 0 <= i < |copied| ==> copied[i] in names
    requires k in [LiveKey(n), BackupKey(n), NewKey(n)] || k == MarkKey(n, s)
    ensures AgreeAt(st.m, Run(Script(names, copied), env, st).m, k)
  {
    hide LiveKey, BackupKey, NewKey, MarkKey, AgreeAt, Undo.ValidName, Run, SparesAll, PREPARE_UG, PREPARE_LIB,
         PREPARE_STARTUP, CopyCommands, COPY_REST, Finish, PrepareNames, Script, RunPhases, Lower, DeepKey, IsKeyOf,
         AtOrBelow;
    ScriptPhases(names, copied, env, st);
    KeyThroughOpening(names, copied, n, k, s, env, st);
    NamesSpare(names, n, k, s);
    CopiedSpare(names, copied, n, k, s);
    FinishSpare(names, n, k, s);
    LateSpare(n, k, s);
    RestOfPhases(names, copied, k, env, st);
  }

  lemma NamesSpare(names: seq<string>, n: string, k: string, s: nat)
    requires Undo.ValidNames(names) && Undo.ValidName(n) && !Named(names, n)
    requires k in [LiveKey(n), BackupKey(n), NewKey(n)] || k == MarkKey(n, s)
    ensures SparesAll(PrepareNames(names), k)
  {
    hide LiveKey, BackupKey, NewKey, MarkKey, Lower, PrepareNames, Undo.ValidName, AtOrBelow, SparesAll;
    SelfKeys(n, s);
    forall i | 0 <= i < |names| ensures !AtOrBelow(BackupKey(names[i]), k) && !AtOrBelow(NewKey(names[i]), k) {
      OtherWritesApart(names[i], n, k, s);
    }
    PrepareNamesSpare(names, k);
  }

  lemma CopiedSpare(names: seq<string>, copied: seq<string>, n: string, k: string, s: nat)
    requires Undo.ValidNames(names) && Undo.ValidName(n) && !Named(names, n)
    requires forall i :: 0 <= i < |copied| ==> copied[i] in names
    requires k in [LiveKey(n), BackupKey(n), NewKey(n)] || k == MarkKey(n, s)
    ensures SparesAll(CopyCommands(copied), k)
  {
    hide LiveKey, BackupKey, NewKey, MarkKey, Lower, CopyCommands, Undo.ValidName, AtOrBelow, SparesAll;
    NameShape(n); NameFifth(n); MarkShape(n, s);
    forall i | 0 <= i < |copied| ensures Undo.ValidName(copied[i]) && !AtOrBelow(LiveKey(copied[i]), k) {
      var j :| 0 <= j < |names| && names[j] == copied[i];
      if k == LiveKey(n) {
        OtherLive(copied[i], n);
        LiveKeysApart(copied[i], n);
      } else {
        LiveApart(copied[i], k);
      }
    }
    CopiesSpare(copied, k);
  }

  lemma OtherLive(x: string, n: string)
    requires Lower(x) != Lower(n)
    ensures LiveKey(x) != LiveKey(n)
  {
    assert LiveKey(x)[6..] == Lower(x) && LiveKey(n)[6..] == Lower(n);
  }

  lemma FinishSpare(names: seq<string>, n: string, k: string, s: nat)
    requires Undo.ValidNames(names) && Undo.ValidName(n) && !Named(names, n) && Lower(n) != Lower(UG)
    requires k in [LiveKey(n), BackupKey(n), NewKey(n)] || k == MarkKey(n, s)
    ensures SparesAll(Finish(names), k)
  {
    hide LiveKey, BackupKey, NewKey, MarkKey, Lower, Finish, Undo.ValidName, SparesAll;
    if k == MarkKey(n, s) {
      FinishSparesMark(names, n, s);
    } else {
      KeysNotMarks(n);
      FinishSpares(names, k);
    }
  }

  lemma LateSpare(n: string, k: string, s: nat)
    requires Undo.ValidName(n)
    requires k in [LiveKey(n), BackupKey(n), NewKey(n)] || k == MarkKey(n, s)
    ensures SparesAll(PREPARE_UG, k) && SparesAll(PREPARE_LIB, k) && SparesAll(PREPARE_STARTUP, k)
    ensures SparesAll(COPY_REST, k)
  {
    hide LiveKey, BackupKey, NewKey, MarkKey, SparesAll;
    NameShape(n); NameFifth(n); MarkShape(n, s);
    LateSpares(k);
  }

  lemma RestOfPhases(names: seq<string>, copied: seq<string>, k: string, env: Env, st: State)
    requires Undo.ValidNames(names)
    requires AgreeAt(st.m, RunPhases(names, copied, env, st).dirs.m, k)
    requires SparesAll(PrepareNames(names), k) && SparesAll(PREPARE_UG, k) && SparesAll(PREPARE_LIB, k)
    requires SparesAll(PREPARE_STARTUP, k) && SparesAll(CopyCommands(copied), k) && SparesAll(COPY_REST, k)
    requires SparesAll(Finish(names), k)
    ensures AgreeAt(st.m, RunPhases(names, copied, env, st).end.m, k)
  {
    hide AgreeAt, Run, SparesAll, PREPARE_UG, PREPARE_LIB, PREPARE_STARTUP, CopyCommands, COPY_REST, Finish,
         PrepareNames, OPENING, DIRS, OursDirs, UndoText;
    var r := RunPhases(names, copied, env, st);
    SparesRun(PrepareNames(names), env, r.dirs, k);
    AgreeTrans(st.m, r.dirs.m, r.names.m, k);
    SparesRun(PREPARE_UG, env, r.names, k);
    AgreeTrans(st.m, r.names.m, r.ug.m, k);
    SparesRun(PREPARE_LIB, env, r.ug, k);
    AgreeTrans(st.m, r.ug.m, r.lib.m, k);
    SparesRun(PREPARE_STARTUP, env, r.lib, k);
    AgreeTrans(st.m, r.lib.m, r.prepared.m, k);
    SparesRun(CopyCommands(copied), env, r.prepared, k);
    AgreeTrans(st.m, r.prepared.m, r.copied.m, k);
    SparesRun(COPY_REST, env, r.copied, k);
    AgreeTrans(st.m, r.copied.m, r.rest.m, k);
    SparesRun(Finish(names), env, r.rest, k);
    AgreeTrans(st.m, r.rest.m, r.end.m, k);
  }

  /** An install that does not name the command, stopped anywhere or completed,
      leaves it fresh or installed as it was, with the same live content. */
  lemma InstallLeavesUnnamed(names: seq<string>, copied: seq<string>, n: string, orig: Option<string>, env: Env,
                             st: State)
    requires Undo.ValidNames(names) && Undo.ValidName(n) && !Named(names, n) && Lower(n) != Lower(UG)
    requires forall i :: 0 <= i < |copied| ==> copied[i] in names
    ensures var r := Run(Script(names, copied), env, st).m;
            && (Fresh(st.m, n, orig, env.sum) ==> Fresh(r, n, orig, env.sum))
            && (Installed(st.m, n, orig, env.sum) ==> Installed(r, n, orig, env.sum))
            && Content(r, LiveKey(n)) == Content(st.m, LiveKey(n))
  {
    hide Fresh, Installed, Run, Script, LiveKey, BackupKey, NewKey, MarkKey, AgreeAt, Content, Undo.ValidName, Named,
         Lower;
    var r := Run(Script(names, copied), env, st).m;
    var c := Content(st.m, LiveKey(n));
    var s := if c.Some? then env.sum(c.value) else 0;
    UnnamedKey(names, copied, n, LiveKey(n), s, env, st);
    UnnamedKey(names, copied, n, BackupKey(n), s, env, st);
    UnnamedKey(names, copied, n, NewKey(n), s, env, st);
    UnnamedKey(names, copied, n, MarkKey(n, s), s, env, st);
    StartKept(st.m, r, n, orig, env.sum);
    AgreePlain(st.m, r, LiveKey(n));
  }
}
