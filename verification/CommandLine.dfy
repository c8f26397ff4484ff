/** Command-line settings win: what lp_set_cmdline has set, no file, section, reload or service
    operation changes, under any of its names. */
module CommandLine {
  import opened Text
  import opened CStrings
  import opened LoadParm

  /** Storage `p` is locked at value `v`: every entry that points at it is flagged. */
  ghost predicate Locked(t: Table, st: State, p: Slot, v: Value) {
    && Get(st.defaults, p) == v
    && forall i :: 0 <= i < |t| && t[i].ptr == Some(p) ==> i in st.locked
  }

  /** The call is an lp_set_cmdline under a name of `p`. */
  predicate Renames(t: Table, op: Op, p: Slot) {
    op.Cmdline? && MapParameter(t, op.name) >= 0 && t[MapParameter(t, op.name)].ptr == Some(p)
  }

  /** The neighbours that the locking loops reach are all the aliases. */
  lemma AdjacentIsAliases(t: Table, n: nat)
    requires Contiguous(t) && n < |t| && t[n].ptr.Some?
    ensures Adjacent(t, n) == Aliases(t, n)
  {
  }

  lemma AssignKeepsLock(t: Table, st: State, snum: int, name: string, value: string, p: Slot, v: Value)
    requires snum < |st.services| && Locked(t, st, p, v)
    ensures Locked(t, DoParameter(t, st, snum, name, value).0, p, v)
  {
  }

  lemma {:induction false} ResetStringsKeepsLock(t: Table, n: nat, st: State, p: Slot, v: Value)
    requires n <= |t| && Locked(t, st, p, v)
    ensures Locked(t, ResetStrings(t, n, st), p, v)
    ensures ResetStrings(t, n, st).locked == st.locked
  {
    if n > 0 {
      ResetStringsKeepsLock(t, n - 1, st, p, v);
    }
  }

  lemma {:induction false} LinesKeepLock(t: Table, st: State, lines: seq<(string, string)>, p: Slot, v: Value)
    requires Locked(t, st, p, v)
    ensures Locked(t, DoLines(t, st, lines), p, v)
  {
    if lines != [] {
      var k := |lines| - 1;
      LinesKeepLock(t, st, lines[..k], p, v);
      AssignKeepsLock(t, DoLines(t, st, lines[..k]), -2, lines[k].0, lines[k].1, p, v);
    }
  }

  lemma ResetKeepsLock(t: Table, st: State, builtin: seq<(string, string)>, p: Slot, v: Value)
    requires Locked(t, st, p, v)
    ensures Locked(t, ResetAll(t, st, builtin), p, v)
  {
    var st0 := st.(inGlobal := true, opts := KeepCmdline(st.opts));
    ResetStringsKeepsLock(t, |t|, st0, p, v);
    LinesKeepLock(t, ResetStrings(t, |t|, st0), builtin, p, v);
  }

  lemma CmdlineKeepsLock(t: Table, st: State, name: string, value: string, p: Slot, v: Value)
    requires Locked(t, st, p, v)
    requires MapParameter(t, name) >= 0 ==> t[MapParameter(t, name)].ptr != Some(p)
    ensures Locked(t, SetCmdline(t, st, name, value).0, p, v)
  {
    var n := MapParameter(t, name);
    if n >= 0 {
      var st0 := st.(locked := st.locked - {n});
      assert Locked(t, st0, p, v);
      AssignKeepsLock(t, st0, -2, name, TrimLeft(value), p, v);
    }
  }

  lemma StepKeepsLock(t: Table, st: State, op: Op, p: Slot, v: Value)
    requires Locked(t, st, p, v) && Enabled(st, op) && !Renames(t, op, p)
    ensures Locked(t, Step(t, st, op), p, v)
  {
    match op
    case Assign(snum, name, value) => AssignKeepsLock(t, st, snum, name, value, p, v);
    case Reset(builtin) => ResetKeepsLock(t, st, builtin, p, v);
    case Cmdline(name, value) => CmdlineKeepsLock(t, st, name, value, p, v);
    case _ =>
  }

  lemma {:induction false} RunKeepsLock(t: Table, st: State, ops: seq<Op>, p: Slot, v: Value)
    requires Locked(t, st, p, v)
    requires forall op :: op in ops ==> !Renames(t, op, p)
    ensures Locked(t, Run(t, st, ops), p, v)
  {
    if ops != [] {
      var k := |ops| - 1;
      assert forall op :: op in ops[..k] ==> op in ops;
      RunKeepsLock(t, st, ops[..k], p, v);
      if Enabled(Run(t, st, ops[..k]), ops[k]) {
        StepKeepsLock(t, Run(t, st, ops[..k]), ops[k], p, v);
      }
    }
  }

  /** After lp_set_cmdline accepts a parameter, its storage holds the value given, and keeps it through
      every run in which lp_set_cmdline names neither it nor an alias again. */
  lemma CommandLineWins(t: Table, st: State, name: string, value: string, ops: seq<Op>)
    requires Contiguous(t)
    requires MapParameter(t, name) >= 0 && t[MapParameter(t, name)].ptr.Some?
    requires SetCmdline(t, st, name, value).1
    requires forall op :: op in ops ==> !Renames(t, op, t[MapParameter(t, name)].ptr.value)
    ensures var n := MapParameter(t, name);
            var v := Get(Run(t, SetCmdline(t, st, name, value).0, ops).defaults, t[n].ptr.value);
            if t[n].special.NoSpecial? then Some(v) == Convert(t[n], TrimLeft(value)) else v == VStr(TrimLeft(value))
  {
    var n := MapParameter(t, name);
    var p := t[n].ptr.value;
    var st1 := SetCmdline(t, st, name, value).0;
    AdjacentIsAliases(t, n);
    var v := Get(st1.defaults, p);
    assert Locked(t, st1, p, v);
    RunKeepsLock(t, st1, ops, p, v);
  }
}
