/** Parametric options: the option lists are maps on two levels, over every run of the engine. */
module Parametric {
  import opened Text
  import opened CStrings
  import opened LoadParm

  predicate UniqueKeys(opts: seq<Opt>) {
    forall i, j :: 0 <= i < j < |opts| ==> opts[i].key != opts[j].key
  }

  /** The option list as a map from keys to values and command-line flags. */
  function AsMap(opts: seq<Opt>): map<string, (string, bool)> {
    if opts == [] then map[]
    else AsMap(opts[1..])[opts[0].key := (opts[0].value, opts[0].cmdline)]
  }

  lemma {:induction false} MapKeys(opts: seq<Opt>)
    ensures forall k :: k in AsMap(opts) <==> exists o :: o in opts && o.key == k
  {
    if opts != [] {
      MapKeys(opts[1..]);
      assert opts[0] in opts;
      assert forall o :: o in opts <==> o == opts[0] || o in opts[1..];
    }
  }

  lemma {:induction false} MapAt(opts: seq<Opt>, i: nat)
    requires UniqueKeys(opts) && i < |opts|
    ensures opts[i].key in AsMap(opts) && AsMap(opts)[opts[i].key] == (opts[i].value, opts[i].cmdline)
  {
    if i > 0 {
      MapAt(opts[1..], i - 1);
    }
  }

  /** Two lists without repeated keys and with the same entries are the same map. */
  lemma MapExtensional(opts: seq<Opt>, m: map<string, (string, bool)>)
    requires UniqueKeys(opts)
    requires forall o :: o in opts ==> o.key in m && m[o.key] == (o.value, o.cmdline)
    requires forall k :: k in m ==> exists o :: o in opts && o.key == k
    ensures AsMap(opts) == m
  {
    MapKeys(opts);
    forall k | k in m
      ensures AsMap(opts)[k] == m[k]
    {
      var o :| o in opts && o.key == k;
      var i :| 0 <= i < |opts| && opts[i] == o;
      MapAt(opts, i);
    }
  }

  /** The traversal finds exactly what the map holds. */
  lemma FindOptIsLookup(opts: seq<Opt>, key: string)
    requires UniqueKeys(opts)
    ensures FindOpt(opts, key) >= 0 <==> key in AsMap(opts)
    ensures key in AsMap(opts) ==>
              var o := opts[FindOpt(opts, key)]; AsMap(opts)[key] == (o.value, o.cmdline)
  {
  }

  lemma ReplaceUnique(opts: seq<Opt>, k: nat, o: Opt)
    requires UniqueKeys(opts) && k < |opts| && o.key == opts[k].key
    ensures UniqueKeys(opts[k := o])
    ensures AsMap(opts[k := o]) == AsMap(opts)[o.key := (o.value, o.cmdline)]
  {
    MapKeys(opts);
    var put := opts[k := o];
    var m := AsMap(opts)[o.key := (o.value, o.cmdline)];
    forall e | e in put
      ensures e.key in m && m[e.key] == (e.value, e.cmdline)
    {
      var i :| 0 <= i < |put| && put[i] == e;
      if i != k {
        MapAt(opts, i);
      }
    }
    forall key | key in m
      ensures exists e :: e in put && e.key == key
    {
      assert put[k] in put;
      if key != o.key {
        var e :| e in opts && e.key == key;
        var i :| 0 <= i < |opts| && opts[i] == e;
        assert put[i] in put;
      }
    }
    MapExtensional(put, m);
  }

  /** A write is a map update, except that it cannot displace a command-line entry. */
  lemma PutOptIsUpdate(opts: seq<Opt>, o: Opt)
    requires UniqueKeys(opts)
    ensures UniqueKeys(PutOpt(opts, o))
    ensures var m := AsMap(opts);
            AsMap(PutOpt(opts, o)) ==
            if o.key in m && m[o.key].1 && !o.cmdline then m else m[o.key := (o.value, o.cmdline)]
  {
    FindOptIsLookup(opts, o.key);
    var k := FindOpt(opts, o.key);
    if k < 0 {
      assert ([o] + opts)[1..] == opts;
    } else {
      ReplaceUnique(opts, k, o);
    }
  }

  lemma {:induction false} MergeUnique(opts: seq<Opt>, from: seq<Opt>)
    requires UniqueKeys(opts)
    ensures UniqueKeys(MergeOpts(opts, from))
  {
    if from != [] {
      MergeUnique(opts, from[..|from| - 1]);
    }
  }

  lemma {:induction false} KeepCmdlineKeeps(opts: seq<Opt>)
    requires UniqueKeys(opts)
    ensures UniqueKeys(KeepCmdline(opts))
    ensures forall o :: o in KeepCmdline(opts) <==> o in opts && o.cmdline
  {
    if opts != [] {
      KeepCmdlineKeeps(opts[1..]);
      assert opts == [opts[0]] + opts[1..];
    }
  }

  /** A reload keeps the command-line entries and no others. */
  lemma KeepCmdlineIsRestriction(opts: seq<Opt>)
    requires UniqueKeys(opts)
    ensures AsMap(KeepCmdline(opts)) == map k | k in AsMap(opts) && AsMap(opts)[k].1 :: AsMap(opts)[k]
  {
    KeepCmdlineKeeps(opts);
    MapKeys(opts);
    var m := map k | k in AsMap(opts) && AsMap(opts)[k].1 :: AsMap(opts)[k];
    var kept := KeepCmdline(opts);
    forall o | o in kept
      ensures o.key in m && m[o.key] == (o.value, o.cmdline)
    {
      var i :| 0 <= i < |opts| && opts[i] == o;
      MapAt(opts, i);
    }
    forall k | k in m
      ensures exists o :: o in kept && o.key == k
    {
      var o :| o in opts && o.key == k;
      var i :| 0 <= i < |opts| && opts[i] == o;
      MapAt(opts, i);
    }
    MapExtensional(kept, m);
  }

  // Every run

  ghost predicate AllUnique(st: State) {
    && UniqueKeys(st.opts)
    && forall i :: 0 <= i < |st.services| ==> UniqueKeys(st.services[i].opts)
  }

  lemma CopyAllUnique(t: Table, dest: Service, src: Service)
    requires UniqueKeys(dest.opts)
    ensures UniqueKeys(CopyAll(t, dest, src).opts) && UniqueKeys(CopyUnset(t, dest, src).opts)
  {
    MergeUnique(dest.opts, src.opts);
  }

  lemma CopyFromUnique(t: Table, st: State, name: string)
    requires AllUnique(st)
    ensures AllUnique(CopyFrom(t, st, name))
  {
    var from := FindService(st.services, name);
    if from >= 0 && 0 <= st.current < |st.services| {
      CopyAllUnique(t, st.services[st.current], CopyAll(t, InitService(t, st), st.services[from]));
    }
  }

  lemma ParametricUnique(st: State, snum: int, name: string, value: string, cmdline: bool)
    requires snum < |st.services| && AllUnique(st)
    ensures AllUnique(DoParametric(st, snum, name, value, cmdline))
  {
    var o := Opt(OptKey(name), value, cmdline);
    PutOptIsUpdate(if snum < 0 then st.opts else st.services[snum].opts, o);
  }

  lemma EntryUnique(t: Table, st: State, snum: int, n: nat, value: string)
    requires n < |t| && snum < |st.services| && AllUnique(st)
    ensures AllUnique(DoEntry(t, st, snum, n, value).0)
  {
    if t[n].ptr.Some? && t[n].special.HandleCopy? {
      var st1 := Store(MarkExplicit(st, snum, Aliases(t, n)), snum, t[n].ptr.value, VStr(value));
      CopyFromUnique(t, st1, value);
    }
  }

  lemma AssignUnique(t: Table, st: State, snum: int, name: string, value: string)
    requires snum < |st.services| && AllUnique(st)
    ensures AllUnique(DoParameter(t, st, snum, name, value).0)
  {
    var n := MapParameter(t, name);
    if n < 0 {
      ParametricUnique(st, snum, name, value, false);
    } else {
      EntryUnique(t, st, snum, n, value);
    }
  }

  lemma AddUnique(t: Table, st: State, from: Service, name: string)
    requires AllUnique(st)
    ensures AllUnique(AddService(t, st, from, name).0)
  {
    CopyAllUnique(t, ZERO_SERVICE, DefaultService(st));
    CopyAllUnique(t, InitService(t, st), from);
  }

  lemma {:induction false} LinesUnique(t: Table, st: State, lines: seq<(string, string)>)
    requires AllUnique(st)
    ensures AllUnique(DoLines(t, st, lines))
  {
    if lines != [] {
      var k := |lines| - 1;
      LinesUnique(t, st, lines[..k]);
      AssignUnique(t, DoLines(t, st, lines[..k]), -2, lines[k].0, lines[k].1);
    }
  }

  lemma ResetUnique(t: Table, st: State, builtin: seq<(string, string)>)
    requires AllUnique(st)
    ensures AllUnique(ResetAll(t, st, builtin))
  {
    KeepCmdlineKeeps(st.opts);
    var st0 := st.(inGlobal := true, opts := KeepCmdline(st.opts));
    ResetStringsFrame(t, |t|, st0);
    LinesUnique(t, ResetStrings(t, |t|, st0), builtin);
  }

  lemma SectionUnique(t: Table, st: State, name: string)
    requires st.current < |st.services| && AllUnique(st)
    ensures AllUnique(DoSection(t, st, name).0)
  {
    if !IsGlobalName(name) {
      var st0 := st.(inGlobal := false);
      var st1 := if st.current >= 0 then ServiceOk(st0, st.current).0 else st0;
      assert AllUnique(st1);
      AddUnique(t, st1, DefaultService(st1), name);
    }
  }

  lemma CmdlineUnique(t: Table, st: State, name: string, value: string)
    requires AllUnique(st)
    ensures AllUnique(SetCmdline(t, st, name, value).0)
  {
    var n := MapParameter(t, name);
    if n < 0 {
      ParametricUnique(st, -1, name, TrimLeft(value), true);
    } else {
      AssignUnique(t, st.(locked := st.locked - {n}), -2, name, TrimLeft(value));
    }
  }

  /** Every operation keeps every list free of repeated keys. */
  lemma StepUnique(t: Table, st: State, op: Op)
    requires Enabled(st, op) && AllUnique(st)
    ensures AllUnique(Step(t, st, op))
  {
    match op
    case Assign(snum, name, value) => AssignUnique(t, st, snum, name, value);
    case Line(name, value) => AssignUnique(t, st, if st.inGlobal then -2 else st.current, name, value);
    case Header(name) => SectionUnique(t, st, name);
    case Reset(builtin) => ResetUnique(t, st, builtin);
    case Cmdline(name, value) => CmdlineUnique(t, st, name, value);
    case Add(from, name) => AddUnique(t, st, from, name);
    case _ =>
  }

  // Command-line options

  /** The global option `key` was set on the command line, to `value`. */
  predicate Held(st: State, key: string, value: string) {
    key in AsMap(st.opts) && AsMap(st.opts)[key] == (value, true)
  }

  /** The call is an lp_set_cmdline of this option. */
  predicate Resets(t: Table, op: Op, key: string) {
    op.Cmdline? && MapParameter(t, op.name) < 0 && ':' in op.name && OptKey(op.name) == key
  }

  /** Assignments reach the global options only through a parametric line in a global section. */
  lemma AssignOpts(t: Table, st: State, snum: int, name: string, value: string)
    requires snum < |st.services|
    ensures DoParameter(t, st, snum, name, value).0.opts ==
            if MapParameter(t, name) < 0 && ':' in name && snum < 0
            then PutOpt(st.opts, Opt(OptKey(name), value, false)) else st.opts
  {
  }

  lemma AssignHeld(t: Table, st: State, snum: int, name: string, value: string, key: string, v: string)
    requires snum < |st.services| && UniqueKeys(st.opts) && Held(st, key, v)
    ensures Held(DoParameter(t, st, snum, name, value).0, key, v)
  {
    AssignOpts(t, st, snum, name, value);
    PutOptIsUpdate(st.opts, Opt(OptKey(name), value, false));
  }

  lemma {:induction false} LinesHeld(t: Table, st: State, lines: seq<(string, string)>, key: string, v: string)
    requires AllUnique(st) && Held(st, key, v)
    ensures Held(DoLines(t, st, lines), key, v)
  {
    if lines != [] {
      var k := |lines| - 1;
      LinesHeld(t, st, lines[..k], key, v);
      LinesUnique(t, st, lines[..k]);
      AssignHeld(t, DoLines(t, st, lines[..k]), -2, lines[k].0, lines[k].1, key, v);
    }
  }

  lemma ResetHeld(t: Table, st: State, builtin: seq<(string, string)>, key: string, v: string)
    requires AllUnique(st) && Held(st, key, v)
    ensures Held(ResetAll(t, st, builtin), key, v)
  {
    KeepCmdlineKeeps(st.opts);
    KeepCmdlineIsRestriction(st.opts);
    var st0 := st.(inGlobal := true, opts := KeepCmdline(st.opts));
    ResetStringsFrame(t, |t|, st0);
    LinesHeld(t, ResetStrings(t, |t|, st0), builtin, key, v);
  }

  lemma CmdlineHeld(t: Table, st: State, name: string, value: string, key: string, v: string)
    requires UniqueKeys(st.opts) && Held(st, key, v) && !Resets(t, Cmdline(name, value), key)
    ensures Held(SetCmdline(t, st, name, value).0, key, v)
  {
    var n := MapParameter(t, name);
    if n < 0 {
      PutOptIsUpdate(st.opts, Opt(OptKey(name), TrimLeft(value), true));
    } else {
      AssignHeld(t, st.(locked := st.locked - {n}), -2, name, TrimLeft(value), key, v);
    }
  }

  lemma StepHeld(t: Table, st: State, op: Op, key: string, v: string)
    requires Enabled(st, op) && AllUnique(st) && Held(st, key, v) && !Resets(t, op, key)
    ensures Held(Step(t, st, op), key, v)
  {
    match op
    case Assign(snum, name, value) => AssignHeld(t, st, snum, name, value, key, v);
    case Line(name, value) => AssignHeld(t, st, if st.inGlobal then -2 else st.current, name, value, key, v);
    case Reset(builtin) => ResetHeld(t, st, builtin, key, v);
    case Cmdline(name, value) => CmdlineHeld(t, st, name, value, key, v);
    case _ =>
  }

  /** Over every run the lists stay maps, and an option set on the command line survives every file
      line and every reload until the command line sets it again. */
  lemma {:induction false} RunHeld(t: Table, st: State, ops: seq<Op>, key: string, v: string)
    requires AllUnique(st)
    requires forall op :: op in ops ==> !Resets(t, op, key)
    ensures AllUnique(Run(t, st, ops))
    ensures Held(st, key, v) ==> Held(Run(t, st, ops), key, v)
  {
    if ops != [] {
      var k := |ops| - 1;
      assert forall op :: op in ops[..k] ==> op in ops;
      RunHeld(t, st, ops[..k], key, v);
      var st1 := Run(t, st, ops[..k]);
      if Enabled(st1, ops[k]) {
        StepUnique(t, st1, ops[k]);
        if Held(st1, key, v) {
          StepHeld(t, st1, ops[k], key, v);
        }
      }
    }
  }

  // Reading options

  lemma LookupIsTwoLevel(st: State, snum: int, kind: string, option: string)
    requires AllUnique(st) && snum < |st.services|
    ensures var key := StrLower(kind + ":" + option);
            var own := if snum < 0 then map[] else AsMap(st.services[snum].opts);
            var all := AsMap(st.opts) + own;
            Lookup(st, snum, kind, option) == if key in all then Some(all[key].0) else None
  {
    var key := StrLower(kind + ":" + option);
    FindOptIsLookup(st.opts, key);
    if snum >= 0 {
      FindOptIsLookup(st.services[snum].opts, key);
    }
  }

  /** The options of a service, or the global ones. */
  function OwnOpts(st: State, snum: int): seq<Opt>
    requires snum < |st.services|
  {
    if snum < 0 then st.opts else st.services[snum].opts
  }

  /** The lookup reads the service's own option, and the globals only where it has none. */
  lemma LookupOwnFirst(st: State, snum: int, kind: string, option: string)
    requires snum < |st.services|
    ensures var k := FindOpt(OwnOpts(st, snum), StrLower(kind + ":" + option));
            Lookup(st, snum, kind, option) ==
            if k >= 0 then Some(OwnOpts(st, snum)[k].value)
            else if snum < 0 then None else Lookup(st, -1, kind, option)
  {
  }

  /** An option read back from the service, or the globals, where the file has set it: the name must
      spell the key exactly, and no command-line setting may hold it there. */
  lemma ReadBack(st: State, snum: int, name: string, value: string, kind: string, option: string)
    requires AllUnique(st) && snum < |st.services|
    ensures var key := StrLower(kind + ":" + option);
            var own := AsMap(OwnOpts(st, snum));
            Lookup(DoParametric(st, snum, name, value, false), snum, kind, option) ==
            if key != OptKey(name) || (key in own && own[key].1)
            then Lookup(st, snum, kind, option) else Some(value)
  {
    var st1 := DoParametric(st, snum, name, value, false);
    LookupOwnFirst(st, snum, kind, option);
    LookupOwnFirst(st1, snum, kind, option);
    PutOptIsUpdate(OwnOpts(st, snum), Opt(OptKey(name), value, false));
    FindOptIsLookup(OwnOpts(st, snum), StrLower(kind + ":" + option));
    FindOptIsLookup(OwnOpts(st1, snum), StrLower(kind + ":" + option));
  }

  /** The form "type: option = value", with a space after the colon, is stored under a key that no
      lookup of that type and option finds. */
  lemma SpaceAfterColonMissed(kind: string, option: string)
    ensures OptKey(kind + ": " + option) != StrLower(kind + ":" + option)
  {
  }

  /** So such a line, in whatever section it stands, changes nothing that the lookup returns. */
  lemma SpacedOptionUnread(st: State, snum: int, kind: string, option: string, value: string)
    requires AllUnique(st) && snum < |st.services|
    ensures Lookup(DoParametric(st, snum, kind + ": " + option, value, false), snum, kind, option) ==
            Lookup(st, snum, kind, option)
  {
    SpaceAfterColonMissed(kind, option);
    ReadBack(st, snum, kind + ": " + option, value, kind, option);
  }
}
