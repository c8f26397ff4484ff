/** The service array: valid services keep distinct names, and adding one disturbs no other. */
module Services {
  import opened Text
  import opened CStrings
  import opened LoadParm

  predicate DistinctNames(services: seq<Service>) {
    forall i, j :: 0 <= i < j < |services| && services[i].valid && services[j].valid ==>
      !SameName(services[i].name, services[j].name)
  }

  /** The current service, if there is one, has not been killed or removed. */
  predicate CurrentLive(st: State) {
    0 <= st.current < |st.services| ==> st.services[st.current].valid
  }

  /** The two arrays agree on which services are valid and on their names. */
  predicate SameShape(a: seq<Service>, b: seq<Service>) {
    Revived(a, b, -1)
  }

  lemma {:induction false} FindServiceShape(a: seq<Service>, b: seq<Service>, name: string)
    requires SameShape(a, b)
    ensures FindService(a, name) == FindService(b, name)
  {
  }

  // Assignments

  /** The two arrays agree on names and on which services are valid, except that `k`, if it is an index,
      has become valid. */
  predicate Revived(a: seq<Service>, b: seq<Service>, k: int) {
    |a| == |b| && forall i :: 0 <= i < |a| ==> b[i].valid == (a[i].valid || i == k) && a[i].name == b[i].name
  }

  predicate Dead(st: State) {
    0 <= st.current < |st.services| && !st.services[st.current].valid
  }

  /** The assignment reaches the copy handler, which finds the service named. */
  predicate CopyFinds(t: Table, st: State, snum: int, name: string, value: string) {
    var n := MapParameter(t, name);
    && n >= 0 && n !in st.locked && !(snum >= 0 && t[n].scope.Global?)
    && t[n].special.HandleCopy? && t[n].ptr.Some?
    && FindService(st.services, value) >= 0
  }

  /** The index that an assignment brings back to life, or -1: the current service's, if it is dead and
      copied onto. */
  function RevivedBy(t: Table, st: State, snum: int, name: string, value: string): int {
    if Dead(st) && CopyFinds(t, st, snum, name, value) then st.current else -1
  }

  lemma CopyFromShape(t: Table, st: State, name: string)
    ensures Revived(st.services, CopyFrom(t, st, name).services,
                    if Dead(st) && FindService(st.services, name) >= 0 then st.current else -1)
  {
  }

  lemma StoreShape(st: State, snum: int, p: Slot, v: Value)
    requires snum < |st.services|
    ensures Revived(st.services, Store(st, snum, p, v).services, -1)
  {
  }

  lemma MarkShape(st: State, snum: int, entries: set<nat>)
    requires snum < |st.services|
    ensures Revived(st.services, MarkExplicit(st, snum, entries).services, -1)
  {
  }

  lemma ShapeChain(a: seq<Service>, b: seq<Service>, c: seq<Service>, k: int)
    requires Revived(a, b, -1) && Revived(b, c, k)
    ensures Revived(a, c, k)
  {
  }

  lemma EntryShape(t: Table, st: State, snum: int, n: nat, value: string)
    requires n < |t| && snum < |st.services|
    ensures Revived(st.services, DoEntry(t, st, snum, n, value).0.services,
                    if Dead(st) && t[n].special.HandleCopy? && t[n].ptr.Some? && FindService(st.services, value) >= 0
                    then st.current else -1)
  {
    var st1 := MarkExplicit(st, snum, Aliases(t, n));
    MarkShape(st, snum, Aliases(t, n));
    if t[n].ptr.Some? && (t[n].special.NoSpecial? ==> Convert(t[n], value).Some?) {
      var p, v := t[n].ptr.value, if t[n].special.NoSpecial? then Convert(t[n], value).value else VStr(value);
      var st2 := Store(st1, snum, p, v);
      StoreShape(st1, snum, p, v);
      ShapeChain(st.services, st1.services, st2.services, -1);
      if t[n].special.HandleCopy? {
        FindServiceShape(st.services, st2.services, value);
        CopyFromShape(t, st2, value);
        ShapeChain(st.services, st2.services, CopyFrom(t, st2, value).services,
                   if Dead(st2) && FindService(st2.services, value) >= 0 then st2.current else -1);
      }
    }
  }

  lemma AssignShape(t: Table, st: State, snum: int, name: string, value: string)
    requires snum < |st.services|
    ensures Revived(st.services, DoParameter(t, st, snum, name, value).0.services, RevivedBy(t, st, snum, name, value))
  {
    var n := MapParameter(t, name);
    if n >= 0 && n !in st.locked && !(snum >= 0 && t[n].scope.Global?) {
      EntryShape(t, st, snum, n, value);
    }
  }

  ghost predicate SomeCopyFinds(t: Table, st: State, lines: seq<(string, string)>) {
    exists k :: 0 <= k < |lines| && CopyFinds(t, st, -2, lines[k].0, lines[k].1)
  }

  lemma {:induction false} LinesShape(t: Table, st: State, lines: seq<(string, string)>)
    ensures var st' := DoLines(t, st, lines);
            && st'.current == st.current && st'.locked == st.locked
            && Revived(st.services, st'.services, if Dead(st) && SomeCopyFinds(t, st, lines) then st.current else -1)
  {
    if lines != [] {
      var k := |lines| - 1;
      LinesShape(t, st, lines[..k]);
      var st1 := DoLines(t, st, lines[..k]);
      var was := SomeCopyFinds(t, st, lines[..k]);
      SomeNext(t, st, lines);
      AssignShape(t, st1, -2, lines[k].0, lines[k].1);
      NextLine(t, st, st1, was, lines[k]);
      RevivedTwice(st.services, st1.services, DoLines(t, st, lines).services,
                   if Dead(st) && was then st.current else -1, RevivedBy(t, st1, -2, lines[k].0, lines[k].1));
    }
  }

  lemma SomeNext(t: Table, st: State, lines: seq<(string, string)>)
    requires lines != []
    ensures var k := |lines| - 1;
            SomeCopyFinds(t, st, lines) <==>
            SomeCopyFinds(t, st, lines[..k]) || CopyFinds(t, st, -2, lines[k].0, lines[k].1)
  {
    var k := |lines| - 1;
    forall j | 0 <= j < k
      ensures lines[..k][j] == lines[j]
    {
    }
    if SomeCopyFinds(t, st, lines[..k]) {
      var j :| 0 <= j < k && CopyFinds(t, st, -2, lines[..k][j].0, lines[..k][j].1);
      assert CopyFinds(t, st, -2, lines[j].0, lines[j].1);
    }
  }

  lemma NextLine(t: Table, st: State, st1: State, was: bool, line: (string, string))
    requires st1.current == st.current && st1.locked == st.locked
    requires Revived(st.services, st1.services, if Dead(st) && was then st.current else -1)
    ensures RevivedBy(t, st1, -2, line.0, line.1) ==
            if Dead(st) && !was && CopyFinds(t, st, -2, line.0, line.1) then st.current else -1
  {
    if Dead(st1) {
      FindServiceShape(st.services, st1.services, line.1);
    }
  }

  lemma RevivedTwice(a: seq<Service>, b: seq<Service>, c: seq<Service>, j: int, k: int)
    requires Revived(a, b, j) && Revived(b, c, k) && (j == -1 || k == -1)
    ensures Revived(a, c, if j == -1 then k else j)
  {
  }

  // Adding

  /** Adding from a valid service yields a valid service of that name and leaves every other slot as it
      was; a slot is reused only if it was dead. */
  lemma AddedService(t: Table, st: State, from: Service, name: string)
    ensures var (st', i) := AddService(t, st, from, name);
            && 0 <= i < |st'.services|
            && |st'.services| == (if i < |st.services| then |st.services| else i + 1) && i <= |st.services|
            && SameName(st'.services[i].name, name)
            && (st'.services[i].valid <==> FindService(st.services, name) >= 0 || from.valid)
            && (forall j :: 0 <= j < |st.services| && j != i ==> st'.services[j] == st.services[j])
            && (FindService(st.services, name) < 0 && i < |st.services| ==> !st.services[i].valid)
            && st' == st.(services := st'.services)
  {
  }

  lemma AddKeepsDistinct(t: Table, st: State, from: Service, name: string)
    requires DistinctNames(st.services)
    ensures DistinctNames(AddService(t, st, from, name).0.services)
  {
    AddedService(t, st, from, name);
    var (st', i) := AddService(t, st, from, name);
    if FindService(st.services, name) < 0 {
      forall j | 0 <= j < |st'.services| && j != i && st'.services[j].valid
        ensures !SameName(st'.services[j].name, name)
      {
        assert st'.services[j] == st.services[j];
      }
    }
  }

  lemma SectionKeepsDistinct(t: Table, st: State, name: string)
    requires st.current < |st.services| && DistinctNames(st.services)
    ensures var (st', ok) := DoSection(t, st, name);
            && DistinctNames(st'.services)
            && (CurrentLive(st) ==> CurrentLive(st'))
            && (ok && !IsGlobalName(name) ==>
                  && 0 <= st'.current < |st'.services|
                  && st'.services[st'.current].valid
                  && SameName(st'.services[st'.current].name, name))
  {
    if !IsGlobalName(name) {
      var st0 := st.(inGlobal := false);
      var st1 := if st.current >= 0 then ServiceOk(st0, st.current).0 else st0;
      assert SameShape(st.services, st1.services);
      AddedService(t, st1, DefaultService(st1), name);
      AddKeepsDistinct(t, st1, DefaultService(st1), name);
    }
  }

  // Every operation

  /** The operation copies onto the current service, which is dead. */
  ghost predicate Revives(t: Table, st: State, op: Op) {
    && Dead(st)
    && match op
       case Assign(snum, name, value) => CopyFinds(t, st, snum, name, value)
       case Line(name, value) => CopyFinds(t, st, if st.inGlobal then -2 else st.current, name, value)
       case Cmdline(name, value) =>
         CopyFinds(t, st.(locked := st.locked - {MapParameter(t, name)}), -2, name, TrimLeft(value))
       case Reset(builtin) => SomeCopyFinds(t, st, builtin)
       case _ => false
  }

  /** Besides, a valid service has taken the name of the dead one. */
  ghost predicate Clashes(t: Table, st: State, op: Op) {
    Revives(t, st, op) && FindService(st.services, st.services[st.current].name) >= 0
  }

  lemma RevivedDistinct(a: seq<Service>, b: seq<Service>, k: int)
    requires DistinctNames(a) && Revived(a, b, k) && (0 <= k < |a| ==> !a[k].valid)
    ensures DistinctNames(b) <==> !(0 <= k < |a| && FindService(a, a[k].name) >= 0)
  {
    if 0 <= k < |a| {
      var f := FindService(a, a[k].name);
      if f >= 0 {
        assert b[f].valid && b[k].valid && f != k;
      }
    }
  }

  /** A copy line brings a removed current service back to life, and then its name is distinct exactly when
      no valid service has taken it. */
  lemma CopyRevives(t: Table, st: State, name: string)
    requires DistinctNames(st.services)
    requires Dead(st) && FindService(st.services, name) >= 0
    ensures CopyFrom(t, st, name).services[st.current].valid
    ensures DistinctNames(CopyFrom(t, st, name).services) <==>
            FindService(st.services, st.services[st.current].name) < 0
  {
    CopyFromShape(t, st, name);
    RevivedDistinct(st.services, CopyFrom(t, st, name).services, st.current);
  }

  /** An operation keeps the names of valid services distinct if and only if it does not clash. */
  lemma StepDistinctExactly(t: Table, st: State, op: Op)
    requires Enabled(st, op) && DistinctNames(st.services)
    ensures DistinctNames(Step(t, st, op).services) <==> !Clashes(t, st, op)
  {
    var k := if Revives(t, st, op) then st.current else -1;
    match op
    case Assign(snum, name, value) =>
      AssignShape(t, st, snum, name, value);
      RevivedDistinct(st.services, Step(t, st, op).services, k);
    case Line(name, value) =>
      AssignShape(t, st, if st.inGlobal then -2 else st.current, name, value);
      RevivedDistinct(st.services, Step(t, st, op).services, k);
    case Reset(builtin) =>
      ResetShape(t, st, builtin);
      RevivedDistinct(st.services, Step(t, st, op).services, k);
    case Cmdline(name, value) =>
      AssignShape(t, st.(locked := st.locked - {MapParameter(t, name)}), -2, name, TrimLeft(value));
      RevivedDistinct(st.services, Step(t, st, op).services, k);
    case Header(name) => SectionKeepsDistinct(t, st, name);
    case Add(from, name) => AddKeepsDistinct(t, st, from, name);
    case _ =>
  }

  lemma ResetShape(t: Table, st: State, builtin: seq<(string, string)>)
    ensures Revived(st.services, ResetAll(t, st, builtin).services,
                    if Dead(st) && SomeCopyFinds(t, st, builtin) then st.current else -1)
  {
    var st0 := st.(inGlobal := true, opts := KeepCmdline(st.opts));
    ResetStringsFrame(t, |t|, st0);
    var st1 := ResetStrings(t, |t|, st0);
    LinesShape(t, st1, builtin);
    assert forall k :: 0 <= k < |builtin| ==>
             CopyFinds(t, st1, -2, builtin[k].0, builtin[k].1) == CopyFinds(t, st, -2, builtin[k].0, builtin[k].1);
  }

  /** No operation of the run clashes in the state in which it comes. */
  ghost predicate ClashFree(t: Table, st: State, ops: seq<Op>) {
    forall k :: 0 <= k < |ops| && Enabled(Run(t, st, ops[..k]), ops[k]) ==> !Clashes(t, Run(t, st, ops[..k]), ops[k])
  }

  lemma ClashFreePrefix(t: Table, st: State, ops: seq<Op>, m: nat)
    requires m <= |ops| && ClashFree(t, st, ops)
    ensures ClashFree(t, st, ops[..m])
  {
    forall k | 0 <= k < m
      ensures ops[..m][..k] == ops[..k] && ops[..m][k] == ops[k]
    {
    }
  }

  /** Over every run that is free of clashes, valid services keep pairwise distinct names. */
  lemma {:induction false} RunKeepsDistinct(t: Table, st: State, ops: seq<Op>)
    requires DistinctNames(st.services) && ClashFree(t, st, ops)
    ensures DistinctNames(Run(t, st, ops).services)
  {
    if ops != [] {
      var k := |ops| - 1;
      ClashFreePrefix(t, st, ops, k);
      RunKeepsDistinct(t, st, ops[..k]);
      var st1 := Run(t, st, ops[..k]);
      if Enabled(st1, ops[k]) {
        StepDistinctExactly(t, st1, ops[k]);
      }
    }
  }

  /** Names are distinct all through a run if and only if it is free of clashes. */
  lemma RunDistinctExactly(t: Table, st: State, ops: seq<Op>)
    requires DistinctNames(st.services)
    ensures (forall k :: 0 <= k <= |ops| ==> DistinctNames(Run(t, st, ops[..k]).services)) <==> ClashFree(t, st, ops)
  {
    if ClashFree(t, st, ops) {
      forall k | 0 <= k <= |ops|
        ensures DistinctNames(Run(t, st, ops[..k]).services)
      {
        ClashFreePrefix(t, st, ops, k);
        RunKeepsDistinct(t, st, ops[..k]);
      }
    } else {
      var k :| 0 <= k < |ops| && Enabled(Run(t, st, ops[..k]), ops[k]) && Clashes(t, Run(t, st, ops[..k]), ops[k]);
      ClashShows(t, st, ops, k);
    }
  }

  lemma ClashShows(t: Table, st: State, ops: seq<Op>, k: nat)
    requires k < |ops| && Enabled(Run(t, st, ops[..k]), ops[k]) && Clashes(t, Run(t, st, ops[..k]), ops[k])
    ensures !DistinctNames(Run(t, st, ops[..k]).services) || !DistinctNames(Run(t, st, ops[..k + 1]).services)
  {
    assert ops[..k + 1] == ops[..k] + [ops[k]];
    RunNext(t, st, ops[..k], ops[k]);
    if DistinctNames(Run(t, st, ops[..k]).services) {
      StepDistinctExactly(t, Run(t, st, ops[..k]), ops[k]);
    }
  }

  // A run that clashes

  const EMPTY := State({}, map[], [], -1, true, [])

  lemma RunNext(t: Table, st: State, ops: seq<Op>, op: Op)
    ensures Run(t, st, ops + [op]) ==
            var st1 := Run(t, st, ops); if Enabled(st1, op) then Step(t, st1, op) else st1
  {
    assert (ops + [op])[..|ops|] == ops;
  }

  /** What an added service looks like from outside. */
  predicate Named(s: Service, name: string) {
    s.valid && s.name == name
  }

  lemma FirstSection(t: Table, x: string)
    requires !IsGlobalName(x)
    ensures var st := Step(t, EMPTY, Header(x));
            && st.current == 0 && !st.inGlobal && st.locked == {} && |st.services| == 1 && Named(st.services[0], x)
  {
  }

  lemma SecondSection(t: Table, st: State, x: string, y: string)
    requires st.current == 0 && st.locked == {} && |st.services| == 1 && Named(st.services[0], x)
    requires x != [] && !IsGlobalName(y) && !SameName(x, y)
    ensures var st' := Step(t, st, Header(y));
            && st'.current == 1 && !st'.inGlobal && st'.locked == {} && |st'.services| == 2
            && Named(st'.services[0], x) && Named(st'.services[1], y)
  {
    var st1 := ServiceOk(st.(inGlobal := false), 0).0;
    assert |st1.services| == 1 && Named(st1.services[0], x) && st1.services[..0] == [];
    assert FindService(st1.services, y) == -1 && FreeSlot(st1.services) == 1;
  }

  /** Both sections are dropped, and a service is added under the name of the second, which is current. */
  lemma Replaced(t: Table, st: State, y: string, from: Service)
    requires st.current == 1 && !st.inGlobal && st.locked == {} && |st.services| == 2
    requires st.services[0].valid && Named(st.services[1], y) && from.valid
    ensures var st' := Step(t, Step(t, Step(t, st, Kill(0)), Remove(1)), Add(from, y));
            && st'.current == 1 && !st'.inGlobal && st'.locked == {} && |st'.services| == 2
            && Named(st'.services[0], y) && !st'.services[1].valid && st'.services[1].name == y
  {
    var st1 := Step(t, Step(t, st, Kill(0)), Remove(1));
    assert !st1.services[0].valid && !st1.services[1].valid && st1.services[1].name == y;
    assert FindService(st1.services, y) == -1 && FreeSlot(st1.services) == 0;
  }

  /**
   Names can clash: from the empty state, with any two section names, after both sections are dropped and
   a service is added under the name of the second, a copy line for that section makes it valid again.
   */
  lemma ClashingRun(t: Table, x: string, y: string, from: Service, copy: string)
    requires x != [] && !IsGlobalName(x) && !IsGlobalName(y) && !SameName(x, y) && from.valid
    requires var n := MapParameter(t, copy); n >= 0 && t[n].scope.Local? && t[n].special.HandleCopy? && t[n].ptr.Some?
    ensures var ops := [] + [Header(x)] + [Header(y)] + [Kill(0)] + [Remove(1)] + [Add(from, y)];
            && DistinctNames(Run(t, EMPTY, ops).services)
            && !DistinctNames(Run(t, EMPTY, ops + [Line(copy, y)]).services)
  {
    var st1 := Step(t, EMPTY, Header(x));
    FirstSection(t, x);
    var st2 := Step(t, st1, Header(y));
    SecondSection(t, st1, x, y);
    Replaced(t, st2, y, from);
    FiveSteps(t, EMPTY, Header(x), Header(y), Kill(0), Remove(1), Add(from, y));
    var ops := [] + [Header(x)] + [Header(y)] + [Kill(0)] + [Remove(1)] + [Add(from, y)];
    RunNext(t, EMPTY, ops, Line(copy, y));
    CopyClashes(t, Run(t, EMPTY, ops), y, copy);
  }

  lemma CopyClashes(t: Table, st: State, y: string, copy: string)
    requires st.current == 1 && !st.inGlobal && st.locked == {} && |st.services| == 2
    requires Named(st.services[0], y) && !st.services[1].valid && st.services[1].name == y
    requires var n := MapParameter(t, copy); n >= 0 && t[n].scope.Local? && t[n].special.HandleCopy? && t[n].ptr.Some?
    ensures DistinctNames(st.services) && !DistinctNames(Step(t, st, Line(copy, y)).services)
  {
    assert FindService(st.services, y) >= 0;
    assert CopyFinds(t, st, 1, copy, y);
    StepDistinctExactly(t, st, Line(copy, y));
  }

  lemma FiveSteps(t: Table, st: State, a: Op, b: Op, c: Op, d: Op, e: Op)
    requires Enabled(st, a) && Enabled(Step(t, st, a), b)
    requires var st2 := Step(t, Step(t, st, a), b);
             Enabled(st2, c) && Enabled(Step(t, st2, c), d) && Enabled(Step(t, Step(t, st2, c), d), e)
    ensures Run(t, st, [] + [a] + [b] + [c] + [d] + [e]) ==
            Step(t, Step(t, Step(t, Step(t, Step(t, st, a), b), c), d), e)
  {
    RunNext(t, st, [], a);
    RunNext(t, st, [] + [a], b);
    RunNext(t, st, [] + [a] + [b], c);
    RunNext(t, st, [] + [a] + [b] + [c], d);
    RunNext(t, st, [] + [a] + [b] + [c] + [d], e);
  }
}
