/**
 The whole of lp_dump: the globals, the defaults that services start from, and the services.  Loading
 its text gives the globals that are shown, those defaults, the global options and every service back.
 */
module LpDump {
  import opened Text
  import opened CStrings
  import opened ConfSpec
  import opened ConfRoundTrip
  import opened LoadParm
  import opened Loading
  import opened Parametric
  import opened DumpLoad
  import opened WholeDump
  import Stripping

  // dump_globals, dump_a_service on the defaults, lp_dump

  /** The lines for those of the first `n` entries that are shown. */
  function ValueLines(t: Table, n: nat, vals: Values, shown: set<nat>): seq<(string, string)>
    requires n <= |t|
  {
    if n == 0 then []
    else
      ValueLines(t, n - 1, vals, shown) +
      if n - 1 in shown && t[n - 1].ptr.Some?
      then [(t[n - 1].name, PrintValue(t[n - 1], Get(vals, t[n - 1].ptr.value)))] else []
  }

  /** The first of the entries that share its storage. */
  predicate Leads(t: Table, i: nat)
    requires i < |t|
  {
    t[i].ptr.Some? && (i == 0 || t[i].ptr != t[i - 1].ptr)
  }

  /** The globals printed; `hidden` are those that still have their built-in value, if these are not
      asked for. */
  function GlobalsShown(t: Table, hidden: set<nat>): set<nat> {
    set i: nat | i < |t| && t[i].scope.Global? && Leads(t, i) && i !in hidden
  }

  /** All service parameters that a file can set: defaults are never known to be unchanged. */
  function DefaultsShown(t: Table): set<nat> {
    set i: nat | i < |t| && t[i].scope.Local? && !Dashed(t[i].name) && Leads(t, i)
  }

  function GlobalLines(t: Table, st: State, hidden: set<nat>): seq<(string, string)> {
    ValueLines(t, |t|, st.defaults, GlobalsShown(t, hidden)) + DumpOpts(st.opts)
  }

  function DefaultLines(t: Table, defaults: Values): seq<(string, string)> {
    ValueLines(t, |t|, defaults, DefaultsShown(t))
  }

  function HeadEvents(t: Table, st: State, hidden: set<nat>): seq<Event> {
    [Section("global")] + Params(GlobalLines(t, st, hidden)) + Params(DefaultLines(t, st.defaults))
  }

  const COMMENT := "# Global parameters"

  /** What lp_dump writes for the first `n` services. */
  function LpDumpText(t: Table, st: State, hidden: set<nat>, n: nat): string
    requires n <= |st.services|
  {
    COMMENT + Layout(HeadEvents(t, st, hidden) + AllEvents(t, st.defaults, Shown(st.services[..n])))
  }

  method PrintShown(t: Table, vals: Values, shown: set<nat>) returns (text: string)
    ensures text == ParamText(ValueLines(t, |t|, vals, shown))
  {
    text := [];
    for i := 0 to |t|
      invariant text == ParamText(ValueLines(t, i, vals, shown))
    {
      ValueLinesNext(t, i, vals, shown);
      if i in shown && t[i].ptr.Some? {
        var line := (t[i].name, PrintValue(t[i], Get(vals, t[i].ptr.value)));
        ParamTextSnoc(ValueLines(t, i, vals, shown), line);
        text := text + LineText(Param(line.0, line.1));
      }
    }
  }

  lemma ValueLinesNext(t: Table, i: nat, vals: Values, shown: set<nat>)
    requires i < |t|
    ensures ValueLines(t, i + 1, vals, shown) ==
            if i in shown && t[i].ptr.Some?
            then ValueLines(t, i, vals, shown) + [(t[i].name, PrintValue(t[i], Get(vals, t[i].ptr.value)))]
            else ValueLines(t, i, vals, shown)
  {
  }

  method DumpGlobals(t: Table, st: State, hidden: set<nat>) returns (text: string)
    ensures text == COMMENT + Layout([Section("global")] + Params(GlobalLines(t, st, hidden)))
  {
    var parms := PrintShown(t, st.defaults, GlobalsShown(t, hidden));
    var opts := PrintOpts(st.opts);
    text := COMMENT + (LineText(Section("global")) + parms + opts);
    var p, o := Params(ValueLines(t, |t|, st.defaults, GlobalsShown(t, hidden))), Params(DumpOpts(st.opts));
    assert [Section("global")] + Params(GlobalLines(t, st, hidden)) == [Section("global")] + p + o;
    LayoutSnoc([], Section("global"));
    LayoutConcat([Section("global")], p);
    LayoutConcat([Section("global")] + p, o);
  }

  /** dump_a_service on the defaults: no header, and every parameter. */
  method DumpDefaults(t: Table, defaults: Values) returns (text: string)
    ensures text == ParamText(DefaultLines(t, defaults))
  {
    text := PrintShown(t, defaults, DefaultsShown(t));
  }

  method LpDump(t: Table, st: State, hidden: set<nat>, n: nat) returns (text: string)
    requires n <= |st.services|
    ensures text == LpDumpText(t, st, hidden, n)
  {
    var globals := DumpGlobals(t, st, hidden);
    var defaults := DumpDefaults(t, st.defaults);
    var services := DumpServices(t, st.defaults, st.services[..n]);
    text := globals + defaults + services;
    var g := [Section("global")] + Params(GlobalLines(t, st, hidden));
    var d, s := Params(DefaultLines(t, st.defaults)), AllEvents(t, st.defaults, Shown(st.services[..n]));
    LayoutConcat(g, d);
    LayoutConcat(g + d, s);
    Associate(COMMENT, Layout(g), Layout(d));
    Associate(COMMENT, Layout(g) + Layout(d), Layout(s));
  }

  // Values

  /** A null list is read back as an empty one. */
  function NonNull(v: Value): Value {
    if v == VList(None) then VList(Some([])) else v
  }

  /** A value of the parameter's type that is printed on a line and read back, if not as a null list. */
  predicate Holds(p: Parm, v: Value) {
    || Storable(p, v)
    || (p.kind.KList? && v == VList(None))
    || (p.kind.KBytes? && v.VInt? && 0 <= v.i <= INT_MAX)
  }

  lemma DigitsGood(n: nat)
    ensures GoodValue(Digits(n)) && !IsSpace(Digits(n)[0]) && Digits(n)[0] != '-' && Digits(n)[0] != '+'
  {
    var d := Digits(n);
    assert IsDigit(d[0]) && IsDigit(Last(d)) by {
      assert d[0] in d && Last(d) in d;
    }
  }

  lemma SizeRoundTrip(n: nat)
    requires n <= INT_MAX
    ensures ConvSize(Digits(n)) == Some(n)
  {
    var d := Digits(n);
    DigitsGood(n);
    NatOfDigits(n);
    DigitPrefixAll(d);
    assert d[|d|..] == [];
  }

  lemma HoldsRoundTrip(p: Parm, v: Value)
    requires Holds(p, v)
    ensures Convert(p, PrintValue(p, v)) == Some(NonNull(v)) && GoodValue(PrintValue(p, v))
  {
    if Storable(p, v) {
      ValueRoundTrip(p, v);
    } else if p.kind.KBytes? {
      DigitsGood(v.i);
      SizeRoundTrip(v.i);
    }
  }

  // The global section

  /** The line for entry `i` is read back as an assignment of `v` to it; nothing a handler has recorded. */
  ghost predicate Carried(t: Table, i: nat, v: Value)
    requires i < |t|
  {
    && GoodKey(t[i].name) && MapParameter(t, t[i].name) == i
    && if t[i].special.NoSpecial? then Holds(t[i], v) else t[i].kind.KString? && v == VStr([])
  }

  ghost predicate AllCarried(t: Table, vals: Values, shown: set<nat>) {
    forall i :: i in shown ==> i < |t| && t[i].ptr.Some? && Carried(t, i, Get(vals, t[i].ptr.value))
  }

  /** The state at the start of a load: no section is open, and nothing is locked. */
  ghost predicate Ready(st: State) {
    st.current == -1 && st.locked == {}
  }

  lemma EntryLoaded(t: Table, st: State, i: nat, v: Value)
    requires i < |t| && t[i].ptr.Some? && Carried(t, i, v)
    requires Ready(st) && st.inGlobal
    ensures Apply(t, st, Param(t[i].name, PrintValue(t[i], v))) ==
            (st.(defaults := st.defaults[t[i].ptr.value := NonNull(v)]), true)
    ensures Printable(Param(t[i].name, PrintValue(t[i], v)))
  {
    if t[i].special.NoSpecial? {
      HoldsRoundTrip(t[i], v);
    }
  }

  /** Some shown entry among the first `n` has storage `p`. */
  ghost predicate Covers(t: Table, n: nat, shown: set<nat>, p: Slot)
    requires n <= |t|
  {
    exists i :: 0 <= i < n && i in shown && t[i].ptr == Some(p)
  }

  lemma CoversNext(t: Table, n: nat, shown: set<nat>, p: Slot)
    requires n < |t|
    ensures Covers(t, n + 1, shown, p) <==> Covers(t, n, shown, p) || (n in shown && t[n].ptr == Some(p))
  {
  }

  /** What the lines for the first `n` entries leave in the defaults. */
  ghost predicate Taken(t: Table, n: nat, before: Values, after: Values, vals: Values, shown: set<nat>)
    requires n <= |t|
  {
    forall p :: Get(after, p) == if Covers(t, n, shown, p) then NonNull(Get(vals, p)) else Get(before, p)
  }

  lemma TakenNext(t: Table, n: nat, before: Values, mid: Values, vals: Values, shown: set<nat>)
    requires n < |t| && Taken(t, n, before, mid, vals, shown)
    ensures if n in shown && t[n].ptr.Some?
            then var p := t[n].ptr.value; Taken(t, n + 1, before, mid[p := NonNull(Get(vals, p))], vals, shown)
            else Taken(t, n + 1, before, mid, vals, shown)
  {
    forall p: Slot
      ensures Covers(t, n + 1, shown, p) <==> Covers(t, n, shown, p) || (n in shown && t[n].ptr == Some(p))
    {
      CoversNext(t, n, shown, p);
    }
  }

  lemma ParamsSnoc(lines: seq<(string, string)>, line: (string, string))
    ensures Params(lines + [line]) == Params(lines) + [Param(line.0, line.1)]
  {
  }

  lemma EntryApplied(t: Table, i: nat, st: State, lines: seq<(string, string)>, v: Value)
    requires st.current < |st.services| && ApplyAll(t, st, Params(lines)).1
    requires i < |t| && t[i].ptr.Some? && Carried(t, i, v)
    requires var st1 := ApplyAll(t, st, Params(lines)).0; Ready(st1) && st1.inGlobal
    ensures var st1, line := ApplyAll(t, st, Params(lines)).0, (t[i].name, PrintValue(t[i], v));
            && ApplyAll(t, st, Params(lines + [line])) ==
               (st1.(defaults := st1.defaults[t[i].ptr.value := NonNull(v)]), true)
            && Params(lines + [line]) == Params(lines) + [Param(line.0, line.1)] && Printable(Param(line.0, line.1))
  {
    ParamsSnoc(lines, (t[i].name, PrintValue(t[i], v)));
    ApplySnoc(t, st, Params(lines), Param(t[i].name, PrintValue(t[i], v)));
    EntryLoaded(t, ApplyAll(t, st, Params(lines)).0, i, v);
  }

  /** The defaults after the lines for the first `n` entries. */
  function PutValues(t: Table, n: nat, defaults: Values, vals: Values, shown: set<nat>): Values
    requires n <= |t|
  {
    if n == 0 then defaults
    else
      var before := PutValues(t, n - 1, defaults, vals, shown);
      if n - 1 in shown && t[n - 1].ptr.Some?
      then before[t[n - 1].ptr.value := NonNull(Get(vals, t[n - 1].ptr.value))] else before
  }

  lemma {:induction false} ValuesTaken(t: Table, n: nat, defaults: Values, vals: Values, shown: set<nat>)
    requires n <= |t|
    ensures Taken(t, n, defaults, PutValues(t, n, defaults, vals, shown), vals, shown)
  {
    if n > 0 {
      ValuesTaken(t, n - 1, defaults, vals, shown);
      TakenNext(t, n - 1, defaults, PutValues(t, n - 1, defaults, vals, shown), vals, shown);
    }
  }

  lemma {:induction false} ValuesApplied(t: Table, n: nat, st: State, vals: Values, shown: set<nat>)
    requires n <= |t| && Ready(st) && st.inGlobal
    requires AllCarried(t, vals, shown)
    ensures var es := Params(ValueLines(t, n, vals, shown));
            && (forall e :: e in es ==> Printable(e))
            && ApplyAll(t, st, es) == (st.(defaults := PutValues(t, n, st.defaults, vals, shown)), true)
  {
    if n > 0 {
      var i := n - 1;
      ValuesApplied(t, i, st, vals, shown);
      ValueLinesNext(t, i, vals, shown);
      if i in shown {
        EntryApplied(t, i, st, ValueLines(t, i, vals, shown), Get(vals, t[i].ptr.value));
      } else {
        assert ValueLines(t, n, vals, shown) == ValueLines(t, i, vals, shown);
      }
    }
  }

  lemma DumpOptsSnoc(opts: seq<Opt>, o: Opt)
    ensures Params(DumpOpts(opts + [o])) == Params(DumpOpts(opts)) + [Param(o.key, o.value)]
  {
    assert DumpOpts(opts + [o]) == DumpOpts(opts) + [(o.key, o.value)];
    ParamsSnoc(DumpOpts(opts), (o.key, o.value));
  }

  lemma OptLoaded(t: Table, st: State, o: Opt)
    requires Ready(st) && st.inGlobal && OptDumpable(t, o)
    ensures Apply(t, st, Param(o.key, o.value)) == (st.(opts := PutOpt(st.opts, Opt(o.key, o.value, false))), true)
  {
  }

  /** Options written over those that are there. */
  function PutAll(base: seq<Opt>, opts: seq<Opt>): seq<Opt> {
    if opts == [] then base
    else
      var o := opts[|opts| - 1];
      PutOpt(PutAll(base, opts[..|opts| - 1]), Opt(o.key, o.value, false))
  }

  /** The map that this makes: what the command line has set stays. */
  function Overridden(base: map<string, (string, bool)>, over: map<string, (string, bool)>)
    : map<string, (string, bool)>
  {
    map k | k in base.Keys + over.Keys ::
      if k in base && (base[k].1 || k !in over) then base[k] else (over[k].0, false)
  }

  lemma {:induction false} MapSnoc(opts: seq<Opt>, o: Opt)
    requires UniqueKeys(opts + [o])
    ensures AsMap(opts + [o]) == AsMap(opts)[o.key := (o.value, o.cmdline)]
  {
    var all := opts + [o];
    if opts == [] {
      assert all[1..] == [];
    } else {
      assert all[0] == opts[0] && all[1..] == opts[1..] + [o];
      assert opts[0].key != o.key by {
        assert all[0].key != all[|opts|].key;
      }
      MapSnoc(opts[1..], o);
    }
  }

  lemma NewKey(opts: seq<Opt>, o: Opt)
    requires UniqueKeys(opts + [o])
    ensures o.key !in AsMap(opts)
  {
    MapKeys(opts);
    forall i | 0 <= i < |opts|
      ensures opts[i].key != o.key
    {
      assert (opts + [o])[i].key != (opts + [o])[|opts|].key;
    }
  }

  lemma OverriddenNext(base: map<string, (string, bool)>, over: map<string, (string, bool)>, k: string,
                       v: (string, bool))
    requires k !in over
    ensures var m := Overridden(base, over);
            Overridden(base, over[k := v]) == if k in m && m[k].1 then m else m[k := (v.0, false)]
  {
  }

  lemma {:induction false} PutAllIsUpdate(base: seq<Opt>, opts: seq<Opt>)
    requires UniqueKeys(base) && UniqueKeys(opts)
    ensures UniqueKeys(PutAll(base, opts))
    ensures AsMap(PutAll(base, opts)) == Overridden(AsMap(base), AsMap(opts))
  {
    if opts != [] {
      var m := |opts| - 1;
      var before, o := opts[..m], opts[m];
      PutAllIsUpdate(base, before);
      assert opts == before + [o];
      MapSnoc(before, o);
      NewKey(before, o);
      OverriddenNext(AsMap(base), AsMap(before), o.key, (o.value, o.cmdline));
      PutOptIsUpdate(PutAll(base, before), Opt(o.key, o.value, false));
    }
  }

  lemma {:induction false} OptsApplied(t: Table, st: State, opts: seq<Opt>)
    requires Ready(st) && st.inGlobal && forall o :: o in opts ==> OptDumpable(t, o)
    ensures var es := Params(DumpOpts(opts));
            && (forall e :: e in es ==> Printable(e))
            && ApplyAll(t, st, es) == (st.(opts := PutAll(st.opts, opts)), true)
  {
    if opts != [] {
      var m := |opts| - 1;
      var before, o := opts[..m], opts[m];
      assert opts == before + [o] && o in opts;
      OptsApplied(t, st, before);
      DumpOptsSnoc(before, o);
      ApplySnoc(t, st, Params(DumpOpts(before)), Param(o.key, o.value));
      OptLoaded(t, st.(opts := PutAll(st.opts, before)), o);
    }
  }

  /** The part of a state that is dumped before the services. */
  ghost predicate HeadDumpable(t: Table, st: State, hidden: set<nat>) {
    && AllCarried(t, st.defaults, GlobalsShown(t, hidden)) && AllCarried(t, st.defaults, DefaultsShown(t))
    && UniqueKeys(st.opts) && forall o :: o in st.opts ==> OptDumpable(t, o)
  }

  lemma GlobalsApplied(t: Table, st: State, vals: Values, opts: seq<Opt>, shown: set<nat>)
    requires Ready(st) && st.inGlobal
    requires AllCarried(t, vals, shown)
    requires forall o :: o in opts ==> OptDumpable(t, o)
    ensures var es := Params(ValueLines(t, |t|, vals, shown) + DumpOpts(opts));
            && (forall e :: e in es ==> Printable(e))
            && var (st', ok) := ApplyAll(t, st, es);
               && ok && st' == st.(defaults := st'.defaults, opts := PutAll(st.opts, opts))
               && Taken(t, |t|, st.defaults, st'.defaults, vals, shown)
  {
    var a, b := ValueLines(t, |t|, vals, shown), DumpOpts(opts);
    assert Params(a + b) == Params(a) + Params(b);
    ValuesApplied(t, |t|, st, vals, shown);
    ValuesTaken(t, |t|, st.defaults, vals, shown);
    var st1 := ApplyAll(t, st, Params(a)).0;
    OptsApplied(t, st1, opts);
    ApplyConcat(t, st, Params(a), Params(b));
  }

  lemma GlobalOpened(t: Table, st: State, name: string)
    requires st.current < |st.services| && IsGlobalName(name)
    ensures ApplyAll(t, st, [Section(name)]) == (st.(inGlobal := true), true)
  {
    ApplySnoc(t, st, [], Section(name));
    assert [] + [Section(name)] == [Section(name)];
  }

  lemma GlobalPrintable()
    ensures Printable(Section("global")) && IsGlobalName("global")
  {
  }

  /** What loading the first part of a dump leaves: the rest of the state is as it was. */
  ghost predicate HeadTaken(t: Table, st: State, st': State, d: State, hidden: set<nat>) {
    && st' == st.(inGlobal := true, defaults := st'.defaults, opts := PutAll(st.opts, d.opts))
    && forall p :: Get(st'.defaults, p) ==
         if Covers(t, |t|, GlobalsShown(t, hidden), p) || Covers(t, |t|, DefaultsShown(t), p)
         then NonNull(Get(d.defaults, p)) else Get(st.defaults, p)
  }

  lemma HeadApplied(t: Table, st: State, d: State, hidden: set<nat>)
    requires Ready(st) && HeadDumpable(t, d, hidden)
    ensures var es := HeadEvents(t, d, hidden);
            && (forall e :: e in es ==> Printable(e))
            && var (st', ok) := ApplyAll(t, st, es);
               ok && HeadTaken(t, st, st', d, hidden)
  {
    var a, b, c := [Section("global")], Params(GlobalLines(t, d, hidden)), Params(DefaultLines(t, d.defaults));
    var st0 := st.(inGlobal := true);
    GlobalPrintable();
    GlobalOpened(t, st, "global");
    GlobalsApplied(t, st0, d.defaults, d.opts, GlobalsShown(t, hidden));
    ApplyConcat(t, st, a, b);
    var st1 := ApplyAll(t, st0, b).0;
    ValuesApplied(t, |t|, st1, d.defaults, DefaultsShown(t));
    ValuesTaken(t, |t|, st1.defaults, d.defaults, DefaultsShown(t));
    ApplyConcat(t, st, a + b, c);
  }

  // The whole dump

  lemma DefaultCovered(t: Table, i: nat)
    requires AliasesAgree(t) && i < |t| && t[i].scope.Local? && t[i].ptr.Some? && !Dashed(t[i].name)
    ensures Covers(t, |t|, DefaultsShown(t), t[i].ptr.value)
  {
    var f := FirstAlias(t, i);
    assert t[f].scope.Local? && !Dashed(t[f].name) && Leads(t, f);
    assert f in DefaultsShown(t);
  }

  lemma NonNullCopied(p: Parm, v: Value)
    requires Holds(p, v)
    ensures CopyValue(p.kind, NonNull(v)) == CopyValue(p.kind, v)
  {
  }

  lemma HeadAgrees(t: Table, st: State, st': State, d: State, hidden: set<nat>)
    requires AliasesAgree(t) && HeadDumpable(t, d, hidden) && HeadTaken(t, st, st', d, hidden)
    ensures Agree(t, st'.defaults, d.defaults)
  {
    forall i | 0 <= i < |t| && Settable(t[i])
      ensures CopyValue(t[i].kind, Get(st'.defaults, t[i].ptr.value)) ==
              CopyValue(t[i].kind, Get(d.defaults, t[i].ptr.value))
    {
      DefaultHeld(t, d, hidden, i);
      DefaultCovered(t, i);
    }
  }

  lemma DefaultHeld(t: Table, d: State, hidden: set<nat>, i: nat)
    requires AliasesAgree(t) && HeadDumpable(t, d, hidden) && i < |t| && Settable(t[i])
    ensures var v := Get(d.defaults, t[i].ptr.value);
            CopyValue(t[i].kind, NonNull(v)) == CopyValue(t[i].kind, v)
  {
    DefaultCovered(t, i);
    var f :| 0 <= f < |t| && f in DefaultsShown(t) && t[f].ptr == t[i].ptr;
    assert t[f].kind == t[i].kind && t[f].special.NoSpecial?;
    NonNullCopied(t[f], Get(d.defaults, t[i].ptr.value));
  }

  lemma CommentSkipped(comment: string, es: seq<Event>, answer: Answer)
    requires comment != [] && comment[0] == '#' && OneLine(comment)
    requires es != [] && es[0].Section?
    ensures Parse(comment + Layout(es), answer) == Parse(Layout(es), answer)
  {
    var l := Layout(es);
    var all := comment + l;
    assert l[0] == '\n' && SkipBlank(l) == l;
    assert all[0] == '#' && all[1..] == comment[1..] + l;
    assert SkipBlank(all) == all;
    LineSkipped(comment[1..], l);
  }

  lemma CommentLine()
    ensures COMMENT != [] && COMMENT[0] == '#' && OneLine(COMMENT)
  {
  }

  lemma {:induction false} LineSkipped(a: string, l: string)
    requires '\n' !in a && NUL !in a && l != [] && l[0] == '\n'
    ensures SkipLine(a + l) == l
  {
    if a == [] {
      assert a + l == l;
    } else {
      assert a[0] in a && (a + l)[0] == a[0] && (a + l)[1..] == a[1..] + l;
      LineSkipped(a[1..], l);
    }
  }

  lemma DumpRead(t: Table, st: State, es: seq<Event>)
    requires st.current < |st.services| && ApplyAll(t, st, es).1
    requires es != [] && es[0].Section? && forall e :: e in es ==> Printable(e)
    ensures LoadText(t, st, COMMENT + Layout(es)) == ApplyAll(t, st, es)
  {
    CommentLine();
    CommentSkipped(COMMENT, es, Answers(t, st));
    LayoutLoads(t, st, es);
  }

  /** What is dumped of `d` before the services is found again, and the rest is as it was in `st`. */
  ghost predicate Restored(t: Table, st: State, defaults: Values, opts: seq<Opt>, d: State, hidden: set<nat>) {
    && AsMap(opts) == Overridden(AsMap(st.opts), AsMap(d.opts))
    && forall p :: Get(defaults, p) ==
         if Covers(t, |t|, GlobalsShown(t, hidden), p) || Covers(t, |t|, DefaultsShown(t), p)
         then NonNull(Get(d.defaults, p)) else Get(st.defaults, p)
  }

  lemma HeadRestores(t: Table, st: State, st': State, d: State, hidden: set<nat>)
    requires UniqueKeys(st.opts) && UniqueKeys(d.opts) && HeadTaken(t, st, st', d, hidden)
    ensures Restored(t, st, st'.defaults, st'.opts, d, hidden)
  {
    PutAllIsUpdate(st.opts, d.opts);
  }

  lemma LpDumpApplied(t: Table, st: State, d: State, hidden: set<nat>, svcs: seq<Service>)
    requires AliasesAgree(t) && WellTyped(t) && NamesFound(t) && PrinterRows(t)
    requires Ready(st) && UniqueKeys(st.opts) && HeadDumpable(t, d, hidden) && NamesApart(svcs)
    requires forall s :: s in svcs ==> Dumpable(t, d.defaults, s) && FindService(st.services, s.name) < 0
    ensures var es := HeadEvents(t, d, hidden) + AllEvents(t, d.defaults, svcs);
            && (forall e :: e in es ==> Printable(e))
            && var (st', ok) := ApplyAll(t, st, es);
               && ok && (st'.current >= 0 ==> st'.services[st'.current].name != [])
               && Restored(t, st, st'.defaults, st'.opts, d, hidden) && Found(t, st', svcs)
  {
    var head := HeadEvents(t, d, hidden);
    HeadApplied(t, st, d, hidden);
    var st1 := ApplyAll(t, st, head).0;
    HeadAgrees(t, st, st1, d, hidden);
    HeadRestores(t, st, st1, d, hidden);
    assert forall i :: 0 <= i < |svcs| ==> svcs[i] in svcs;
    AllApplied(t, st1, d.defaults, svcs);
    AllPrintable(t, st1, d.defaults, svcs);
    ApplyConcat(t, st, head, AllEvents(t, d.defaults, svcs));
  }

  lemma AllFound(t: Table, st: State, svcs: seq<Service>)
    requires PrinterRows(t) && Found(t, st, svcs)
    requires st.current < |st.services| && (st.current >= 0 ==> st.services[st.current].name != [])
    ensures var (st', ok) := Finish((st, true));
            && ok && st'.defaults == st.defaults && st'.opts == st.opts
            && forall s :: s in svcs ==>
                 var k := FindService(st'.services, s.name);
                 k >= 0 && Same(t, st'.services[k], Corrected(s))
  {
    var st' := Finish((st, true)).0;
    forall s | s in svcs
      ensures var k := FindService(st'.services, s.name);
              k >= 0 && Same(t, st'.services[k], Corrected(s))
    {
      var i :| 0 <= i < |svcs| && svcs[i] == s;
      FinishFound(t, st, svcs, i);
    }
  }

  /**
   The text of lp_dump, loaded at the start of a load into a state that has none of the services: every
   global that is shown and every default has its value again, those not shown keep theirs, the global
   options override those that are there, and every service is found under its name as service_ok leaves the original.
   */
  lemma LpDumpLoads(t: Table, st: State, d: State, hidden: set<nat>, n: nat)
    requires AliasesAgree(t) && WellTyped(t) && NamesFound(t) && PrinterRows(t)
    requires Ready(st) && UniqueKeys(st.opts)
    requires n <= |d.services| && HeadDumpable(t, d, hidden) && NamesApart(Shown(d.services[..n]))
    requires forall s :: s in Shown(d.services[..n]) ==>
               Dumpable(t, d.defaults, s) && FindService(st.services, s.name) < 0
    ensures var (st', ok) := Finish(LoadText(t, st, LpDumpText(t, d, hidden, n)));
            && ok && Restored(t, st, st'.defaults, st'.opts, d, hidden)
            && forall s :: s in Shown(d.services[..n]) ==>
                 var k := FindService(st'.services, s.name);
                 k >= 0 && Same(t, st'.services[k], Corrected(s))
  {
    var svcs := Shown(d.services[..n]);
    var es := HeadEvents(t, d, hidden) + AllEvents(t, d.defaults, svcs);
    LpDumpApplied(t, st, d, hidden, svcs);
    DumpRead(t, st, es);
    AllFound(t, ApplyAll(t, st, es).0, svcs);
  }

  // What may not be shown

  function LpDumpEvents(t: Table, d: State, hidden: set<nat>, n: nat): seq<Event>
    requires n <= |d.services|
  {
    HeadEvents(t, d, hidden) + AllEvents(t, d.defaults, Shown(d.services[..n]))
  }

  /** The text of a dump is read as what was dumped if and only if every line of it is printable. */
  lemma DumpReadExactly(t: Table, d: State, hidden: set<nat>, n: nat, answer: Answer)
    requires n <= |d.services| && forall e :: e in LpDumpEvents(t, d, hidden, n) ==> Deliverable(e)
    requires forall h :: answer(h)
    ensures Parse(LpDumpText(t, d, hidden, n), answer) == (true, LpDumpEvents(t, d, hidden, n)) <==>
            forall e :: e in LpDumpEvents(t, d, hidden, n) ==> Printable(e)
  {
    var es := LpDumpEvents(t, d, hidden, n);
    CommentLine();
    CommentSkipped(COMMENT, es, answer);
    assert [] + es == es;
    Stripping.LayoutExactly(es, [], answer);
  }

  lemma {:induction false} LineOf(t: Table, n: nat, vals: Values, shown: set<nat>, i: nat)
    requires i < n <= |t| && i in shown && t[i].ptr.Some?
    ensures (t[i].name, PrintValue(t[i], Get(vals, t[i].ptr.value))) in ValueLines(t, n, vals, shown)
  {
    ValueLinesNext(t, n - 1, vals, shown);
    if i < n - 1 {
      LineOf(t, n - 1, vals, shown, i);
    }
  }

  /** So a global that ends in a backslash, as the built-in "winbind separator" does, must stay hidden:
      shown, it takes the next line of the dump with it. */
  lemma BackslashLost(t: Table, d: State, hidden: set<nat>, n: nat, answer: Answer, i: nat)
    requires n <= |d.services| && forall e :: e in LpDumpEvents(t, d, hidden, n) ==> Deliverable(e)
    requires forall h :: answer(h)
    requires i in GlobalsShown(t, hidden) && t[i].kind.KString?
    requires var v := Get(d.defaults, t[i].ptr.value); v.VStr? && v.s != [] && Last(v.s) == '\\'
    ensures Parse(LpDumpText(t, d, hidden, n), answer) != (true, LpDumpEvents(t, d, hidden, n))
  {
    var v := Get(d.defaults, t[i].ptr.value).s;
    LineOf(t, |t|, d.defaults, GlobalsShown(t, hidden), i);
    var lines := GlobalLines(t, d, hidden);
    assert (t[i].name, v) in lines;
    var k :| 0 <= k < |lines| && lines[k] == (t[i].name, v);
    var e := Param(t[i].name, v);
    assert Params(lines)[k] == e;
    assert e in HeadEvents(t, d, hidden);
    assert !Printable(e);
    DumpReadExactly(t, d, hidden, n, answer);
  }
}
