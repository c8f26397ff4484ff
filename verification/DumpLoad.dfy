/** Dumping a service and loading the text again gives an equal service. */
module DumpLoad {
  import opened Text
  import opened CStrings
  import opened ConfSpec
  import opened ConfRoundTrip
  import opened LoadParm
  import opened Loading
  import opened Services
  import opened CopyRules
  import opened Parametric

  // print_parameter, equal_parameter, dump_a_service

  function EnumByValue(enums: seq<(int, string)>, v: int): string {
    if enums == [] then [] else if enums[0].0 == v then enums[0].1 else EnumByValue(enums[1..], v)
  }

  function PrintValue(p: Parm, v: Value): string {
    match (p.kind, v)
    case (KEnum, VInt(i)) => EnumByValue(p.enums, i)
    case (KBool, VBool(b)) => BoolStr(b)
    case (KInteger, VInt(i)) => PrintInt(i)
    case (KBytes, VInt(i)) => PrintInt(i)
    case (KList, VList(Some(l))) => PrintList(l)
    case (KString, VStr(s)) => s
    case (KUString, VStr(s)) => s
    case _ => []
  }

  predicate EqualParameter(kind: Kind, a: Value, b: Value) {
    match kind
    case KString => a.VStr? && b.VStr? && StrEqual(a.s, b.s)
    case KUString => a.VStr? && b.VStr? && StrEqual(a.s, b.s)
    case KSep => false
    case _ => a == b
  }

  /** Whether dump_a_service prints entry `i`: the first of its aliases, where it differs from the default. */
  predicate Dumped(t: Table, defaults: Values, s: Service, i: nat)
    requires i < |t|
  {
    && t[i].scope.Local? && t[i].ptr.Some?
    && !Dashed(t[i].name)
    && (i == 0 || t[i].ptr != t[i - 1].ptr)
    && !EqualParameter(t[i].kind, Get(s.vals, t[i].ptr.value), Get(defaults, t[i].ptr.value))
  }

  /** The parameter lines printed for the first `n` entries. */
  function DumpParms(t: Table, n: nat, defaults: Values, s: Service): seq<(string, string)>
    requires n <= |t|
  {
    if n == 0 then []
    else
      DumpParms(t, n - 1, defaults, s) +
      if Dumped(t, defaults, s, n - 1)
      then [(t[n - 1].name, PrintValue(t[n - 1], Get(s.vals, t[n - 1].ptr.value)))] else []
  }

  lemma DumpParmsNext(t: Table, i: nat, defaults: Values, s: Service)
    requires i < |t|
    ensures DumpParms(t, i + 1, defaults, s) ==
            if Dumped(t, defaults, s, i)
            then DumpParms(t, i, defaults, s) + [(t[i].name, PrintValue(t[i], Get(s.vals, t[i].ptr.value)))]
            else DumpParms(t, i, defaults, s)
  {
  }

  function DumpOpts(opts: seq<Opt>): seq<(string, string)> {
    seq(|opts|, i requires 0 <= i < |opts| => (opts[i].key, opts[i].value))
  }

  function DumpLines(t: Table, defaults: Values, s: Service): seq<(string, string)> {
    DumpParms(t, |t|, defaults, s) + DumpOpts(s.opts)
  }

  function Params(lines: seq<(string, string)>): seq<Event> {
    seq(|lines|, i requires 0 <= i < |lines| => Param(lines[i].0, lines[i].1))
  }

  /** What dump_a_service writes for a service. */
  function DumpEvents(t: Table, defaults: Values, s: Service): seq<Event> {
    [Section(s.name)] + Params(DumpLines(t, defaults, s))
  }

  function ParamText(lines: seq<(string, string)>): string {
    Layout(Params(lines))
  }

  method DumpService(t: Table, defaults: Values, s: Service) returns (text: string)
    ensures text == Layout(DumpEvents(t, defaults, s))
  {
    var parms := PrintParms(t, defaults, s);
    var opts := PrintOpts(s.opts);
    text := LineText(Section(s.name)) + parms + opts;
    var p, o := Params(DumpParms(t, |t|, defaults, s)), Params(DumpOpts(s.opts));
    assert DumpEvents(t, defaults, s) == [Section(s.name)] + p + o;
    LayoutSnoc([], Section(s.name));
    LayoutConcat([Section(s.name)], p);
    LayoutConcat([Section(s.name)] + p, o);
  }

  method PrintParms(t: Table, defaults: Values, s: Service) returns (text: string)
    ensures text == ParamText(DumpParms(t, |t|, defaults, s))
  {
    text := [];
    for i := 0 to |t|
      invariant text == ParamText(DumpParms(t, i, defaults, s))
    {
      ParmsTextNext(t, i, defaults, s);
      if Dumped(t, defaults, s, i) {
        var v := PrintValue(t[i], Get(s.vals, t[i].ptr.value));
        text := text + LineText(Param(t[i].name, v));
      }
    }
  }

  lemma ParmsTextNext(t: Table, i: nat, defaults: Values, s: Service)
    requires i < |t|
    ensures ParamText(DumpParms(t, i + 1, defaults, s)) ==
            if Dumped(t, defaults, s, i)
            then ParamText(DumpParms(t, i, defaults, s)) +
                 LineText(Param(t[i].name, PrintValue(t[i], Get(s.vals, t[i].ptr.value))))
            else ParamText(DumpParms(t, i, defaults, s))
  {
    DumpParmsNext(t, i, defaults, s);
    if Dumped(t, defaults, s, i) {
      ParamTextSnoc(DumpParms(t, i, defaults, s), (t[i].name, PrintValue(t[i], Get(s.vals, t[i].ptr.value))));
    }
  }

  method PrintOpts(opts: seq<Opt>) returns (text: string)
    ensures text == ParamText(DumpOpts(opts))
  {
    text := [];
    for i := 0 to |opts|
      invariant text == ParamText(DumpOpts(opts[..i]))
    {
      var line := (opts[i].key, opts[i].value);
      assert DumpOpts(opts[..i + 1]) == DumpOpts(opts[..i]) + [line];
      ParamTextSnoc(DumpOpts(opts[..i]), line);
      text := text + LineText(Param(line.0, line.1));
    }
    assert opts[..|opts|] == opts;
  }

  lemma Unpadded(x: string)
    ensures x + [] == x && [] + x == x
  {
  }

  lemma {:induction false} LayoutSnoc(es: seq<Event>, e: Event)
    ensures Layout(es + [e]) == Layout(es) + LineText(e)
  {
    var all := es + [e];
    if es == [] {
      assert all[1..] == [];
      Unpadded(LineText(e));
    } else {
      assert all[0] == es[0] && all[1..] == es[1..] + [e];
      LayoutSnoc(es[1..], e);
      Associate(LineText(es[0]), Layout(es[1..]), LineText(e));
    }
  }

  lemma {:induction false} LayoutConcat(a: seq<Event>, b: seq<Event>)
    ensures Layout(a + b) == Layout(a) + Layout(b)
  {
    if b == [] {
      assert a + b == a;
    } else {
      var c, e := b[..|b| - 1], b[|b| - 1];
      assert a + b == a + c + [e] && b == c + [e];
      LayoutConcat(a, c);
      LayoutSnoc(a + c, e);
      LayoutSnoc(c, e);
      Associate(Layout(a), Layout(c), LineText(e));
    }
  }

  lemma ParamTextSnoc(lines: seq<(string, string)>, line: (string, string))
    ensures ParamText(lines + [line]) == ParamText(lines) + LineText(Param(line.0, line.1))
  {
    var e := Param(line.0, line.1);
    LayoutSnoc(Params(lines), e);
    assert Params(lines + [line]) == Params(lines) + [e];
  }

  // Values

  /** Names that compare equal stand for the same value. */
  predicate EnumsAgree(enums: seq<(int, string)>) {
    forall i, j :: 0 <= i < j < |enums| && StrEqual(enums[i].1, enums[j].1) ==> enums[i].0 == enums[j].0
  }

  /** Besides, the names survive on a line. */
  predicate EnumsGood(enums: seq<(int, string)>) {
    EnumsAgree(enums) && forall i :: 0 <= i < |enums| ==> GoodValue(enums[i].1)
  }

  /** A value of the parameter's type whose printed form survives on a line. */
  predicate Storable(p: Parm, v: Value) {
    match (p.kind, v)
    case (KBool, VBool(_)) => true
    case (KInteger, VInt(_)) => true
    case (KEnum, VInt(i)) =>
      && EnumsAgree(p.enums) && (exists e :: e in p.enums && e.0 == i)
      && GoodValue(EnumByValue(p.enums, i))
    case (KString, VStr(s)) => GoodValue(s)
    case (KUString, VStr(s)) => GoodValue(s) && StrUpper(s) == s
    case (KList, VList(Some(l))) => GoodValue(PrintList(l)) && forall w :: w in l ==> CleanWord(w)
    case _ => false
  }

  lemma {:induction false} EnumRoundTrip(enums: seq<(int, string)>, v: int)
    requires EnumsAgree(enums)
    requires exists e :: e in enums && e.0 == v
    ensures EnumByName(enums, EnumByValue(enums, v)) == Some(v)
  {
    if enums[0].0 != v {
      var e :| e in enums && e.0 == v;
      assert e in enums[1..];
      EnumRoundTrip(enums[1..], v);
      EnumPresent(enums[1..], v);
    }
  }

  lemma {:induction false} EnumPresent(enums: seq<(int, string)>, v: int)
    requires exists e :: e in enums && e.0 == v
    ensures exists i :: 0 <= i < |enums| && enums[i].0 == v && enums[i].1 == EnumByValue(enums, v)
  {
    if enums[0].0 != v {
      var e :| e in enums && e.0 == v;
      assert e in enums[1..];
      EnumPresent(enums[1..], v);
      var i :| 0 <= i < |enums[1..]| && enums[1..][i].0 == v && enums[1..][i].1 == EnumByValue(enums[1..], v);
      assert enums[i + 1].0 == v;
    }
  }

  /** What is printed for a value means that value again, and sits on a line unchanged. */
  lemma ValueRoundTrip(p: Parm, v: Value)
    requires Storable(p, v)
    ensures Convert(p, PrintValue(p, v)) == Some(v)
    ensures GoodValue(PrintValue(p, v))
  {
    match (p.kind, v)
    case (KBool, VBool(b)) => BoolRoundTrip(b);
    case (KInteger, VInt(i)) =>
      IntRoundTrip(i);
      var d := PrintInt(i);
      assert forall c :: c in d ==> IsDigit(c) || c == '-';
      assert Last(d) in d && d[0] in d;
      assert Last(d) in Digits(if i < 0 then -i else i);
    case (KEnum, VInt(i)) => EnumRoundTrip(p.enums, i);
    case (KList, VList(Some(l))) => ListRoundTrip(l);
    case _ =>
  }

  // What may be dumped, and where it may be loaded

  /** The service parameters that a file can set have names that survive on a line and are found again. */
  ghost predicate NamesFound(t: Table) {
    forall i :: 0 <= i < |t| && t[i].scope.Local? && !Dashed(t[i].name) ==>
      GoodKey(t[i].name) && MapParameter(t, t[i].name) == i
  }

  /** A service parameter that a file can set and that has no handler. */
  predicate Settable(p: Parm) {
    p.scope.Local? && p.ptr.Some? && p.special.NoSpecial? && !Dashed(p.name)
  }

  /** A parametric option whose line is read back as an option. */
  predicate OptDumpable(t: Table, o: Opt) {
    && GoodKey(o.key) && GoodValue(o.value)
    && ':' in o.key && OptKey(o.key) == o.key && MapParameter(t, o.key) < 0
  }

  /** Nothing recorded by a handler, values that survive on a line, no null list. */
  ghost predicate Dumpable(t: Table, defaults: Values, s: Service) {
    && Printable(Section(s.name)) && !IsGlobalName(s.name)
    && UniqueKeys(s.opts) && (forall o :: o in s.opts ==> OptDumpable(t, o))
    && (forall i :: 0 <= i < |t| && Dumped(t, defaults, s, i) ==>
          t[i].special.NoSpecial? && Storable(t[i], Get(s.vals, t[i].ptr.value)))
    && (forall i :: 0 <= i < |t| && t[i].scope.Local? && t[i].ptr.Some? && t[i].kind.KList? && !Dashed(t[i].name) ==>
          Get(s.vals, t[i].ptr.value).VList? && Get(s.vals, t[i].ptr.value).l.Some?)
  }

  /** A service that starts from the one set of defaults is as if it started from the other. */
  ghost predicate Agree(t: Table, a: Values, b: Values) {
    forall i :: 0 <= i < |t| && Settable(t[i]) ==>
      CopyValue(t[i].kind, Get(a, t[i].ptr.value)) == CopyValue(t[i].kind, Get(b, t[i].ptr.value))
  }

  /** A state in which the section can be opened afresh, with defaults that agree and no service
      parameter locked. */
  ghost predicate Receptive(t: Table, st: State, defaults: Values, name: string) {
    && st.current < |st.services|
    && (st.current >= 0 ==> st.services[st.current].name != [])
    && FindService(st.services, name) < 0
    && Agree(t, st.defaults, defaults)
    && Unlocked(t, st)
  }

  /** No service parameter is locked by the command line. */
  ghost predicate Unlocked(t: Table, st: State) {
    forall i :: 0 <= i < |t| && t[i].scope.Local? ==> i !in st.locked
  }

  // The lines of a dump

  /** A line that cannot fail, copies nothing and, if it is in the table, is for a service field. */
  ghost predicate Harmless(t: Table, st: State, line: (string, string)) {
    var n := MapParameter(t, line.0);
    n < 0 || (n !in st.locked && t[n].scope.Local? && t[n].special.NoSpecial? && Convert(t[n], line.1).Some?)
  }

  lemma EntryLine(t: Table, st: State, i: nat, v: Value)
    requires i < |t| && t[i].scope.Local? && t[i].special.NoSpecial? && i !in st.locked
    requires GoodKey(t[i].name) && MapParameter(t, t[i].name) == i && Storable(t[i], v)
    ensures Harmless(t, st, (t[i].name, PrintValue(t[i], v)))
    ensures Printable(Param(t[i].name, PrintValue(t[i], v)))
  {
    ValueRoundTrip(t[i], v);
  }

  lemma {:induction false} EntryOf(t: Table, n: nat, defaults: Values, s: Service, l: (string, string))
    returns (i: nat)
    requires n <= |t| && l in DumpParms(t, n, defaults, s)
    ensures i < n && Dumped(t, defaults, s, i) && l == (t[i].name, PrintValue(t[i], Get(s.vals, t[i].ptr.value)))
  {
    i := n - 1;
    DumpParmsNext(t, i, defaults, s);
    if l in DumpParms(t, i, defaults, s) {
      i := EntryOf(t, i, defaults, s, l);
    }
  }

  lemma ParmsHarmless(t: Table, st: State, defaults: Values, s: Service, l: (string, string))
    requires NamesFound(t) && Dumpable(t, defaults, s) && Unlocked(t, st)
    requires l in DumpParms(t, |t|, defaults, s)
    ensures Harmless(t, st, l) && Printable(Param(l.0, l.1)) && MapParameter(t, l.0) >= 0
  {
    var i := EntryOf(t, |t|, defaults, s, l);
    EntryLine(t, st, i, Get(s.vals, t[i].ptr.value));
  }

  lemma LineHarmless(t: Table, st: State, defaults: Values, s: Service, l: (string, string))
    requires NamesFound(t) && Dumpable(t, defaults, s) && Unlocked(t, st)
    requires l in DumpLines(t, defaults, s)
    ensures Harmless(t, st, l) && Printable(Param(l.0, l.1))
  {
    if l in DumpParms(t, |t|, defaults, s) {
      ParmsHarmless(t, st, defaults, s, l);
    } else {
      var i :| 0 <= i < |s.opts| && l == (s.opts[i].key, s.opts[i].value);
      assert s.opts[i] in s.opts;
    }
  }

  lemma LinesHarmless(t: Table, st: State, defaults: Values, s: Service)
    requires NamesFound(t) && Dumpable(t, defaults, s) && Unlocked(t, st)
    ensures forall l :: l in DumpLines(t, defaults, s) ==> Harmless(t, st, l)
    ensures forall e :: e in DumpEvents(t, defaults, s) ==> Printable(e)
  {
    var lines := DumpLines(t, defaults, s);
    forall l | l in lines
      ensures Harmless(t, st, l)
    {
      LineHarmless(t, st, defaults, s, l);
    }
    forall e | e in DumpEvents(t, defaults, s)
      ensures Printable(e)
    {
      if e != Section(s.name) {
        assert e in Params(lines);
        var i :| 0 <= i < |lines| && e == Param(lines[i].0, lines[i].1);
        LineHarmless(t, st, defaults, s, lines[i]);
      }
    }
  }

  /** Line `j` is the last that sets storage `p`; -1 if none does. */
  ghost predicate LastSets(t: Table, st: State, lines: seq<(string, string)>, p: Slot, j: int) {
    && -1 <= j < |lines|
    && (j >= 0 ==> Sets(t, st, lines[j], p))
    && (forall l :: j < l < |lines| ==> !Sets(t, st, lines[l], p))
  }

  lemma LastSetsNext(t: Table, st: State, lines: seq<(string, string)>, line: (string, string), p: Slot, j: int)
    requires LastSets(t, st, lines, p, j)
    ensures LastSets(t, st, lines + [line], p, if Sets(t, st, line, p) then |lines| else j)
  {
  }

  /** The last line that sets storage `p`, among those of the first `n` entries, is entry `f`'s; without
      one no entry of `p` is dumped. */
  lemma {:induction false} LastSetter(t: Table, n: nat, st: State, defaults: Values, s: Service, p: Slot,
                                      lines: seq<(string, string)>)
    returns (j: int, f: nat)
    requires n <= |t| && NamesFound(t) && Unlocked(t, st)
    requires lines == DumpParms(t, n, defaults, s)
    ensures LastSets(t, st, lines, p, j)
    ensures j >= 0 ==>
              && f < n && Dumped(t, defaults, s, f) && t[f].ptr == Some(p)
              && MapParameter(t, lines[j].0) == f && lines[j].1 == PrintValue(t[f], Get(s.vals, p))
    ensures j < 0 ==> forall i :: 0 <= i < n && Dumped(t, defaults, s, i) ==> t[i].ptr != Some(p)
  {
    j, f := -1, 0;
    if n > 0 {
      var i := n - 1;
      var before := DumpParms(t, i, defaults, s);
      j, f := LastSetter(t, i, st, defaults, s, p, before);
      DumpParmsNext(t, i, defaults, s);
      if Dumped(t, defaults, s, i) {
        var line := (t[i].name, PrintValue(t[i], Get(s.vals, t[i].ptr.value)));
        LastSetsNext(t, st, before, line, p, j);
        if Sets(t, st, line, p) {
          j, f := |before|, i;
        }
      }
    }
  }

  // The fresh service

  /** do_section on a name not in use: the new current service has the defaults and nothing set. */
  lemma OpenedSection(t: Table, st: State, defaults: Values, name: string)
    requires Receptive(t, st, defaults, name) && !IsGlobalName(name)
    ensures var (st', ok) := DoSection(t, st, name);
            && ok && !st'.inGlobal && st'.locked == st.locked && st'.defaults == st.defaults && st'.opts == st.opts
            && 0 <= st'.current < |st'.services|
            && st'.services[st'.current] ==
               CopyAll(t, InitService(t, st), DefaultService(st)).(name := name)
  {
    var st0 := st.(inGlobal := false);
    var st1 := if st.current >= 0 then ServiceOk(st0, st.current).0 else st0;
    assert SameShape(st.services, st1.services);
    FindServiceShape(st.services, st1.services, name);
  }

  lemma FreshField(t: Table, st: State, p: Slot, i: nat)
    requires FieldOf(t, p, i)
    ensures var s := CopyAll(t, InitService(t, st), DefaultService(st));
            && Some(Get(s.vals, p)) == CopyValue(t[i].kind, Get(st.defaults, p))
            && s.explicit == {} && s.valid && s.opts == []
  {
    CopyTakes(t, |t|, InitService(t, st).vals, st.defaults, {}, p, i);
  }

  // Loading

  lemma HarmlessAccepted(t: Table, st: State, k: nat, line: (string, string))
    requires k < |st.services| && Harmless(t, st, line)
    ensures DoParameter(t, st, k, line.0, line.1).1
  {
  }

  lemma {:induction false} LinesAccepted(t: Table, st: State, k: nat, lines: seq<(string, string)>)
    requires k < |st.services|
    requires forall l :: l in lines ==> Harmless(t, st, l)
    ensures Accepted(t, st, k, lines)
    ensures SectionLines(t, st, k, lines).inGlobal == st.inGlobal
  {
    if lines != [] {
      var m := |lines| - 1;
      assert lines[m] in lines;
      LinesAccepted(t, st, k, lines[..m]);
      HarmlessAccepted(t, SectionLines(t, st, k, lines[..m]), k, lines[m]);
    }
  }

  lemma ApplySnoc(t: Table, st: State, es: seq<Event>, e: Event)
    requires st.current < |st.services| && ApplyAll(t, st, es).1
    ensures ApplyAll(t, st, es + [e]) == Apply(t, ApplyAll(t, st, es).0, e)
  {
  }

  lemma LineApplied(t: Table, st: State, k: nat, line: (string, string))
    requires k < |st.services| && st.current == k && !st.inGlobal
    ensures Apply(t, st, Param(line.0, line.1)) == DoParameter(t, st, k, line.0, line.1)
  {
  }

  lemma ParamsNext(pre: seq<Event>, lines: seq<(string, string)>)
    requires lines != []
    ensures var m := |lines| - 1;
            pre + Params(lines) == pre + Params(lines[..m]) + [Param(lines[m].0, lines[m].1)]
  {
  }

  /** Reading a section's lines is what SectionLines says. */
  lemma {:induction false} LoadLines(t: Table, st0: State, pre: seq<Event>, st: State, k: nat,
                                     lines: seq<(string, string)>)
    requires st0.current < |st0.services| && ApplyAll(t, st0, pre) == (st, true)
    requires k < |st.services| && st.current == k && !st.inGlobal
    requires forall l :: l in lines ==> Harmless(t, st, l)
    ensures ApplyAll(t, st0, pre + Params(lines)) == (SectionLines(t, st, k, lines), true)
  {
    if lines == [] {
      assert pre + Params(lines) == pre;
    } else {
      var m := |lines| - 1;
      assert lines[m] in lines;
      var es, e := pre + Params(lines[..m]), Param(lines[m].0, lines[m].1);
      ParamsNext(pre, lines);
      LoadLines(t, st0, pre, st, k, lines[..m]);
      LinesAccepted(t, st, k, lines[..m]);
      ApplySnoc(t, st0, es, e);
      var before := SectionLines(t, st, k, lines[..m]);
      LineApplied(t, before, k, lines[m]);
      HarmlessAccepted(t, before, k, lines[m]);
    }
  }

  /** The option lines come last and set no field. */
  lemma LastOfAll(t: Table, st: State, defaults: Values, s: Service, p: Slot, j: int)
    requires forall o :: o in s.opts ==> OptDumpable(t, o)
    requires LastSets(t, st, DumpParms(t, |t|, defaults, s), p, j)
    ensures LastSets(t, st, DumpLines(t, defaults, s), p, j)
    ensures j >= 0 ==> DumpLines(t, defaults, s)[j] == DumpParms(t, |t|, defaults, s)[j]
  {
    var n, lines := |DumpParms(t, |t|, defaults, s)|, DumpLines(t, defaults, s);
    forall l | n <= l < |lines|
      ensures MapParameter(t, lines[l].0) < 0
    {
      assert s.opts[l - n] in s.opts;
    }
  }

  /** A field that the dump mentions is loaded with its value. */
  lemma DumpedField(t: Table, st: State, k: nat, defaults: Values, s: Service, p: Slot, i: nat, j: nat, f: nat)
    requires Plain(t, p, i) && f < |t|
    requires k < |st.services| && st.current == k && st.services[k].valid
    requires Accepted(t, st, k, DumpLines(t, defaults, s))
    requires var lines := DumpLines(t, defaults, s);
             && LastSets(t, st, lines, p, j)
             && MapParameter(t, lines[j].0) == f && lines[j].1 == PrintValue(t[f], Get(s.vals, p))
    requires Storable(t[f], Get(s.vals, p))
    ensures Get(SectionLines(t, st, k, DumpLines(t, defaults, s)).services[k].vals, p) == Get(s.vals, p)
  {
    ExplicitWins(t, st, k, DumpLines(t, defaults, s), p, i, j);
    ValueRoundTrip(t[f], Get(s.vals, p));
  }

  /** A field that the dump does not mention keeps the value of the fresh service. */
  lemma UndumpedField(t: Table, st: State, k: nat, defaults: Values, s: Service, p: Slot, i: nat)
    requires Plain(t, p, i) && Fresh(t, st, k, p)
    requires LastSets(t, st, DumpLines(t, defaults, s), p, -1)
    requires forall l :: l in DumpLines(t, defaults, s) ==> Harmless(t, st, l)
    ensures Get(SectionLines(t, st, k, DumpLines(t, defaults, s)).services[k].vals, p) ==
            Get(st.services[k].vals, p)
  {
    var lines := DumpLines(t, defaults, s);
    forall l | 0 <= l < |lines|
      ensures Source(t, st, k, lines[l]) < 0
    {
      assert lines[l] in lines;
    }
    CopyFills(t, st, k, lines, p, i, -1);
  }

  lemma StorableEqual(p: Parm, v: Value)
    requires Storable(p, v)
    ensures EqualParameter(p.kind, v, v)
  {
  }

  /** A field after the dump has been loaded into a fresh service. */
  lemma LoadedField(t: Table, st: State, k: nat, defaults: Values, s: Service, i: nat)
    requires AliasesAgree(t) && WellTyped(t) && NamesFound(t) && Dumpable(t, defaults, s) && Unlocked(t, st)
    requires i < |t| && t[i].scope.Local? && t[i].special.NoSpecial? && !Dashed(t[i].name)
    requires k < |st.services| && st.current == k
    requires st.services[k].valid && st.services[k].explicit == {}
    requires t[i].ptr.Some? && Some(Get(st.services[k].vals, t[i].ptr.value)) ==
             CopyValue(t[i].kind, Get(defaults, t[i].ptr.value))
    requires Accepted(t, st, k, DumpLines(t, defaults, s))
    ensures var p := t[i].ptr.value;
            EqualParameter(t[i].kind, Get(SectionLines(t, st, k, DumpLines(t, defaults, s)).services[k].vals, p),
                           Get(s.vals, p))
  {
    var p := t[i].ptr.value;
    PlainEntry(t, i);
    var j, f := LastSetter(t, |t|, st, defaults, s, p, DumpParms(t, |t|, defaults, s));
    LastOfAll(t, st, defaults, s, p, j);
    if j >= 0 {
      DumpedField(t, st, k, defaults, s, p, i, j, f);
      StorableEqual(t[f], Get(s.vals, p));
    } else {
      LinesHarmless(t, st, defaults, s);
      UndumpedField(t, st, k, defaults, s, p, i);
      NotDumped(t, defaults, s, i);
    }
  }

  /** A value equal to the default equals what a fresh service starts with. */
  lemma FreshEqual(kind: Kind, v: Value, d: Value)
    requires EqualParameter(kind, v, d) && CopyValue(kind, d).Some?
    requires kind.KList? ==> v.VList? && v.l.Some?
    ensures EqualParameter(kind, CopyValue(kind, d).value, v)
  {
  }

  lemma FirstAlias(t: Table, i: nat) returns (f: nat)
    requires i < |t|
    ensures f <= i && t[f].ptr == t[i].ptr && (f == 0 || t[f].ptr != t[f - 1].ptr)
  {
    f := i;
    while f > 0 && t[f - 1].ptr == t[i].ptr
      invariant 0 <= f <= i && t[f].ptr == t[i].ptr
    {
      f := f - 1;
    }
  }

  /** An entry whose storage is not dumped equals the default, and so does a fresh service's. */
  lemma NotDumped(t: Table, defaults: Values, s: Service, i: nat)
    requires AliasesAgree(t)
    requires i < |t| && t[i].scope.Local? && t[i].ptr.Some? && !Dashed(t[i].name) && CopyValue(t[i].kind, VInt(0)).Some?
    requires t[i].kind.KList? ==> Get(s.vals, t[i].ptr.value).VList? && Get(s.vals, t[i].ptr.value).l.Some?
    requires forall f :: 0 <= f < |t| && Dumped(t, defaults, s, f) ==> t[f].ptr != t[i].ptr
    ensures var p := t[i].ptr.value;
            EqualParameter(t[i].kind, CopyValue(t[i].kind, Get(defaults, p)).value, Get(s.vals, p))
  {
    var f := FirstAlias(t, i);
    assert t[f].kind == t[i].kind && t[f].scope.Local? && !Dashed(t[f].name);
    assert !Dumped(t, defaults, s, f);
    var p := t[i].ptr.value;
    FreshEqual(t[i].kind, Get(s.vals, p), Get(defaults, p));
  }

  // Parametric options

  /** The options as they are after a load: in the opposite order, and not from the command line. */
  function Reloaded(opts: seq<Opt>): seq<Opt> {
    if opts == [] then []
    else
      var o := opts[|opts| - 1];
      [Opt(o.key, o.value, false)] + Reloaded(opts[..|opts| - 1])
  }

  lemma {:induction false} ReloadedHolds(opts: seq<Opt>)
    ensures forall o :: o in Reloaded(opts) ==> !o.cmdline
    ensures forall k, v :: Opt(k, v, false) in Reloaded(opts) <==> exists c :: Opt(k, v, c) in opts
  {
    if opts != [] {
      var m := |opts| - 1;
      ReloadedHolds(opts[..m]);
      assert opts == opts[..m] + [opts[m]];
      assert opts[m] == Opt(opts[m].key, opts[m].value, opts[m].cmdline);
    }
  }

  lemma {:induction false} ReloadedUnique(opts: seq<Opt>)
    requires UniqueKeys(opts)
    ensures UniqueKeys(Reloaded(opts))
  {
    if opts != [] {
      var m := |opts| - 1;
      ReloadedUnique(opts[..m]);
      ReloadedHolds(opts[..m]);
      var r := Reloaded(opts[..m]);
      forall i | 0 <= i < |r|
        ensures r[i].key != opts[m].key
      {
        assert r[i] in r && r[i] == Opt(r[i].key, r[i].value, false);
        var c :| Opt(r[i].key, r[i].value, c) in opts[..m];
        var j :| 0 <= j < m && opts[j] == Opt(r[i].key, r[i].value, c);
      }
    }
  }

  /** A dumped and reloaded option list is the same map of values. */
  lemma ReloadedSameValues(opts: seq<Opt>)
    requires UniqueKeys(opts)
    ensures AsMap(Reloaded(opts)) == map k | k in AsMap(opts) :: (AsMap(opts)[k].0, false)
  {
    ReloadedHolds(opts);
    ReloadedUnique(opts);
    MapKeys(opts);
    var m := map k | k in AsMap(opts) :: (AsMap(opts)[k].0, false);
    var r := Reloaded(opts);
    forall o | o in r
      ensures o.key in m && m[o.key] == (o.value, o.cmdline)
    {
      assert o == Opt(o.key, o.value, false);
      var c :| Opt(o.key, o.value, c) in opts;
      var i :| 0 <= i < |opts| && opts[i] == Opt(o.key, o.value, c);
      MapAt(opts, i);
    }
    forall k | k in m
      ensures exists o :: o in r && o.key == k
    {
      var o :| o in opts && o.key == k;
      assert o == Opt(o.key, o.value, o.cmdline);
      assert Opt(k, o.value, false) in r;
    }
    MapExtensional(r, m);
  }

  lemma ParmLineOpts(t: Table, st: State, k: nat, line: (string, string))
    requires k < |st.services| && Harmless(t, st, line) && MapParameter(t, line.0) >= 0
    ensures DoParameter(t, st, k, line.0, line.1).0.services[k].opts == st.services[k].opts
  {
  }

  lemma {:induction false} ParmLinesOpts(t: Table, st: State, k: nat, lines: seq<(string, string)>)
    requires k < |st.services|
    requires forall l :: l in lines ==> Harmless(t, st, l) && MapParameter(t, l.0) >= 0
    ensures SectionLines(t, st, k, lines).services[k].opts == st.services[k].opts
  {
    if lines != [] {
      var m := |lines| - 1;
      assert lines[m] in lines;
      ParmLinesOpts(t, st, k, lines[..m]);
      ParmLineOpts(t, SectionLines(t, st, k, lines[..m]), k, lines[m]);
    }
  }

  lemma PutReloaded(done: seq<Opt>, o: Opt)
    requires UniqueKeys(done + [o])
    ensures PutOpt(Reloaded(done), Opt(o.key, o.value, false)) == Reloaded(done + [o])
  {
    assert (done + [o])[..|done|] == done;
    ReloadedHolds(done);
    var r := Reloaded(done);
    forall i | 0 <= i < |r|
      ensures r[i].key != o.key
    {
      assert r[i] in r && r[i] == Opt(r[i].key, r[i].value, false);
      var c :| Opt(r[i].key, r[i].value, c) in done;
      var j :| 0 <= j < |done| && done[j] == Opt(r[i].key, r[i].value, c);
      assert (done + [o])[j].key != (done + [o])[|done|].key;
    }
  }

  lemma OptLine(t: Table, st: State, k: nat, o: Opt, done: seq<Opt>)
    requires k < |st.services| && OptDumpable(t, o)
    requires st.services[k].opts == Reloaded(done) && UniqueKeys(done + [o])
    ensures DoParameter(t, st, k, o.key, o.value).0.services[k].opts == Reloaded(done + [o])
  {
    PutReloaded(done, o);
  }

  lemma OptsNext(lines: seq<(string, string)>, opts: seq<Opt>)
    requires opts != []
    ensures var m := |opts| - 1; var all := lines + DumpOpts(opts);
            && all[..|all| - 1] == lines + DumpOpts(opts[..m])
            && all[|all| - 1] == (opts[m].key, opts[m].value)
  {
  }

  lemma {:induction false} OptLinesLoad(t: Table, st: State, k: nat, lines: seq<(string, string)>, opts: seq<Opt>)
    requires k < |st.services| && UniqueKeys(opts)
    requires SectionLines(t, st, k, lines).services[k].opts == []
    requires forall o :: o in opts ==> OptDumpable(t, o)
    ensures SectionLines(t, st, k, lines + DumpOpts(opts)).services[k].opts == Reloaded(opts)
  {
    if opts == [] {
      assert lines + DumpOpts(opts) == lines;
    } else {
      var m := |opts| - 1;
      OptsNext(lines, opts);
      assert opts == opts[..m] + [opts[m]] && opts[m] in opts;
      OptLinesLoad(t, st, k, lines, opts[..m]);
      OptLine(t, SectionLines(t, st, k, lines + DumpOpts(opts[..m])), k, opts[m], opts[..m]);
    }
  }

  // The theorem

  lemma {:induction false} ApplyPrefix(t: Table, st: State, done: seq<Event>, es: seq<Event>)
    requires st.current < |st.services| && ApplyAll(t, st, done + es).1
    ensures ApplyAll(t, st, done).1
  {
    if es == [] {
      assert done + es == done;
    } else {
      assert (done + es)[..|done + es| - 1] == done + es[..|es| - 1];
      ApplyPrefix(t, st, done, es[..|es| - 1]);
    }
  }

  lemma CallsAll(t: Table, st: State, es: seq<Event>)
    requires st.current < |st.services| && ApplyAll(t, st, es).1
    ensures Calls(es, [], Answers(t, st)) == (true, es)
  {
    var all := [] + es;
    assert all == es;
    forall k | 0 < k <= |all|
      ensures Answers(t, st)(all[..k])
    {
      PrefixApplied(t, st, es, k);
    }
    CallsComplete(es, [], Answers(t, st));
  }

  lemma PrefixApplied(t: Table, st: State, es: seq<Event>, k: nat)
    requires st.current < |st.services| && ApplyAll(t, st, es).1 && k <= |es|
    ensures ApplyAll(t, st, es[..k]).1
  {
    assert es == es[..k] + es[k..];
    ApplyPrefix(t, st, es[..k], es[k..]);
  }

  lemma LoadedOpts(t: Table, st: State, k: nat, defaults: Values, s: Service)
    requires NamesFound(t) && Dumpable(t, defaults, s) && Unlocked(t, st)
    requires k < |st.services| && st.services[k].opts == []
    ensures SectionLines(t, st, k, DumpLines(t, defaults, s)).services[k].opts == Reloaded(s.opts)
  {
    var parms := DumpParms(t, |t|, defaults, s);
    forall l | l in parms
      ensures Harmless(t, st, l) && MapParameter(t, l.0) >= 0
    {
      ParmsHarmless(t, st, defaults, s, l);
    }
    ParmLinesOpts(t, st, k, parms);
    OptLinesLoad(t, st, k, parms, s.opts);
  }

  /** The calls of a dump are all accepted; they open the section and apply its lines. */
  lemma DumpApplied(t: Table, st: State, defaults: Values, s: Service)
    requires NamesFound(t) && Dumpable(t, defaults, s) && Receptive(t, st, defaults, s.name)
    ensures var st1 := DoSection(t, st, s.name).0;
            && 0 <= st1.current < |st1.services|
            && ApplyAll(t, st, DumpEvents(t, defaults, s)) ==
               (SectionLines(t, st1, st1.current, DumpLines(t, defaults, s)), true)
            && Accepted(t, st1, st1.current, DumpLines(t, defaults, s))
    ensures forall e :: e in DumpEvents(t, defaults, s) ==> Printable(e)
  {
    OpenedSection(t, st, defaults, s.name);
    var st1 := DoSection(t, st, s.name).0;
    var lines := DumpLines(t, defaults, s);
    LinesHarmless(t, st1, defaults, s);
    ApplySnoc(t, st, [], Section(s.name));
    assert [] + [Section(s.name)] == [Section(s.name)];
    LoadLines(t, st, [Section(s.name)], st1, st1.current, lines);
    LinesAccepted(t, st1, st1.current, lines);
  }

  /** Printed calls that are all accepted are read back and applied. */
  lemma LayoutLoads(t: Table, st: State, es: seq<Event>)
    requires st.current < |st.services| && ApplyAll(t, st, es).1
    requires forall e :: e in es ==> Printable(e)
    ensures LoadText(t, st, Layout(es)) == ApplyAll(t, st, es)
  {
    ParserUndoesPrinter(es, Answers(t, st));
    CallsAll(t, st, es);
  }

  /** The text of a dump is read as the dump's own section and lines, and all of it is accepted. */
  lemma DumpIsRead(t: Table, st: State, defaults: Values, s: Service)
    requires NamesFound(t) && Dumpable(t, defaults, s) && Receptive(t, st, defaults, s.name)
    ensures var st1 := DoSection(t, st, s.name).0;
            && 0 <= st1.current < |st1.services|
            && LoadText(t, st, Layout(DumpEvents(t, defaults, s))) ==
               (SectionLines(t, st1, st1.current, DumpLines(t, defaults, s)), true)
            && Accepted(t, st1, st1.current, DumpLines(t, defaults, s))
  {
    DumpApplied(t, st, defaults, s);
    LayoutLoads(t, st, DumpEvents(t, defaults, s));
  }

  /** Valid, of the same name and with the same options, and equal_parameter cannot tell the two apart. */
  ghost predicate Same(t: Table, r: Service, s: Service) {
    && r.valid && r.name == s.name && r.opts == Reloaded(s.opts)
    && forall i :: 0 <= i < |t| && Settable(t[i]) ==>
         EqualParameter(t[i].kind, Get(r.vals, t[i].ptr.value), Get(s.vals, t[i].ptr.value))
  }

  /** Applying a dump to a section just opened makes the service over. */
  lemma DumpedSame(t: Table, st: State, defaults: Values, s: Service)
    requires AliasesAgree(t) && WellTyped(t) && NamesFound(t)
    requires Dumpable(t, defaults, s) && Receptive(t, st, defaults, s.name)
    ensures var (st', ok) := ApplyAll(t, st, DumpEvents(t, defaults, s));
            ok && 0 <= st'.current < |st'.services| && Same(t, st'.services[st'.current], s)
  {
    DumpApplied(t, st, defaults, s);
    OpenedSection(t, st, defaults, s.name);
    var st1 := DoSection(t, st, s.name).0;
    var k := st1.current;
    SectionFrame(t, st1, k, DumpLines(t, defaults, s));
    LoadedOpts(t, st1, k, defaults, s);
    forall i | 0 <= i < |t| && Settable(t[i])
      ensures EqualParameter(t[i].kind,
                             Get(SectionLines(t, st1, k, DumpLines(t, defaults, s)).services[k].vals, t[i].ptr.value),
                             Get(s.vals, t[i].ptr.value))
    {
      PlainEntry(t, i);
      FreshField(t, st, t[i].ptr.value, i);
      LoadedField(t, st1, k, defaults, s, i);
    }
  }

  /** Dump then load: reading a service's dump into any receptive state makes the service over. */
  lemma DumpThenLoad(t: Table, st: State, defaults: Values, s: Service)
    requires AliasesAgree(t) && WellTyped(t) && NamesFound(t)
    requires Dumpable(t, defaults, s) && Receptive(t, st, defaults, s.name)
    ensures var (st', ok) := LoadText(t, st, Layout(DumpEvents(t, defaults, s)));
            ok && 0 <= st'.current < |st'.services| && Same(t, st'.services[st'.current], s)
  {
    DumpedSame(t, st, defaults, s);
    DumpApplied(t, st, defaults, s);
    LayoutLoads(t, st, DumpEvents(t, defaults, s));
  }
}
