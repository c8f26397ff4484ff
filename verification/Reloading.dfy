/**
 Loading, dumping and loading again.  Whatever a file sets whose lines can be printed and reach no
 handler, what it leaves can be dumped, and loading the dump gives all of it back.
 */
module Reloading {
  import opened Text
  import opened CStrings
  import opened ConfSpec
  import opened ConfRoundTrip
  import opened Stripping
  import opened LoadParm
  import opened Loading
  import opened Services
  import opened CopyRules
  import opened Parametric
  import opened DumpLoad
  import opened WholeDump
  import opened LpDump

  // Values that come from a line

  /** Words that are printed as a list without white space at either end or a backslash at the last. */
  predicate Framed(words: seq<string>) {
    words != [] && words[0] != [] && words[|words| - 1] != [] ==>
      && !IsSpace(words[0][0])
      && var end := Last(words[|words| - 1]); !IsSpace(end) && end != '\\'
  }

  lemma {:induction false} PrintedEnds(l: seq<string>)
    requires l != [] && forall i :: 0 <= i < |l| ==> l[i] != []
    ensures PrintList(l) != [] && PrintList(l)[0] == l[0][0] && Last(PrintList(l)) == Last(l[|l| - 1])
  {
    if |l| > 1 {
      PrintedEnds(l[1..]);
    }
  }

  lemma {:induction false} PrintedChars(l: seq<string>, text: string)
    requires forall w, c :: w in l && c in w ==> c in text
    ensures forall c :: c in PrintList(l) ==> c in text || c == ',' || c == ' '
  {
    if l != [] {
      assert l[0] in l && forall w :: w in l[1..] ==> w in l;
      PrintedChars(l[1..], text);
    }
  }

  lemma {:induction false} WordChars(s: string)
    ensures forall w, c :: w in StrListMake(s) && c in w ==> c in s
    decreases |s|
  {
    if s != [] {
      var n := if Word(s) == [] then 1 else |Word(s)|;
      WordChars(s[n..]);
      assert forall c :: c in s[n..] ==> c in s;
      assert forall c :: c in Word(s) ==> c in s;
    }
  }

  /** A list read from a line is printed on a line again if and only if its words are framed. */
  lemma ListKept(text: string)
    requires GoodValue(text)
    ensures GoodValue(PrintList(StrListMake(text))) <==> Framed(StrListMake(text))
  {
    var l := StrListMake(text);
    WordChars(text);
    PrintedChars(l, text);
    if l != [] {
      assert forall i :: 0 <= i < |l| ==> l[i] in l;
      PrintedEnds(l);
    }
  }

  /** For instance, a list whose last word ends in a backslash, behind which separators follow. */
  lemma ListLost(w: string)
    requires GoodValue(w + "\\,") && CleanWord(w)
    ensures !GoodValue(PrintList(StrListMake(w + "\\,")))
  {
    var s, word := w + "\\,", w + "\\";
    assert s == word + ",";
    WordThen(word, ",");
    assert s[|word|..] == "," && ","[1..] == [];
    assert StrListMake(",") == [];
    assert StrListMake(s) == [word];
    ListKept(s);
  }

  ghost predicate EnumRows(t: Table) {
    forall i :: 0 <= i < |t| && t[i].kind.KEnum? ==> EnumsGood(t[i].enums)
  }

  lemma {:induction false} EnumNamed(enums: seq<(int, string)>, name: string)
    requires EnumByName(enums, name).Some?
    ensures exists e :: e in enums && e.0 == EnumByName(enums, name).value
  {
    if StrEqual(name, enums[0].1) {
      assert enums[0] in enums;
    } else {
      EnumNamed(enums[1..], name);
    }
  }

  lemma UpperGood(s: string)
    requires GoodValue(s)
    ensures GoodValue(StrUpper(s)) && StrUpper(StrUpper(s)) == StrUpper(s)
  {
  }

  /** What a printable line assigns holds a value that is printed and read back. */
  lemma ConvertHolds(p: Parm, text: string)
    requires GoodValue(text) && Convert(p, text).Some?
    requires p.kind.KEnum? ==> EnumsGood(p.enums)
    requires p.kind.KList? ==> Framed(StrListMake(text))
    ensures Holds(p, Convert(p, text).value) && Convert(p, text).value != VList(None)
  {
    match p.kind
    case KEnum =>
      EnumNamed(p.enums, text);
      EnumPresent(p.enums, EnumByName(p.enums, text).value);
    case KList => ListKept(text);
    case KUString => UpperGood(text);
    case _ =>
  }

  // Options that come from a line

  lemma LowerGood(name: string)
    requires GoodKey(name)
    ensures GoodKey(StrLower(name)) && TrimLeft(name) == name && OptKey(StrLower(name)) == StrLower(name)
    ensures ':' in name ==> ':' in StrLower(name)
  {
    var low := StrLower(name);
    if ':' in name {
      var k :| 0 <= k < |name| && name[k] == ':';
      assert low[k] == ':';
    }
  }

  /** A line that sets an option leaves one that can be dumped. */
  lemma OptionHolds(t: Table, name: string, value: string)
    requires GoodKey(name) && GoodValue(value) && ':' in name && MapParameter(t, name) < 0
    ensures OptDumpable(t, Opt(OptKey(name), value, false))
  {
    LowerGood(name);
    LowerSameName(name);
    var r := MapParameter(t, StrLower(name));
    assert r >= 0 ==> SameName(t[r].name, name);
  }

  // What every load keeps

  predicate SoundOpts(t: Table, opts: seq<Opt>) {
    UniqueKeys(opts) && forall o :: o in opts ==> OptDumpable(t, o)
  }

  /** A value that a default or a global may have. */
  predicate SoundValue(p: Parm, v: Value) {
    if p.special.NoSpecial? then Holds(p, v) else v == VStr([])
  }

  /** What a dump shows of the defaults: the service parameters that a file can set, and the globals that
      are not hidden. */
  predicate Watched(t: Table, hidden: set<nat>, i: nat)
    requires i < |t|
  {
    t[i].ptr.Some? && if t[i].scope.Local? then !Dashed(t[i].name) else i !in hidden
  }

  ghost predicate SoundDefaults(t: Table, hidden: set<nat>, defaults: Values) {
    forall i :: 0 <= i < |t| && Watched(t, hidden, i) ==> SoundValue(t[i], Get(defaults, t[i].ptr.value))
  }

  /** The fields of a service, which has no null lists. */
  ghost predicate SoundFields(t: Table, vals: Values) {
    forall i :: 0 <= i < |t| && t[i].scope.Local? && t[i].ptr.Some? && !Dashed(t[i].name) ==>
      SoundValue(t[i], Get(vals, t[i].ptr.value)) && Get(vals, t[i].ptr.value) != VList(None)
  }

  ghost predicate SoundService(t: Table, s: Service) {
    && Printable(Section(s.name)) && !IsGlobalName(s.name)
    && SoundOpts(t, s.opts) && SoundFields(t, s.vals)
  }

  ghost predicate Sound(t: Table, hidden: set<nat>, st: State) {
    && SoundDefaults(t, hidden, st.defaults) && SoundOpts(t, st.opts)
    && forall j :: 0 <= j < |st.services| && st.services[j].valid ==> SoundService(t, st.services[j])
  }

  /** What is asked of a table here. */
  ghost predicate TableGood(t: Table) {
    AliasesAgree(t) && WellTyped(t) && NamesFound(t) && PrinterRows(t) && EnumRows(t)
  }

  /** A line without a handler, and whose value, if it is a list, can be printed again. */
  predicate Tame(t: Table, name: string, value: string) {
    var n := MapParameter(t, name);
    n >= 0 ==> t[n].special.NoSpecial? && (t[n].kind.KList? ==> Framed(StrListMake(value)))
  }

  /** The entries that an assignment takes out of hiding: those it sets, whatever their value was. */
  function Clears(t: Table, st: State, snum: int, name: string, value: string): set<nat> {
    var n := MapParameter(t, name);
    if && n >= 0 && n !in st.locked && !(snum >= 0 && t[n].scope.Global?)
       && t[n].ptr.Some? && t[n].special.NoSpecial? && Convert(t[n], value).Some?
    then Aliases(t, n) else {}
  }

  lemma PutSound(t: Table, opts: seq<Opt>, o: Opt)
    requires SoundOpts(t, opts) && OptDumpable(t, o)
    ensures SoundOpts(t, PutOpt(opts, o))
  {
    PutOptIsUpdate(opts, o);
  }

  lemma AliasValue(t: Table, i: nat, n: nat, v: Value)
    requires AliasesAgree(t) && i < |t| && n < |t| && t[i].ptr.Some? && t[i].ptr == t[n].ptr
    ensures Holds(t[i], v) <==> Holds(t[n], v)
    ensures t[i].special == t[n].special && t[i].scope == t[n].scope
  {
    assert t[i].(name := t[n].name) == t[n];
  }

  lemma AliasesSound(t: Table, n: nat, v: Value)
    requires AliasesAgree(t) && n < |t| && t[n].ptr.Some? && t[n].special.NoSpecial? && Holds(t[n], v)
    ensures forall i :: 0 <= i < |t| && t[i].ptr == t[n].ptr ==> SoundValue(t[i], v)
  {
    forall i | 0 <= i < |t| && t[i].ptr == t[n].ptr
      ensures SoundValue(t[i], v)
    {
      AliasValue(t, i, n, v);
    }
  }

  lemma DefaultStored(t: Table, hidden: set<nat>, defaults: Values, n: nat, v: Value)
    requires AliasesAgree(t) && SoundDefaults(t, hidden, defaults)
    requires n < |t| && t[n].ptr.Some? && t[n].special.NoSpecial? && Holds(t[n], v)
    ensures SoundDefaults(t, hidden - Aliases(t, n), defaults[t[n].ptr.value := v])
  {
    AliasesSound(t, n, v);
  }

  lemma FieldStored(t: Table, vals: Values, n: nat, v: Value)
    requires AliasesAgree(t) && SoundFields(t, vals)
    requires n < |t| && t[n].ptr.Some? && t[n].special.NoSpecial? && Holds(t[n], v) && v != VList(None)
    ensures SoundFields(t, vals[t[n].ptr.value := v])
  {
    AliasesSound(t, n, v);
  }

  /** A service parameter is watched, hidden or not. */
  lemma LocalUnhidden(t: Table, hidden: set<nat>, defaults: Values, n: nat)
    requires AliasesAgree(t) && SoundDefaults(t, hidden, defaults)
    requires n < |t| && t[n].ptr.Some? && t[n].scope.Local?
    ensures SoundDefaults(t, hidden - Aliases(t, n), defaults)
  {
    forall i | 0 <= i < |t| && Watched(t, hidden - Aliases(t, n), i)
      ensures Watched(t, hidden, i)
    {
      if t[i].ptr == t[n].ptr {
        AliasValue(t, i, n, VInt(0));
      }
    }
  }

  lemma StoreSound(t: Table, hidden: set<nat>, st: State, snum: int, n: nat, v: Value)
    requires AliasesAgree(t) && Sound(t, hidden, st) && snum < |st.services|
    requires n < |t| && t[n].ptr.Some? && t[n].special.NoSpecial? && Holds(t[n], v) && v != VList(None)
    requires snum >= 0 ==> t[n].scope.Local?
    ensures Sound(t, hidden - Aliases(t, n), Store(st, snum, t[n].ptr.value, v))
  {
    if snum < 0 {
      DefaultStored(t, hidden, st.defaults, n, v);
    } else {
      LocalUnhidden(t, hidden, st.defaults, n);
      if st.services[snum].valid {
        FieldStored(t, st.services[snum].vals, n, v);
      }
    }
  }

  lemma MarkSound(t: Table, hidden: set<nat>, st: State, snum: int, entries: set<nat>)
    requires Sound(t, hidden, st) && snum < |st.services|
    ensures Sound(t, hidden, MarkExplicit(st, snum, entries))
  {
  }

  lemma EntrySound(t: Table, hidden: set<nat>, st: State, snum: int, n: nat, value: string)
    requires AliasesAgree(t) && WellTyped(t) && EnumRows(t)
    requires Sound(t, hidden, st) && snum < |st.services| && GoodValue(value)
    requires n < |t| && t[n].special.NoSpecial? && (t[n].kind.KList? ==> Framed(StrListMake(value)))
    requires snum >= 0 ==> !t[n].scope.Global?
    ensures Sound(t, if t[n].ptr.Some? && Convert(t[n], value).Some? then hidden - Aliases(t, n) else hidden,
                  DoEntry(t, st, snum, n, value).0)
  {
    var st1 := MarkExplicit(st, snum, Aliases(t, n));
    MarkSound(t, hidden, st, snum, Aliases(t, n));
    if t[n].ptr.Some? && Convert(t[n], value).Some? {
      ConvertHolds(t[n], value);
      StoreSound(t, hidden, st1, snum, n, Convert(t[n], value).value);
    }
  }

  lemma OptionSound(t: Table, hidden: set<nat>, st: State, snum: int, name: string, value: string)
    requires Sound(t, hidden, st) && snum < |st.services|
    requires GoodKey(name) && GoodValue(value) && ':' in name && MapParameter(t, name) < 0
    ensures Sound(t, hidden, DoParametric(st, snum, name, value, false))
  {
    OptionHolds(t, name, value);
    if snum < 0 || st.services[snum].valid {
      PutSound(t, OwnOpts(st, snum), Opt(OptKey(name), value, false));
    }
  }

  lemma AssignSound(t: Table, hidden: set<nat>, st: State, snum: int, name: string, value: string)
    requires AliasesAgree(t) && WellTyped(t) && EnumRows(t) && Sound(t, hidden, st) && snum < |st.services|
    requires GoodKey(name) && GoodValue(value) && Tame(t, name, value)
    ensures Sound(t, hidden - Clears(t, st, snum, name, value), DoParameter(t, st, snum, name, value).0)
  {
    var n := MapParameter(t, name);
    assert hidden - {} == hidden;
    if n < 0 {
      if ':' in name {
        OptionSound(t, hidden, st, snum, name, value);
      }
    } else if n !in st.locked && !(snum >= 0 && t[n].scope.Global?) {
      EntrySound(t, hidden, st, snum, n, value);
    }
  }

  lemma CopiedSound(p: Parm, v: Value)
    requires SoundValue(p, v) && CopyValue(p.kind, v).Some?
    ensures SoundValue(p, CopyValue(p.kind, v).value) && CopyValue(p.kind, v).value != VList(None)
  {
  }

  /** A fresh service has the defaults, with empty lists for null ones. */
  lemma FreshSound(t: Table, hidden: set<nat>, st: State, name: string)
    requires TableGood(t) && SoundDefaults(t, hidden, st.defaults) && Printable(Section(name)) && !IsGlobalName(name)
    ensures SoundService(t, CopyAll(t, InitService(t, st), DefaultService(st)).(name := name))
  {
    var s := CopyAll(t, InitService(t, st), DefaultService(st)).(name := name);
    forall i | 0 <= i < |t| && t[i].scope.Local? && t[i].ptr.Some? && !Dashed(t[i].name)
      ensures SoundValue(t[i], Get(s.vals, t[i].ptr.value)) && Get(s.vals, t[i].ptr.value) != VList(None)
    {
      assert Watched(t, hidden, i);
      FreshField(t, st, t[i].ptr.value, i);
      CopiedSound(t[i], Get(st.defaults, t[i].ptr.value));
    }
  }

  lemma FlagSound(t: Table, vals: Values, p: Slot, b: bool)
    requires WellTyped(t) && SoundFields(t, vals)
    requires forall i :: 0 <= i < |t| && t[i].ptr == Some(p) ==> t[i].kind.KBool?
    ensures SoundFields(t, vals[p := VBool(b)])
  {
  }

  lemma CorrectedSound(t: Table, s: Service)
    requires WellTyped(t) && PrinterRows(t) && SoundService(t, s)
    ensures SoundService(t, Corrected(s))
  {
    FlagSound(t, s.vals, PRINT_OK, true);
    FlagSound(t, s.vals[PRINT_OK := VBool(true)], BROWSEABLE, false);
  }

  lemma AddSound(t: Table, hidden: set<nat>, st: State, name: string)
    requires TableGood(t) && Sound(t, hidden, st) && Printable(Section(name)) && !IsGlobalName(name)
    ensures Sound(t, hidden, AddService(t, st, DefaultService(st), name).0)
  {
    FreshSound(t, hidden, st, name);
    AddedService(t, st, DefaultService(st), name);
  }

  lemma SectionSound(t: Table, hidden: set<nat>, st: State, name: string)
    requires TableGood(t) && Sound(t, hidden, st) && st.current < |st.services| && Printable(Section(name))
    ensures Sound(t, hidden, DoSection(t, st, name).0)
  {
    if !IsGlobalName(name) {
      var st0 := st.(inGlobal := false);
      var st1 := if st.current >= 0 then ServiceOk(st0, st.current).0 else st0;
      if st.current >= 0 && st.services[st.current].valid {
        CorrectedSound(t, st.services[st.current]);
      }
      assert Sound(t, hidden, st1);
      AddSound(t, hidden, st1, name);
    }
  }

  /** Every service but the current one has been through service_ok. */
  predicate Tidy(st: State) {
    forall j :: 0 <= j < |st.services| && j != st.current ==> Corrected(st.services[j]) == st.services[j]
  }

  ghost predicate Steady(t: Table, hidden: set<nat>, st: State) {
    Sound(t, hidden, st) && Tidy(st) && DistinctNames(st.services)
  }

  /** A call that a file can be reloaded after: printable, and tame if it is a line. */
  predicate Reprints(t: Table, e: Event) {
    Printable(e) && (e.Param? ==> Tame(t, e.name, e.value))
  }

  /** A tame line changes no other service, and neither the name nor the validity of its own. */
  lemma LineTouches(t: Table, st: State, snum: int, name: string, value: string)
    requires snum < |st.services| && Tame(t, name, value)
    ensures var st' := DoParameter(t, st, snum, name, value).0;
            && SameShape(st.services, st'.services) && st'.current == st.current
            && forall j :: 0 <= j < |st.services| && j != snum ==> st'.services[j] == st.services[j]
  {
  }

  /** The service whose lines are being read, or a negative number. */
  function Reading(st: State): int {
    if st.inGlobal then -2 else st.current
  }

  lemma LineSteady(t: Table, hidden: set<nat>, st: State, name: string, value: string)
    requires AliasesAgree(t) && WellTyped(t) && EnumRows(t) && Steady(t, hidden, st) && st.current < |st.services|
    requires Reprints(t, Param(name, value))
    ensures Steady(t, hidden - Clears(t, st, Reading(st), name, value), DoLine(t, st, name, value).0)
  {
    AssignSound(t, hidden, st, Reading(st), name, value);
    LineTouches(t, st, Reading(st), name, value);
  }

  lemma CorrectedTwice(s: Service)
    ensures Corrected(Corrected(s)) == Corrected(s)
  {
  }

  lemma AddTidy(t: Table, st: State, name: string)
    requires forall j :: 0 <= j < |st.services| ==> Corrected(st.services[j]) == st.services[j]
    ensures var (st', i) := AddService(t, st, DefaultService(st), name); Tidy(st'.(current := i))
  {
    AddedService(t, st, DefaultService(st), name);
  }

  lemma SectionTidy(t: Table, st: State, name: string)
    requires Tidy(st) && st.current < |st.services|
    ensures Tidy(DoSection(t, st, name).0)
  {
    if !IsGlobalName(name) {
      var st0 := st.(inGlobal := false);
      if st.current >= 0 {
        CorrectedTwice(st.services[st.current]);
        AddTidy(t, ServiceOk(st0, st.current).0, name);
      } else {
        AddTidy(t, st0, name);
      }
    }
  }

  /** The entries that the calls take out of hiding. */
  function Cleared(t: Table, st: State, es: seq<Event>): set<nat>
    requires st.current < |st.services|
  {
    if es == [] then {}
    else
      var k := |es| - 1;
      var (st1, ok) := ApplyAll(t, st, es[..k]);
      Cleared(t, st, es[..k]) +
      if ok && es[k].Param? then Clears(t, st1, Reading(st1), es[k].name, es[k].value) else {}
  }

  lemma {:induction false} LoadSteady(t: Table, hidden: set<nat>, st: State, es: seq<Event>)
    requires TableGood(t) && Steady(t, hidden, st) && st.current < |st.services|
    requires forall e :: e in es ==> Reprints(t, e)
    ensures Steady(t, hidden - Cleared(t, st, es), ApplyAll(t, st, es).0)
  {
    if es == [] {
      assert hidden - {} == hidden;
    } else {
      var k := |es| - 1;
      assert es[k] in es && forall e :: e in es[..k] ==> e in es;
      LoadSteady(t, hidden, st, es[..k]);
      var (st1, ok) := ApplyAll(t, st, es[..k]);
      var before := Cleared(t, st, es[..k]);
      match es[k]
      case Section(name) =>
        assert hidden - (before + {}) == hidden - before;
        SectionSound(t, hidden - before, st1, name);
        SectionTidy(t, st1, name);
        SectionKeepsDistinct(t, st1, name);
      case Param(name, value) =>
        var now := if ok then Clears(t, st1, Reading(st1), name, value) else {};
        assert hidden - (before + now) == hidden - before - now;
        LineSteady(t, hidden - before, st1, name, value);
    }
  }

  lemma LineKeepsDefault(t: Table, st: State, snum: int, name: string, value: string, i: nat)
    requires snum < |st.services| && i < |t| && t[i].ptr.Some? && Tame(t, name, value)
    requires i !in Clears(t, st, snum, name, value)
    ensures Get(DoParameter(t, st, snum, name, value).0.defaults, t[i].ptr.value) == Get(st.defaults, t[i].ptr.value)
  {
  }

  lemma SectionKeepsDefaults(t: Table, st: State, name: string)
    requires st.current < |st.services|
    ensures DoSection(t, st, name).0.defaults == st.defaults
  {
  }

  /** An entry that no call takes out of hiding keeps its value. */
  lemma {:induction false} Unassigned(t: Table, st: State, es: seq<Event>, i: nat)
    requires st.current < |st.services| && i < |t| && t[i].ptr.Some? && i !in Cleared(t, st, es)
    requires forall e :: e in es ==> Reprints(t, e)
    ensures Get(ApplyAll(t, st, es).0.defaults, t[i].ptr.value) == Get(st.defaults, t[i].ptr.value)
  {
    if es != [] {
      var k := |es| - 1;
      assert es[k] in es && forall e :: e in es[..k] ==> e in es;
      Unassigned(t, st, es[..k], i);
      var (st1, ok) := ApplyAll(t, st, es[..k]);
      if ok {
        match es[k]
        case Section(name) => SectionKeepsDefaults(t, st1, name);
        case Param(name, value) => LineKeepsDefault(t, st1, Reading(st1), name, value, i);
      }
    }
  }

  // After a load

  /** The state after a load that succeeds, in which every service has been through service_ok. */
  lemma FinishSteady(t: Table, hidden: set<nat>, st: State)
    requires WellTyped(t) && PrinterRows(t) && Steady(t, hidden, st) && st.current < |st.services|
    ensures var st' := Finish((st, true)).0;
            && Steady(t, hidden, st') && st'.defaults == st.defaults
            && forall j :: 0 <= j < |st'.services| ==> Corrected(st'.services[j]) == st'.services[j]
  {
    if st.current >= 0 {
      var s := st.services[st.current];
      CorrectedTwice(s);
      if s.valid {
        CorrectedSound(t, s);
      }
    }
  }

  lemma SoundDumpable(t: Table, hidden: set<nat>, defaults: Values, s: Service)
    requires WellTyped(t) && SoundDefaults(t, hidden, defaults) && SoundService(t, s)
    ensures Dumpable(t, defaults, s)
  {
    forall i | 0 <= i < |t| && Dumped(t, defaults, s, i)
      ensures t[i].special.NoSpecial? && Storable(t[i], Get(s.vals, t[i].ptr.value))
    {
      assert Watched(t, hidden, i);
    }
  }

  /** The globals that are shown are found under their names, and no handler watches them. */
  ghost predicate GlobalsFound(t: Table, hidden: set<nat>) {
    forall i :: i in GlobalsShown(t, hidden) ==>
      GoodKey(t[i].name) && MapParameter(t, t[i].name) == i && t[i].special.NoSpecial?
  }

  lemma SoundHead(t: Table, hidden: set<nat>, st: State)
    requires WellTyped(t) && NamesFound(t) && GlobalsFound(t, hidden) && Sound(t, hidden, st)
    ensures HeadDumpable(t, st, hidden)
  {
    forall i | i in GlobalsShown(t, hidden) || i in DefaultsShown(t)
      ensures Carried(t, i, Get(st.defaults, t[i].ptr.value))
    {
      assert Watched(t, hidden, i);
    }
  }

  lemma {:induction false} ShownFrom(services: seq<Service>)
    requires DistinctNames(services)
    ensures forall s :: s in Shown(services) ==> s in services && s.valid
    ensures NamesApart(Shown(services))
  {
    if services != [] {
      var k := |services| - 1;
      ShownFrom(services[..k]);
      var before, s := Shown(services[..k]), services[k];
      if s.valid && s.name != [] {
        forall i | 0 <= i < |before|
          ensures !SameName(before[i].name, s.name)
        {
          assert before[i] in before;
          var j :| 0 <= j < k && services[j] == before[i];
        }
      }
    }
  }

  /** Every service left by a load that succeeds can be dumped, and service_ok has nothing to correct. */
  lemma LoadedSteady(t: Table, st: State, text: string, hidden: set<nat>)
    requires TableGood(t) && Steady(t, hidden, st) && st.current < |st.services|
    requires Finish(LoadText(t, st, text)).1
    requires forall e :: e in Parse(text, Answers(t, st)).1 ==> Reprints(t, e)
    ensures var calls := Parse(text, Answers(t, st)).1;
            var loaded := Finish(LoadText(t, st, text)).0;
            && Steady(t, hidden - Cleared(t, st, calls), loaded)
            && loaded.defaults == ApplyAll(t, st, calls).0.defaults
            && (forall j :: 0 <= j < |loaded.services| ==> Corrected(loaded.services[j]) == loaded.services[j])
            && (forall j :: 0 <= j < |loaded.services| && loaded.services[j].valid ==>
                  Dumpable(t, loaded.defaults, loaded.services[j]))
  {
    var calls := Parse(text, Answers(t, st)).1;
    var loaded := Finish(LoadText(t, st, text)).0;
    var left := hidden - Cleared(t, st, calls);
    LoadSteady(t, hidden, st, calls);
    FinishSteady(t, left, ApplyAll(t, st, calls).0);
    forall j | 0 <= j < |loaded.services| && loaded.services[j].valid
      ensures Dumpable(t, loaded.defaults, loaded.services[j])
    {
      SoundDumpable(t, left, loaded.defaults, loaded.services[j]);
    }
  }

  lemma DumpSteady(t: Table, st: State, target: State, hidden: set<nat>)
    requires TableGood(t) && GlobalsFound(t, hidden) && Steady(t, hidden, st)
    requires forall j :: 0 <= j < |st.services| ==> Corrected(st.services[j]) == st.services[j]
    requires Ready(target) && UniqueKeys(target.opts)
    requires forall s :: s in Shown(st.services) ==> FindService(target.services, s.name) < 0
    ensures var (again, ok) := Finish(LoadText(t, target, LpDumpText(t, st, hidden, |st.services|)));
            && ok && Restored(t, target, again.defaults, again.opts, st, hidden)
            && forall s :: s in Shown(st.services) ==>
                 var k := FindService(again.services, s.name);
                 k >= 0 && Same(t, again.services[k], s)
  {
    var n := |st.services|;
    assert st.services[..n] == st.services;
    ShownFrom(st.services);
    SoundHead(t, hidden, st);
    forall s | s in Shown(st.services)
      ensures Dumpable(t, st.defaults, s) && Corrected(s) == s
    {
      var j :| 0 <= j < n && st.services[j] == s;
      SoundDumpable(t, hidden, st.defaults, s);
    }
    LpDumpLoads(t, target, st, hidden, n);
  }

  /** Entries that share storage are hidden together. */
  ghost predicate HiddenTogether(t: Table, hidden: set<nat>) {
    forall i, j :: 0 <= i < |t| && 0 <= j < |t| && t[i].ptr == t[j].ptr && i in hidden ==> j in hidden
  }

  lemma {:induction false} ClearedTogether(t: Table, st: State, es: seq<Event>, hidden: set<nat>)
    requires st.current < |st.services| && HiddenTogether(t, hidden)
    ensures HiddenTogether(t, hidden - Cleared(t, st, es))
  {
    if es == [] {
      assert hidden - {} == hidden;
    } else {
      var k := |es| - 1;
      var (st1, ok) := ApplyAll(t, st, es[..k]);
      var before := Cleared(t, st, es[..k]);
      var now := if ok && es[k].Param? then Clears(t, st1, Reading(st1), es[k].name, es[k].value) else {};
      ClearedTogether(t, st, es[..k], hidden);
      assert hidden - (before + now) == hidden - before - now;
      assert HiddenTogether(t, hidden - before - now);
    }
  }

  /** A parameter that a dump can show, if it is not hidden. */
  predicate Dumps(p: Parm) {
    p.ptr.Some? && (p.scope.Local? ==> !Dashed(p.name))
  }

  /** What a dump restores, together with what was hidden and is the same on both sides, is everything. */
  lemma AllRestored(t: Table, target: State, again: State, loaded: State, hidden: set<nat>, i: nat)
    requires AliasesAgree(t) && WellTyped(t) && HiddenTogether(t, hidden)
    requires Restored(t, target, again.defaults, again.opts, loaded, hidden)
    requires i < |t| && Dumps(t[i])
    requires t[i].scope.Global? && i in hidden ==>
               Get(target.defaults, t[i].ptr.value) == Get(loaded.defaults, t[i].ptr.value)
    ensures NonNull(Get(again.defaults, t[i].ptr.value)) == NonNull(Get(loaded.defaults, t[i].ptr.value))
  {
    var p := t[i].ptr.value;
    if t[i].scope.Local? {
      DefaultCovered(t, i);
    } else if i !in hidden {
      var f := FirstAlias(t, i);
      assert f in GlobalsShown(t, hidden);
    }
  }

  /**
   Load, dump, load.  After any file whose calls are printable and tame, lp_dump writes a text that gives
   all of it back: loaded into a state with none of the services, and with the same values for the globals
   that the file has left hidden, it makes every default, every global and every service over, and puts
   the global options over those that are there.
   */
  lemma LoadDumpLoad(t: Table, st: State, text: string, target: State, hidden: set<nat>)
    requires TableGood(t) && HiddenTogether(t, hidden)
    requires Steady(t, hidden, st) && st.current < |st.services|
    requires Finish(LoadText(t, st, text)).1
    requires forall e :: e in Parse(text, Answers(t, st)).1 ==> Reprints(t, e)
    requires GlobalsFound(t, hidden - Cleared(t, st, Parse(text, Answers(t, st)).1))
    requires Ready(target) && UniqueKeys(target.opts)
    requires forall s :: s in Shown(Finish(LoadText(t, st, text)).0.services) ==>
               FindService(target.services, s.name) < 0
    requires forall i :: 0 <= i < |t| && t[i].ptr.Some? && t[i].scope.Global? && i in hidden ==>
               Get(target.defaults, t[i].ptr.value) == Get(st.defaults, t[i].ptr.value)
    ensures var loaded := Finish(LoadText(t, st, text)).0;
            var left := hidden - Cleared(t, st, Parse(text, Answers(t, st)).1);
            var (again, ok) := Finish(LoadText(t, target, LpDumpText(t, loaded, left, |loaded.services|)));
            && ok && AsMap(again.opts) == Overridden(AsMap(target.opts), AsMap(loaded.opts))
            && (forall i :: 0 <= i < |t| && Dumps(t[i]) ==>
                  NonNull(Get(again.defaults, t[i].ptr.value)) == NonNull(Get(loaded.defaults, t[i].ptr.value)))
            && forall s :: s in Shown(loaded.services) ==>
                 var k := FindService(again.services, s.name);
                 k >= 0 && Same(t, again.services[k], s)
  {
    var calls := Parse(text, Answers(t, st)).1;
    var left := hidden - Cleared(t, st, calls);
    var loaded := Finish(LoadText(t, st, text)).0;
    LoadedSteady(t, st, text, hidden);
    DumpSteady(t, loaded, target, left);
    ClearedTogether(t, st, calls, hidden);
    var again := Finish(LoadText(t, target, LpDumpText(t, loaded, left, |loaded.services|))).0;
    forall i | 0 <= i < |t| && Dumps(t[i])
      ensures NonNull(Get(again.defaults, t[i].ptr.value)) == NonNull(Get(loaded.defaults, t[i].ptr.value))
    {
      if i in left {
        Unassigned(t, st, calls, i);
      }
      AllRestored(t, target, again, loaded, left, i);
    }
  }

  /** In particular, the calls of a file in which no line ends in a backslash are printable. */
  lemma PlainCalls(t: Table, st: State, text: string)
    requires Uncontinued(text) && st.current < |st.services|
    ensures forall e :: e in Parse(text, Answers(t, st)).1 ==> Printable(e)
  {
    SkipsOn(text);
    PlainPrintable(SkipBlank(text), [], Answers(t, st));
  }
}
