/**
 Dumping every service and loading the text again: each service comes back under its name, as
 service_ok leaves it.
 */
module WholeDump {
  import opened Text
  import opened CStrings
  import opened ConfSpec
  import opened ConfRoundTrip
  import opened LoadParm
  import opened Loading
  import opened Services
  import opened CopyRules
  import opened DumpLoad

  // lp_dump

  /** The services that are dumped: the valid ones that have a name. */
  function Shown(services: seq<Service>): seq<Service> {
    if services == [] then []
    else
      var k := |services| - 1;
      Shown(services[..k]) + if services[k].valid && services[k].name != [] then [services[k]] else []
  }

  function AllEvents(t: Table, defaults: Values, svcs: seq<Service>): seq<Event> {
    if svcs == [] then []
    else
      var k := |svcs| - 1;
      AllEvents(t, defaults, svcs[..k]) + DumpEvents(t, defaults, svcs[k])
  }

  method DumpServices(t: Table, defaults: Values, services: seq<Service>) returns (text: string)
    ensures text == Layout(AllEvents(t, defaults, Shown(services)))
  {
    text := [];
    for i := 0 to |services|
      invariant text == Layout(AllEvents(t, defaults, Shown(services[..i])))
    {
      ShownNext(t, defaults, services, i);
      if services[i].valid && services[i].name != [] {
        var more := DumpService(t, defaults, services[i]);
        text := text + more;
      }
    }
    assert services[..|services|] == services;
  }

  lemma ShownNext(t: Table, defaults: Values, services: seq<Service>, i: nat)
    requires i < |services|
    ensures Layout(AllEvents(t, defaults, Shown(services[..i + 1]))) ==
            if services[i].valid && services[i].name != []
            then Layout(AllEvents(t, defaults, Shown(services[..i]))) + Layout(DumpEvents(t, defaults, services[i]))
            else Layout(AllEvents(t, defaults, Shown(services[..i])))
  {
    assert services[..i + 1][..i] == services[..i];
    var before := Shown(services[..i]);
    if services[i].valid && services[i].name != [] {
      assert (before + [services[i]])[..|before|] == before;
      LayoutConcat(AllEvents(t, defaults, before), DumpEvents(t, defaults, services[i]));
    } else {
      assert before + [] == before;
    }
  }

  // One more service

  lemma {:induction false} ApplyConcat(t: Table, st: State, a: seq<Event>, b: seq<Event>)
    requires st.current < |st.services| && ApplyAll(t, st, a).1
    ensures ApplyAll(t, st, a + b) == ApplyAll(t, ApplyAll(t, st, a).0, b)
  {
    if b == [] {
      assert a + b == a;
    } else {
      ConcatLast(a, b);
      ApplyConcat(t, st, a, b[..|b| - 1]);
    }
  }

  lemma ConcatLast(a: seq<Event>, b: seq<Event>)
    requires b != []
    ensures var k := |b| - 1;
            (a + b)[..|a + b| - 1] == a + b[..k] && (a + b)[|a + b| - 1] == b[k]
  {
  }

  /** Opening a section under a new name corrects the service before it, fills a slot that held no valid
      one, and changes nothing else. */
  ghost predicate Opened(st: State, st': State) {
    && 0 <= st'.current <= |st.services|
    && |st'.services| == (if st'.current < |st.services| then |st.services| else st'.current + 1)
    && (st'.current < |st.services| ==> !st.services[st'.current].valid)
    && (forall j :: 0 <= j < |st.services| && j != st'.current ==>
          st'.services[j] == if j == st.current then Corrected(st.services[j]) else st.services[j])
  }

  lemma OpenedFrame(t: Table, st: State, defaults: Values, name: string)
    requires Receptive(t, st, defaults, name) && !IsGlobalName(name)
    ensures Opened(st, DoSection(t, st, name).0)
  {
    var st0 := st.(inGlobal := false);
    var st1 := if st.current >= 0 then ServiceOk(st0, st.current).0 else st0;
    assert SameShape(st.services, st1.services);
    FindServiceShape(st.services, st1.services, name);
    AddedService(t, st1, DefaultService(st1), name);
  }

  lemma OneMore(t: Table, st: State, defaults: Values, s: Service)
    requires AliasesAgree(t) && WellTyped(t) && NamesFound(t)
    requires Dumpable(t, defaults, s) && Receptive(t, st, defaults, s.name)
    ensures var (st', ok) := ApplyAll(t, st, DumpEvents(t, defaults, s));
            && ok && Opened(st, st')
            && st'.locked == st.locked && st'.defaults == st.defaults && st'.opts == st.opts
            && Same(t, st'.services[st'.current], s)
  {
    DumpedSame(t, st, defaults, s);
    DumpApplied(t, st, defaults, s);
    OpenedSection(t, st, defaults, s.name);
    OpenedFrame(t, st, defaults, s.name);
    var st1 := DoSection(t, st, s.name).0;
    SectionFrame(t, st1, st1.current, DumpLines(t, defaults, s));
    LinesDefaults(t, st1, st1.current, DumpLines(t, defaults, s));
  }

  /** A line of a service leaves the defaults and the global options alone. */
  lemma LineDefaults(t: Table, st: State, k: nat, name: string, value: string)
    requires k < |st.services|
    ensures var st' := DoParameter(t, st, k, name, value).0; st'.defaults == st.defaults && st'.opts == st.opts
  {
  }

  lemma {:induction false} LinesDefaults(t: Table, st: State, k: nat, lines: seq<(string, string)>)
    requires k < |st.services|
    ensures var st' := SectionLines(t, st, k, lines); st'.defaults == st.defaults && st'.opts == st.opts
  {
    if lines != [] {
      var m := |lines| - 1;
      LinesDefaults(t, st, k, lines[..m]);
      LineDefaults(t, SectionLines(t, st, k, lines[..m]), k, lines[m].0, lines[m].1);
    }
  }

  // Looking services up

  /** Its postconditions determine FindService. */
  lemma FindIs(services: seq<Service>, q: string, r: int)
    requires -1 <= r < |services|
    requires r >= 0 ==> services[r].valid && SameName(services[r].name, q)
    requires forall j :: r < j < |services| ==> !(services[j].valid && SameName(services[j].name, q))
    ensures FindService(services, q) == r
  {
    var f := FindService(services, q);
    assert f <= r && r <= f;
  }

  /** A service opened under another name leaves every lookup as it was. */
  lemma LookupStays(st: State, st': State, q: string)
    requires Opened(st, st') && !SameName(st'.services[st'.current].name, q)
    ensures FindService(st'.services, q) == FindService(st.services, q)
  {
    var r := FindService(st.services, q);
    forall j | r < j < |st'.services|
      ensures !(st'.services[j].valid && SameName(st'.services[j].name, q))
    {
      if j != st'.current {
        assert st'.services[j].valid == st.services[j].valid && st'.services[j].name == st.services[j].name;
      }
    }
    FindIs(st'.services, q, r);
  }

  lemma LookupNew(st: State, st': State)
    requires Opened(st, st') && st'.services[st'.current].valid
    requires FindService(st.services, st'.services[st'.current].name) < 0
    ensures FindService(st'.services, st'.services[st'.current].name) == st'.current
  {
    var q := st'.services[st'.current].name;
    forall j | st'.current < j < |st'.services|
      ensures !(st'.services[j].valid && SameName(st'.services[j].name, q))
    {
      assert st'.services[j].valid == st.services[j].valid && st'.services[j].name == st.services[j].name;
    }
    FindIs(st'.services, q, st'.current);
  }

  /** Rows for the two fields that service_ok corrects are booleans. */
  ghost predicate PrinterRows(t: Table) {
    forall i :: 0 <= i < |t| && (t[i].ptr == Some(PRINT_OK) || t[i].ptr == Some(BROWSEABLE)) ==> t[i].kind.KBool?
  }

  lemma SameCorrected(t: Table, r: Service, s: Service)
    requires PrinterRows(t) && Same(t, r, s)
    ensures Same(t, Corrected(r), Corrected(s))
  {
  }

  /** Every service is found under its name: the current one as it is, the others corrected. */
  ghost predicate Found(t: Table, st: State, svcs: seq<Service>) {
    forall i :: 0 <= i < |svcs| ==>
      var k := FindService(st.services, svcs[i].name);
      k >= 0 && Same(t, st.services[k], if k == st.current then svcs[i] else Corrected(svcs[i]))
  }

  predicate NamesApart(svcs: seq<Service>) {
    forall i, j :: 0 <= i < j < |svcs| ==> !SameName(svcs[i].name, svcs[j].name)
  }

  /** A state into which all of the services can be loaded. */
  ghost predicate Open(t: Table, st: State, defaults: Values, svcs: seq<Service>) {
    && st.current < |st.services| && (st.current >= 0 ==> st.services[st.current].name != [])
    && Agree(t, st.defaults, defaults) && Unlocked(t, st)
    && forall i :: 0 <= i < |svcs| ==> FindService(st.services, svcs[i].name) < 0
  }

  lemma FoundNext(t: Table, st: State, st': State, svcs: seq<Service>, s: Service)
    requires PrinterRows(t) && Found(t, st, svcs) && Opened(st, st') && Same(t, st'.services[st'.current], s)
    requires FindService(st.services, s.name) < 0
    requires forall i :: 0 <= i < |svcs| ==> !SameName(s.name, svcs[i].name)
    ensures Found(t, st', svcs + [s])
  {
    var all := svcs + [s];
    forall i | 0 <= i < |all|
      ensures var k := FindService(st'.services, all[i].name);
              k >= 0 && Same(t, st'.services[k], if k == st'.current then all[i] else Corrected(all[i]))
    {
      if i == |svcs| {
        LookupNew(st, st');
      } else {
        LookupStays(st, st', svcs[i].name);
        var k := FindService(st.services, svcs[i].name);
        if k == st.current {
          SameCorrected(t, st.services[k], svcs[i]);
        }
      }
    }
  }

  /** Names of no service among these are looked up as before. */
  ghost predicate OthersFound(st: State, st': State, svcs: seq<Service>) {
    forall q :: Free(svcs, q) ==> FindService(st'.services, q) == FindService(st.services, q)
  }

  predicate Free(svcs: seq<Service>, q: string) {
    forall i :: 0 <= i < |svcs| ==> !SameName(svcs[i].name, q)
  }

  lemma OthersNext(st: State, st1: State, st': State, svcs: seq<Service>, s: Service)
    requires OthersFound(st, st1, svcs) && Opened(st1, st') && st'.services[st'.current].name == s.name
    ensures OthersFound(st, st', svcs + [s])
  {
    var all := svcs + [s];
    forall q | Free(all, q)
      ensures FindService(st'.services, q) == FindService(st.services, q)
    {
      assert !SameName(all[|svcs|].name, q);
      assert forall i :: 0 <= i < |svcs| ==> all[i] == svcs[i];
      assert Free(svcs, q);
      LookupStays(st1, st', q);
    }
  }

  /** What loading the services leaves, and what the next one needs. */
  ghost predicate Stage(t: Table, st: State, st': State, svcs: seq<Service>) {
    && st'.current < |st'.services| && (st'.current >= 0 ==> st'.services[st'.current].name != [])
    && st'.locked == st.locked && st'.defaults == st.defaults && st'.opts == st.opts
    && Found(t, st', svcs) && OthersFound(st, st', svcs)
  }

  lemma StageNext(t: Table, st: State, st1: State, defaults: Values, svcs: seq<Service>, s: Service)
    requires AliasesAgree(t) && WellTyped(t) && NamesFound(t) && PrinterRows(t)
    requires Stage(t, st, st1, svcs) && Unlocked(t, st)
    requires Agree(t, st.defaults, defaults) && Dumpable(t, defaults, s)
    requires FindService(st.services, s.name) < 0 && Free(svcs, s.name)
    ensures var (st', ok) := ApplyAll(t, st1, DumpEvents(t, defaults, s));
            ok && Stage(t, st, st', svcs + [s])
  {
    OneMore(t, st1, defaults, s);
    var st' := ApplyAll(t, st1, DumpEvents(t, defaults, s)).0;
    SameNameSymmetric(svcs, s.name);
    FoundNext(t, st1, st', svcs, s);
    OthersNext(st, st1, st', svcs, s);
  }

  lemma SameNameSymmetric(svcs: seq<Service>, q: string)
    requires Free(svcs, q)
    ensures forall i :: 0 <= i < |svcs| ==> !SameName(q, svcs[i].name)
  {
  }

  lemma SplitLast(svcs: seq<Service>)
    requires svcs != []
    ensures var m := |svcs| - 1;
            && svcs == svcs[..m] + [svcs[m]] && svcs[m] in svcs
            && (forall x :: x in svcs[..m] ==> x in svcs)
            && (NamesApart(svcs) ==> NamesApart(svcs[..m]) && Free(svcs[..m], svcs[m].name))
  {
  }

  lemma {:induction false} AllApplied(t: Table, st: State, defaults: Values, svcs: seq<Service>)
    requires AliasesAgree(t) && WellTyped(t) && NamesFound(t) && PrinterRows(t)
    requires Open(t, st, defaults, svcs) && NamesApart(svcs)
    requires forall s :: s in svcs ==> Dumpable(t, defaults, s)
    ensures var (st', ok) := ApplyAll(t, st, AllEvents(t, defaults, svcs)); ok && Stage(t, st, st', svcs)
  {
    if svcs != [] {
      var m := |svcs| - 1;
      var before, s := svcs[..m], svcs[m];
      SplitLast(svcs);
      AllApplied(t, st, defaults, before);
      var st1 := ApplyAll(t, st, AllEvents(t, defaults, before)).0;
      StageNext(t, st, st1, defaults, before, s);
      ApplyConcat(t, st, AllEvents(t, defaults, before), DumpEvents(t, defaults, s));
    }
  }

  lemma {:induction false} AllPrintable(t: Table, st: State, defaults: Values, svcs: seq<Service>)
    requires NamesFound(t) && Unlocked(t, st)
    requires forall s :: s in svcs ==> Dumpable(t, defaults, s)
    ensures forall e :: e in AllEvents(t, defaults, svcs) ==> Printable(e)
  {
    if svcs != [] {
      var m := |svcs| - 1;
      assert svcs[m] in svcs && forall x :: x in svcs[..m] ==> x in svcs;
      AllPrintable(t, st, defaults, svcs[..m]);
      LinesHarmless(t, st, defaults, svcs[m]);
    }
  }

  lemma FinishFound(t: Table, st: State, svcs: seq<Service>, i: nat)
    requires PrinterRows(t) && Found(t, st, svcs) && i < |svcs|
    requires st.current < |st.services| && (st.current >= 0 ==> st.services[st.current].name != [])
    ensures var (st', ok) := Finish((st, true));
            var k := FindService(st'.services, svcs[i].name);
            ok && k >= 0 && Same(t, st'.services[k], Corrected(svcs[i]))
  {
    var st' := Finish((st, true)).0;
    assert SameShape(st.services, st'.services);
    FindServiceShape(st.services, st'.services, svcs[i].name);
    var k := FindService(st.services, svcs[i].name);
    if k == st.current {
      SameCorrected(t, st.services[k], svcs[i]);
    }
  }

  /**
   The dump of any number of services with different names, loaded into a state that has none of them
   and whose defaults agree, makes every one of them over: looked up by its name, it is as service_ok
   leaves the original.
   */
  lemma WholeDumpLoads(t: Table, st: State, defaults: Values, svcs: seq<Service>)
    requires AliasesAgree(t) && WellTyped(t) && NamesFound(t) && PrinterRows(t)
    requires Open(t, st, defaults, svcs) && NamesApart(svcs)
    requires forall s :: s in svcs ==> Dumpable(t, defaults, s)
    ensures var (st', ok) := Finish(LoadText(t, st, Layout(AllEvents(t, defaults, svcs))));
            && ok
            && forall i :: 0 <= i < |svcs| ==>
                 var k := FindService(st'.services, svcs[i].name);
                 k >= 0 && Same(t, st'.services[k], Corrected(svcs[i]))
  {
    AllApplied(t, st, defaults, svcs);
    AllPrintable(t, st, defaults, svcs);
    var es := AllEvents(t, defaults, svcs);
    LayoutLoads(t, st, es);
    var st1 := ApplyAll(t, st, es).0;
    forall i | 0 <= i < |svcs|
      ensures var st' := Finish((st1, true)).0;
              var k := FindService(st'.services, svcs[i].name);
              k >= 0 && Same(t, st'.services[k], Corrected(svcs[i]))
    {
      FinishFound(t, st1, svcs, i);
    }
  }
}
