/** Explicit settings beat copied ones: what a section's assignments and "copy =" lines add up to. */
module CopyRules {
  import opened Text
  import opened CStrings
  import opened LoadParm
  import opened Services

  /** The lines of the section of service `k`, in order. */
  function SectionLines(t: Table, st: State, k: nat, lines: seq<(string, string)>): (r: State)
    requires k < |st.services|
    ensures |r.services| == |st.services| && r.current == st.current && r.locked == st.locked
  {
    if lines == [] then st
    else
      var m := |lines| - 1;
      DoParameter(t, SectionLines(t, st, k, lines[..m]), k, lines[m].0, lines[m].1).0
  }

  /** Every one of the lines is accepted, as in a section of a file that loads. */
  predicate Accepted(t: Table, st: State, k: nat, lines: seq<(string, string)>)
    requires k < |st.services|
  {
    lines == [] ||
    var m := |lines| - 1;
    && Accepted(t, st, k, lines[..m])
    && DoParameter(t, SectionLines(t, st, k, lines[..m]), k, lines[m].0, lines[m].1).1
  }

  /** The line assigns storage `p`, under whichever name. */
  predicate Sets(t: Table, st: State, line: (string, string), p: Slot) {
    var n := MapParameter(t, line.0);
    n >= 0 && n !in st.locked && t[n].ptr == Some(p)
  }

  /** The service that a line copies onto service `k`, or -1. */
  function Source(t: Table, st: State, k: nat, line: (string, string)): (r: int)
    ensures -1 <= r < |st.services| && r != k
  {
    var n := MapParameter(t, line.0);
    var from := FindService(st.services, line.1);
    if && n >= 0 && n !in st.locked && !t[n].scope.Global? && t[n].ptr.Some? && t[n].special.HandleCopy?
       && from != k
    then from else -1
  }

  /** `p`, the storage of entry `i`, is a field that every service has. */
  ghost predicate FieldOf(t: Table, p: Slot, i: nat) {
    && i < |t| && t[i].ptr == Some(p) && CopyValue(t[i].kind, VInt(0)).Some?
    && forall j :: 0 <= j < |t| && t[j].ptr == Some(p) ==> t[j].kind == t[i].kind && t[j].scope.Local?
  }

  /** Besides, no handler watches it. */
  ghost predicate Plain(t: Table, p: Slot, i: nat) {
    FieldOf(t, p, i) && forall j :: 0 <= j < |t| && t[j].ptr == Some(p) ==> t[j].special.NoSpecial?
  }

  lemma PlainEntry(t: Table, i: nat)
    requires AliasesAgree(t) && WellTyped(t)
    requires i < |t| && t[i].scope.Local? && t[i].special.NoSpecial?
    ensures t[i].ptr.Some? && Plain(t, t[i].ptr.value, i)
  {
  }

  /** The section being read: service `k` is current and valid, and no alias of `p` is marked. */
  ghost predicate Fresh(t: Table, st: State, k: nat, p: Slot) {
    && k < |st.services| && st.current == k && st.services[k].valid
    && forall i :: 0 <= i < |t| && t[i].ptr == Some(p) ==> i !in st.services[k].explicit
  }

  ghost predicate Marked(t: Table, s: Service, p: Slot) {
    forall i :: 0 <= i < |t| && t[i].ptr == Some(p) ==> i in s.explicit
  }

  // Copying, field by field

  lemma {:induction false} CopySkips(t: Table, n: nat, dest: Values, src: Values, skip: set<nat>, p: Slot)
    requires n <= |t|
    requires forall i :: 0 <= i < |t| && t[i].ptr == Some(p) ==> i in skip
    ensures Get(CopyVals(t, n, dest, src, skip), p) == Get(dest, p)
  {
    if n > 0 {
      CopySkips(t, n - 1, dest, src, skip, p);
    }
  }

  lemma {:induction false} CopyTakes(t: Table, n: nat, dest: Values, src: Values, skip: set<nat>, p: Slot, i: nat)
    requires FieldOf(t, p, i) && i < n <= |t| && i !in skip
    ensures Some(Get(CopyVals(t, n, dest, src, skip), p)) == CopyValue(t[i].kind, Get(src, p))
  {
    assert t[i].scope.Local?;
    if n - 1 > i {
      CopyTakes(t, n - 1, dest, src, skip, p, i);
    }
  }

  lemma CopyValueTwice(kind: Kind, v: Value)
    requires CopyValue(kind, v).Some?
    ensures CopyValue(kind, CopyValue(kind, v).value) == CopyValue(kind, v)
  {
    if kind.KUString? && v.VStr? {
      assert StrUpper(StrUpper(v.s)) == StrUpper(v.s);
    }
  }

  /** What a copy line does to one field: nothing if it is marked, else it takes the source's value. */
  lemma CopyFromAt(t: Table, st: State, name: string, p: Slot, i: nat)
    requires Plain(t, p, i)
    requires 0 <= st.current < |st.services|
    ensures var from := FindService(st.services, name);
            var old' := Get(st.services[st.current].vals, p);
            var new' := Get(CopyFrom(t, st, name).services[st.current].vals, p);
            && (Marked(t, st.services[st.current], p) ==> new' == old')
            && (i !in st.services[st.current].explicit && from >= 0 && from != st.current ==>
                  Some(new') == CopyValue(t[i].kind, Get(st.services[from].vals, p)))
            && (from < 0 || from == st.current ==> new' == old')
  {
    var from := FindService(st.services, name);
    var dest := st.services[st.current];
    if from >= 0 && from != st.current {
      var base := InitService(t, st);
      var temp := CopyAll(t, base, st.services[from]);
      CopyTakes(t, |t|, base.vals, st.services[from].vals, {}, p, i);
      if Marked(t, dest, p) {
        CopySkips(t, |t|, dest.vals, temp.vals, dest.explicit, p);
      }
      if i !in dest.explicit {
        CopyTakes(t, |t|, dest.vals, temp.vals, dest.explicit, p, i);
        CopyValueTwice(t[i].kind, Get(st.services[from].vals, p));
      }
    }
  }

  // One line

  ghost predicate Others(a: seq<Service>, b: seq<Service>, k: nat) {
    |a| == |b| && forall j :: 0 <= j < |a| && j != k ==> a[j] == b[j]
  }

  lemma LineFrame(t: Table, st: State, k: nat, line: (string, string))
    requires k < |st.services| && st.current == k && st.services[k].valid
    ensures var st' := DoParameter(t, st, k, line.0, line.1).0;
            && Others(st.services, st'.services, k)
            && SameShape(st.services, st'.services)
            && st.services[k].explicit <= st'.services[k].explicit
  {
    AssignShape(t, st, k, line.0, line.1);
  }

  lemma LineSets(t: Table, st: State, k: nat, line: (string, string), p: Slot, i: nat)
    requires k < |st.services| && Plain(t, p, i) && Sets(t, st, line, p)
    requires DoParameter(t, st, k, line.0, line.1).1
    ensures var st' := DoParameter(t, st, k, line.0, line.1).0;
            && Some(Get(st'.services[k].vals, p)) == Convert(t[MapParameter(t, line.0)], line.1)
            && Marked(t, st'.services[k], p)
  {
  }

  /** A copy line: after the name is recorded, the unmarked fields take the source's values. */
  lemma CopyLine(t: Table, st: State, k: nat, n: nat, value: string, p: Slot, i: nat)
    requires Plain(t, p, i)
    requires n < |t| && t[n].ptr.Some? && t[n].special.HandleCopy?
    requires k < |st.services| && st.current == k
    ensures var from := FindService(st.services, value);
            var st' := DoEntry(t, st, k, n, value).0;
            var old' := Get(st.services[k].vals, p);
            var new' := Get(st'.services[k].vals, p);
            && st'.services[k].explicit == st.services[k].explicit + Aliases(t, n)
            && (st.services[k].valid ==> st'.services[k].valid)
            && (Marked(t, st.services[k], p) || from < 0 || from == k ==> new' == old')
            && (i !in st.services[k].explicit && from >= 0 && from != k ==>
                  Some(new') == CopyValue(t[i].kind, Get(st.services[from].vals, p)))
  {
    var st1 := Store(MarkExplicit(st, k, Aliases(t, n)), k, t[n].ptr.value, VStr(value));
    assert SameShape(st.services, st1.services);
    FindServiceShape(st.services, st1.services, value);
    CopyFromAt(t, st1, value, p, i);
  }

  lemma LineKeeps(t: Table, st: State, k: nat, line: (string, string), p: Slot, i: nat)
    requires Plain(t, p, i)
    requires k < |st.services| && st.current == k && !Sets(t, st, line, p)
    ensures var st' := DoParameter(t, st, k, line.0, line.1).0;
            && (Marked(t, st.services[k], p) ==> Marked(t, st'.services[k], p))
            && (Fresh(t, st, k, p) ==> Fresh(t, st', k, p))
            && (Marked(t, st.services[k], p) || Source(t, st, k, line) < 0 ==>
                  Get(st'.services[k].vals, p) == Get(st.services[k].vals, p))
            && (Fresh(t, st, k, p) && Source(t, st, k, line) >= 0 ==>
                  Some(Get(st'.services[k].vals, p)) ==
                  CopyValue(t[i].kind, Get(st.services[Source(t, st, k, line)].vals, p)))
  {
    var n := MapParameter(t, line.0);
    if n >= 0 && n !in st.locked && !t[n].scope.Global? {
      if t[n].ptr.Some? && t[n].special.HandleCopy? {
        CopyLine(t, st, k, n, line.1, p, i);
      } else {
        OtherLine(t, st, k, n, line.1, p);
      }
    }
  }

  /** A line for another field. */
  lemma OtherLine(t: Table, st: State, k: nat, n: nat, value: string, p: Slot)
    requires n < |t| && t[n].ptr != Some(p) && (t[n].ptr.None? || !t[n].special.HandleCopy?)
    requires k < |st.services|
    ensures var st' := DoEntry(t, st, k, n, value).0;
            && st'.services[k].explicit == st.services[k].explicit + Aliases(t, n)
            && st'.services[k].valid == st.services[k].valid
            && Get(st'.services[k].vals, p) == Get(st.services[k].vals, p)
  {
  }

  // The whole section

  lemma {:induction false} SectionFrame(t: Table, st: State, k: nat, lines: seq<(string, string)>)
    requires k < |st.services| && st.current == k && st.services[k].valid
    ensures var st' := SectionLines(t, st, k, lines);
            Others(st.services, st'.services, k) && SameShape(st.services, st'.services)
  {
    if lines != [] {
      var m := |lines| - 1;
      SectionFrame(t, st, k, lines[..m]);
      LineFrame(t, SectionLines(t, st, k, lines[..m]), k, lines[m]);
    }
  }

  /** Whatever a section holds, the service keeps its name and every other service is untouched. */
  lemma NameKept(t: Table, st: State, k: nat, lines: seq<(string, string)>)
    requires k < |st.services| && st.current == k && st.services[k].valid
    ensures SectionLines(t, st, k, lines).services[k].name == st.services[k].name
    ensures Others(st.services, SectionLines(t, st, k, lines).services, k)
  {
    SectionFrame(t, st, k, lines);
  }

  /** The last explicit assignment of a field decides it, whatever is copied before or after. */
  lemma {:induction false} ExplicitWins(t: Table, st: State, k: nat, lines: seq<(string, string)>, p: Slot,
                                        i: nat, j: nat)
    requires Plain(t, p, i)
    requires k < |st.services| && st.current == k && st.services[k].valid
    requires Accepted(t, st, k, lines)
    requires j < |lines| && Sets(t, st, lines[j], p)
    requires forall l :: j < l < |lines| ==> !Sets(t, st, lines[l], p)
    ensures var s := SectionLines(t, st, k, lines).services[k];
            && Some(Get(s.vals, p)) == Convert(t[MapParameter(t, lines[j].0)], lines[j].1)
            && Marked(t, s, p)
  {
    var m := |lines| - 1;
    var before := SectionLines(t, st, k, lines[..m]);
    if j == m {
      LineSets(t, before, k, lines[m], p, i);
    } else {
      ExplicitWins(t, st, k, lines[..m], p, i, j);
      assert !Sets(t, st, lines[m], p);
      LineKeeps(t, before, k, lines[m], p, i);
    }
  }

  /** A field that no line assigns takes its value from the last line that copies from a service, and
      keeps its own if there is none. */
  lemma {:induction false} CopyFills(t: Table, st: State, k: nat, lines: seq<(string, string)>, p: Slot, i: nat, j: int)
    requires Plain(t, p, i) && Fresh(t, st, k, p)
    requires forall l :: 0 <= l < |lines| ==> !Sets(t, st, lines[l], p)
    requires -1 <= j < |lines|
    requires j >= 0 ==> Source(t, st, k, lines[j]) >= 0
    requires forall l :: j < l < |lines| ==> Source(t, st, k, lines[l]) < 0
    ensures var st' := SectionLines(t, st, k, lines);
            && Fresh(t, st', k, p)
            && Some(Get(st'.services[k].vals, p)) ==
               if j < 0 then Some(Get(st.services[k].vals, p))
               else CopyValue(t[i].kind, Get(st.services[Source(t, st, k, lines[j])].vals, p))
  {
    if lines != [] {
      var m := |lines| - 1;
      var before := SectionLines(t, st, k, lines[..m]);
      SectionFrame(t, st, k, lines[..m]);
      FindServiceShape(st.services, before.services, lines[m].1);
      assert Source(t, before, k, lines[m]) == Source(t, st, k, lines[m]);
      assert !Sets(t, st, lines[m], p);
      if j < m {
        CopyFills(t, st, k, lines[..m], p, i, j);
      } else {
        FreshKept(t, st, k, lines[..m], p, i);
      }
      LineKeeps(t, before, k, lines[m], p, i);
    }
  }

  lemma {:induction false} FreshKept(t: Table, st: State, k: nat, lines: seq<(string, string)>, p: Slot, i: nat)
    requires Plain(t, p, i) && Fresh(t, st, k, p)
    requires forall l :: 0 <= l < |lines| ==> !Sets(t, st, lines[l], p)
    ensures Fresh(t, SectionLines(t, st, k, lines), k, p)
  {
    if lines != [] {
      var m := |lines| - 1;
      FreshKept(t, st, k, lines[..m], p, i);
      assert !Sets(t, st, lines[m], p);
      LineKeeps(t, SectionLines(t, st, k, lines[..m]), k, lines[m], p, i);
    }
  }
}
