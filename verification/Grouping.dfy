/**
 Parameter tables written as groups of names that share storage, and what follows for the table: rows
 that share storage are adjacent and alike, and every service parameter is found under its own name.

 That names differ is shown by their signs, the first two and last two letters: `home` sends the sign
 of a service parameter's name to the group it belongs to, and the sign of any other name to no group
 further on.
 */
module Grouping {
  import opened Text
  import opened CStrings
  import opened ConfRoundTrip
  import opened LoadParm
  import opened DumpLoad
  import opened WholeDump
  import opened Reloading

  /** Rows that differ only in their names; the number of a group is the number of its storage. */
  datatype Group = Group(names: seq<string>, kind: Kind, scope: Scope, special: Special, enums: seq<(int, string)>)

  function Rows(g: Group, slot: Slot): (rows: Table)
    ensures |rows| == |g.names|
    ensures var own := if g.scope.Separator? then None else Some(slot);
            forall i :: 0 <= i < |rows| ==>
              rows[i] == Parm(g.names[i], g.kind, g.scope, own, g.special, g.enums)
  {
    seq(|g.names|, i requires 0 <= i < |g.names| =>
      Parm(g.names[i], g.kind, g.scope, if g.scope.Separator? then None else Some(slot), g.special, g.enums))
  }

  function Expand(gs: seq<Group>): Table {
    if gs == [] then []
    else
      var k := |gs| - 1;
      Expand(gs[..k]) + Rows(gs[k], k)
  }

  // Signs of names

  datatype Sign = Sign(a: char, b: char, c: char, d: char)

  type Homes = Sign -> int

  /** A name that begins and ends with two characters that are not white space. */
  predicate Sound(n: string) {
    |n| >= 2 && !IsSpace(n[0]) && !IsSpace(n[1]) && !IsSpace(n[|n| - 2]) && !IsSpace(n[|n| - 1])
  }

  function SignOf(n: string): Sign
    requires |n| >= 2
  {
    Sign(ToUpper(n[0]), ToUpper(n[1]), ToUpper(n[|n| - 2]), ToUpper(n[|n| - 1]))
  }

  lemma {:induction false} WKeyConcat(a: string, b: string)
    ensures WKey(a + b) == WKey(a) + WKey(b)
  {
    if a == [] {
      assert a + b == b;
    } else {
      assert (a + b)[0] == a[0] && (a + b)[1..] == a[1..] + b;
      WKeyConcat(a[1..], b);
    }
  }

  lemma TwoKey(x: char, y: char)
    requires !IsSpace(x) && !IsSpace(y)
    ensures WKey([x, y]) == [ToUpper(x), ToUpper(y)]
  {
    assert [x, y][1..] == [y] && [y][1..] == [];
    assert WKey([y]) == [ToUpper(y)] + WKey([]);
    assert WKey([x, y]) == [ToUpper(x)] + WKey([y]);
  }

  lemma WKeyEnds(n: string)
    requires Sound(n)
    ensures var k := WKey(n); |k| >= 2 && SignOf(n) == SignOf(k)
  {
    var m := |n| - 2;
    assert n == [n[0], n[1]] + n[2..];
    WKeyConcat([n[0], n[1]], n[2..]);
    TwoKey(n[0], n[1]);
    assert n == n[..m] + [n[m], n[m + 1]];
    WKeyConcat(n[..m], [n[m], n[m + 1]]);
    TwoKey(n[m], n[m + 1]);
    assert forall c :: ToUpper(ToUpper(c)) == ToUpper(c);
  }

  lemma SameSign(a: string, b: string)
    requires Sound(a) && Sound(b) && SameName(a, b)
    ensures SignOf(a) == SignOf(b)
  {
    WKeyEnds(a);
    WKeyEnds(b);
  }

  predicate Word(w: string) {
    w != [] && forall c :: c in w ==> 'a' <= c <= 'z'
  }

  lemma {:induction false} WordKey(n: string)
    requires Word(n)
    ensures |WKey(n)| == |n|
  {
    assert n[0] in n;
    if |n| == 1 {
      assert n[1..] == [];
    } else {
      assert forall c :: c in n[1..] ==> c in n;
      WordKey(n[1..]);
    }
  }

  predicate Apart(a: string, b: string) {
    |a| >= 2 && |b| >= 2 && (SignOf(a) != SignOf(b) || (|a| != |b| && Word(a) && Word(b)))
  }

  lemma ApartNames(a: string, b: string)
    requires Sound(a) && Sound(b) && Apart(a, b)
    ensures !SameName(a, b)
  {
    if SignOf(a) == SignOf(b) {
      WordKey(a);
      WordKey(b);
    } else if SameName(a, b) {
      SameSign(a, b);
    }
  }

  /** Small letters, but for single spaces at `p` and `q` if those are within the name. */
  lemma Lettered(n: string, p: nat, q: nat)
    requires n != [] && 0 < p && 0 < q && |n| != p + 1 && |n| != q + 1 && p != q + 1 && q != p + 1
    requires forall k :: 0 <= k < |n| && k != p && k != q ==> 'a' <= n[k] <= 'z'
    requires (p < |n| ==> n[p] == ' ') && (q < |n| ==> n[q] == ' ')
    ensures GoodKey(n)
  {
  }

  // Choices

  /** Of different length, or apart in the first, second or last letter. */
  predicate Unlike(a: string, b: string) {
    || |a| != |b|
    || (|a| >= 1 && ToUpper(a[0]) != ToUpper(b[0]))
    || (|a| >= 2 && (ToUpper(a[1]) != ToUpper(b[1]) || ToUpper(Last(a)) != ToUpper(Last(b))))
  }

  lemma LikeNames(a: string, b: string)
    requires StrEqual(a, b)
    ensures !Unlike(a, b)
  {
    var u, v := StrUpper(a), StrUpper(b);
    assert forall k :: 0 <= k < |u| ==> u[k] == ToUpper(a[k]) && v[k] == ToUpper(b[k]);
  }

  lemma ChoicesGood(enums: seq<(int, string)>)
    requires forall i, j :: 0 <= i < j < |enums| ==> enums[i].0 == enums[j].0 || Unlike(enums[i].1, enums[j].1)
    requires forall i :: 0 <= i < |enums| ==> GoodValue(enums[i].1)
    ensures EnumsGood(enums)
  {
    forall i, j | 0 <= i < j < |enums| && StrEqual(enums[i].1, enums[j].1)
      ensures enums[i].0 == enums[j].0
    {
      LikeNames(enums[i].1, enums[j].1);
    }
  }

  // Well-formed groups

  predicate Typed(g: Group) {
    && (g.kind.KSep? <==> g.scope.Separator?)
    && (g.scope.Local? ==> !g.kind.KBytes?)
    && (g.special != NoSpecial ==> g.kind.KString?)
  }

  /** The sign of a service parameter's name leads to its own group; no other name's leads further on. */
  predicate Points(home: Homes, n: string, g: Group, k: nat) {
    Sound(n) && if g.scope.Local? then home(SignOf(n)) == k else home(SignOf(n)) < k
  }

  /** A group of one or two names, as number `k`. */
  predicate Fine(home: Homes, g: Group, k: nat) {
    && Typed(g)
    && (|g.names| == 1 || |g.names| == 2)
    && Points(home, g.names[0], g, k)
    && (|g.names| == 2 ==>
          && Points(home, g.names[1], g, k) && !Dashed(g.names[0]) && !Dashed(g.names[1])
          && (g.scope.Local? ==> Apart(g.names[0], g.names[1])))
  }

  ghost predicate AllFine(home: Homes, gs: seq<Group>, start: nat) {
    forall k :: 0 <= k < |gs| ==> Fine(home, gs[k], start + k)
  }

  /** Its names can stand on a line of a file, if a file can set them at all, and so can its choices. */
  predicate Good(g: Group) {
    && (g.scope.Local? && (|g.names| == 1 || |g.names| == 2) ==>
          && (Dashed(g.names[0]) || GoodKey(g.names[0]))
          && (|g.names| == 2 ==> GoodKey(g.names[1])))
    && (g.kind.KEnum? ==> EnumsGood(g.enums) && (g.scope.Local? ==> |g.enums| > 0 && g.enums[0].0 == 0))
  }

  ghost predicate AllGood(gs: seq<Group>) {
    forall k :: 0 <= k < |gs| ==> Good(gs[k])
  }

  lemma Five(home: Homes, gs: seq<Group>, k: nat)
    requires |gs| == 5
    requires Fine(home, gs[0], k) && Fine(home, gs[1], k + 1) && Fine(home, gs[2], k + 2) && Fine(home, gs[3], k + 3)
    requires Fine(home, gs[4], k + 4)
    ensures AllFine(home, gs, k)
  {
  }

  lemma FiveGood(gs: seq<Group>)
    requires |gs| == 5
    requires Good(gs[0]) && Good(gs[1]) && Good(gs[2]) && Good(gs[3]) && Good(gs[4])
    ensures AllGood(gs)
  {
  }

  lemma Join(home: Homes, a: seq<Group>, b: seq<Group>, start: nat)
    requires AllFine(home, a, start) && AllFine(home, b, start + |a|) && AllGood(a) && AllGood(b)
    ensures AllFine(home, a + b, start) && AllGood(a + b)
  {
  }

  // What follows for the table

  /** Every name so far is signed below `n`, and every slot is. */
  ghost predicate Below(home: Homes, t: Table, n: nat) {
    forall i :: 0 <= i < |t| ==>
      && Sound(t[i].name) && home(SignOf(t[i].name)) < n
      && (t[i].ptr.Some? ==> t[i].ptr.value < n)
  }

  /** No service parameter has the name of an earlier row. */
  ghost predicate Clear(t: Table) {
    forall i, j :: 0 <= j < i < |t| && t[i].scope.Local? ==> !SameName(t[j].name, t[i].name)
  }

  lemma RowsPoint(home: Homes, g: Group, k: nat, i: nat)
    requires Fine(home, g, k) && i < |g.names|
    ensures Points(home, g.names[i], g, k)
    ensures |g.names| == 2 ==> !Dashed(g.names[i])
  {
    assert i == 0 || i == 1;
  }

  lemma BelowNext(home: Homes, t: Table, g: Group, n: nat)
    requires Below(home, t, n) && Fine(home, g, n)
    ensures Below(home, t + Rows(g, n), n + 1)
  {
    forall i | 0 <= i < |g.names|
      ensures Points(home, g.names[i], g, n)
    {
      RowsPoint(home, g, n, i);
    }
  }

  lemma ContiguousNext(home: Homes, t: Table, g: Group, n: nat)
    requires Below(home, t, n) && Contiguous(t)
    ensures Contiguous(t + Rows(g, n))
  {
  }

  lemma AliasesNext(home: Homes, t: Table, g: Group, n: nat)
    requires Below(home, t, n) && Fine(home, g, n) && AliasesAgree(t) && WellTyped(t)
    ensures AliasesAgree(t + Rows(g, n)) && WellTyped(t + Rows(g, n))
  {
    forall i | 0 <= i < |g.names|
      ensures |g.names| == 2 ==> !Dashed(g.names[i])
    {
      RowsPoint(home, g, n, i);
    }
  }

  lemma ClearNext(home: Homes, t: Table, g: Group, n: nat)
    requires Below(home, t, n) && Fine(home, g, n) && Clear(t)
    ensures Clear(t + Rows(g, n))
  {
    var t' := t + Rows(g, n);
    forall i, j | 0 <= j < i < |t'| && t'[i].scope.Local?
      ensures !SameName(t'[j].name, t'[i].name)
    {
      if |t| <= j {
        ApartNames(g.names[0], g.names[1]);
      } else if |t| <= i {
        RowsPoint(home, g, n, i - |t|);
        if SameName(t'[j].name, t'[i].name) {
          SameSign(t'[j].name, t'[i].name);
        }
      }
    }
  }

  lemma {:induction false} Expanded(home: Homes, gs: seq<Group>)
    requires AllFine(home, gs, 0)
    ensures Below(home, Expand(gs), |gs|) && Clear(Expand(gs))
    ensures Contiguous(Expand(gs)) && AliasesAgree(Expand(gs)) && WellTyped(Expand(gs))
  {
    if gs != [] {
      var k := |gs| - 1;
      Expanded(home, gs[..k]);
      var t := Expand(gs[..k]);
      BelowNext(home, t, gs[k], k);
      ContiguousNext(home, t, gs[k], k);
      AliasesNext(home, t, gs[k], k);
      ClearNext(home, t, gs[k], k);
    }
  }

  ghost predicate GoodNames(t: Table) {
    forall i :: 0 <= i < |t| && t[i].scope.Local? && !Dashed(t[i].name) ==> GoodKey(t[i].name)
  }

  lemma {:induction false} GoodExpanded(home: Homes, gs: seq<Group>)
    requires AllFine(home, gs, 0) && AllGood(gs)
    ensures GoodNames(Expand(gs))
  {
    if gs != [] {
      var k := |gs| - 1;
      GoodExpanded(home, gs[..k]);
      assert Good(gs[k]) && Fine(home, gs[k], k);
    }
  }

  /** The choices of a service parameter begin with the one for zero. */
  ghost predicate ZeroFirst(t: Table) {
    forall i :: 0 <= i < |t| && t[i].kind.KEnum? && t[i].scope.Local? ==>
      |t[i].enums| > 0 && t[i].enums[0].0 == 0
  }

  lemma {:induction false} EnumsExpanded(gs: seq<Group>)
    requires AllGood(gs)
    ensures EnumRows(Expand(gs)) && ZeroFirst(Expand(gs))
  {
    if gs != [] {
      var k := |gs| - 1;
      EnumsExpanded(gs[..k]);
      assert Good(gs[k]);
    }
  }

  lemma ClearFound(t: Table)
    requires Clear(t) && GoodNames(t)
    ensures NamesFound(t)
  {
    forall i | 0 <= i < |t| && t[i].scope.Local? && !Dashed(t[i].name)
      ensures MapParameter(t, t[i].name) == i
    {
      var r := MapParameter(t, t[i].name);
      assert r < 0 || r == i || r < i;
    }
  }

  lemma GroupedTable(home: Homes, gs: seq<Group>)
    requires AllFine(home, gs, 0) && AllGood(gs)
    ensures var t := Expand(gs); Contiguous(t) && AliasesAgree(t) && WellTyped(t) && NamesFound(t)
    ensures EnumRows(Expand(gs)) && ZeroFirst(Expand(gs))
  {
    Expanded(home, gs);
    GoodExpanded(home, gs);
    EnumsExpanded(gs);
    ClearFound(Expand(gs));
  }

  /** Which row a slot belongs to, and where a name of a group ends up. */
  lemma {:induction false} SlotKind(gs: seq<Group>, i: nat)
    requires i < |Expand(gs)| && Expand(gs)[i].ptr.Some?
    ensures Expand(gs)[i].ptr.value < |gs| && Expand(gs)[i].kind == gs[Expand(gs)[i].ptr.value].kind
  {
    var k := |gs| - 1;
    if i < |Expand(gs[..k])| {
      SlotKind(gs[..k], i);
    }
  }

  lemma PrinterSlots(gs: seq<Group>)
    requires PRINT_OK < |gs| && BROWSEABLE < |gs| && gs[PRINT_OK].kind.KBool? && gs[BROWSEABLE].kind.KBool?
    ensures PrinterRows(Expand(gs))
  {
    var t := Expand(gs);
    forall i | 0 <= i < |t| && (t[i].ptr == Some(PRINT_OK) || t[i].ptr == Some(BROWSEABLE))
      ensures t[i].kind.KBool?
    {
      SlotKind(gs, i);
    }
  }

  lemma {:induction false} RowAt(gs: seq<Group>, k: nat, j: nat) returns (i: nat)
    requires k < |gs| && j < |gs[k].names|
    ensures i < |Expand(gs)| && Expand(gs)[i] == Rows(gs[k], k)[j]
  {
    var m := |gs| - 1;
    if k == m {
      i := |Expand(gs[..m])| + j;
    } else {
      i := RowAt(gs[..m], k, j);
    }
  }

  /** A service parameter is looked up under the first name of its group, and has its storage. */
  lemma SlotNamed(t: Table, gs: seq<Group>, k: nat, name: string)
    requires t == Expand(gs) && NamesFound(t)
    requires k < |gs| && gs[k].names != [] && gs[k].names[0] == name && gs[k].scope.Local? && !Dashed(name)
    ensures var n := MapParameter(t, name);
            n >= 0 && t[n].ptr == Some(k) && t[n].scope.Local? && t[n].special == gs[k].special
  {
    var i := RowAt(gs, k, 0);
    assert t[i].name == name;
  }
}
