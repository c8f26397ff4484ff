/**
 Choosing the security mechanisms to offer and to start (samba/auth/gensec/gensec.c).

 The registry is a list of backends in our order of preference.  A caller names what the peer
 offers, as OIDs or as SASL names, and gets back the backends that fit.  `Preferred` says outright
 what that answer has to be; it has exactly one solution (`PreferredUnique`), and the nested loops
 of the source are shown to find it.
 */
module Gensec {
  import opened Text

  /** A registered mechanism; `id` stands for its address, so equal values are the same object. */
  datatype Backend = Backend(id: nat, oids: Option<seq<string>>, sasl: Option<string>, kerberos: bool)

  datatype UseKerberos = Auto | Dont | Must

  const SPNEGO := "1 3 6 1 5 5 2"

  /** What the peer offers. */
  datatype Offer = ByOid(oids: seq<string>, skip: string) | BySasl(names: seq<string>)

  datatype Wrapper = Wrapper(op: Backend, oid: string)

  predicate Usable(oids: seq<string>, skip: string, oid: string) {
    oid != skip && oid in oids
  }

  /** Where in the offer the first OID stands that is not skipped and that the backend knows. */
  function FirstOffered(oids: seq<string>, offered: seq<string>, skip: string): (k: nat)
    ensures k <= |offered|
    ensures forall j :: 0 <= j < k ==> !Usable(oids, skip, offered[j])
    ensures k < |offered| ==> Usable(oids, skip, offered[k])
  {
    if offered == [] then 0
    else if Usable(oids, skip, offered[0]) then 0
    else 1 + FirstOffered(oids, offered[1..], skip)
  }

  predicate Eligible(offer: Offer, b: Backend) {
    match offer
    case ByOid(offered, skip) => b.oids.Some? && FirstOffered(b.oids.value, offered, skip) < |offered|
    case BySasl(names) => b.sasl.Some? && b.sasl.value in names
  }

  /** The first position of `b`: its rank in our order of preference. */
  function Rank(backends: seq<Backend>, b: Backend): (k: nat)
    requires b in backends
    ensures k < |backends| && backends[k] == b
    ensures forall j :: 0 <= j < k ==> backends[j] != b
  {
    if backends[0] == b then 0 else 1 + Rank(backends[1..], b)
  }

  /** Every fitting backend, each once, best first. */
  ghost predicate Preferred(ops: seq<Backend>, backends: seq<Backend>, offer: Offer) {
    && (forall b :: b in ops <==> b in backends && Eligible(offer, b))
    && (forall k, l :: 0 <= k < l < |ops| ==> Rank(backends, ops[k]) < Rank(backends, ops[l]))
  }

  function Earlier(backends: seq<Backend>): seq<Backend>
    requires backends != []
  {
    backends[..|backends| - 1]
  }

  function Newest(backends: seq<Backend>): Backend
    requires backends != []
  {
    backends[|backends| - 1]
  }

  /** The same list, built up as the registry is walked. */
  function Kept(backends: seq<Backend>, offer: Offer): seq<Backend> {
    if backends == [] then []
    else Admit(Kept(Earlier(backends), offer), Newest(backends), Eligible(offer, Newest(backends)))
  }

  function Admit(ops: seq<Backend>, b: Backend, fits: bool): seq<Backend> {
    if fits && b !in ops then ops + [b] else ops
  }

  lemma RankStable(backends: seq<Backend>, b: Backend, x: Backend)
    requires x in backends
    ensures Rank(backends + [b], x) == Rank(backends, x)
  {
    var r := Rank(backends, x);
    assert (backends + [b])[r] == x;
    assert forall j :: 0 <= j < r ==> (backends + [b])[j] == backends[j];
  }

  lemma {:induction false} KeptPreferred(backends: seq<Backend>, offer: Offer)
    ensures Preferred(Kept(backends, offer), backends, offer)
  {
    if backends != [] {
      var before, b := Earlier(backends), Newest(backends);
      assert backends == before + [b];
      KeptPreferred(before, offer);
      AdmitPreferred(Kept(before, offer), before, b, offer);
    }
  }

  lemma AdmitPreferred(ops: seq<Backend>, before: seq<Backend>, b: Backend, offer: Offer)
    requires Preferred(ops, before, offer)
    ensures Preferred(Admit(ops, b, Eligible(offer, b)), before + [b], offer)
  {
    var after := Admit(ops, b, Eligible(offer, b));
    forall k, l | 0 <= k < l < |after|
      ensures after[k] in before + [b] && after[l] in before + [b]
      ensures Rank(before + [b], after[k]) < Rank(before + [b], after[l])
    {
      assert ops[k] in ops;
      RankStable(before, b, after[k]);
      if l < |ops| {
        assert ops[l] in ops;
        RankStable(before, b, after[l]);
      } else {
        assert b !in before;
      }
    }
  }

  /** `Preferred` leaves no freedom: it determines the list. */
  lemma PreferredUnique(ops: seq<Backend>, other: seq<Backend>, backends: seq<Backend>, offer: Offer)
    requires Preferred(ops, backends, offer) && Preferred(other, backends, offer)
    ensures ops == other
  {
    PrefixEqual(ops, other, backends, offer, |ops|);
    PrefixEqual(other, ops, backends, offer, |other|);
  }

  lemma {:induction false} PrefixEqual(ops: seq<Backend>, other: seq<Backend>, backends: seq<Backend>, offer: Offer,
                                       n: nat)
    requires Preferred(ops, backends, offer) && Preferred(other, backends, offer)
    requires n <= |ops|
    ensures n <= |other| && ops[..n] == other[..n]
  {
    if n > 0 {
      PrefixEqual(ops, other, backends, offer, n - 1);
      var b := ops[n - 1];
      var m := Later(ops, other, backends, offer, n - 1, b);
      var l := Later(other, ops, backends, offer, n - 1, other[n - 1]);
      assert Rank(backends, b) == Rank(backends, other[n - 1]);
      assert ops[..n] == ops[..n - 1] + [b] && other[..n] == other[..n - 1] + [b];
    }
  }

  /** Past a common prefix, the next entry of one list is in the other, and no earlier. */
  lemma Later(ops: seq<Backend>, other: seq<Backend>, backends: seq<Backend>, offer: Offer, n: nat, b: Backend)
    returns (m: nat)
    requires Preferred(ops, backends, offer) && Preferred(other, backends, offer)
    requires n < |ops| && n <= |other| && ops[..n] == other[..n] && ops[n] == b
    ensures n <= m < |other| && other[m] == b
    ensures b in backends && other[n] in backends && Rank(backends, other[n]) <= Rank(backends, b)
  {
    assert forall i :: 0 <= i < n ==> ops[i] == ops[..n][i] && other[i] == other[..n][i];
    assert forall i :: 0 <= i < n ==> ops[i] != ops[n];
    assert ops[n] in ops;
    m :| 0 <= m < |other| && other[m] == b;
    assert other[n] in other;
  }

  /** The scan for an entry already present, which stops at the terminating empty entry. */
  method Listed(ops: seq<Backend>, b: Backend) returns (k: nat)
    ensures k <= |ops|
    ensures k < |ops| <==> b in ops
  {
    k := 0;
    while k < |ops|
      invariant k <= |ops| && b !in ops[..k]
    {
      if ops[k] == b {
        return;
      }
      k := k + 1;
    }
    assert ops[..k] == ops;
  }

  /** The mechanisms allowed by the Kerberos setting, as the source lists them. */
  function Mechs(backends: seq<Backend>, use: UseKerberos): seq<Backend> {
    if use.Auto? then backends
    else if backends == [] then []
    else Mechs(Earlier(backends), use) + Copies(Newest(backends), use)
  }

  /** A SPNEGO backend that also passes the Kerberos test is listed twice. */
  function Copies(b: Backend, use: UseKerberos): seq<Backend> {
    (if IsSpnego(b) then [b] else []) + (if b.kerberos == use.Must? then [b] else [])
  }

  predicate IsSpnego(b: Backend) {
    b.oids.Some? && SPNEGO in b.oids.value
  }

  /** How many backends are listed twice, and how many are not listed. */
  function Doubled(backends: seq<Backend>, use: UseKerberos): nat {
    if backends == [] then 0
    else Doubled(Earlier(backends), use) + if |Copies(Newest(backends), use)| == 2 then 1 else 0
  }

  function Dropped(backends: seq<Backend>, use: UseKerberos): nat {
    if backends == [] then 0
    else Dropped(Earlier(backends), use) + if |Copies(Newest(backends), use)| == 0 then 1 else 0
  }

  /** The filtered list, with its terminator, fits the array that is allocated for it if and only if no
      more backends are doubled than dropped. */
  lemma {:induction false} RoomExactly(backends: seq<Backend>, use: UseKerberos)
    requires !use.Auto?
    ensures |Mechs(backends, use)| + Dropped(backends, use) == |backends| + Doubled(backends, use)
    ensures |Mechs(backends, use)| + 1 <= |backends| + 1 <==> Doubled(backends, use) <= Dropped(backends, use)
  {
    if backends != [] {
      RoomExactly(Earlier(backends), use);
    }
  }

  /** A registry without a Kerberos backend but with SPNEGO overruns the array when Kerberos is switched
      off: nothing is dropped and the SPNEGO backend is listed twice. */
  lemma NoKerberosOverruns(backends: seq<Backend>)
    requires (exists i :: 0 <= i < |backends| && IsSpnego(backends[i]))
    requires forall i :: 0 <= i < |backends| ==> !backends[i].kerberos
    ensures |Mechs(backends, Dont)| > |backends|
  {
    NothingDropped(backends);
    RoomExactly(backends, Dont);
  }

  lemma {:induction false} NothingDropped(backends: seq<Backend>)
    requires forall i :: 0 <= i < |backends| ==> !backends[i].kerberos
    ensures Dropped(backends, Dont) == 0
    ensures (exists i :: 0 <= i < |backends| && IsSpnego(backends[i])) ==> Doubled(backends, Dont) >= 1
  {
    if backends != [] {
      var earlier := Earlier(backends);
      NothingDropped(earlier);
      if i :| 0 <= i < |backends| && IsSpnego(backends[i]) && i < |earlier| {
        assert IsSpnego(earlier[i]);
      }
    }
  }

  lemma {:induction false} MechsGrow(backends: seq<Backend>, use: UseKerberos, i: nat)
    requires i <= |backends|
    ensures |Mechs(backends[..i], use)| <= |Mechs(backends, use)|
  {
    if i == |backends| {
      assert backends[..i] == backends;
    } else {
      assert Earlier(backends)[..i] == backends[..i];
      MechsGrow(Earlier(backends), use, i);
    }
  }

  lemma MechsNext(backends: seq<Backend>, use: UseKerberos, i: nat)
    requires i < |backends| && !use.Auto?
    ensures Mechs(backends[..i + 1], use) == Mechs(backends[..i], use) + Copies(backends[i], use)
  {
    assert Earlier(backends[..i + 1]) == backends[..i] && Newest(backends[..i + 1]) == backends[i];
  }

  /** What a reader finds in a terminated array. */
  function Terminated(cells: seq<Option<Backend>>): seq<Backend> {
    if cells == [] || cells[0].None? then [] else [cells[0].value] + Terminated(cells[1..])
  }

  predicate Filled(cells: seq<Option<Backend>>, mechs: seq<Backend>) {
    |mechs| <= |cells| && forall k :: 0 <= k < |mechs| ==> cells[k] == Some(mechs[k])
  }

  lemma {:induction false} TerminatedIs(cells: seq<Option<Backend>>, mechs: seq<Backend>)
    requires Filled(cells, mechs) && |mechs| < |cells| && cells[|mechs|].None?
    ensures Terminated(cells) == mechs
    decreases |mechs|
  {
    if mechs != [] {
      TerminatedIs(cells[1..], mechs[1..]);
    }
  }

  method KnowsSpnego(b: Backend) returns (found: bool)
    ensures found == IsSpnego(b)
  {
    if b.oids.None? {
      return false;
    }
    var oids := b.oids.value;
    var j := 0;
    while j < |oids| && oids[j] != SPNEGO
      invariant j <= |oids| && SPNEGO !in oids[..j]
    {
      j := j + 1;
    }
    assert j == |oids| ==> oids[..j] == oids;
    found := j < |oids|;
  }

  /** Writes the entry if it is within the array. */
  method PutCell(cells: array<Option<Backend>>, ghost mechs: seq<Backend>, j: nat, b: Backend) returns (ok: bool)
    requires Filled(cells[..], mechs) && j == |mechs|
    modifies cells
    ensures ok <==> j < cells.Length
    ensures ok ==> Filled(cells[..], mechs + [b])
  {
    ok := j < cells.Length;
    if ok {
      cells[j] := Some(b);
    }
  }

  method PutCopies(cells: array<Option<Backend>>, ghost mechs: seq<Backend>, j: nat, b: Backend, use: UseKerberos)
    returns (ok: bool, j': nat)
    requires Filled(cells[..], mechs) && j == |mechs|
    modifies cells
    ensures ok <==> |mechs + Copies(b, use)| <= cells.Length
    ensures ok ==> j' == |mechs + Copies(b, use)| && Filled(cells[..], mechs + Copies(b, use))
  {
    CopiesOf(mechs, b, use);
    ok, j' := true, j;
    var spnego := KnowsSpnego(b);
    if spnego {
      ok := PutCell(cells, mechs, j', b);
      if !ok {
        return;
      }
      j' := j' + 1;
    }
    if b.kerberos == use.Must? {
      ok := PutCell(cells, if spnego then mechs + [b] else mechs, j', b);
      j' := j' + 1;
    }
  }

  /**
   The filter, with its array of one cell more than there are backends.  `fits` is false exactly when the
   source writes past that array; what it does then is not modelled.
   */
  method UseKerberosMechs(backends: seq<Backend>, use: UseKerberos) returns (fits: bool, mechs: seq<Backend>)
    ensures fits <==> |Mechs(backends, use)| <= |backends|
    ensures fits ==> mechs == Mechs(backends, use)
  {
    if use.Auto? {
      return true, backends;
    }
    var cells := new Option<Backend>[|backends| + 1](_ => None);
    var j: nat := 0;
    for i := 0 to |backends|
      invariant j == |Mechs(backends[..i], use)| && Filled(cells[..], Mechs(backends[..i], use))
    {
      ghost var before := Mechs(backends[..i], use);
      MechsNext(backends, use, i);
      MechsGrow(backends, use, i + 1);
      var ok;
      ok, j := PutCopies(cells, before, j, backends[i], use);
      if !ok {
        return false, [];
      }
    }
    assert backends[..|backends|] == backends;
    if j == cells.Length {
      return false, [];
    }
    cells[j] := None;
    TerminatedIs(cells[..], Mechs(backends, use));
    return true, Terminated(cells[..]);
  }

  /** The allowed mechanisms, each as often as the registry has it. */
  function Allowed(backends: seq<Backend>, use: UseKerberos): seq<Backend> {
    if backends == [] then []
    else
      var b := Newest(backends);
      Allowed(Earlier(backends), use) +
      (if use.Auto? || IsSpnego(b) || b.kerberos == use.Must? then [b] else [])
  }

  /** Selection does not see that SPNEGO may be listed twice. */
  lemma {:induction false} DoublingUnseen(backends: seq<Backend>, use: UseKerberos, offer: Offer)
    ensures Kept(Mechs(backends, use), offer) == Kept(Allowed(backends, use), offer)
  {
    if use.Auto? {
      AllAllowed(backends);
    } else if backends != [] {
      var b, before := Newest(backends), Earlier(backends);
      DoublingUnseen(before, use, offer);
      KeptNext(Mechs(before, use), b, offer);
      KeptNext(Mechs(before, use) + [b], b, offer);
      KeptNext(Allowed(before, use), b, offer);
      CopiesOf(Mechs(before, use), b, use);
      assert Allowed(before, use) + [] == Allowed(before, use);
    }
  }

  lemma KeptNext(backends: seq<Backend>, b: Backend, offer: Offer)
    ensures Kept(backends + [b], offer) == Admit(Kept(backends, offer), b, Eligible(offer, b))
  {
  }

  lemma CopiesOf(m: seq<Backend>, b: Backend, use: UseKerberos)
    ensures var spnego, fits := IsSpnego(b), b.kerberos == use.Must?;
            m + Copies(b, use) == if spnego && fits then m + [b] + [b] else if spnego || fits then m + [b] else m
  {
  }

  lemma {:induction false} AllAllowed(backends: seq<Backend>)
    ensures Allowed(backends, Auto) == backends
  {
    if backends != [] {
      assert backends == Earlier(backends) + [Newest(backends)];
      AllAllowed(Earlier(backends));
    }
  }

  function Ops(out: seq<Wrapper>): (ops: seq<Backend>)
    ensures |ops| == |out| && forall k :: 0 <= k < |out| ==> ops[k] == out[k].op
  {
    seq(|out|, k requires 0 <= k < |out| => out[k].op)
  }

  /** Each backend comes with the first OID of the offer that it knows and that is not skipped. */
  ghost predicate Paired(out: seq<Wrapper>, offered: seq<string>, skip: string) {
    forall k :: 0 <= k < |out| ==> PairedOne(out[k], offered, skip)
  }

  predicate PairedOne(w: Wrapper, offered: seq<string>, skip: string) {
    && w.op.oids.Some?
    && var at := FirstOffered(w.op.oids.value, offered, skip);
    && at < |offered| && w.oid == offered[at]
  }

  /** The backend joins the list with the first OID that fits, and never twice. */
  method TryOid(out: seq<Wrapper>, b: Backend, oids: seq<string>, oid: string) returns (more: seq<Wrapper>)
    requires b.oids == Some(oids)
    ensures more == if oid in oids && b !in Ops(out) then out + [Wrapper(b, oid)] else out
  {
    more := out;
    for j := 0 to |oids|
      invariant more == if oid in oids[..j] && b !in Ops(out) then out + [Wrapper(b, oid)] else out
    {
      assert oids[..j + 1] == oids[..j] + [oids[j]];
      if oids[j] != oid {
        continue;
      }
      var k := Listed(Ops(more), b);
      if k < |more| {
        assert more != out ==> b !in Ops(out);
        continue;
      }
      assert Ops(out + [Wrapper(b, oid)])[|out|] == b;
      more := more + [Wrapper(b, oids[j])];
    }
    assert oids[..|oids|] == oids;
  }

  lemma FirstOfPrefix(oids: seq<string>, offered: seq<string>, skip: string, i: nat)
    requires i < |offered|
    ensures var k, l := FirstOffered(oids, offered[..i], skip), FirstOffered(oids, offered[..i + 1], skip);
            if k < i then l == k else l == if Usable(oids, skip, offered[i]) then i else i + 1
  {
  }

  /** The list after one backend has been held against the offer. */
  function Tried(out: seq<Wrapper>, b: Backend, oids: seq<string>, offered: seq<string>, skip: string): seq<Wrapper> {
    var k := FirstOffered(oids, offered, skip);
    if k < |offered| && b !in Ops(out) then out + [Wrapper(b, offered[k])] else out
  }

  lemma TriedNext(out: seq<Wrapper>, b: Backend, oids: seq<string>, offered: seq<string>, skip: string, i: nat)
    requires i < |offered|
    ensures var now, next := Tried(out, b, oids, offered[..i], skip), Tried(out, b, oids, offered[..i + 1], skip);
            next == if Usable(oids, skip, offered[i]) && b !in Ops(now) then now + [Wrapper(b, offered[i])] else now
  {
    FirstOfPrefix(oids, offered, skip, i);
    var now := Tried(out, b, oids, offered[..i], skip);
    if now != out {
      assert Ops(now)[|out|] == b;
    }
  }

  lemma TriedIs(out: seq<Wrapper>, b: Backend, oids: seq<string>, offered: seq<string>, skip: string)
    requires b.oids == Some(oids)
    ensures var more := Tried(out, b, oids, offered, skip);
            && Ops(more) == Admit(Ops(out), b, Eligible(ByOid(offered, skip), b))
            && (Paired(out, offered, skip) ==> Paired(more, offered, skip))
  {
  }

  /** One backend against the whole offer. */
  method TryBackend(out: seq<Wrapper>, b: Backend, offered: seq<string>, skip: string) returns (more: seq<Wrapper>)
    ensures Ops(more) == Admit(Ops(out), b, Eligible(ByOid(offered, skip), b))
    ensures Paired(out, offered, skip) ==> Paired(more, offered, skip)
  {
    more := out;
    if b.oids.None? {
      return;
    }
    var oids := b.oids.value;
    for i := 0 to |offered|
      invariant more == Tried(out, b, oids, offered[..i], skip)
    {
      TriedNext(out, b, oids, offered, skip, i);
      if offered[i] == skip {
        continue;
      }
      more := TryOid(more, b, oids, offered[i]);
    }
    assert offered[..|offered|] == offered;
    TriedIs(out, b, oids, offered, skip);
  }

  /** No offer at all gives no list, which differs from an empty one. */
  method ByOidList(mechs: seq<Backend>, offered: Option<seq<string>>, skip: string)
    returns (out: Option<seq<Wrapper>>)
    ensures out.Some? <==> offered.Some?
    ensures out.Some? ==> Preferred(Ops(out.value), mechs, ByOid(offered.value, skip))
    ensures out.Some? ==> Paired(out.value, offered.value, skip)
  {
    if offered.None? {
      return None;
    }
    var list: seq<Wrapper> := [];
    for i := 0 to |mechs|
      invariant Ops(list) == Kept(mechs[..i], ByOid(offered.value, skip))
      invariant Paired(list, offered.value, skip)
    {
      list := TryBackend(list, mechs[i], offered.value, skip);
      assert Earlier(mechs[..i + 1]) == mechs[..i] && Newest(mechs[..i + 1]) == mechs[i];
    }
    assert mechs[..|mechs|] == mechs;
    KeptPreferred(mechs, ByOid(offered.value, skip));
    return Some(list);
  }

  method BySaslList(mechs: seq<Backend>, names: Option<seq<string>>) returns (out: Option<seq<Backend>>)
    ensures out.Some? <==> names.Some?
    ensures out.Some? ==> Preferred(out.value, mechs, BySasl(names.value))
  {
    if names.None? {
      return None;
    }
    var list: seq<Backend> := [];
    ghost var offer := BySasl(names.value);
    for i := 0 to |mechs|
      invariant list == Kept(mechs[..i], offer)
    {
      ghost var before := list;
      for j := 0 to |names.value|
        invariant list == Admit(before, mechs[i], Eligible(BySasl(names.value[..j]), mechs[i]))
      {
        assert names.value[..j + 1] == names.value[..j] + [names.value[j]];
        if mechs[i].sasl.None? || mechs[i].sasl.value != names.value[j] {
          continue;
        }
        var k := Listed(list, mechs[i]);
        if k < |list| {
          continue;
        }
        list := list + [mechs[i]];
      }
      assert names.value[..|names.value|] == names.value;
      assert Earlier(mechs[..i + 1]) == mechs[..i] && Newest(mechs[..i + 1]) == mechs[i];
    }
    assert mechs[..|mechs|] == mechs;
    KeptPreferred(mechs, offer);
    return Some(list);
  }

  datatype Status = InvalidParameter | Answer(code: int)

  /** The best fitting mechanism that accepts the call, judged on the registry itself. */
  ghost predicate Settled(ops: Option<Backend>, status: Status, mechs: seq<Backend>, offer: Offer,
                          start: Backend -> Status)
  {
    && ops.Some? && ops.value in mechs && Eligible(offer, ops.value) && start(ops.value) == status
    && forall b :: b in mechs && Eligible(offer, b) && start(b) != InvalidParameter
                   ==> Rank(mechs, ops.value) <= Rank(mechs, b)
  }

  class Security {
    var ops: Option<Backend>
    const mechs: seq<Backend>

    constructor (mechs: seq<Backend>)
      ensures this.mechs == mechs && ops == None
    {
      this.mechs := mechs;
      ops := None;
    }

    /**
     Starts the mechanisms in turn; `start` is what each one's own start routine answers.  The call
     fails with an invalid parameter exactly when every fitting mechanism does, and then the last of
     them is left selected.
     */
    method StartBySaslList(names: Option<seq<string>>, start: Backend -> Status) returns (status: Status)
      modifies this`ops
      ensures names.None? ==> status == InvalidParameter && ops == old(ops)
      ensures names.Some? ==>
                (status == InvalidParameter <==>
                 forall b :: b in mechs && Eligible(BySasl(names.value), b) ==> start(b) == InvalidParameter)
      ensures names.Some? && status != InvalidParameter ==> Settled(ops, status, mechs, BySasl(names.value), start)
      ensures names.Some? && status == InvalidParameter ==>
                var tried := Kept(mechs, BySasl(names.value));
                ops == if tried == [] then old(ops) else Some(Newest(tried))
    {
      var list := BySaslList(mechs, names);
      if list.Some? {
        KeptPreferred(mechs, BySasl(names.value));
        PreferredUnique(list.value, Kept(mechs, BySasl(names.value)), mechs, BySasl(names.value));
      }
      if list.None? || list.value == [] {
        return InvalidParameter;
      }
      status := InvalidParameter;
      var i := 0;
      while i < |list.value|
        invariant i <= |list.value| && status == InvalidParameter
        invariant ops == if i == 0 then old(ops) else Some(list.value[i - 1])
        invariant forall k :: 0 <= k < i ==> start(list.value[k]) == InvalidParameter
      {
        ops := Some(list.value[i]);
        status := start(list.value[i]);
        if status != InvalidParameter {
          SettledAt(list.value, i, status, mechs, BySasl(names.value), start);
          return;
        }
        i := i + 1;
      }
    }
  }

  lemma SettledAt(list: seq<Backend>, i: nat, status: Status, mechs: seq<Backend>, offer: Offer,
                  start: Backend -> Status)
    requires Preferred(list, mechs, offer) && i < |list| && start(list[i]) == status
    requires forall k :: 0 <= k < i ==> start(list[k]) == InvalidParameter
    ensures list[i] in mechs && Eligible(offer, list[i])
    ensures Settled(Some(list[i]), status, mechs, offer, start)
  {
  }
}
