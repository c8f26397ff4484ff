/** Logon information: splitting a user's groups into domain-relative ids and extra SIDs for a
    netr_SamInfo3 reply (the shape of KERB_VALIDATION_INFO, section 2.5 of [MS-PAC]), and rebuilding
    the server's own record from such a reply. */
module LogonInfo {
  import opened Text
  import opened Octets

  type U32 = x: int | 0 <= x < 0x1_0000_0000

  datatype Sid = Sid(auth: Bytes, subs: seq<U32>)

  /** dom_sid_in_domain: a prefix, not necessarily a proper one. */
  predicate InDomain(domain: Sid, sid: Sid) {
    domain.subs <= sid.subs && domain.auth == sid.auth
  }

  /** dom_sid_add_rid. */
  function AddRid(domain: Sid, rid: U32): Sid {
    Sid(domain.auth, domain.subs + [rid])
  }

  function LastSub(sid: Sid): U32
    requires sid.subs != []
  {
    sid.subs[|sid.subs| - 1]
  }

  /** The SID without its last sub-authority. */
  function DomainOf(sid: Sid): Sid
    requires sid.subs != []
  {
    Sid(sid.auth, sid.subs[..|sid.subs| - 1])
  }

  // Records

  /** The fields that both conversions copy one for one. */
  datatype Profile = Profile(
    lastLogon: nat, lastLogoff: nat, acctExpiry: nat,
    lastPasswordChange: nat, allowPasswordChange: nat, forcePasswordChange: nat,
    fullName: string, logonScript: string, profilePath: string, homeDirectory: string, homeDrive: string,
    logonCount: U32, badPasswordCount: U32, acctFlags: U32,
    logonServer: string, domainName: string)

  datatype ServerInfo = ServerInfo(
    accountSid: Sid, primaryGroup: Sid, groups: seq<Sid>,
    accountName: Option<string>, profile: Profile,
    userKey: Bytes, lmKey: Bytes)

  datatype SamBase = SamBase(
    domain: Sid, rid: U32, primaryGid: U32, rids: seq<(U32, U32)>,
    userFlags: U32, accountName: Option<string>, profile: Profile,
    key: Bytes, lmKey: Bytes)

  datatype SamInfo3 = SamInfo3(base: SamBase, sids: seq<(Sid, U32)>)

  const GROUP_ATTRIBUTES: U32 := 7              // mandatory, enabled by default, enabled
  const NETLOGON_EXTRA_SIDS: U32 := 0x20

  /** A key field of fixed size: the key if it fits, else zeros. */
  function KeyField(key: Bytes, size: nat): Bytes {
    if |key| == size then key else Zeros(size)
  }

  /** The key that a field stands for: none if it is all zeros. */
  function KeyOf(field: Bytes): Bytes {
    if forall b :: b in field ==> b == 0 then [] else field
  }

  // The two halves of a group list

  function Inside(domain: Sid, groups: seq<Sid>): seq<Sid> {
    if groups == [] then []
    else
      var k := |groups| - 1;
      Inside(domain, groups[..k]) + if InDomain(domain, groups[k]) then [groups[k]] else []
  }

  function Outside(domain: Sid, groups: seq<Sid>): seq<Sid> {
    if groups == [] then []
    else
      var k := |groups| - 1;
      Outside(domain, groups[..k]) + if InDomain(domain, groups[k]) then [] else [groups[k]]
  }

  function RidOf(sid: Sid): U32 {
    if sid.subs == [] then 0 else LastSub(sid)
  }

  function Rids(sids: seq<Sid>): seq<(U32, U32)> {
    seq(|sids|, i requires 0 <= i < |sids| => (RidOf(sids[i]), GROUP_ATTRIBUTES))
  }

  function WithAttributes(sids: seq<Sid>): seq<(Sid, U32)> {
    seq(|sids|, i requires 0 <= i < |sids| => (sids[i], GROUP_ATTRIBUTES))
  }

  /** The base part of the reply: the groups of the account's own domain, by relative id. */
  function ToSamBase(info: ServerInfo): SamBase
    requires info.accountSid.subs != [] && info.primaryGroup.subs != []
  {
    var domain := DomainOf(info.accountSid);
    SamBase(domain, LastSub(info.accountSid), LastSub(info.primaryGroup), Rids(Inside(domain, info.groups)), 0,
            info.accountName, info.profile, KeyField(info.userKey, 16), KeyField(info.lmKey, 8))
  }

  /** The whole reply: the groups of other domains follow as SIDs. */
  function ToSamInfo3(info: ServerInfo): SamInfo3
    requires info.accountSid.subs != [] && info.primaryGroup.subs != []
  {
    var extra := Outside(DomainOf(info.accountSid), info.groups);
    SamInfo3(ToSamBase(info).(userFlags := if extra == [] then 0 else NETLOGON_EXTRA_SIDS), WithAttributes(extra))
  }

  /** What the conversion reads: a last sub-authority of the account, its primary group and the groups
      of its domain. */
  predicate Convertible(info: ServerInfo) {
    && info.accountSid.subs != [] && info.primaryGroup.subs != []
    && forall g :: g in info.groups && InDomain(DomainOf(info.accountSid), g) ==> g.subs != []
  }

  /** auth_convert_server_info_sambaseinfo: fills an array of relative ids. */
  method ConvertSamBase(info: ServerInfo) returns (base: SamBase)
    requires Convertible(info)
    ensures base == ToSamBase(info)
  {
    var domain := DomainOf(info.accountSid);
    var rids := new (U32, U32)[|info.groups|](_ => (0, 0));
    var count := 0;
    for i := 0 to |info.groups|
      invariant 0 <= count <= i
      invariant rids[..count] == Rids(Inside(domain, info.groups[..i]))
    {
      var g := info.groups[i];
      assert info.groups[..i + 1][..i] == info.groups[..i];
      if InDomain(domain, g) {
        RidsSnoc(Inside(domain, info.groups[..i]), g);
        rids[count] := (LastSub(g), GROUP_ATTRIBUTES);
        count := count + 1;
        assert rids[..count] == rids[..count - 1] + [(LastSub(g), GROUP_ATTRIBUTES)];
      }
    }
    assert info.groups[..|info.groups|] == info.groups;
    base := SamBase(domain, LastSub(info.accountSid), LastSub(info.primaryGroup), rids[..count], 0,
                    info.accountName, info.profile, KeyField(info.userKey, 16), KeyField(info.lmKey, 8));
  }

  lemma RidsSnoc(sids: seq<Sid>, g: Sid)
    ensures Rids(sids + [g]) == Rids(sids) + [(RidOf(g), GROUP_ATTRIBUTES)]
  {
  }

  lemma WithAttributesSnoc(sids: seq<Sid>, g: Sid)
    ensures WithAttributes(sids + [g]) == WithAttributes(sids) + [(g, GROUP_ATTRIBUTES)]
  {
  }

  /** The array of extra SIDs, with one slot per group and filled from the front. */
  method ExtraSids(domain: Sid, groups: seq<Sid>) returns (extra: seq<(Sid, U32)>)
    ensures extra == WithAttributes(Outside(domain, groups))
  {
    var sids := new (Sid, U32)[|groups|](_ => (domain, 0));
    var count := 0;
    for i := 0 to |groups|
      invariant 0 <= count <= i
      invariant sids[..count] == WithAttributes(Outside(domain, groups[..i]))
    {
      var g := groups[i];
      assert groups[..i + 1][..i] == groups[..i];
      if !InDomain(domain, g) {
        WithAttributesSnoc(Outside(domain, groups[..i]), g);
        sids[count] := (g, GROUP_ATTRIBUTES);
        count := count + 1;
        assert sids[..count] == sids[..count - 1] + [(g, GROUP_ATTRIBUTES)];
      }
    }
    assert groups[..|groups|] == groups;
    extra := sids[..count];
  }

  /** auth_convert_server_info_saminfo3. */
  method ConvertSamInfo3(info: ServerInfo) returns (sam: SamInfo3)
    requires Convertible(info)
    ensures sam == ToSamInfo3(info)
  {
    var base := ConvertSamBase(info);
    var extra := ExtraSids(base.domain, info.groups);
    assert |extra| == |Outside(base.domain, info.groups)|;
    if |extra| > 0 {
      base := base.(userFlags := NETLOGON_EXTRA_SIDS);
    }
    sam := SamInfo3(base, extra);
  }

  function Rebuilt(domain: Sid, rids: seq<(U32, U32)>): seq<Sid> {
    seq(|rids|, i requires 0 <= i < |rids| => AddRid(domain, rids[i].0))
  }

  function Sids(sids: seq<(Sid, U32)>): seq<Sid> {
    seq(|sids|, i requires 0 <= i < |sids| => sids[i].0)
  }

  function FromSamInfo3(sam: SamInfo3, accountName: string): ServerInfo {
    var base := sam.base;
    ServerInfo(AddRid(base.domain, base.rid), AddRid(base.domain, base.primaryGid),
               Rebuilt(base.domain, base.rids) + Sids(sam.sids),
               if base.accountName.Some? then base.accountName else Some(accountName),
               base.profile, KeyOf(base.key), KeyOf(base.lmKey))
  }

  /** make_server_info_netlogon_validation at level 3: the array is built, then extended. */
  method MakeServerInfo(sam: SamInfo3, accountName: string) returns (info: ServerInfo)
    ensures info == FromSamInfo3(sam, accountName)
  {
    var base := sam.base;
    var account := AddRid(base.domain, base.rid);
    var groups := new Sid[|base.rids|](_ => account);
    for i := 0 to |base.rids|
      invariant groups[..i] == Rebuilt(base.domain, base.rids[..i])
    {
      groups[i] := AddRid(base.domain, base.rids[i].0);
      assert groups[..i + 1] == groups[..i] + [groups[i]];
    }
    assert base.rids[..|base.rids|] == base.rids;
    var n := |base.rids|;
    var all := new Sid[n + |sam.sids|](_ => account);
    forall k | 0 <= k < n {
      all[k] := groups[k];
    }
    assert all[..n] == groups[..n];
    for i := 0 to |sam.sids|
      invariant all[..n + i] == Rebuilt(base.domain, base.rids) + Sids(sam.sids[..i])
    {
      all[n + i] := sam.sids[i].0;
      assert all[..n + i + 1] == all[..n + i] + [sam.sids[i].0];
    }
    assert sam.sids[..|sam.sids|] == sam.sids;
    info := ServerInfo(account, AddRid(base.domain, base.primaryGid), all[..],
                       if base.accountName.Some? then base.accountName else Some(accountName),
                       base.profile, KeyOf(base.key), KeyOf(base.lmKey));
  }

  // The round trip

  /** The groups are only split: every one goes to exactly one half, in order. */
  lemma {:induction false} SplitConserves(domain: Sid, groups: seq<Sid>)
    ensures multiset(Inside(domain, groups)) + multiset(Outside(domain, groups)) == multiset(groups)
    ensures |Inside(domain, groups)| + |Outside(domain, groups)| == |groups|
    ensures forall g :: g in Inside(domain, groups) ==> InDomain(domain, g) && g in groups
    ensures forall g :: g in Outside(domain, groups) ==> !InDomain(domain, g) && g in groups
    ensures forall g :: g in groups && InDomain(domain, g) ==> g in Inside(domain, groups)
  {
    if groups != [] {
      var k := |groups| - 1;
      assert groups == groups[..k] + [groups[k]];
      SplitConserves(domain, groups[..k]);
    }
  }

  /** A group that the relative id and the domain determine. */
  predicate DirectMember(domain: Sid, g: Sid) {
    InDomain(domain, g) ==> |g.subs| == |domain.subs| + 1
  }

  lemma RebuildMember(domain: Sid, g: Sid)
    requires InDomain(domain, g)
    ensures AddRid(domain, RidOf(g)) == g <==> DirectMember(domain, g)
  {
  }

  lemma RebuildAll(domain: Sid, inside: seq<Sid>)
    requires forall g :: g in inside ==> InDomain(domain, g) && DirectMember(domain, g)
    ensures Rebuilt(domain, Rids(inside)) == inside
  {
    forall i | 0 <= i < |inside|
      ensures AddRid(domain, RidOf(inside[i])) == inside[i]
    {
      assert inside[i] in inside;
      RebuildMember(domain, inside[i]);
    }
  }

  /** Converting and rebuilding preserves the group SIDs, as a multiset, exactly when every group of the
      account's domain has one more sub-authority than the domain; then the result is the in-domain
      groups followed by the others, each in their old order. */
  lemma GroupsRoundTrip(info: ServerInfo, name: string)
    requires Convertible(info)
    ensures var domain := DomainOf(info.accountSid);
            var groups := FromSamInfo3(ToSamInfo3(info), name).groups;
            var direct := forall g :: g in info.groups ==> DirectMember(domain, g);
            && |groups| == |info.groups|
            && |ToSamInfo3(info).base.rids| + |ToSamInfo3(info).sids| == |info.groups|
            && (multiset(groups) == multiset(info.groups) <==> direct)
            && (direct ==> groups == Inside(domain, info.groups) + Outside(domain, info.groups))
  {
    var domain := DomainOf(info.accountSid);
    var inside, outside := Inside(domain, info.groups), Outside(domain, info.groups);
    var groups := FromSamInfo3(ToSamInfo3(info), name).groups;
    assert Sids(WithAttributes(outside)) == outside;
    assert groups == Rebuilt(domain, Rids(inside)) + outside;
    SplitConserves(domain, info.groups);
    if forall g :: g in info.groups ==> DirectMember(domain, g) {
      RebuildAll(domain, inside);
    } else {
      var g :| g in info.groups && !DirectMember(domain, g);
      Lost(domain, inside, outside, g);
      assert g in multiset(info.groups) && g !in multiset(groups);
    }
  }

  /** A group deeper in the domain does not come back. */
  lemma Lost(domain: Sid, inside: seq<Sid>, outside: seq<Sid>, g: Sid)
    requires InDomain(domain, g) && !DirectMember(domain, g)
    requires forall o :: o in outside ==> !InDomain(domain, o)
    ensures g !in Rebuilt(domain, Rids(inside)) + outside
  {
  }

  lemma KeyRoundTrip(key: Bytes, size: nat)
    requires size > 0
    ensures KeyOf(KeyField(key, size)) == key <==>
            key == [] || (|key| == size && exists b :: b in key && b != 0)
  {
  }

  /** The other fields: the account always comes back; the primary group does exactly when it is in the
      account's domain, one level down; a session key does exactly when it is absent, or has the right
      size and is not all zeros; and everything else is carried over. */
  lemma AccountRoundTrip(info: ServerInfo, name: string)
    requires Convertible(info)
    ensures var domain := DomainOf(info.accountSid);
            var back := FromSamInfo3(ToSamInfo3(info), name);
            && back.accountSid == info.accountSid
            && (back.primaryGroup == info.primaryGroup <==> DomainOf(info.primaryGroup) == domain)
            && (back.userKey == info.userKey <==>
                  info.userKey == [] || (|info.userKey| == 16 && exists b :: b in info.userKey && b != 0))
            && (back.lmKey == info.lmKey <==>
                  info.lmKey == [] || (|info.lmKey| == 8 && exists b :: b in info.lmKey && b != 0))
            && back.profile == info.profile
            && back.accountName == if info.accountName.None? then Some(name) else info.accountName
  {
  }
}
