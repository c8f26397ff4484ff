/** NTLM responses: the client's computation, the server's check, and their agreement. The hashes and
    message authentication codes are parameters, with the sizes that sections 3.3.1 and 3.3.2 of
    [MS-NLMP] give them; nothing else about them is used. */
module Ntlm {
  import opened Text
  import opened Octets

  datatype Crypto = Crypto(
    owf: (Bytes, Bytes) -> Bytes,                    // SMBOWFencrypt: hash, challenge
    keyV1: Bytes -> Bytes,                           // SMBsesskeygen_ntv1
    hmacName: (Bytes, string, string) -> Option<Bytes>, // the keyed hash of user and domain, or a conversion failure
    mac: (Bytes, Bytes, Bytes) -> Bytes,             // SMBOWFencrypt_ntv2: key, challenge, client data
    keyV2: (Bytes, Bytes) -> Bytes,                  // SMBsesskeygen_ntv2
    hmac: (Bytes, Bytes) -> Bytes,                   // hmac_md5
    md4: Bytes -> Bytes,
    md5: Bytes -> Bytes,
    lmHash: string -> (Bytes, bool),                 // E_deshash, and whether the password was short enough
    dosText: Bytes -> Option<string>,                // a password in the DOS code page
    upper: string -> string)

  ghost predicate Lawful(c: Crypto) {
    && (forall h, x :: |c.owf(h, x)| == 24)
    && (forall h :: |c.keyV1(h)| == 16)
    && (forall k, x, y :: |c.mac(k, x, y)| == 16)
    && (forall k, x :: |c.keyV2(k, x)| == 16)
    && (forall p :: |c.lmHash(p).0| == 16)
    && (forall s :: c.upper(c.upper(s)) == c.upper(s))
  }

  // Server

  datatype Status = Ok | WrongPassword | NotFound

  /** What the server knows and is given. */
  datatype Logon = Logon(
    cleartext: bool,          // MSV1_0_CLEARTEXT_PASSWORD_ALLOWED
    challenge: Bytes,
    lm: Bytes, nt: Bytes,     // the responses
    username: string, clientUser: string, clientDomain: string,
    storedLm: Option<Bytes>, storedNt: Option<Bytes>)

  datatype Policy = Policy(lanman: bool, ntlm: bool)

  predicate WellSized(l: Logon) {
    && (l.storedLm.Some? ==> |l.storedLm.value| == 16)
    && (l.storedNt.Some? ==> |l.storedNt.value| == 16)
  }

  /** smb_pwd_check_ntlmv1. */
  predicate CheckV1(c: Crypto, response: Bytes, hash: Bytes, challenge: Bytes) {
    |challenge| == 8 && |response| == 24 && c.owf(hash, challenge) == response
  }

  /** ntv2_owf_gen. */
  function OwfV2(c: Crypto, hash: Bytes, user: string, domain: string, upper: bool): Option<Bytes> {
    c.hmacName(hash, c.upper(user), if upper then c.upper(domain) else domain)
  }

  /** smb_sess_key_ntlmv2: the session key a response implies, matching or not. */
  function KeyV2Of(c: Crypto, response: Bytes, hash: Bytes, challenge: Bytes, user: string, domain: string, upper: bool)
    : Option<Bytes>
  {
    if |challenge| != 8 || |response| < 24 then None
    else
      match OwfV2(c, hash, user, domain, upper)
      case None => None
      case Some(kr) => Some(c.keyV2(kr, c.mac(kr, challenge, response[16..])))
  }

  /** smb_pwd_check_ntlmv2: the session key if the response matches. */
  function CheckV2(c: Crypto, response: Bytes, hash: Bytes, challenge: Bytes, user: string, domain: string, upper: bool)
    : Option<Bytes>
  {
    if |challenge| != 8 || |response| < 24 then None
    else
      match OwfV2(c, hash, user, domain, upper)
      case None => None
      case Some(kr) =>
        var v := c.mac(kr, challenge, response[16..]);
        if v == response[..16] then Some(c.keyV2(kr, v)) else None
  }

  /** hash_password_check. */
  function HashCheck(p: Policy, clientLm: Option<Bytes>, clientNt: Option<Bytes>, username: string,
                     storedLm: Option<Bytes>, storedNt: Option<Bytes>): Status
  {
    if clientNt.Some? && storedNt.Some? then
      if clientNt == storedNt then Ok else WrongPassword
    else if clientLm.Some? && storedLm.Some? then
      if !p.lanman then WrongPassword
      else if '@' in username then NotFound
      else if clientLm == storedLm then Ok else WrongPassword
    else if '@' in username then NotFound
    else WrongPassword
  }

  predicate IsCleartext(l: Logon) {
    l.cleartext && l.challenge == Zeros(8)
  }

  function CleartextCheck(c: Crypto, p: Policy, l: Logon): Status {
    var unixPw := if l.lm == [] then None else c.dosText(l.lm);
    var clientLm := if unixPw.Some? && c.lmHash(unixPw.value).1 then Some(c.lmHash(unixPw.value).0) else None;
    HashCheck(p, clientLm, if l.nt == [] then None else Some(c.md4(l.nt)), l.username, l.storedLm, l.storedNt)
  }

  /** Which kind of response was accepted. */
  datatype Path = V2Response | V1Response | LmResponse | NtInLmField

  datatype Verdict =
    | Accept(path: Path, userKey: Bytes, lmKey: Bytes)
    | Reject(status: Status)
    | Pass                    // this rule has nothing to say

  function AcceptV2(key: Bytes): Verdict {
    Accept(V2Response, key, if |key| > 8 then key[..8] else key)
  }

  /** The keys of a logon through the LM hash: none unless LM authentication is on. */
  function LmKeys(p: Policy, l: Logon, path: Path): Verdict {
    if p.lanman && l.storedLm.Some? && |l.storedLm.value| >= 8
    then Accept(path, l.storedLm.value[..8] + Zeros(8), l.storedLm.value[..8])
    else Accept(path, [], [])
  }

  /** An LMv2 response; the key comes from the NTLMv2 response if there was one, matching or not. */
  function LmV2Rule(c: Crypto, l: Logon, hash: Bytes, domain: string, upper: bool): Verdict {
    match CheckV2(c, l.lm, hash, l.challenge, l.clientUser, domain, upper)
    case None => Pass
    case Some(k) =>
      if |l.nt| <= 24 then AcceptV2(k)
      else
        match KeyV2Of(c, l.nt, hash, l.challenge, l.clientUser, domain, upper)
        case None => AcceptV2([])
        case Some(k') => AcceptV2(k')
  }

  function NtV2Rule(c: Crypto, l: Logon, domain: string, upper: bool): Verdict {
    if |l.nt| > 24 && l.storedNt.Some? then
      match CheckV2(c, l.nt, l.storedNt.value, l.challenge, l.clientUser, domain, upper)
      case None => Pass
      case Some(k) => AcceptV2(k)
    else Pass
  }

  function NtV1Rule(c: Crypto, p: Policy, l: Logon): Verdict {
    if |l.nt| == 24 && l.storedNt.Some? && p.ntlm then
      if CheckV1(c, l.nt, l.storedNt.value, l.challenge)
      then Accept(V1Response, c.keyV1(l.storedNt.value),
                  if p.lanman && l.storedLm.Some? && |l.storedLm.value| >= 8 then l.storedLm.value[..8] else [])
      else Reject(WrongPassword)
    else Pass
  }

  function LmRule(c: Crypto, p: Policy, l: Logon): Verdict {
    if p.lanman && l.storedLm.Some? && '@' !in l.username && CheckV1(c, l.lm, l.storedLm.value, l.challenge)
    then LmKeys(p, l, LmResponse) else Pass
  }

  function NtInLmRule(c: Crypto, p: Policy, l: Logon, hash: Bytes): Verdict {
    if p.ntlm && CheckV1(c, l.lm, hash, l.challenge) then LmKeys(p, l, NtInLmField) else Pass
  }

  /** The first of two rules that has something to say. */
  function Or(first: Verdict, second: Verdict): Verdict {
    if first.Pass? then second else first
  }

  /** The rules of ntlm_password_check for a challenge response, in order of precedence. */
  function Decide(c: Crypto, p: Policy, l: Logon): Verdict {
    Or(NtRules(c, p, l), LmRules(c, p, l))
  }

  /** The rules for the LM response. */
  function LmRules(c: Crypto, p: Policy, l: Logon): Verdict {
    Or(if |l.lm| < 24 then Reject(WrongPassword) else Pass,
    Or(LmRule(c, p, l),
       match l.storedNt
       case None => Reject(WrongPassword)
       case Some(hash) =>
         Or(LmV2Rule(c, l, hash, l.clientDomain, false),
         Or(LmV2Rule(c, l, hash, l.clientDomain, true),
         Or(LmV2Rule(c, l, hash, [], false),
         Or(NtInLmRule(c, p, l, hash),
            Reject(if '@' in l.username then NotFound else WrongPassword)))))))
  }

  /** The rules for the NT response. */
  function NtRules(c: Crypto, p: Policy, l: Logon): Verdict {
    Or(NtV2Rule(c, l, l.clientDomain, false),
    Or(NtV2Rule(c, l, l.clientDomain, true),
    Or(NtV2Rule(c, l, [], false),
       NtV1Rule(c, p, l))))
  }

  /** ntlm_password_check as a whole. */
  function PasswordCheck(c: Crypto, p: Policy, l: Logon): (Status, Bytes, Bytes) {
    if IsCleartext(l) then (CleartextCheck(c, p, l), [], []) else Outcome(Decide(c, p, l))
  }

  function Outcome(v: Verdict): (Status, Bytes, Bytes) {
    match v
    case Accept(_, userKey, lmKey) => (Ok, userKey, lmKey)
    case Reject(status) => (status, [], [])
    case Pass => (WrongPassword, [], [])
  }

  /** The cascade of ntlm_password_check, writing its two keys as it goes. */
  method NtlmPasswordCheck(c: Crypto, p: Policy, l: Logon) returns (status: Status, userKey: Bytes, lmKey: Bytes)
    requires Lawful(c) && WellSized(l)
    ensures (status, userKey, lmKey) == PasswordCheck(c, p, l)
  {
    userKey, lmKey := [], [];
    if IsCleartext(l) {
      return CleartextCheck(c, p, l), [], [];
    }
    if |l.nt| > 24 && l.storedNt.Some? {
      var key := CheckV2(c, l.nt, l.storedNt.value, l.challenge, l.clientUser, l.clientDomain, false);
      if key.None? {
        key := CheckV2(c, l.nt, l.storedNt.value, l.challenge, l.clientUser, l.clientDomain, true);
      }
      if key.None? {
        key := CheckV2(c, l.nt, l.storedNt.value, l.challenge, l.clientUser, [], false);
      }
      if key.Some? {
        userKey := key.value;
        lmKey := userKey[..8];
        return Ok, userKey, lmKey;
      }
    } else if |l.nt| == 24 && l.storedNt.Some? && p.ntlm {
      if !CheckV1(c, l.nt, l.storedNt.value, l.challenge) {
        return WrongPassword, [], [];
      }
      userKey := c.keyV1(l.storedNt.value);
      if p.lanman && l.storedLm.Some? {
        lmKey := l.storedLm.value[..8];
      }
      return Ok, userKey, lmKey;
    }
    status, userKey, lmKey := CheckLmField(c, p, l);
  }

  /** The part of the cascade that deals with the LM response. */
  method CheckLmField(c: Crypto, p: Policy, l: Logon) returns (status: Status, userKey: Bytes, lmKey: Bytes)
    requires Lawful(c) && WellSized(l)
    ensures (status, userKey, lmKey) == Outcome(LmRules(c, p, l))
  {
    userKey, lmKey := [], [];
    if |l.lm| < 24 {
      return WrongPassword, [], [];
    }
    if p.lanman && l.storedLm.Some? && '@' !in l.username {
      if CheckV1(c, l.lm, l.storedLm.value, l.challenge) {
        userKey := l.storedLm.value[..8] + Zeros(8);
        lmKey := l.storedLm.value[..8];
        return Ok, userKey, lmKey;
      }
    }
    if l.storedNt.None? {
      return WrongPassword, [], [];
    }
    var ok;
    ok, userKey, lmKey := LmV2(c, l, l.clientDomain, false);
    if !ok {
      ok, userKey, lmKey := LmV2(c, l, l.clientDomain, true);
    }
    if !ok {
      ok, userKey, lmKey := LmV2(c, l, [], false);
    }
    if ok {
      return Ok, userKey, lmKey;
    }
    if p.ntlm && CheckV1(c, l.lm, l.storedNt.value, l.challenge) {
      if p.lanman && l.storedLm.Some? {
        userKey := l.storedLm.value[..8] + Zeros(8);
        lmKey := l.storedLm.value[..8];
      }
      return Ok, userKey, lmKey;
    }
    status := if '@' in l.username then NotFound else WrongPassword;
  }

  /** One of the three LMv2 blocks of the cascade. */
  method LmV2(c: Crypto, l: Logon, domain: string, upper: bool) returns (ok: bool, userKey: Bytes, lmKey: Bytes)
    requires Lawful(c) && l.storedNt.Some?
    ensures var v := LmV2Rule(c, l, l.storedNt.value, domain, upper);
            if ok then v == Accept(V2Response, userKey, lmKey) else v.Pass? && userKey == [] && lmKey == []
  {
    ok, userKey, lmKey := false, [], [];
    var key := CheckV2(c, l.lm, l.storedNt.value, l.challenge, l.clientUser, domain, upper);
    if key.Some? {
      ok := true;
      if |l.nt| > 24 {
        var other := KeyV2Of(c, l.nt, l.storedNt.value, l.challenge, l.clientUser, domain, upper);
        if other.Some? {
          userKey := other.value;
        }
      } else {
        userKey := key.value;
      }
      lmKey := userKey;
      if userKey != [] {
        lmKey := userKey[..8];
      }
    }
  }

  // What the server's check guarantees

  predicate KeySizes(v: Verdict) {
    v.Accept? ==>
      && (|v.userKey| == 0 || |v.userKey| == 16)
      && (|v.lmKey| == 0 || |v.lmKey| == 8)
      && (v.path.V2Response? ==> |v.userKey| == 16 && v.lmKey == v.userKey[..8])
      && (v.path.V1Response? ==> |v.userKey| == 16)
      && (v.path.LmResponse? || v.path.NtInLmField? ==> |v.userKey| == 2 * |v.lmKey|)
  }

  /** The session keys of an LMv2 logon never come out empty. */
  lemma LmV2Sizes(c: Crypto, l: Logon, hash: Bytes, domain: string, upper: bool)
    requires Lawful(c)
    ensures KeySizes(LmV2Rule(c, l, hash, domain, upper))
  {
  }

  lemma NtSizes(c: Crypto, p: Policy, l: Logon)
    requires Lawful(c) && WellSized(l)
    ensures KeySizes(NtRules(c, p, l))
  {
  }

  lemma LmSizes(c: Crypto, p: Policy, l: Logon, hash: Bytes)
    requires WellSized(l)
    ensures KeySizes(LmRule(c, p, l)) && KeySizes(NtInLmRule(c, p, l, hash))
  {
  }

  /** Key discipline: a rejected run leaves both keys empty; an accepted one has a user key of 0 or 16
      bytes and an LM key of 0 or 8, which on every v2 path is the start of a full user key. */
  lemma KeyDiscipline(c: Crypto, p: Policy, l: Logon)
    requires Lawful(c) && WellSized(l)
    ensures KeySizes(Decide(c, p, l)) && !Decide(c, p, l).Pass?
    ensures var (status, userKey, lmKey) := PasswordCheck(c, p, l);
            && (status != Ok ==> userKey == [] && lmKey == [])
            && (|userKey| == 0 || |userKey| == 16) && (|lmKey| == 0 || |lmKey| == 8)
  {
    NtSizes(c, p, l);
    LmSizes(c, p, l, []);
    if l.storedNt.Some? {
      var h := l.storedNt.value;
      LmSizes(c, p, l, h);
      LmV2Sizes(c, l, h, l.clientDomain, false);
      LmV2Sizes(c, l, h, l.clientDomain, true);
      LmV2Sizes(c, l, h, [], false);
    }
  }

  /** With LM authentication off, the stored LM hash makes no difference to acceptance or keys; for a
      challenge response it makes none at all. */
  lemma LmHashIrrelevant(c: Crypto, p: Policy, l: Logon, otherLm: Option<Bytes>)
    requires !p.lanman
    ensures var (status, userKey, lmKey) := PasswordCheck(c, p, l);
            var (status', userKey', lmKey') := PasswordCheck(c, p, l.(storedLm := otherLm));
            && (status == Ok <==> status' == Ok)
            && userKey == userKey' && lmKey == lmKey'
            && (!IsCleartext(l) ==> status == status')
  {
    var l' := l.(storedLm := otherLm);
    assert NtRules(c, p, l) == NtRules(c, p, l');
    if l.storedNt.Some? {
      var h := l.storedNt.value;
      assert LmV2Rule(c, l, h, l.clientDomain, false) == LmV2Rule(c, l', h, l.clientDomain, false);
      assert LmV2Rule(c, l, h, l.clientDomain, true) == LmV2Rule(c, l', h, l.clientDomain, true);
      assert LmV2Rule(c, l, h, [], false) == LmV2Rule(c, l', h, [], false);
      assert NtInLmRule(c, p, l, h) == NtInLmRule(c, p, l', h);
    }
  }

  // Client

  datatype Creds = Creds(
    user: string, domain: string, principal: string,
    principalWins: bool,              // the principal was obtained at a higher level than the user name
    ntHash: Option<Bytes>, password: Option<string>,
    machineAccount: bool, mustUseKerberos: bool)

  datatype Flags = Flags(ntlm2: bool, ntlmv2: bool, lanman: bool, ntlm: bool)

  /** What the client draws at random or reads off the clock. */
  datatype Fresh = Fresh(nonce: Bytes, ntBlob: Bytes -> Bytes, lmBlob: Bytes)

  ghost predicate FreshSized(f: Fresh) {
    && |f.nonce| == 8 && |f.lmBlob| == 8
    && forall target :: |f.ntBlob(target)| >= 28 + |target|
  }

  datatype ClientStatus = Sent | AccessDenied | InvalidParameter | NoMemory

  datatype Reply = Reply(lm: Bytes, nt: Bytes, lmKey: Bytes, key: Bytes)

  /** cli_credentials_get_ntlm_username_domain. */
  function NtlmName(cr: Creds): (string, string) {
    if cr.principalWins then (cr.principal, []) else (cr.user, cr.domain)
  }

  /** SMBNTLMv2encrypt_hash. */
  function ReplyV2(c: Crypto, cr: Creds, hash: Bytes, challenge: Bytes, target: Bytes, f: Fresh): Option<Reply> {
    var (user, domain) := NtlmName(cr);
    match OwfV2(c, hash, user, domain, true)
    case None => None
    case Some(kr) =>
      var nt := c.mac(kr, challenge, f.ntBlob(target)) + f.ntBlob(target);
      var lm := c.mac(kr, challenge, f.lmBlob) + f.lmBlob;
      Some(Reply(lm, nt, [], c.keyV2(kr, if |nt| >= 16 then nt[..16] else nt)))
  }

  function ReplyNtlm2(c: Crypto, hash: Bytes, challenge: Bytes, f: Fresh): Reply
    requires |challenge| == 8
  {
    Reply(f.nonce + Zeros(16), c.owf(hash, SessionChallenge(c, challenge, f)), [],
          c.hmac(c.keyV1(hash), challenge + f.nonce))
  }

  /** The challenge both sides use once the client has sent its nonce. */
  function SessionChallenge(c: Crypto, challenge: Bytes, f: Fresh): Bytes {
    var h := c.md5(challenge + f.nonce);
    if |h| > 8 then h[..8] else h
  }

  /** The first 8 bytes of the LM hash, padded. */
  function LmKeyOf(c: Crypto, password: string): Bytes {
    var h := c.lmHash(password).0;
    (if |h| > 8 then h[..8] else h) + Zeros(8)
  }

  /** The LM hash of the password goes into the reply. */
  predicate SendsLm(c: Crypto, cr: Creds, fl: Flags) {
    fl.lanman && cr.password.Some? && c.lmHash(cr.password.value).1
  }

  function ReplyV1(c: Crypto, cr: Creds, hash: Bytes, fl: Flags, challenge: Bytes): Reply {
    var nt := c.owf(hash, challenge);
    var lmKey := if cr.password.Some? && (!fl.lanman || SendsLm(c, cr, fl)) then LmKeyOf(c, cr.password.value) else [];
    Reply(if SendsLm(c, cr, fl) then c.owf(c.lmHash(cr.password.value).0, challenge) else nt, nt, lmKey,
          if SendsLm(c, cr, fl) && !fl.ntlm then lmKey else c.keyV1(hash))
  }

  /** The flags left after the restrictions on who may send LM responses. */
  function Restrict(cr: Creds, fl: Flags): Flags {
    if cr.principalWins || cr.machineAccount then fl.(lanman := false) else fl
  }

  /** cli_credentials_get_ntlm_response. */
  method GetNtlmResponse(c: Crypto, cr: Creds, flags: Flags, challenge: Bytes, target: Bytes, f: Fresh)
    returns (status: ClientStatus, flags': Flags, reply: Reply)
    requires |challenge| == 8
    ensures var fl := Restrict(cr, flags);
            if cr.mustUseKerberos then status == AccessDenied && flags' == fl
            else match cr.ntHash
              case None =>
                status == Sent && flags' == fl.(ntlm2 := false) && reply == Reply([], [], Zeros(16), Zeros(16))
              case Some(hash) =>
                if fl.ntlmv2 && target == [] then status == InvalidParameter && flags' == fl
                else if fl.ntlmv2 then
                  match ReplyV2(c, cr, hash, challenge, target, f)
                  case None => status == NoMemory && flags' == fl
                  case Some(r) => status == Sent && flags' == fl.(lanman := false) && reply == r
                else if fl.ntlm2 then
                  status == Sent && flags' == fl.(lanman := false) && reply == ReplyNtlm2(c, hash, challenge, f)
                else
                  && status == Sent && reply == ReplyV1(c, cr, hash, fl, challenge)
                  && flags' == fl.(lanman := fl.lanman && (cr.password.None? || SendsLm(c, cr, fl)))
  {
    var lm, nt, lmKey, key: Bytes := [], [], [], [];
    flags', reply := flags, Reply([], [], [], []);
    if cr.principalWins {
      flags' := flags'.(lanman := false);
    }
    if cr.machineAccount {
      flags' := flags'.(lanman := false);
    }
    if cr.mustUseKerberos {
      return AccessDenied, flags', reply;
    }
    if cr.ntHash.None? {
      key, lmKey := Zeros(16), Zeros(16);
      flags' := flags'.(ntlm2 := false);
    } else if flags'.ntlmv2 {
      if target == [] {
        return InvalidParameter, flags', reply;
      }
      var r := ReplyV2(c, cr, cr.ntHash.value, challenge, target, f);
      if r.None? {
        return NoMemory, flags', reply;
      }
      lm, nt, key := r.value.lm, r.value.nt, r.value.key;
      flags' := flags'.(lanman := false);
    } else if flags'.ntlm2 {
      lm := f.nonce + Zeros(16);
      nt := c.owf(cr.ntHash.value, SessionChallenge(c, challenge, f));
      key := c.hmac(c.keyV1(cr.ntHash.value), challenge + f.nonce);
      flags' := flags'.(lanman := false);
    } else {
      nt := c.owf(cr.ntHash.value, challenge);
      key := c.keyV1(cr.ntHash.value);
      if flags'.lanman {
        if cr.password.None? {
          lm := nt;
        } else {
          var h := c.lmHash(cr.password.value);
          if !h.1 {
            lm := nt;
            flags' := flags'.(lanman := false);
          } else {
            lm := c.owf(h.0, challenge);
            lmKey := LmKeyOf(c, cr.password.value);
            if !flags'.ntlm {
              key := lmKey;
            }
          }
        }
      } else {
        lm := nt;
        if cr.password.Some? {
          lmKey := LmKeyOf(c, cr.password.value);
        }
      }
    }
    status, reply := Sent, Reply(lm, nt, lmKey, key);
  }

  // Agreement

  /** The server is given the client's reply and knows the client's hash and name. */
  predicate Meets(cr: Creds, r: Reply, challenge: Bytes, l: Logon) {
    && l.storedNt == cr.ntHash && cr.ntHash.Some?
    && l.nt == r.nt && l.lm == r.lm && l.challenge == challenge && |challenge| == 8
    && l.clientUser == NtlmName(cr).0
    && !IsCleartext(l)
  }

  /** NTLMv2: the server accepts the client's reply whenever it has the domain up to case. The session
      keys are equal, except when the response happens also to match under the domain as spelled. */
  lemma AgreementV2(c: Crypto, p: Policy, cr: Creds, challenge: Bytes, target: Bytes, f: Fresh, l: Logon)
    requires Lawful(c) && FreshSized(f) && cr.ntHash.Some?
    requires ReplyV2(c, cr, cr.ntHash.value, challenge, target, f).Some?
    requires Meets(cr, ReplyV2(c, cr, cr.ntHash.value, challenge, target, f).value, challenge, l)
    requires c.upper(l.clientDomain) == c.upper(NtlmName(cr).1)
    ensures var r := ReplyV2(c, cr, cr.ntHash.value, challenge, target, f).value;
            var (status, userKey, lmKey) := PasswordCheck(c, p, l);
            var asSpelled := CheckV2(c, l.nt, cr.ntHash.value, challenge, l.clientUser, l.clientDomain, false);
            && status == Ok
            && (userKey == r.key <==> asSpelled.None? || asSpelled == Some(r.key))
            && (l.clientDomain == c.upper(NtlmName(cr).1) ==> userKey == r.key && lmKey == r.key[..8])
  {
    var hash := cr.ntHash.value;
    var (user, domain) := NtlmName(cr);
    var r := ReplyV2(c, cr, hash, challenge, target, f).value;
    var kr := OwfV2(c, hash, user, domain, true).value;
    var blob := f.ntBlob(target);
    assert r.nt[..16] == c.mac(kr, challenge, blob) && r.nt[16..] == blob;
    assert CheckV2(c, l.nt, hash, challenge, user, l.clientDomain, true) == Some(r.key);
  }

  /** NTLMv1: the server that allows it accepts the client's reply; the user session keys are equal
      exactly when the client used the NT key or its LM key happens to be the same. */
  lemma AgreementV1(c: Crypto, p: Policy, cr: Creds, fl: Flags, challenge: Bytes, l: Logon)
    requires Lawful(c) && p.ntlm && cr.ntHash.Some?
    requires Meets(cr, ReplyV1(c, cr, cr.ntHash.value, fl, challenge), challenge, l)
    ensures var r := ReplyV1(c, cr, cr.ntHash.value, fl, challenge);
            var (status, userKey, _) := PasswordCheck(c, p, l);
            && status == Ok && userKey == c.keyV1(cr.ntHash.value)
            && (userKey == r.key <==>
                  fl.ntlm || !SendsLm(c, cr, fl) || LmKeyOf(c, cr.password.value) == c.keyV1(cr.ntHash.value))
  {
  }

  /** NTLM2 session response: accepted by a server that has switched to the session challenge, which
      then holds the NT key that the client's key is derived from. */
  lemma AgreementNtlm2(c: Crypto, p: Policy, cr: Creds, challenge: Bytes, f: Fresh, l: Logon)
    requires Lawful(c) && p.ntlm && cr.ntHash.Some? && |challenge| == 8
    requires Meets(cr, ReplyNtlm2(c, cr.ntHash.value, challenge, f), SessionChallenge(c, challenge, f), l)
    ensures var r := ReplyNtlm2(c, cr.ntHash.value, challenge, f);
            var (status, userKey, _) := PasswordCheck(c, p, l);
            status == Ok && r.key == c.hmac(userKey, challenge + f.nonce)
  {
  }

  /** LMv2: with the NT response withheld, the LM field of an NTLMv2 reply is accepted as well. */
  lemma AgreementLmV2(c: Crypto, p: Policy, cr: Creds, challenge: Bytes, target: Bytes, f: Fresh, l: Logon)
    requires Lawful(c) && FreshSized(f) && cr.ntHash.Some?
    requires ReplyV2(c, cr, cr.ntHash.value, challenge, target, f).Some?
    requires Meets(cr, ReplyV2(c, cr, cr.ntHash.value, challenge, target, f).value.(nt := []), challenge, l)
    requires c.upper(l.clientDomain) == c.upper(NtlmName(cr).1)
    ensures PasswordCheck(c, p, l).0 == Ok
  {
  }
}
