/** Leaving classes out of the result stream is invisible to the client. */
module WbemStream {
  import opened Text
  import opened Octets
  import opened Wbem

  // What a server sends

  /** One object, and whether its class is sent along. */
  datatype Item<Class, Inst> = Item(guid: Guid, cls: Class, inst: Inst, carry: bool)

  /** How classes and instances are laid out; the client's codec must undo it, whatever follows. */
  datatype Writer<!Class, !Inst> = Writer(full: (Class, Inst) -> Bytes, inst: (Class, Inst) -> Bytes)

  ghost predicate Undoes<Class(!new), Inst(!new)>(codec: Codec<Class, Inst>, w: Writer<Class, Inst>) {
    forall c: Class, i: Inst, rest: Bytes ::
      codec.full(w.full(c, i) + rest) == Some((c, i)) && codec.inst(Some(c), w.inst(c, i) + rest) == Some(i)
  }

  function Put32(n: nat): (r: Bytes)
    ensures |r| == 4
    ensures n < TWO32 ==> Le32(r) == n
  {
    [n % 0x100, n / 0x100 % 0x100, n / 0x1_0000 % 0x100, n / 0x100_0000 % 0x100]
  }

  function Payload<Class, Inst>(w: Writer<Class, Inst>, it: Item<Class, Inst>): Bytes {
    if it.carry then w.full(it.cls, it.inst) else w.inst(it.cls, it.inst)
  }

  /** The frame of an object: two nested headers, each with its length. */
  function Prefix<Class, Inst>(it: Item<Class, Inst>, size: nat): Bytes {
    Put32(0x9) + Put32(24 + size) + [if it.carry then 2 else 3] + Put32(0x18) + Put32(size) + it.guid
  }

  function EncodeObject<Class, Inst>(w: Writer<Class, Inst>, it: Item<Class, Inst>): Bytes {
    Prefix(it, |Payload(w, it)|) + Payload(w, it)
  }

  function EncodeObjects<Class, Inst>(w: Writer<Class, Inst>, items: seq<Item<Class, Inst>>): Bytes {
    if items == [] then [] else EncodeObject(w, items[0]) + EncodeObjects(w, items[1..])
  }

  function MessageHeader(size: nat, count: nat, minor: Byte): Bytes {
    Put32(0) + Put32(0x4D45_4257) + Put32(0x4154_4144) + Put32(0x1A) + Put32(20 + size) + Put32(0) + [1, minor] +
    Put32(0x8) + Put32(12 + size) + Put32(0xC) + Put32(size) + Put32(count)
  }

  function EncodeMessage<Class, Inst>(w: Writer<Class, Inst>, items: seq<Item<Class, Inst>>, minor: Byte): Bytes {
    MessageHeader(|EncodeObjects(w, items)|, |items|, minor) + EncodeObjects(w, items)
  }

  // The cache

  function Remember<Class, Inst>(cache: seq<(Guid, Class)>, it: Item<Class, Inst>): seq<(Guid, Class)> {
    if it.carry then [(it.guid, it.cls)] + cache else cache
  }

  function CacheAfter<Class, Inst>(cache: seq<(Guid, Class)>, items: seq<Item<Class, Inst>>): seq<(Guid, Class)>
    decreases |items|
  {
    if items == [] then cache else CacheAfter(Remember(cache, items[0]), items[1..])
  }

  /** Every class left out is the one the client remembers for that GUID. */
  predicate Known<Class(==), Inst>(cache: seq<(Guid, Class)>, items: seq<Item<Class, Inst>>)
    decreases |items|
  {
    items == [] ||
    ((items[0].carry || Find(cache, items[0].guid) == Some(items[0].cls)) &&
     Known(Remember(cache, items[0]), items[1..]))
  }

  /** Last write wins: the class found is that of the most recent object that carried one under the GUID. */
  lemma {:induction false} LastWriteWins<Class, Inst>(cache: seq<(Guid, Class)>, items: seq<Item<Class, Inst>>,
                                                      guid: Guid, k: int)
    requires -1 <= k < |items|
    requires k >= 0 ==> items[k].carry && items[k].guid == guid
    requires forall j :: k < j < |items| && items[j].carry ==> items[j].guid != guid
    decreases |items|
    ensures Find(CacheAfter(cache, items), guid) == if k >= 0 then Some(items[k].cls) else Find(cache, guid)
  {
    if items != [] {
      var cache' := Remember(cache, items[0]);
      if items[0].carry {
        assert cache'[1..] == cache;
      }
      if k > 0 {
        LastWriteWins(cache', items[1..], guid, k - 1);
      } else {
        LastWriteWins(cache', items[1..], guid, -1);
      }
    }
  }

  // Reading one object

  predicate Sized<Class, Inst>(it: Item<Class, Inst>) {
    |it.guid| == 16
  }

  lemma PrefixAt<Class, Inst>(data: Bytes, pre: Bytes, it: Item<Class, Inst>, size: nat, post: Bytes)
    requires Sized(it) && data == pre + Prefix(it, size) + post
    ensures |Prefix(it, size)| == 33
    ensures |pre| + 33 <= |data| && data[|pre| + 33..] == post
    ensures data[|pre|..|pre| + 4] == Put32(0x9)
    ensures data[|pre| + 4..|pre| + 8] == Put32(24 + size)
    ensures data[|pre| + 8] == if it.carry then 2 else 3
    ensures data[|pre| + 9..|pre| + 13] == Put32(0x18)
    ensures data[|pre| + 13..|pre| + 17] == Put32(size)
    ensures data[|pre| + 17..|pre| + 33] == it.guid
  {
  }

  lemma FrameFields(data: Bytes, off: nat, kind: Byte, guid: Guid, size: nat)
    requires off + 33 + size <= |data| < TWO32
    requires data[off..off + 4] == Put32(0x9) && data[off + 4..off + 8] == Put32(24 + size) && data[off + 8] == kind
    requires data[off + 9..off + 13] == Put32(0x18) && data[off + 13..off + 17] == Put32(size)
    requires data[off + 17..off + 33] == guid
    ensures FrameAt(data, off) == Frame(kind, guid, off + 33, off + 33 + size)
  {
    NeedHeld(data, off + 8, 24 + size + 1);
    NeedHeld(data, off + 17, size + 16);
    SmallMod(off + 9 + (24 + size));
  }

  lemma FrameRead<Class, Inst>(data: Bytes, pre: Bytes, it: Item<Class, Inst>, size: nat, post: Bytes)
    requires Sized(it) && data == pre + Prefix(it, size) + post && size <= |post| && |data| < TWO32
    ensures FrameAt(data, |pre|) == Frame(if it.carry then 2 else 3, it.guid, |pre| + 33, |pre| + 33 + size)
  {
    PrefixAt(data, pre, it, size, post);
    FrameFields(data, |pre|, if it.carry then 2 else 3, it.guid, size);
  }

  lemma SmallMod(n: nat)
    requires n < TWO32
    ensures n % TWO32 == n
  {
  }

  lemma NeedHeld(data: Bytes, off: nat, n: nat)
    requires off + n <= |data| < TWO32
    ensures Need(data, off, n)
  {
  }

  lemma ObjectRead<Class(!new), Inst(!new)>(codec: Codec<Class, Inst>, w: Writer<Class, Inst>,
                                            cache: seq<(Guid, Class)>, pre: Bytes, it: Item<Class, Inst>, rest: Bytes)
    requires Undoes(codec, w) && Sized(it)
    requires it.carry || Find(cache, it.guid) == Some(it.cls)
    requires |pre + EncodeObject(w, it) + rest| < TWO32
    ensures ReadObject(codec, cache, pre + EncodeObject(w, it) + rest, |pre|) ==
            Read(Object(Some(it.cls), it.inst), |pre + EncodeObject(w, it)|, Remember(cache, it))
  {
    var payload := Payload(w, it);
    var data := pre + EncodeObject(w, it) + rest;
    Regroup(pre, Prefix(it, |payload|), payload, rest);
    FrameRead(data, pre, it, |payload|, payload + rest);
    PrefixAt(data, pre, it, |payload|, payload + rest);
  }

  function Decoded<Class, Inst>(items: seq<Item<Class, Inst>>): seq<Object<Class, Inst>> {
    seq(|items|, i requires 0 <= i < |items| => Object(Some(items[i].cls), items[i].inst))
  }

  lemma DecodedConcat<Class, Inst>(a: seq<Item<Class, Inst>>, b: seq<Item<Class, Inst>>)
    ensures Decoded(a + b) == Decoded(a) + Decoded(b)
  {
  }

  lemma DecodedCons<Class, Inst>(items: seq<Item<Class, Inst>>)
    requires items != []
    ensures Decoded(items) == [Object(Some(items[0].cls), items[0].inst)] + Decoded(items[1..])
  {
  }

  lemma {:induction false} ObjectsRead<Class(!new), Inst(!new)>(codec: Codec<Class, Inst>, w: Writer<Class, Inst>,
                                               cache: seq<(Guid, Class)>, pre: Bytes, items: seq<Item<Class, Inst>>)
    requires Undoes(codec, w) && Known(cache, items) && (forall it :: it in items ==> Sized(it))
    requires |pre + EncodeObjects(w, items)| < TWO32
    ensures ReadObjects(codec, cache, pre + EncodeObjects(w, items), |pre|, |items|) ==
            Parsed(Ok, Decoded(items), CacheAfter(cache, items))
    decreases |items|
  {
    if items != [] {
      var it, rest := items[0], EncodeObjects(w, items[1..]);
      var enc := EncodeObject(w, it);
      Associate(pre, enc, rest);
      DecodedCons(items);
      assert it in items;
      ObjectRead(codec, w, cache, pre, it, rest);
      ObjectsRead(codec, w, Remember(cache, it), pre + enc, items[1..]);
    }
  }

  // Reading one message

  lemma Pieces(a: Bytes, b: Bytes, c: Bytes, d: Bytes, e: Bytes, f: Bytes, v: Bytes, g: Bytes, h: Bytes, i: Bytes,
               j: Bytes, k: Bytes, post: Bytes)
    requires |a| == |b| == |c| == |d| == |e| == |f| == |g| == |h| == |i| == |j| == |k| == 4 && |v| == 2
    ensures var data := a + b + c + d + e + f + v + g + h + i + j + k + post;
            && data[0..4] == a && data[4..8] == b && data[8..12] == c && data[12..16] == d && data[16..20] == e
            && data[20..24] == f && data[24] == v[0] && data[25] == v[1] && data[26..30] == g
            && data[30..34] == h && data[34..38] == i && data[38..42] == j && data[42..46] == k
  {
  }

  lemma HeaderFields(size: nat, count: nat, minor: Byte, post: Bytes)
    ensures |MessageHeader(size, count, minor)| == HEADER_SIZE
    ensures HeaderHolds(MessageHeader(size, count, minor) + post, size, count, minor)
  {
    Pieces(Put32(0), Put32(0x4D45_4257), Put32(0x4154_4144), Put32(0x1A), Put32(20 + size), Put32(0), [1, minor],
           Put32(0x8), Put32(12 + size), Put32(0xC), Put32(size), Put32(count), post);
  }

  predicate HeaderHolds(data: Bytes, size: nat, count: nat, minor: Byte) {
    && |data| >= HEADER_SIZE
    && data[0..4] == Put32(0) && data[4..8] == Put32(0x4D45_4257) && data[8..12] == Put32(0x4154_4144)
    && data[12..16] == Put32(0x1A) && data[16..20] == Put32(20 + size) && data[20..24] == Put32(0)
    && data[24] == 1 && data[25] == minor
    && data[26..30] == Put32(0x8) && data[30..34] == Put32(12 + size) && data[34..38] == Put32(0xC)
    && data[38..42] == Put32(size) && data[42..46] == Put32(count)
  }

  lemma HeaderRead(data: Bytes, size: nat, count: nat, minor: Byte)
    requires |data| == HEADER_SIZE + size < TWO32 && count < TWO32 && minor <= 1
    requires HeaderHolds(data, size, count, minor)
    ensures Header(data, count) == Ok
  {
    NeedHeld(data, 20, 20 + size + 6);
    assert Pull32(data, 0) == Some(0) && Pull32(data, 4) == Some(0x4D45_4257) && Pull32(data, 8) == Some(0x4154_4144);
    assert Pull32(data, 12) == Some(0x1A) && Pull32(data, 16) == Some(20 + size) && Pull32(data, 20) == Some(0);
    assert Pull8(data, 24) == Some(1) && Pull8(data, 25) == Some(minor);
    HeaderRead2(data, count, size);
  }

  lemma HeaderRead2(data: Bytes, count: nat, size: nat)
    requires |data| == 46 + size < TWO32 && count < TWO32
    requires data[26..30] == Put32(0x8) && data[30..34] == Put32(12 + size) && data[34..38] == Put32(0xC)
    requires data[38..42] == Put32(size) && data[42..46] == Put32(count)
    ensures Header2(data, count) == Ok
  {
    NeedHeld(data, 34, 12 + size);
    NeedHeld(data, 42, size + 4);
  }

  ghost predicate Fits<Class, Inst>(w: Writer<Class, Inst>, items: seq<Item<Class, Inst>>, minor: Byte) {
    && items != [] && |items| < TWO32 && minor <= 1
    && HEADER_SIZE + |EncodeObjects(w, items)| < TWO32
    && forall it :: it in items ==> Sized(it)
  }

  /** A message is read back as exactly its objects, each with its class. */
  lemma MessageRead<Class(!new), Inst(!new)>(codec: Codec<Class, Inst>, w: Writer<Class, Inst>,
                                             cache: seq<(Guid, Class)>, items: seq<Item<Class, Inst>>, minor: Byte)
    requires Undoes(codec, w) && Known(cache, items) && Fits(w, items, minor)
    ensures ParseMessage(codec, cache, EncodeMessage(w, items, minor), |items|) ==
            Parsed(Ok, Decoded(items), CacheAfter(cache, items))
  {
    var body := EncodeObjects(w, items);
    var header := MessageHeader(|body|, |items|, minor);
    HeaderFields(|body|, |items|, minor, body);
    HeaderRead(header + body, |body|, |items|, minor);
    ObjectsRead(codec, w, cache, header, items);
  }

  // Reading an enumeration

  /** Message after message, until one fails. */
  function ParseAll<Class, Inst>(codec: Codec<Class, Inst>, cache: seq<(Guid, Class)>, messages: seq<(Bytes, nat)>)
    : Parsed<Class, Inst>
    decreases |messages|
  {
    if messages == [] then Parsed(Ok, [], cache)
    else
      var r := ParseMessage(codec, cache, messages[0].0, messages[0].1);
      if r.status != Ok then r else Resumes(r.objects, ParseAll(codec, r.cache, messages[1..]))
  }

  function Send<Class, Inst>(w: Writer<Class, Inst>, batches: seq<seq<Item<Class, Inst>>>, minor: Byte)
    : seq<(Bytes, nat)>
  {
    seq(|batches|, i requires 0 <= i < |batches| => (EncodeMessage(w, batches[i], minor), |batches[i]|))
  }

  function Flat<T>(batches: seq<seq<T>>): seq<T> {
    if batches == [] then [] else batches[0] + Flat(batches[1..])
  }

  lemma {:induction false} KnownConcat<Class, Inst>(cache: seq<(Guid, Class)>, a: seq<Item<Class, Inst>>,
                                                    b: seq<Item<Class, Inst>>)
    decreases |a|
    ensures Known(cache, a + b) <==> Known(cache, a) && Known(CacheAfter(cache, a), b)
    ensures CacheAfter(cache, a + b) == CacheAfter(CacheAfter(cache, a), b)
  {
    if a == [] {
      assert a + b == b;
    } else {
      assert (a + b)[1..] == a[1..] + b && (a + b)[0] == a[0];
      KnownConcat(Remember(cache, a[0]), a[1..], b);
    }
  }

  lemma BatchRead<Class(!new), Inst(!new)>(codec: Codec<Class, Inst>, w: Writer<Class, Inst>, cache: seq<(Guid, Class)>,
                                           batches: seq<seq<Item<Class, Inst>>>, minor: Byte)
    requires Undoes(codec, w) && batches != [] && Known(cache, batches[0]) && Fits(w, batches[0], minor)
    ensures ParseAll(codec, cache, Send(w, batches, minor)) ==
            Resumes(Decoded(batches[0]), ParseAll(codec, CacheAfter(cache, batches[0]), Send(w, batches[1..], minor)))
  {
    SendTail(w, batches, minor);
    MessageRead(codec, w, cache, batches[0], minor);
  }

  lemma SendTail<Class, Inst>(w: Writer<Class, Inst>, batches: seq<seq<Item<Class, Inst>>>, minor: Byte)
    requires batches != []
    ensures var sent := Send(w, batches, minor);
            && sent != [] && sent[0] == (EncodeMessage(w, batches[0], minor), |batches[0]|)
            && sent[1..] == Send(w, batches[1..], minor)
  {
  }

  /** Over any sequence of batches of one enumeration, every object is read with its own class, although
      its class is sent only when the client does not remember it. */
  lemma {:induction false} ElisionTransparent<Class(!new), Inst(!new)>(
      codec: Codec<Class, Inst>, w: Writer<Class, Inst>, cache: seq<(Guid, Class)>,
      batches: seq<seq<Item<Class, Inst>>>, minor: Byte)
    requires Undoes(codec, w) && Known(cache, Flat(batches))
    requires forall i :: 0 <= i < |batches| ==> Fits(w, batches[i], minor)
    decreases |batches|
    ensures ParseAll(codec, cache, Send(w, batches, minor)) ==
            Parsed(Ok, Decoded(Flat(batches)), CacheAfter(cache, Flat(batches)))
  {
    if batches != [] {
      var b, rest := batches[0], batches[1..];
      DecodedConcat(b, Flat(rest));
      KnownConcat(cache, b, Flat(rest));
      BatchRead(codec, w, cache, batches, minor);
      ElisionTransparent(codec, w, CacheAfter(cache, b), rest, minor);
    }
  }

  /** The same objects with every class sent along. */
  function WithClasses<Class, Inst>(items: seq<Item<Class, Inst>>): seq<Item<Class, Inst>> {
    seq(|items|, i requires 0 <= i < |items| => items[i].(carry := true))
  }

  function AllWithClasses<Class, Inst>(batches: seq<seq<Item<Class, Inst>>>): seq<seq<Item<Class, Inst>>> {
    seq(|batches|, i requires 0 <= i < |batches| => WithClasses(batches[i]))
  }

  lemma {:induction false} AlwaysKnown<Class, Inst>(cache: seq<(Guid, Class)>, items: seq<Item<Class, Inst>>)
    requires forall i :: 0 <= i < |items| ==> items[i].carry
    decreases |items|
    ensures Known(cache, items)
  {
    if items != [] {
      AlwaysKnown(Remember(cache, items[0]), items[1..]);
    }
  }

  lemma {:induction false} FlatWithClasses<Class, Inst>(batches: seq<seq<Item<Class, Inst>>>)
    ensures Flat(AllWithClasses(batches)) == WithClasses(Flat(batches))
  {
    if batches != [] {
      assert AllWithClasses(batches)[1..] == AllWithClasses(batches[1..]);
      assert WithClasses(batches[0] + Flat(batches[1..])) == WithClasses(batches[0]) + WithClasses(Flat(batches[1..]));
      FlatWithClasses(batches[1..]);
    }
  }

  lemma DecodedWithClasses<Class, Inst>(items: seq<Item<Class, Inst>>)
    ensures Decoded(WithClasses(items)) == Decoded(items)
  {
  }

  /** Decoding the stream with classes left out equals decoding the full stream. */
  lemma ElidedEqualsFull<Class(!new), Inst(!new)>(
      codec: Codec<Class, Inst>, w: Writer<Class, Inst>, cache: seq<(Guid, Class)>,
      batches: seq<seq<Item<Class, Inst>>>, minor: Byte)
    requires Undoes(codec, w) && Known(cache, Flat(batches))
    requires forall i :: 0 <= i < |batches| ==> Fits(w, batches[i], minor) && Fits(w, WithClasses(batches[i]), minor)
    ensures var elided, full := ParseAll(codec, cache, Send(w, batches, minor)),
                                ParseAll(codec, cache, Send(w, AllWithClasses(batches), minor));
            elided.status == full.status == Ok && elided.objects == full.objects && |elided.objects| == |Flat(batches)|
  {
    ElisionTransparent(codec, w, cache, batches, minor);
    FlatWithClasses(batches);
    AlwaysKnown(cache, WithClasses(Flat(batches)));
    ElisionTransparent(codec, w, cache, AllWithClasses(batches), minor);
    DecodedWithClasses(Flat(batches));
  }
}
