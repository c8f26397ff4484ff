/** The WMI result stream: batches of length-framed objects whose classes may be left out once the
    client has seen them (the object array of section 2.2.14 of [MS-WMI]), and the class cache that
    fills them in. How a class or an instance is laid out inside its frame is a parameter. */
module Wbem {
  import opened Text
  import opened Octets

  type Guid = Bytes

  const TWO32: int := 0x1_0000_0000

  datatype Status = Ok | BufferTooSmall | Unsuccessful | NotSupported | NotImplemented | DecodeError

  const DATATYPE_CLASSOBJECT: int := 2
  const DATATYPE_OBJECT: int := 3

  /** How the payloads are decoded: a class with an instance, or an instance of a known class. Both are
      handed the rest of the message, not just their frame. */
  datatype Codec<!Class, !Inst> = Codec(
    full: Bytes -> Option<(Class, Inst)>,
    inst: (Option<Class>, Bytes) -> Option<Inst>)

  datatype Object<Class, Inst> = Object(cls: Option<Class>, inst: Inst)

  // Numbers on the wire

  function Le32(s: Bytes): int
    requires |s| == 4
  {
    var a: int, b: int, c: int, d: int := s[0], s[1], s[2], s[3];
    a + 0x100 * b + 0x1_0000 * c + 0x100_0000 * d
  }

  function Pull32(data: Bytes, off: nat): Option<int> {
    if off + 4 <= |data| then Some(Le32(data[off..off + 4])) else None
  }

  function Pull8(data: Bytes, off: nat): Option<int> {
    if off + 1 <= |data| then Some(data[off]) else None
  }

  /** NDR_PULL_NEED_BYTES on 32-bit quantities. */
  predicate Need(data: Bytes, off: nat, n: int) {
    n % TWO32 <= |data| && (off + n % TWO32) % TWO32 <= |data|
  }

  // The class cache

  function Find<Class>(cache: seq<(Guid, Class)>, guid: Guid): Option<Class> {
    if cache == [] then None
    else if cache[0].0 == guid then Some(cache[0].1)
    else Find(cache[1..], guid)
  }

  // One message

  /** The message header, up to the first object. */
  function Header(data: Bytes, count: int): Status {
    if Pull32(data, 0).None? then BufferTooSmall
    else if Pull32(data, 0).value != 0 then Unsuccessful
    else if Pull32(data, 4).None? then BufferTooSmall
    else if Pull32(data, 4).value != 0x4D45_4257 then Unsuccessful      // "WBEM"
    else if Pull32(data, 8).None? then BufferTooSmall
    else if Pull32(data, 8).value != 0x4154_4144 then Unsuccessful      // "DATA"
    else if Pull32(data, 12).None? then BufferTooSmall
    else if Pull32(data, 12).value != 0x1A then Unsuccessful
    else if Pull32(data, 16).None? then BufferTooSmall
    else if !Need(data, 20, Pull32(data, 16).value + 6) then BufferTooSmall
    else if Pull32(data, 20).None? then BufferTooSmall
    else if Pull32(data, 20).value != 0 then Unsuccessful
    else if Pull8(data, 24).None? then BufferTooSmall
    else if Pull8(data, 24).value != 1 then Unsuccessful
    else if Pull8(data, 25).None? then BufferTooSmall
    else if Pull8(data, 25).value > 1 then Unsuccessful
    else Header2(data, count)
  }

  function Header2(data: Bytes, count: int): Status {
    if Pull32(data, 26).None? then BufferTooSmall
    else if Pull32(data, 26).value != 0x8 then Unsuccessful
    else if Pull32(data, 30).None? then BufferTooSmall
    else if !Need(data, 34, Pull32(data, 30).value) then BufferTooSmall
    else if Pull32(data, 34).None? then BufferTooSmall
    else if Pull32(data, 34).value != 0xC then Unsuccessful
    else if Pull32(data, 38).None? then BufferTooSmall
    else if !Need(data, 42, Pull32(data, 38).value + 4) then BufferTooSmall
    else if Pull32(data, 42).None? then BufferTooSmall
    else if Pull32(data, 42).value != count then Unsuccessful
    else Ok
  }

  const HEADER_SIZE: nat := 46

  /** The frame of the object at `off`: its type, GUID, where its payload starts and where the next
      object does. */
  datatype Frame = Frame(kind: int, guid: Guid, payload: nat, next: nat) | BadFrame(status: Status)

  function FrameAt(data: Bytes, off: nat): Frame {
    if Pull32(data, off).None? then BadFrame(BufferTooSmall)
    else if Pull32(data, off).value != 0x9 then BadFrame(Unsuccessful)
    else if Pull32(data, off + 4).None? then BadFrame(BufferTooSmall)
    else
      var length := Pull32(data, off + 4).value;
      if !Need(data, off + 8, length + 1) then BadFrame(BufferTooSmall)
      else if Pull8(data, off + 8).None? then BadFrame(BufferTooSmall)
      else if Pull32(data, off + 9).None? then BadFrame(BufferTooSmall)
      else if Pull32(data, off + 9).value != 0x18 then BadFrame(Unsuccessful)
      else if Pull32(data, off + 13).None? then BadFrame(BufferTooSmall)
      else if !Need(data, off + 17, Pull32(data, off + 13).value + 16) then BadFrame(BufferTooSmall)
      else if off + 33 > |data| then BadFrame(BufferTooSmall)
      else Frame(Pull8(data, off + 8).value, data[off + 17..off + 33], off + 33, (off + 9 + length) % TWO32)
  }

  datatype Step<Class, Inst> =
    | Read(obj: Object<Class, Inst>, next: nat, cache: seq<(Guid, Class)>)
    | Stop(status: Status)

  /** One turn of the loop of WBEMDATA_Parse. */
  function ReadObject<Class, Inst>(codec: Codec<Class, Inst>, cache: seq<(Guid, Class)>, data: Bytes, off: nat)
    : Step<Class, Inst>
  {
    match FrameAt(data, off)
    case BadFrame(status) => Stop(status)
    case Frame(kind, guid, payload, next) =>
      var rest := if payload <= |data| then data[payload..] else [];
      if kind == DATATYPE_CLASSOBJECT then
        match codec.full(rest)
        case None => Stop(DecodeError)
        case Some((cls, inst)) => Read(Object(Some(cls), inst), next, [(guid, cls)] + cache)
      else if kind == DATATYPE_OBJECT then
        var cls := Find(cache, guid);
        match codec.inst(cls, rest)
        case None => Stop(DecodeError)
        case Some(inst) => Read(Object(cls, inst), next, cache)
      else Stop(NotSupported)
  }

  datatype Parsed<Class, Inst> = Parsed(status: Status, objects: seq<Object<Class, Inst>>, cache: seq<(Guid, Class)>)

  /** The first `n` objects from offset `off` on; on failure, those read before it. */
  function ReadObjects<Class, Inst>(codec: Codec<Class, Inst>, cache: seq<(Guid, Class)>, data: Bytes,
                                                off: nat, n: nat): (r: Parsed<Class, Inst>)
    ensures r.status == Ok ==> |r.objects| == n
    ensures |r.objects| <= n
    decreases n
  {
    if n == 0 then Parsed(Ok, [], cache)
    else
      match ReadObject(codec, cache, data, off)
      case Stop(status) => Parsed(status, [], cache)
      case Read(obj, next, cache') =>
        var r := ReadObjects(codec, cache', data, next, n - 1);
        Parsed(r.status, [obj] + r.objects, r.cache)
  }

  /** WBEMDATA_Parse. */
  function ParseMessage<Class, Inst>(codec: Codec<Class, Inst>, cache: seq<(Guid, Class)>, data: Bytes, count: nat)
    : (r: Parsed<Class, Inst>)
    ensures r.status == Ok ==> |r.objects| == count
  {
    if count == 0 then Parsed(NotImplemented, [], cache)
    else if Header(data, count) != Ok then Parsed(Header(data, count), [], cache)
    else ReadObjects(codec, cache, data, HEADER_SIZE, count)
  }

  /** The enumeration, whose cache outlives the messages. */
  class Enumeration<Class, Inst> {
    const codec: Codec<Class, Inst>
    var cache: seq<(Guid, Class)>

    constructor (codec: Codec<Class, Inst>)
      ensures this.codec == codec && cache == []
    {
      this.codec := codec;
      cache := [];
    }

    method GetByGuid(guid: Guid) returns (r: Option<Class>)
      ensures r == Find(cache, guid)
    {
      var i := 0;
      while i < |cache|
        invariant 0 <= i <= |cache|
        invariant Find(cache[i..], guid) == Find(cache, guid)
      {
        if cache[i].0 == guid {
          return Some(cache[i].1);
        }
        assert cache[i..][1..] == cache[i + 1..];
        i := i + 1;
      }
      return None;
    }

    /** One turn of the loop: decodes an object, and prepends the class it carries to the cache. */
    method ReadOne(data: Bytes, off: nat) returns (r: Step<Class, Inst>)
      modifies this
      ensures r == ReadObject(codec, old(cache), data, off)
      ensures cache == if r.Read? then r.cache else old(cache)
    {
      var frame := FrameAt(data, off);
      if frame.BadFrame? {
        return Stop(frame.status);
      }
      var rest := if frame.payload <= |data| then data[frame.payload..] else [];
      if frame.kind == DATATYPE_CLASSOBJECT {
        var o := codec.full(rest);
        if o.None? {
          return Stop(DecodeError);
        }
        cache := [(frame.guid, o.value.0)] + cache;
        return Read(Object(Some(o.value.0), o.value.1), frame.next, cache);
      } else if frame.kind == DATATYPE_OBJECT {
        var cls := GetByGuid(frame.guid);
        var o := codec.inst(cls, rest);
        if o.None? {
          return Stop(DecodeError);
        }
        return Read(Object(cls, o.value), frame.next, cache);
      } else {
        return Stop(NotSupported);
      }
    }

    /** The loop of WBEMDATA_Parse: moves through the message by the length fields alone. */
    method ParseBody(data: Bytes, count: nat) returns (status: Status, objects: seq<Object<Class, Inst>>)
      modifies this
      ensures Parsed(status, objects, cache) == ReadObjects(codec, old(cache), data, HEADER_SIZE, count)
    {
      status, objects := Ok, [];
      var off := HEADER_SIZE;
      for i := 0 to count
        invariant status == Ok
        invariant Resumes(objects, ReadObjects(codec, cache, data, off, count - i)) ==
                  ReadObjects(codec, old(cache), data, HEADER_SIZE, count)
      {
        ResumesStep(codec, objects, cache, data, off, count - i);
        var r := ReadOne(data, off);
        if r.Stop? {
          return r.status, objects;
        }
        objects := objects + [r.obj];
        off := r.next;
      }
      assert objects + [] == objects;
    }

    method Parse(data: Bytes, count: nat) returns (status: Status, objects: seq<Object<Class, Inst>>)
      modifies this
      ensures Parsed(status, objects, cache) == ParseMessage(codec, old(cache), data, count)
    {
      objects := [];
      if count == 0 {
        return NotImplemented, [];
      }
      status := Header(data, count);
      if status == Ok {
        status, objects := ParseBody(data, count);
      }
    }
  }

  lemma ResumesStep<Class, Inst>(codec: Codec<Class, Inst>, objects: seq<Object<Class, Inst>>,
                                 cache: seq<(Guid, Class)>, data: Bytes, off: nat, n: nat)
    requires n > 0
    ensures match ReadObject(codec, cache, data, off)
            case Stop(status) =>
              Resumes(objects, ReadObjects(codec, cache, data, off, n)) == Parsed(status, objects, cache)
            case Read(obj, next, cache') =>
              Resumes(objects, ReadObjects(codec, cache, data, off, n)) ==
              Resumes(objects + [obj], ReadObjects(codec, cache', data, next, n - 1))
  {
  }

  /** The result of going on after some objects have been read. */
  function Resumes<Class, Inst>(objects: seq<Object<Class, Inst>>, r: Parsed<Class, Inst>): Parsed<Class, Inst> {
    Parsed(r.status, objects + r.objects, r.cache)
  }
}
