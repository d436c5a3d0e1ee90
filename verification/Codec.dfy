/**
 The elements of the receiver's list as bytes: the very first one carries the version magic,
 and behind it every element is a little-endian `int32` followed by a body; four bytes with a
 negative value are a command of the local server.
 */
module Codec {
  import opened Bytes
  import opened Protocol

  /** The ASCII text `372b2fc1839a9e161dd972c2964e11a262c419ad`. */
  const MAGIC: Payload := [
    51, 55, 50, 98, 50, 102, 99, 49, 56, 51, 57, 97, 57, 101, 49, 54, 49, 100, 100, 57,
    55, 50, 99, 50, 57, 54, 52, 101, 49, 49, 97, 50, 54, 50, 99, 52, 49, 57, 97, 100]

  datatype DataVersion = NotSeen | V1 | V2

  /** Elements the server writes: indices and commands fit an `int`. */
  predicate Fits(e: Element) {
    match e
    case Data(num, _) => 0 <= num <= INT_MAX
    case Control(cmd) => -INT_MAX - 1 <= cmd < 0
  }

  function Encode(e: Element): Payload {
    match e
    case Data(num, body) => LE32(Wrap(num)) + body
    case Control(cmd) => LE32(Wrap(cmd))
  }

  /** `memcpy` of the index, and the test for a command. */
  function Decode(raw: Payload): Element
    requires |raw| >= 4
  {
    var idx := AsInt32(FromLE32(raw));
    if |raw| == 4 && idx < 0 then Control(idx) else Data(idx, raw[4..])
  }

  /** An element is read back as it was written; in particular an empty body is no command. */
  lemma DecodeEncode(e: Element)
    requires Fits(e)
    ensures |Encode(e)| >= 4 && Decode(Encode(e)) == e
  {
    var i := if e.Data? then e.num else e.cmd;
    var rest := if e.Data? then e.body else [];
    assert Encode(e) == LE32(Wrap(i)) + rest;
    LE32RoundTrip(Wrap(i), rest);
    Wrap32RoundTrip(i);
  }

  /** `init_redis_data_version`: the version the first element shows, and what is left of it. */
  function DetectVersion(raw: Payload): (DataVersion, Payload) {
    if MAGIC <= raw then (V2, raw[|MAGIC|..]) else (V1, raw)
  }

  /** What an element shows once the version is known, from before or from the element itself. */
  function Seen(version: DataVersion, raw: Payload): (DataVersion, Payload) {
    if version.NotSeen? then DetectVersion(raw) else (version, raw)
  }

  // ----- whole lists -----

  /** What `Recv` hands out for an element: data in the given version, or nothing. */
  datatype Item = Message(body: Payload) | Numbered(element: Element)

  function ReadItem(version: DataVersion, raw: Payload): Item {
    if version.V2? && |raw| >= 4 then Numbered(Decode(raw)) else Message(raw)
  }

  /** A whole list, read with the version remembered from its first element. */
  function ReadList(version: DataVersion, raws: seq<Payload>): seq<Item>
    decreases |raws|
  {
    if raws == [] then []
    else
      var (v, raw) := Seen(version, raws[0]);
      [ReadItem(v, raw)] + ReadList(v, raws[1..])
  }

  function EncodeAll(es: seq<Element>): seq<Payload> {
    if es == [] then [] else [Encode(es[0])] + EncodeAll(es[1..])
  }

  /** The list a v2 server writes: the magic stands before the first element only. */
  function WriteList(es: seq<Element>): seq<Payload> {
    if es == [] then [] else [MAGIC + Encode(es[0])] + EncodeAll(es[1..])
  }

  function Numbereds(es: seq<Element>): seq<Item> {
    if es == [] then [] else [Numbered(es[0])] + Numbereds(es[1..])
  }

  lemma {:induction false} ReadAll(es: seq<Element>)
    requires forall e :: e in es ==> Fits(e)
    ensures ReadList(V2, EncodeAll(es)) == Numbereds(es)
    decreases |es|
  {
    if es != [] {
      DecodeEncode(es[0]);
      ReadAll(es[1..]);
      assert EncodeAll(es)[1..] == EncodeAll(es[1..]);
    }
  }

  /** Round trip over a whole v2 list, data and commands mixed in any order. */
  lemma ListRoundTrip(es: seq<Element>)
    requires forall e :: e in es ==> Fits(e)
    ensures ReadList(NotSeen, WriteList(es)) == Numbereds(es)
  {
    if es != [] {
      var first := MAGIC + Encode(es[0]);
      assert MAGIC <= first && first[|MAGIC|..] == Encode(es[0]);
      DecodeEncode(es[0]);
      ReadAll(es[1..]);
      assert WriteList(es)[1..] == EncodeAll(es[1..]);
    }
  }

  function Messages(ps: seq<Payload>): seq<Item> {
    if ps == [] then [] else [Message(ps[0])] + Messages(ps[1..])
  }

  lemma {:induction false} ReadPlain(ps: seq<Payload>)
    ensures ReadList(V1, ps) == Messages(ps)
    decreases |ps|
  {
    if ps != [] {
      ReadPlain(ps[1..]);
    }
  }

  /** A v1 list, plain messages, is read back exactly when its first message does not start with the magic. */
  lemma PlainListRoundTripIff(ps: seq<Payload>)
    ensures ReadList(NotSeen, ps) == Messages(ps) <==> ps == [] || !(MAGIC <= ps[0])
  {
    if ps != [] {
      ReadPlain(ps[1..]);
      var rest := ps[0];
      if MAGIC <= ps[0] {
        var cut := ps[0][|MAGIC|..];
        assert ReadList(NotSeen, ps)[0] == ReadItem(V2, cut);
        assert Messages(ps)[0] == Message(ps[0]);
        assert |cut| < |ps[0]|;
      }
    }
  }
}
