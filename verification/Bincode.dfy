/** The two bincode 1.3 configurations the client uses: variable-length integers for packfile headers
    and index files, and fixed 8-byte integers for directory trees. Decoders consume a prefix and
    return the rest; every round trip holds whatever bytes follow. */
module Bincode {
  import opened Wrappers
  import opened ByteStrings

  /** What a decoder yields: the value it read and the bytes it left unread. */
  datatype Parsed<+T> = Malformed | Parsed(value: T, rest: Bytes) {
    predicate IsFailure() { Malformed? }

    function PropagateFailure<U>(): Parsed<U>
      requires Malformed?
    {
      Malformed
    }

    function Extract(): (T, Bytes)
      requires Parsed?
    {
      (value, rest)
    }
  }

  // ----- Integers -----

  /** Little-endian integer of fixed width. */
  function TakeFixed(b: Bytes, width: nat): (r: Parsed<nat>)
    ensures r.Parsed? ==> width <= |b| && r.value < Pow256(width) && r.rest == b[width..]
  {
    if |b| < width then Malformed
    else
      LeValueBound(b[..width]);
      Parsed(LeValue(b[..width]), b[width..])
  }

  lemma {:induction false} FixedRoundTrip(n: nat, width: nat, rest: Bytes)
    requires n < Pow256(width)
    ensures TakeFixed(LeBytes(n, width) + rest, width) == Parsed(n, rest)
  {
    LeRoundTrip(n, width);
    DropPrefix(LeBytes(n, width), rest);
  }

  /** Varint: one byte below 251, otherwise a marker byte and 2, 4 or 8 bytes. */
  function EncodeVarint(n: u64): (b: Bytes)
    ensures 1 <= |b| <= 9
    ensures n < 0x1_0000_0000 ==> |b| <= 5
  {
    if n < 251 then [n]
    else if n < 0x1_0000 then [251] + LeBytes(n, 2)
    else if n < 0x1_0000_0000 then [252] + LeBytes(n, 4)
    else [253] + LeBytes(n, 8)
  }

  function DecodeVarint(b: Bytes): (r: Parsed<u64>)
  {
    Widths();
    if b == [] then Malformed
    else if b[0] < 251 then Parsed(b[0], b[1..])
    else if b[0] == 251 then TakeFixed(b[1..], 2)
    else if b[0] == 252 then TakeFixed(b[1..], 4)
    else if b[0] == 253 then TakeFixed(b[1..], 8)
    else Malformed
  }

  lemma {:induction false} VarintRoundTrip(n: u64, rest: Bytes)
    ensures DecodeVarint(EncodeVarint(n) + rest) == Parsed(n, rest)
  {
    Widths();
    var width := if n < 0x1_0000 then 2 else if n < 0x1_0000_0000 then 4 else 8;
    FixedRoundTrip(n, width, rest);
    assert (EncodeVarint(n) + rest)[1..] == if n < 251 then rest else LeBytes(n, width) + rest;
  }

  // ----- Sequences -----

  function EncodeAll<T>(xs: seq<T>, enc: T -> Bytes): Bytes {
    if xs == [] then [] else enc(xs[0]) + EncodeAll(xs[1..], enc)
  }

  function DecodeMany<T>(count: nat, b: Bytes, dec: Bytes -> Parsed<T>): (r: Parsed<seq<T>>)
    ensures r.Parsed? ==> |r.value| == count
  {
    if count == 0 then Parsed([], b)
    else
      var (x, b') :- dec(b);
      var (xs, b'') :- DecodeMany(count - 1, b', dec);
      Parsed([x] + xs, b'')
  }

  /** The decoder inverts the encoder on every value, whatever follows. */
  ghost predicate Inverts<T(!new)>(enc: T -> Bytes, dec: Bytes -> Parsed<T>) {
    forall x: T, rest: Bytes :: dec(enc(x) + rest) == Parsed(x, rest)
  }

  lemma {:induction false} ManyRoundTrip<T(!new)>(xs: seq<T>, enc: T -> Bytes, dec: Bytes -> Parsed<T>, rest: Bytes)
    requires Inverts(enc, dec)
    ensures DecodeMany(|xs|, EncodeAll(xs, enc) + rest, dec) == Parsed(xs, rest)
  {
    if xs == [] {
      assert EncodeAll(xs, enc) + rest == rest;
    } else {
      var tail := EncodeAll(xs[1..], enc) + rest;
      assert EncodeAll(xs, enc) + rest == enc(xs[0]) + tail;
      ManyRoundTrip(xs[1..], enc, dec, rest);
      assert [xs[0]] + xs[1..] == xs;
    }
  }

  lemma {:induction false} EncodeAllLength<T>(xs: seq<T>, enc: T -> Bytes, width: nat)
    requires forall i :: 0 <= i < |xs| ==> |enc(xs[i])| <= width
    ensures |EncodeAll(xs, enc)| <= |xs| * width
  {
    if xs != [] {
      var tail := xs[1..];
      EncodeAllLength(tail, enc, width);
      assert |enc(xs[0])| <= width;
      assert |xs| * width == |tail| * width + width;
    }
  }

  /** Variable-length configuration: a varint count, the elements, and nothing after them. */
  function SerializeVec<T>(xs: seq<T>, enc: T -> Bytes): Bytes
    requires |xs| < U64_LIMIT
  {
    EncodeVarint(|xs|) + EncodeAll(xs, enc)
  }

  function DeserializeVec<T>(b: Bytes, dec: Bytes -> Parsed<T>): Option<seq<T>> {
    match DecodeVarint(b)
    case Malformed => None
    case Parsed(count, rest) =>
      match DecodeMany(count, rest, dec)
      case Malformed => None
      case Parsed(xs, trailing) => if trailing == [] then Some(xs) else None
  }

  lemma {:induction false} VecRoundTrip<T(!new)>(xs: seq<T>, enc: T -> Bytes, dec: Bytes -> Parsed<T>)
    requires |xs| < U64_LIMIT
    requires Inverts(enc, dec)
    ensures DeserializeVec(SerializeVec(xs, enc), dec) == Some(xs)
  {
    VarintRoundTrip(|xs|, EncodeAll(xs, enc));
    ManyRoundTrip(xs, enc, dec, []);
    assert EncodeAll(xs, enc) + [] == EncodeAll(xs, enc);
  }

  // ----- Byte arrays of known length -----

  function TakeBytes(b: Bytes, width: nat): (r: Parsed<Bytes>)
    ensures r.Parsed? ==> |r.value| == width
  {
    if |b| < width then Malformed else Parsed(b[..width], b[width..])
  }

  lemma {:induction false} BytesRoundTrip(x: Bytes, rest: Bytes)
    ensures TakeBytes(x + rest, |x|) == Parsed(x, rest)
  {
    DropPrefix(x, rest);
  }
}
