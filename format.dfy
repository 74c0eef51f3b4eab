/**
 The byte layout of persisted values, as pure functions.

 A `uint32_t` is stored as its 4 raw bytes (little-endian here; the source copies
 host memory, so only agreement between encoder and decoder matters). A bounded
 string of capacity N (`etl::string<N>`) is stored as a 4-byte length header
 followed by a payload of exactly N + 1 bytes, whatever its current length. A
 composite (`Data`) is the concatenation of its members' records in declaration
 order, with nothing added between them.
 */
module Format {

  type Byte = b: int | 0 <= b < 0x100

  /** The values of a `uint32_t`. */
  type U32 = v: int | 0 <= v < 0x1_0000_0000

  /** Width of a persisted `uint32_t`. */
  const U32Size: nat := 4

  /** Largest capacity whose lengths still fit the 4-byte length header. */
  const MaxCapacity: nat := 0xFFFF_FFFF

  /** `persistence_size_mismatch`: a stored string does not fit its destination. */
  datatype Error = SizeMismatch

  datatype Result<T> = Ok(value: T) | Err(error: Error)

  /**
   The outcome of a load that may throw. A load always hands back its
   destination's new value, as the source's out-parameter would be left, so
   the failure travels beside that value instead of replacing it as in `Result`.
   */
  datatype Outcome = Pass | Fail(error: Error)

  /** An `etl::string<capacity>`: its compile-time bound and its current characters. */
  datatype BoundedString = BoundedString(capacity: nat, content: seq<Byte>) {
    predicate Valid() {
      |content| <= capacity <= MaxCapacity
    }
  }

  /** The test's `struct Data { uint32_t i; String text; }`. */
  datatype Data = Data(i: U32, text: BoundedString)

  // ---------------------------------------------------------------- uint32_t

  /** Number of distinct values of `width` bytes. */
  function Pow256(width: nat): (r: nat)
    ensures r > 0
  {
    if width == 0 then 1 else 0x100 * Pow256(width - 1)
  }

  /** The `width` bytes of `v`, least significant first. */
  function LittleEndian(v: nat, width: nat): (r: seq<Byte>)
    requires v < Pow256(width)
    ensures |r| == width
  {
    if width == 0 then [] else [v % 0x100] + LittleEndian(v / 0x100, width - 1)
  }

  /** The value whose least significant byte comes first in `b`. */
  function FromLittleEndian(b: seq<Byte>): (v: nat)
    ensures v < Pow256(|b|)
  {
    if b == [] then 0 else b[0] + 0x100 * FromLittleEndian(b[1..])
  }

  lemma {:induction false} FromLittleEndianInverse(v: nat, width: nat)
    requires v < Pow256(width)
    ensures FromLittleEndian(LittleEndian(v, width)) == v
  {
    if width > 0 {
      var b := LittleEndian(v, width);
      assert b[1..] == LittleEndian(v / 0x100, width - 1);
      FromLittleEndianInverse(v / 0x100, width - 1);
    }
  }

  lemma {:induction false} LittleEndianInverse(b: seq<Byte>)
    ensures LittleEndian(FromLittleEndian(b), |b|) == b
  {
    if b != [] {
      var v := FromLittleEndian(b);
      assert v % 0x100 == b[0] && v / 0x100 == FromLittleEndian(b[1..]);
      LittleEndianInverse(b[1..]);
    }
  }

  /** The 4 bytes a `uint32_t` is saved as. */
  function U32Bytes(v: U32): (r: seq<Byte>)
    ensures |r| == U32Size
  {
    assert Pow256(U32Size) == 0x1_0000_0000;
    LittleEndian(v, U32Size)
  }

  /** The `uint32_t` loaded from 4 bytes. */
  function DecodeU32(b: seq<Byte>): (v: U32)
    requires |b| == U32Size
  {
    assert Pow256(U32Size) == 0x1_0000_0000;
    FromLittleEndian(b)
  }

  /** Loading what was saved gives the value back. */
  lemma U32RoundTrip(v: U32)
    ensures DecodeU32(U32Bytes(v)) == v
  {
    assert Pow256(U32Size) == 0x1_0000_0000;
    FromLittleEndianInverse(v, U32Size);
  }

  /** Every 4 bytes are the record of the value loaded from them. */
  lemma U32Complete(b: seq<Byte>)
    requires |b| == U32Size
    ensures U32Bytes(DecodeU32(b)) == b
  {
    LittleEndianInverse(b);
  }

  // ---------------------------------------------------------- etl::string<N>

  /** Size of the record of any string of capacity N: header plus N + 1 payload bytes. */
  function StringRecordSize(capacity: nat): nat
  {
    U32Size + capacity + 1
  }

  function Zeros(n: nat): (r: seq<Byte>)
    ensures |r| == n && forall k :: 0 <= k < n ==> r[k] == 0
  {
    seq(n, _ => 0)
  }

  /** The N + 1 payload bytes: the characters, then the terminator and fill. */
  function Payload(s: BoundedString): (r: seq<Byte>)
    requires s.Valid()
    ensures |r| == s.capacity + 1
    ensures r[..|s.content|] == s.content
    ensures forall k :: |s.content| <= k < |r| ==> r[k] == 0
  {
    s.content + Zeros(s.capacity + 1 - |s.content|)
  }

  /** What saving a string writes: its current length, then the fixed-width payload. */
  function StringRecord(s: BoundedString): (r: seq<Byte>)
    requires s.Valid()
    ensures |r| == StringRecordSize(s.capacity)
    ensures r[..U32Size] == U32Bytes(|s.content|)
  {
    U32Bytes(|s.content|) + Payload(s)
  }

  /** The length header at the start of a string record. */
  function LengthHeader(b: seq<Byte>): U32
    requires |b| >= U32Size
  {
    DecodeU32(b[..U32Size])
  }

  /** Enough bytes follow to load a string of the given capacity without overrun. */
  predicate StringReadable(b: seq<Byte>, capacity: nat)
  {
    |b| >= U32Size &&
    (LengthHeader(b) <= capacity ==> |b| >= StringRecordSize(capacity))
  }

  /**
   Loads a string of the given capacity from the front of `b`, with the number of
   bytes consumed. A header longer than the destination's capacity is refused.
   */
  function DecodeString(b: seq<Byte>, capacity: nat): (r: Result<(BoundedString, nat)>)
    requires capacity <= MaxCapacity && StringReadable(b, capacity)
    ensures r.Ok? ==> r.value.0.Valid() && r.value.0.capacity == capacity
    ensures r.Ok? ==> r.value.1 == StringRecordSize(capacity) <= |b|
  {
    var n := LengthHeader(b);
    if n <= capacity then
      Ok((BoundedString(capacity, b[U32Size..U32Size + n]), StringRecordSize(capacity)))
    else
      Err(SizeMismatch)
  }

  /**
   A string record is accepted exactly when its length fits the destination's
   capacity, and then loads as the saved characters at that capacity.
   */
  lemma StringAcceptedIff(s: BoundedString, capacity: nat, rest: seq<Byte>)
    requires s.Valid() && capacity <= MaxCapacity
    requires |s.content| <= capacity ==> |StringRecord(s) + rest| >= StringRecordSize(capacity)
    ensures StringReadable(StringRecord(s) + rest, capacity)
    ensures DecodeString(StringRecord(s) + rest, capacity).Ok? <==> |s.content| <= capacity
    ensures |s.content| <= capacity ==>
      DecodeString(StringRecord(s) + rest, capacity) == Ok((BoundedString(capacity, s.content), StringRecordSize(capacity)))
  {
    var b := StringRecord(s) + rest;
    HeaderOfRecord(s, rest);
    var n := |s.content|;
    if n <= capacity {
      assert b[U32Size..U32Size + n] == Payload(s)[..n];
    }
  }

  lemma HeaderOfRecord(s: BoundedString, rest: seq<Byte>)
    requires s.Valid()
    ensures |StringRecord(s) + rest| >= U32Size
    ensures LengthHeader(StringRecord(s) + rest) == |s.content|
  {
    var b := StringRecord(s) + rest;
    assert b[..U32Size] == StringRecord(s)[..U32Size];
    U32RoundTrip(|s.content|);
  }

  /** Loading a string into a destination of its own capacity gives it back. */
  lemma StringRoundTrip(s: BoundedString, rest: seq<Byte>)
    requires s.Valid()
    ensures StringReadable(StringRecord(s) + rest, s.capacity)
    ensures DecodeString(StringRecord(s) + rest, s.capacity) == Ok((s, StringRecordSize(s.capacity)))
  {
    StringAcceptedIff(s, s.capacity, rest);
  }

  // -------------------------------------------------------------------- Data

  function DataRecordSize(capacity: nat): nat
  {
    U32Size + StringRecordSize(capacity)
  }

  /** What Data's save writes: `i`, then `text`. */
  function DataRecord(d: Data): (r: seq<Byte>)
    requires d.text.Valid()
    ensures |r| == DataRecordSize(d.text.capacity)
    ensures r[..U32Size] == U32Bytes(d.i) && r[U32Size..] == StringRecord(d.text)
  {
    U32Bytes(d.i) + StringRecord(d.text)
  }

  predicate DataReadable(b: seq<Byte>, capacity: nat)
  {
    |b| >= U32Size && StringReadable(b[U32Size..], capacity)
  }

  /** Data's load: `i`, then `text`, in the order they were saved. */
  function DecodeData(b: seq<Byte>, capacity: nat): (r: Result<(Data, nat)>)
    requires capacity <= MaxCapacity && DataReadable(b, capacity)
    ensures r.Ok? ==> r.value.0.text.Valid() && r.value.0.text.capacity == capacity
    ensures r.Ok? ==> r.value.1 == DataRecordSize(capacity) <= |b|
  {
    var i := DecodeU32(b[..U32Size]);
    match DecodeString(b[U32Size..], capacity)
    case Ok((text, used)) => Ok((Data(i, text), U32Size + used))
    case Err(e) => Err(e)
  }

  lemma {:induction false} DataRoundTrip(d: Data, rest: seq<Byte>)
    requires d.text.Valid()
    ensures DataReadable(DataRecord(d) + rest, d.text.capacity)
    ensures DecodeData(DataRecord(d) + rest, d.text.capacity) == Ok((d, DataRecordSize(d.text.capacity)))
  {
    var b := DataRecord(d) + rest;
    assert b[..U32Size] == U32Bytes(d.i);
    assert b[U32Size..] == StringRecord(d.text) + rest;
    U32RoundTrip(d.i);
    StringRoundTrip(d.text, rest);
  }
}
