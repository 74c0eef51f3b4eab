/**
 The five tests of the persistence suite, restated as methods whose
 postconditions are the tests' checks.
 */
module PersistenceTests {
  import opened Format
  import opened Channels
  import opened Codec

  /** The bytes of an ASCII literal. */
  function Ascii(s: string): (r: seq<Byte>)
    requires forall k :: 0 <= k < |s| ==> s[k] as int < 0x100
    ensures |r| == |s| && forall k :: 0 <= k < |s| ==> r[k] == s[k] as int
  {
    seq(|s|, k requires 0 <= k < |s| => s[k] as int)
  }

  /** `String`, the suite's `etl::string<10>`. */
  const StringCapacity: nat := 10

  /** `SmallerString`, the suite's `etl::string<5>`. */
  const SmallerStringCapacity: nat := 5

  /** The profiled size of `{99, "99"}` is 4 + 4 + 11 bytes. */
  method ProfilerSizeTest() returns (size: nat)
    ensures size == U32Size + U32Size + (StringCapacity + 1) == 19
  {
    var profiler := new Profiler();
    var data1 := Data(99, BoundedString(StringCapacity, Ascii("99")));
    ProfileU32(profiler, data1.i);
    ProfileString(profiler, data1.text);
    size := profiler.size;
  }

  method PersistenceSizeTest() returns (size: nat)
    ensures size == U32Size + U32Size + (StringCapacity + 1) == 19
  {
    var data1 := Data(99, BoundedString(StringCapacity, Ascii("99")));
    size := PersistenceSize(data1);
  }

  /** Save `{99, "99"}`, rewind, load into `{0, "0"}`: the two are equal. */
  method SaveLoadFunctionsTest() returns (data1: Data, data2: Data, outcome: Outcome)
    ensures outcome == Pass
    ensures data1 == data2 && data1.i == data2.i
    ensures |data1.text.content| == |data2.text.content| && data1.text == data2.text
    ensures data1 == Data(99, BoundedString(StringCapacity, Ascii("99")))
  {
    data1 := Data(99, BoundedString(StringCapacity, Ascii("99")));
    data2 := Data(0, BoundedString(StringCapacity, Ascii("0")));
    var saved;
    saved, data2, outcome := SaveLoadFunctions(data1, data2);
  }

  /** The same round trip through the chained `<<` and `>>` operators. */
  method SaveLoadStreamingTest() returns (data1: Data, data2: Data, outcome: Outcome)
    ensures outcome == Pass
    ensures data1 == data2 && data1.i == data2.i
    ensures |data1.text.content| == |data2.text.content| && data1.text == data2.text
    ensures data1 == Data(99, BoundedString(StringCapacity, Ascii("99")))
  {
    data1 := Data(99, BoundedString(StringCapacity, Ascii("99")));
    data2 := Data(0, BoundedString(StringCapacity, Ascii("0")));
    data2, outcome := SaveLoadStreaming(data1, data2);
  }

  /** Loading the record of a `string<10>` holding "0123456789" into a `string<5>` throws. */
  method SaveLoadMismatchTest() returns (text2: BoundedString, outcome: Outcome)
    ensures outcome == Fail(SizeMismatch)
    ensures text2 == BoundedString(SmallerStringCapacity, Ascii("00000"))
  {
    var text1 := BoundedString(StringCapacity, Ascii("0123456789"));
    text2 := BoundedString(SmallerStringCapacity, Ascii("00000"));
    text2, outcome := SaveLoadString(text1, text2);
  }

  /**
   The steps of the function-form round trip, for any `Data` whose record fits
   the buffer: start, save, start, load into a destination of the same string
   capacity. The save advances the cursor by the record size and the load gives
   the value back.
   */
  method SaveLoadFunctions(data1: Data, data2: Data) returns (saved: nat, loaded: Data, outcome: Outcome)
    requires data1.text.Valid() && data2.text.Valid() && data2.text.capacity == data1.text.capacity
    requires DataRecordSize(data1.text.capacity) <= BufferSize
    ensures saved == DataRecordSize(data1.text.capacity)
    ensures outcome == Pass && loaded == data1
  {
    var store := new Store();
    store.Start();
    ghost var blank := store.buffer[..];
    SaveData(store, data1);
    saved := store.index;
    store.Start();
    var n := DataRecordSize(data1.text.capacity);
    assert store.buffer[..] == DataRecord(data1) + blank[n..];
    DataRoundTrip(data1, blank[n..]);
    loaded, outcome := LoadData(store, data2);
  }

  /** The same steps with `store << i << text` and `store >> i >> text`. */
  method SaveLoadStreaming(data1: Data, data2: Data) returns (loaded: Data, outcome: Outcome)
    requires data1.text.Valid() && data2.text.Valid() && data2.text.capacity == data1.text.capacity
    requires DataRecordSize(data1.text.capacity) <= BufferSize
    ensures outcome == Pass && loaded == data1
  {
    var store := new Store();
    store.Start();
    ghost var blank := store.buffer[..];
    var chained := WriteU32(store, data1.i);
    chained := WriteString(chained, data1.text);
    OverwriteConsecutive(blank, 0, U32Bytes(data1.i), StringRecord(data1.text));
    store.Start();
    var n := DataRecordSize(data1.text.capacity);
    assert store.buffer[..] == DataRecord(data1) + blank[n..];
    var i, text;
    chained, i := ReadU32(store);
    assert store.buffer[..U32Size] == U32Bytes(data1.i);
    U32RoundTrip(i);
    U32RoundTrip(data1.i);
    assert store.buffer[U32Size..] == StringRecord(data1.text) + blank[n..];
    StringRoundTrip(data1.text, blank[n..]);
    chained, text, outcome := ReadString(chained, data2.text);
    loaded := Data(i, text);
  }

  /**
   For any saved string and any destination: start, save, start, load. The load
   succeeds exactly when the stored length fits the destination's capacity; on
   success it yields the saved characters at the destination's capacity, on
   failure the destination is kept.
   */
  method SaveLoadString(s: BoundedString, dest: BoundedString) returns (result: BoundedString, outcome: Outcome)
    requires s.Valid() && dest.Valid()
    requires StringRecordSize(s.capacity) <= BufferSize
    requires |s.content| <= dest.capacity ==> StringRecordSize(dest.capacity) <= BufferSize
    ensures outcome == Pass <==> |s.content| <= dest.capacity
    ensures outcome != Pass ==> outcome == Fail(SizeMismatch) && result == dest
    ensures outcome == Pass ==> result == BoundedString(dest.capacity, s.content)
  {
    var store := new Store();
    store.Start();
    ghost var blank := store.buffer[..];
    SaveString(store, s);
    store.Start();
    var n := StringRecordSize(s.capacity);
    assert store.buffer[..] == StringRecord(s) + blank[n..];
    StringAcceptedIff(s, dest.capacity, blank[n..]);
    result, outcome := LoadString(store, dest);
  }
}
