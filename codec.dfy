/**
 Saving and loading values through a persistence channel: `uint32_t`, bounded
 strings, and the test's `Data`, whose save writes `i` then `text` and whose load
 reads them back in the same order. The `Write…` and `Read…` methods are the
 `<<` and `>>` operators: each returns the channel it was given, so calls chain.
 */
module Codec {
  import opened Format
  import opened Channels

  // ------------------------------------------------------------- Store saves

  method SaveU32(store: Store, v: U32)
    requires store.Valid() && store.index + U32Size <= BufferSize
    modifies store`index, store.buffer
    ensures store.buffer[..] == Overwrite(old(store.buffer[..]), old(store.index), U32Bytes(v))
    ensures store.index == old(store.index) + U32Size
  {
    store.Save(U32Bytes(v));
  }

  /** Saves the length header, then the whole N + 1 byte payload. */
  method SaveString(store: Store, s: BoundedString)
    requires s.Valid() && store.Valid()
    requires store.index + StringRecordSize(s.capacity) <= BufferSize
    modifies store`index, store.buffer
    ensures store.buffer[..] == Overwrite(old(store.buffer[..]), old(store.index), StringRecord(s))
    ensures store.index == old(store.index) + StringRecordSize(s.capacity)
  {
    store.Save(U32Bytes(|s.content|));
    store.Save(Payload(s));
    OverwriteConsecutive(old(store.buffer[..]), old(store.index), U32Bytes(|s.content|), Payload(s));
  }

  /** Data's `save_to_persistent`: `i`, then `text`. */
  method SaveData(store: Store, d: Data)
    requires d.text.Valid() && store.Valid()
    requires store.index + DataRecordSize(d.text.capacity) <= BufferSize
    modifies store`index, store.buffer
    ensures store.buffer[..] == Overwrite(old(store.buffer[..]), old(store.index), DataRecord(d))
    ensures store.index == old(store.index) + DataRecordSize(d.text.capacity)
  {
    SaveU32(store, d.i);
    SaveString(store, d.text);
    OverwriteConsecutive(old(store.buffer[..]), old(store.index), U32Bytes(d.i), StringRecord(d.text));
  }

  method WriteU32(store: Store, v: U32) returns (same: Store)
    requires store.Valid() && store.index + U32Size <= BufferSize
    modifies store`index, store.buffer
    ensures same == store
    ensures store.buffer[..] == Overwrite(old(store.buffer[..]), old(store.index), U32Bytes(v))
    ensures store.index == old(store.index) + U32Size
  {
    SaveU32(store, v);
    same := store;
  }

  method WriteString(store: Store, s: BoundedString) returns (same: Store)
    requires s.Valid() && store.Valid()
    requires store.index + StringRecordSize(s.capacity) <= BufferSize
    modifies store`index, store.buffer
    ensures same == store
    ensures store.buffer[..] == Overwrite(old(store.buffer[..]), old(store.index), StringRecord(s))
    ensures store.index == old(store.index) + StringRecordSize(s.capacity)
  {
    SaveString(store, s);
    same := store;
  }

  /** Data's `operator <<`. */
  method WriteData(store: Store, d: Data) returns (same: Store)
    requires d.text.Valid() && store.Valid()
    requires store.index + DataRecordSize(d.text.capacity) <= BufferSize
    modifies store`index, store.buffer
    ensures same == store
    ensures store.buffer[..] == Overwrite(old(store.buffer[..]), old(store.index), DataRecord(d))
    ensures store.index == old(store.index) + DataRecordSize(d.text.capacity)
  {
    SaveData(store, d);
    same := store;
  }

  // ------------------------------------------------------------- Store loads

  method LoadU32(store: Store) returns (v: U32)
    requires store.Valid() && store.index + U32Size <= BufferSize
    modifies store`index
    ensures U32Bytes(v) == store.buffer[old(store.index)..old(store.index) + U32Size]
    ensures store.index == old(store.index) + U32Size
  {
    var bytes := store.Load(U32Size);
    v := DecodeU32(bytes);
    U32Complete(bytes);
  }

  /**
   Loads a string into a destination of capacity `dest.capacity`. A stored length
   above that capacity throws `persistence_size_mismatch` after only the header
   has been read, and the destination keeps its value.
   */
  method LoadString(store: Store, dest: BoundedString) returns (result: BoundedString, outcome: Outcome)
    requires dest.Valid() && store.Valid() && store.index <= BufferSize
    requires StringReadable(store.buffer[store.index..], dest.capacity)
    modifies store`index
    ensures var r := DecodeString(store.buffer[old(store.index)..], dest.capacity);
      && (outcome == if r.Ok? then Pass else Fail(r.error))
      && (r.Ok? ==> result == r.value.0 && store.index == old(store.index) + r.value.1)
      && (r.Err? ==> result == dest && store.index == old(store.index) + U32Size)
  {
    ghost var rest := store.buffer[store.index..];
    assert rest[..U32Size] == store.buffer[store.index..store.index + U32Size];
    var header := store.Load(U32Size);
    var size := DecodeU32(header);
    assert size == LengthHeader(rest);
    if size > dest.capacity {
      return dest, Fail(SizeMismatch);
    }
    var payload := store.Load(dest.capacity + 1);
    assert payload == rest[U32Size..U32Size + dest.capacity + 1];
    assert payload[..size] == rest[U32Size..U32Size + size];
    result, outcome := BoundedString(dest.capacity, payload[..size]), Pass;
  }

  method ReadU32(store: Store) returns (same: Store, v: U32)
    requires store.Valid() && store.index + U32Size <= BufferSize
    modifies store`index
    ensures same == store
    ensures U32Bytes(v) == store.buffer[old(store.index)..old(store.index) + U32Size]
    ensures store.index == old(store.index) + U32Size
  {
    v := LoadU32(store);
    same := store;
  }

  method ReadString(store: Store, dest: BoundedString) returns (same: Store, result: BoundedString, outcome: Outcome)
    requires dest.Valid() && store.Valid() && store.index <= BufferSize
    requires StringReadable(store.buffer[store.index..], dest.capacity)
    modifies store`index
    ensures same == store
    ensures var r := DecodeString(store.buffer[old(store.index)..], dest.capacity);
      && (outcome == if r.Ok? then Pass else Fail(r.error))
      && (r.Ok? ==> result == r.value.0 && store.index == old(store.index) + r.value.1)
      && (r.Err? ==> result == dest && store.index == old(store.index) + U32Size)
  {
    result, outcome := LoadString(store, dest);
    same := store;
  }

  /**
   Data's `load_from_persistent`: `i`, then `text`. `i` is assigned before the
   string is loaded, so when the string throws, `i` already holds the loaded value.
   */
  method LoadData(store: Store, dest: Data) returns (result: Data, outcome: Outcome)
    requires dest.text.Valid() && store.Valid() && store.index <= BufferSize
    requires DataReadable(store.buffer[store.index..], dest.text.capacity)
    modifies store`index
    ensures var r := DecodeData(store.buffer[old(store.index)..], dest.text.capacity);
      && (outcome == if r.Ok? then Pass else Fail(r.error))
      && (r.Ok? ==> result == r.value.0 && store.index == old(store.index) + r.value.1)
      && (r.Err? ==> result.text == dest.text && store.index == old(store.index) + 2 * U32Size)
      && (r.Err? ==> result.i == DecodeU32(store.buffer[old(store.index)..old(store.index) + U32Size]))
  {
    ghost var rest := store.buffer[store.index..];
    assert rest[..U32Size] == store.buffer[store.index..store.index + U32Size];
    assert rest[U32Size..] == store.buffer[store.index + U32Size..];
    var i := LoadU32(store);
    U32RoundTrip(i);
    var text;
    text, outcome := LoadString(store, dest.text);
    result := Data(i, text);
  }

  /** Data's `operator >>`. */
  method ReadData(store: Store, dest: Data) returns (same: Store, result: Data, outcome: Outcome)
    requires dest.text.Valid() && store.Valid() && store.index <= BufferSize
    requires DataReadable(store.buffer[store.index..], dest.text.capacity)
    modifies store`index
    ensures same == store
    ensures var r := DecodeData(store.buffer[old(store.index)..], dest.text.capacity);
      && (outcome == if r.Ok? then Pass else Fail(r.error))
      && (r.Ok? ==> result == r.value.0 && store.index == old(store.index) + r.value.1)
      && (r.Err? ==> result.text == dest.text && store.index == old(store.index) + 2 * U32Size)
      && (r.Err? ==> result.i == DecodeU32(store.buffer[old(store.index)..old(store.index) + U32Size]))
  {
    result, outcome := LoadData(store, dest);
    same := store;
  }

  // --------------------------------------------------------------- Profiling

  /** Profiling counts exactly the bytes a save to a store writes. */
  method ProfileU32(profiler: Profiler, v: U32)
    modifies profiler
    ensures profiler.size == old(profiler.size) + |U32Bytes(v)|
  {
    profiler.Save(U32Bytes(v));
  }

  method ProfileString(profiler: Profiler, s: BoundedString)
    requires s.Valid()
    modifies profiler
    ensures profiler.size == old(profiler.size) + |StringRecord(s)|
  {
    profiler.Save(U32Bytes(|s.content|));
    profiler.Save(Payload(s));
  }

  method ProfileData(profiler: Profiler, d: Data)
    requires d.text.Valid()
    modifies profiler
    ensures profiler.size == old(profiler.size) + |DataRecord(d)|
  {
    ProfileU32(profiler, d.i);
    ProfileString(profiler, d.text);
  }

  /** `persistence_size`: the bytes saving `d` takes, found by a profiling pass. */
  method PersistenceSize(d: Data) returns (size: nat)
    requires d.text.Valid()
    ensures size == |DataRecord(d)| == DataRecordSize(d.text.capacity)
  {
    var profiler := new Profiler();
    ProfileData(profiler, d);
    size := profiler.size;
  }
}
