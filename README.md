# Persistence of the Embedded Template Library: store, codec and size profile

This project models the core exercised by the persistence test suite of the
Embedded Template Library (`test/test_persistence.cpp`):

- the test's `Store`, an `ipersistence` over a fixed `char buffer[20]` with a
  cursor `index`, whose `save` and `load` copy bytes in place at the cursor;
- the size profiler (`persistence_profiler`), which only adds up the lengths
  a save pass would write, and `persistence_size` built on it;
- the codec for `uint32_t`, for `etl::string<N>` and for the test's composite
  `struct Data { uint32_t i; String text; }`, whose save writes `i` then `text`
  and whose load reads them back in the same order, with the chaining
  operators `<<` and `>>`;
- the `persistence_size_mismatch` failure when a stored string does not fit
  the destination string type.

Layout (module `Format`): a `uint32_t` is 4 bytes; a string of capacity N is a
4-byte length header followed by exactly N + 1 payload bytes whatever its
current length, so the record of `Data` with `etl::string<10>` is
4 + 4 + 11 = 19 bytes and fits the 20-byte buffer. There is no stored
capacity field: the sizes the tests assert leave no room for one.

Mismatch rule: the persistence header itself is not part of this model, so
the rule is chosen to agree with every test: a load reads the 4-byte length
header and throws `persistence_size_mismatch` when that length exceeds the
destination's capacity, before the payload is read; the destination keeps its
value and the cursor stays just past the header. Otherwise the N + 1 payload
bytes of the destination's capacity N are read and the first `length` of them
become the content. A consequence worth knowing: a short string saved from a
larger capacity is accepted by a smaller destination and reads a payload of
the smaller width.

Modules: `Format` (pure byte layout, decoders and their lemmas), `Channels`
(the `Store` and `Profiler` classes), `Codec` (save, load and profile methods
over the channels, and the stream operators), `PersistenceTests` (the five
tests of the suite as methods whose postconditions are the tests' checks,
plus all-inputs versions of the round trip and the mismatch rule).

Exceptions are modelled as an `Outcome` (`Pass` or `Fail(SizeMismatch)`);
a load returns the new value of its destination instead of writing through a
reference.

## Model

| member | source | states |
|---|---|---|
| `Format.U32RoundTrip` | test/test_persistence.cpp:66-86 | loading the 4 bytes saved for a `uint32_t` gives the same value |
| `Format.U32Complete` | test/test_persistence.cpp:86 | any 4 bytes are exactly the record of the `uint32_t` loaded from them |
| `Format.FromLittleEndian` | test/test_persistence.cpp:86 | a value loaded from w bytes is below 256^w |
| `Format.StringRecord` | test/test_persistence.cpp:163-167 | a string record is the length header followed by N + 1 payload bytes; its size is 4 + N + 1 whatever the content |
| `Format.DecodeString` | test/test_persistence.cpp:89 | a successful string load yields a valid string of the destination's capacity and consumes exactly 4 + N + 1 bytes |
| `Format.StringAcceptedIff` | test/test_persistence.cpp:229-244 | a saved string is accepted by a destination exactly when its length is at most the destination's capacity, and then loads as the saved characters at that capacity |
| `Format.StringRoundTrip` | test/test_persistence.cpp:189-202 | loading a string record into a destination of the same capacity gives back the same string and consumes the whole record |
| `Format.DataRecord` | test/test_persistence.cpp:61-70 | Data's record is `i`'s 4 bytes followed by `text`'s record, 4 + 4 + N + 1 bytes in all |
| `Format.DecodeData` | test/test_persistence.cpp:81-90 | a successful Data load yields a valid string of the destination's capacity and consumes 4 + 4 + N + 1 bytes |
| `Format.DataRoundTrip` | test/test_persistence.cpp:183-203 | loading Data's record, whatever follows it, gives back the same `i` and `text` |
| `Channels.Overwrite` | test/test_persistence.cpp:124-130 | saving at an offset sets exactly those bytes to the data and keeps every other byte |
| `Channels.OverwriteConsecutive` | test/test_persistence.cpp:61-70 | two saves one after the other write the same buffer as one save of their concatenation |
| `Channels.OverwriteSupersedes` | test/test_persistence.cpp:112-130 | rewinding and saving at least as many bytes again leaves no trace of the earlier save |
| `Channels.Store.constructor` | test/test_persistence.cpp:105-109 | a new store has cursor 0 and all 20 bytes 0xFF |
| `Channels.Store.Start` | test/test_persistence.cpp:112-115 | the cursor returns to 0 and the buffer is unchanged |
| `Channels.Store.Step` | test/test_persistence.cpp:118-121 | the cursor grows by exactly n and the buffer is unchanged |
| `Channels.Store.Save` | test/test_persistence.cpp:124-130 | the bytes at the cursor become the data, all others are kept, the cursor advances by the length |
| `Channels.Store.Load` | test/test_persistence.cpp:133-139 | the result is the bytes at the cursor, the buffer is unchanged, the cursor advances by the length |
| `Channels.Profiler.constructor` | test/test_persistence.cpp:158 | a new profiler has counted 0 bytes |
| `Channels.Profiler.Save` | test/test_persistence.cpp:162-167 | profiling a save adds its length to the size |
| `Codec.SaveU32` | test/test_persistence.cpp:66 | saving a `uint32_t` writes its 4-byte record at the cursor |
| `Codec.SaveString` | test/test_persistence.cpp:69 | saving a string writes its whole record at the cursor and advances by 4 + N + 1 |
| `Codec.SaveData` | test/test_persistence.cpp:61-70 | saving Data writes `i` then `text`, i.e. Data's record, at the cursor |
| `Codec.WriteU32` | test/test_persistence.cpp:214 | `<<` on a `uint32_t` saves it and returns the same store |
| `Codec.WriteString` | test/test_persistence.cpp:214 | `<<` on a string saves it and returns the same store |
| `Codec.WriteData` | test/test_persistence.cpp:72-77 | Data's `<<` saves it and returns the same store |
| `Codec.LoadU32` | test/test_persistence.cpp:86 | the loaded value is the one whose record is at the cursor; the cursor advances by 4 |
| `Codec.LoadString` | test/test_persistence.cpp:89 | the load agrees with `DecodeString` on the bytes at the cursor; on mismatch it fails, keeps the destination and advances only past the header |
| `Codec.LoadData` | test/test_persistence.cpp:81-90 | the load agrees with `DecodeData`; on a string mismatch `i` already holds the value whose record is at the cursor and `text` is kept |
| `Codec.ReadU32` | test/test_persistence.cpp:220 | `>>` on a `uint32_t` loads it and returns the same store |
| `Codec.ReadString` | test/test_persistence.cpp:220 | `>>` on a string loads it and returns the same store |
| `Codec.ReadData` | test/test_persistence.cpp:92-97 | Data's `>>` loads it as `LoadData` does, including `i` already loaded on a mismatch, and returns the same store |
| `Codec.ProfileU32` | test/test_persistence.cpp:162 | profiling a `uint32_t` counts the length of its record |
| `Codec.ProfileString` | test/test_persistence.cpp:163 | profiling a string counts the length of its record, 4 + N + 1 |
| `Codec.ProfileData` | test/test_persistence.cpp:61-70 | profiling Data counts the length of Data's record |
| `Codec.PersistenceSize` | test/test_persistence.cpp:175 | `persistence_size` is the length of the record a save writes, 4 + 4 + N + 1 |
| `PersistenceTests.ProfilerSizeTest` | test/test_persistence.cpp:156-168 | profiling `{99, "99"}` field by field gives 4 + 4 + 11 = 19 |
| `PersistenceTests.PersistenceSizeTest` | test/test_persistence.cpp:171-180 | `persistence_size` of `{99, "99"}` is 4 + 4 + 11 = 19 |
| `PersistenceTests.SaveLoadFunctionsTest` | test/test_persistence.cpp:183-203 | save, rewind and load into `{0, "0"}` succeeds and equals the saved `{99, "99"}` in `i`, size and text |
| `PersistenceTests.SaveLoadStreamingTest` | test/test_persistence.cpp:206-226 | the same round trip through chained `<<` and `>>` |
| `PersistenceTests.SaveLoadMismatchTest` | test/test_persistence.cpp:229-244 | loading the record of `string<10>` "0123456789" into `string<5>` fails with the size mismatch and keeps "00000" |
| `PersistenceTests.SaveLoadFunctions` | test/test_persistence.cpp:185-197 | for every Data whose record fits the buffer, the save advances the cursor by the record size and the load into a same-capacity destination gives the value back |
| `PersistenceTests.SaveLoadStreaming` | test/test_persistence.cpp:208-220 | the same for every such Data through chained `<<` and `>>` |
| `PersistenceTests.SaveLoadString` | test/test_persistence.cpp:231-243 | for every saved string and destination, the load succeeds exactly when the length fits the capacity, yielding the saved characters, and otherwise fails with the size mismatch and keeps the destination |

## Left out

- `flush()` (test/test_persistence.cpp:141-145) is an empty hook and is not modelled.
- The `std::ostream` printer for `String` (test/test_persistence.cpp:40-45) and the test framework macros are not modelled; the tests' checks are the postconditions of the `PersistenceTests` methods.
- `etl/experimental/persistence.h` and `etl/string.h` are not part of this model: only the byte counts and outcomes the tests fix are modelled, and the mismatch rule above is a choice consistent with them.
- The payload bytes past a string's characters (terminator and whatever the string's buffer holds after it) are modelled as zero bytes; loading ignores them.
- The byte order of a `uint32_t` is fixed to little-endian; the source copies host memory, and only agreement between save and load is modelled.
- Saves and loads past the 20-byte buffer are undefined in the source and are excluded by preconditions instead of being modelled.
- `Channels.Store.Step`: does not model `size_t` wrap-around of the cursor, which is unbounded here.
- `Codec.LoadString`, `Codec.LoadData`, `Codec.ReadString`, `Codec.ReadData`: return the destination's new value instead of writing through a `String&` or `Data&`; aliasing between destinations is not modelled.
- `Channels.Store.Load`: returns the bytes instead of writing them through a `char*`; aliasing between the destination and the buffer is not modelled.
- The profiler's `start` and `load` are not exercised by the tests and are not modelled.
- String capacities are bounded by 2^32 - 1 so that every length fits the 4-byte header.
- That loading members in a different order than they were saved goes undetected is not stated as a property.
