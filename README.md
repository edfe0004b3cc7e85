# pyroscope-go delta profiles, profile builders and utilities in Dafny

This project models the core of pyroscope-go, the Go profiling client, and proves properties of that model.

**Delta heap and mutex profilers (godeltaprof).** These turn the Go runtime's cumulative counters into per-read deltas. Each keeps a profMap from (zero-trimmed stack, aux value) to a baseline entry, and tells a profile builder what to write.

**The two profile builders.**
- The pprof `profileBuilder` interns strings, collapses inlined frames with a `pcDeck`, and assigns 1-based location and function ids.
- The OTLP `otlpProtoBuilder` is a copy that works with 0-based ids and a flattened location-index list.
- Both cache locations by first PC and attribute each location to the first memory mapping that covers it.

**Around them:**
- the `/proc/self/maps` parser that supplies the mappings;
- the older single-pass heap profiler of the `delta` package;
- the sorted string map;
- the length-prefixed upload payloads of `internal/session`;
- the test-side stack collapse of `godeltaprof/compat`;
- the two k6 baggage-to-label middlewares.

One module per source unit:

| module | file | models |
|---|---|---|
| `Bytes`, `GoStrings` | bytes.dfy, strings.dfy | Go's big-endian `uint64` encoding; `strings.Compare` order, `Split`, `Join`, `ReplaceAll` |
| `SortedMap` | sortedmap.dfy | internal/sortedmap (a class with `data` and `keys` fields) |
| `Session` | session.dfy | payload framing, `copyBuf`, the profile-type predicates |
| `StackCollapse` | stackcollapse.dfy | `stackCollapseProfile`, `pprofSampleStackToStrings` |
| `Baggage`, `K6Labels`, `K6Contrib` | k6.dfy | x/k6 and contrib/k6 |
| `Mapping`, `MappingFormat` | mapping.dfy, mapping_format.dfy | the maps parser, and the text format it reads (its round-trip partner) |
| `Runtime` | runtime.dfy | runtime frames and `allFrames` |
| `Deck` | deck.dfy | `pcDeck` (a class, embedded in both builders) |
| `Locations` | locations.dfy | the `LocsForStack` walk, shared by both builders and parameterised by the id base |
| `Proto` | proto.dfy | the pprof `profileBuilder` (a class over an abstract message log) |
| `Otlp` | otlp.dfy | `otlpProtoBuilder` (a class over the OTLP profile value) |
| `DeltaCommon` | delta_common.dfy | records, `stack`, the hide-runtime retry, `ScaleHeapSample` |
| `DeltaHeap` | delta_heap.dfy | the two-pass heap profiler |
| `MutexScale`, `DeltaMutex` | delta_mutex.dfy | the go1.20 scaler and the mutex profiler |
| `LegacyDeltaHeap` | legacy_heap.dfy | the single-pass heap profiler of the `delta` package |

Each stateful unit is a class whose methods are proved against a pure specification function:
- `DeltaHeapProfiler.WriteHeapProto` equals `Read`;
- `LocsForStack` equals `LocWalk`;
- `ParseProcSelfMaps` equals `ParseAll`.

The properties the source promises are then proved as lemmas about those functions.

**How the delta profilers are modelled.** A delta profiler does not build bytes in the model. It returns the log of calls it makes on its `ProfileBuilder`: the header fields, `LocsForStack` with the stack it passes, `Sample` with its values, location ids and aux label, and `Build`. The location ids a builder returns are a parameter of type `Oracle`: a function of the call history and the stack. The call log can therefore be compared with the builder models without fixing one builder.

**Negative heap deltas.** Both heap profilers skip a record whose count went down and keep its baseline (godeltaprof/internal/pprof/delta_heap.go:57-60, delta/internal/pprof/delta_heap.go:82-86); godeltaprof also leaves `acc` uncleared, so the stale count is added again on the next read (`DeltaHeap.NegativeDeltaStale`, `LegacyDeltaHeap.LegacyBaseline`).

## Model

| member | source | states |
|---|---|---|
| Bytes.BigEndian | internal/session/session.go:60-64 | `binary.BigEndian.PutUint64` writes exactly k bytes |
| Bytes.FromBigEndian | internal/session/session.go:60-64 | the number a big-endian byte string denotes is below 256^\|b\| |
| Bytes.FromBigEndianInverse | internal/session/session.go:60-64 | decoding the k-byte encoding of n < 256^k gives n back |
| Bytes.BigEndianInverse | internal/session/session.go:60-64 | encoding a decoded byte string gives the same bytes |
| Session.SingleBytes | internal/session/session.go:55-57 | `Single.Bytes` returns its bytes unchanged: same length, same elements |
| Session.BytesWithLength | internal/session/session.go:60-64 | length \|s\| + 8; the first 8 bytes read big-endian are \|s\|; s follows |
| Session.DoubleBytes | internal/session/session.go:73-75 | `Double.Bytes` is prev's framed bytes followed by current's framed bytes |
| Session.SplitFirst | internal/session/session.go:60-64 | the reader of the framing: any split it returns reassembles the input |
| Session.SplitSingle | internal/session/session.go:60-64 | a framed payload splits back into itself and nothing |
| Session.SplitDouble | internal/session/session.go:73-75 | splitting a Double payload on its first length prefix recovers prev, then current |
| Session.CopyBuf | internal/session/session.go:156-160 | a newly allocated array with equal contents |
| Session.IsCPUEnabled | internal/session/session.go:177-184 | true iff ProfileCPU occurs in profileTypes |
| Session.IsMemEnabled | internal/session/session.go:186-193 | true iff one of inuse_objects, alloc_objects, inuse_space, alloc_space occurs |
| GoStrings.LessEqTotal | internal/sortedmap/sortedmap.go:14 | the string order used by `keys[i] >= k` is total |
| GoStrings.LessEqTransitive | internal/sortedmap/sortedmap.go:14 | and transitive |
| GoStrings.LessEqAntisymmetric | internal/sortedmap/sortedmap.go:14 | and antisymmetric |
| GoStrings.ReplaceChar | contrib/k6/baggage.go:48-50 | `strings.ReplaceAll` of one character: same length, each `from` replaced, none left |
| GoStrings.SplitJoin | godeltaprof/compat/stackcollapse.go:153 | splitting the `strings.Join` of a non-empty list none of whose elements holds the separator gives the list back |
| SortedMap.InsertionPointBounds | internal/sortedmap/sortedmap.go:14 | every key before the `sort.Search` index is below k, every key from it on is at least k |
| SortedMap.InsertionPointUnique | internal/sortedmap/sortedmap.go:14 | the index with those two properties is unique |
| SortedMap.InsertKeepsSorted | internal/sortedmap/sortedmap.go:15-17 | inserting at that index keeps the list sorted, adds exactly one key (a permutation of old + k, duplicates kept), keeps the keys before it and shifts the rest |
| SortedMap.SortedMap.constructor | internal/sortedmap/sortedmap.go:28-33 | `New`: empty map and empty key list |
| SortedMap.SortedMap.Search | internal/sortedmap/sortedmap.go:14 | the binary search finds the insertion point |
| SortedMap.SortedMap.Put | internal/sortedmap/sortedmap.go:12-18 | data[k] := v and the key list is the old one with k inserted at its insertion point, still sorted |
| SortedMap.SortedMap.Get | internal/sortedmap/sortedmap.go:20-22 | the value stored under k, "" for a key never put |
| SortedMap.SortedMap.Keys | internal/sortedmap/sortedmap.go:24-26 | the key list itself, sorted, holding exactly the keys of the data |
| StackCollapse.Reversed | godeltaprof/compat/stackcollapse.go:148-151 | element i is element \|xs\| - 1 - i |
| StackCollapse.ReversedReversed | godeltaprof/compat/stackcollapse.go:148-151 | reversing twice is the identity |
| StackCollapse.ReverseInPlace | godeltaprof/compat/stackcollapse.go:148-151 | the swap loop reverses the array in place |
| StackCollapse.SampleStackToStrings | godeltaprof/compat/stackcollapse.go:137-155 | funcs is the frames' names, leaf first, reversed (root first); the line is their ";"-join |
| StackCollapse.StackStringNames | godeltaprof/compat/stackcollapse.go:137-155 | splitting the stack line on ";" gives the root-first names (no name holds ";") |
| StackCollapse.SortByLineSorted | godeltaprof/compat/stackcollapse.go:105-107 | the sort is sorted by line and a permutation of its input |
| StackCollapse.AddValues | godeltaprof/compat/stackcollapse.go:115-117 | element-wise `+=` of s.value into the kept stack's values |
| StackCollapse.MergeStrictlySorted | godeltaprof/compat/stackcollapse.go:108-122 | merging a sorted list gives strictly increasing lines |
| StackCollapse.MergeLines | godeltaprof/compat/stackcollapse.go:108-122 | merging keeps exactly the set of lines |
| StackCollapse.MergeColumnTotal | godeltaprof/compat/stackcollapse.go:108-122 | merging keeps the total of every value column |
| StackCollapse.MergeLineTotal | godeltaprof/compat/stackcollapse.go:108-122 | on a sorted list, column c of each merged stack is the total of column c over the stacks with its line |
| StackCollapse.MergeFirstFuncs | godeltaprof/compat/stackcollapse.go:108-122 | on a sorted list, each merged stack keeps the funcs of the first stack with its line |
| StackCollapse.SortByLineColumnTotal | godeltaprof/compat/stackcollapse.go:105-107 | sorting keeps every column total and width |
| StackCollapse.SortByLineLineTotal | godeltaprof/compat/stackcollapse.go:105-107 | sorting keeps, for every line, the total of each column over the stacks with that line |
| StackCollapse.BuildStacks | godeltaprof/compat/stackcollapse.go:96-104 | one stack per sample, in sample order |
| StackCollapse.MergeRuns | godeltaprof/compat/stackcollapse.go:108-122 | the merge loop computes Merge |
| StackCollapse.StackCollapseProfile | godeltaprof/compat/stackcollapse.go:95-130 | the result is strictly sorted by line, has the samples' lines, keeps every column total, and each stack's value is the column sums over the samples with its line, its funcs those of the first of them after the sort |
| StackCollapse.CollapseProperties | godeltaprof/compat/stackcollapse.go:95-130 | sorted by line without repeats, the samples' lines, column c's total kept, and column c of each merged stack is the total over the samples with its line |
| StackCollapse.CollapseSums | godeltaprof/compat/stackcollapse.go:108-122 | every merged stack's whole value is the per-column sums over the samples with its line, and its funcs are those of the first of them in sorted order |
| K6Labels.LabelKey | x/k6/baggage.go:135 | the label key has the member key's length and no "." |
| K6Labels.BaggageToLabels | x/k6/baggage.go:124-140 | the loop computes K6Pairs |
| K6Labels.K6PairsAppend | x/k6/baggage.go:124-140 | the pairs of a concatenation are the concatenation of the pairs |
| K6Labels.K6PairsSingle | x/k6/baggage.go:126-137 | one member is a label exactly when its key starts with "k6." and its value is not empty |
| K6Labels.K6PairsShape | x/k6/baggage.go:124-140 | every label key starts with "k6_" and has no dot; every value is non-empty |
| K6Labels.GetBaggageLabelsFromContext | x/k6/baggage.go:113-121 | nil exactly for an empty baggage, otherwise the k6 labels |
| K6Labels.SetBaggageContextFromHeader | x/k6/baggage.go:76-89 | false and the request unchanged iff the header is empty or does not parse; otherwise the request carries the parsed baggage |
| K6Contrib.Apply | contrib/k6/baggage.go:28-40 | WithFilters appends filters only, WithTransforms appends transforms only |
| K6Contrib.ConfigureAccumulates | contrib/k6/baggage.go:57-71 | after all options, the configuration holds every option's filters and transforms in order |
| K6Contrib.LabelsFromBaggageHandler | contrib/k6/baggage.go:57-71 | the option loop computes Configure |
| K6Contrib.GetBaggageLabels | contrib/k6/baggage.go:92-121 | nil iff parsing fails; otherwise Pairs of the members |
| K6Contrib.PairsAppend | contrib/k6/baggage.go:99-117 | pairs of a concatenation are the concatenation of pairs |
| K6Contrib.PairsSingle | contrib/k6/baggage.go:100-116 | a member is skipped when its value is empty or a filter rejects its key; otherwise (transformed key, unchanged value) |
| K6Contrib.K6OptionsMatchBaggageToLabels | contrib/k6/baggage.go:43-52 | configured with K6Options, getBaggageLabels gives exactly x/k6's baggageToLabels |
| Mapping.Cut | godeltaprof/internal/pprof/mapping.go:160-176 | when found, before ++ sep ++ after == s; otherwise (s, empty, false) |
| Mapping.CutFirst | godeltaprof/internal/pprof/mapping.go:160-176 | the cut is at the first sep; not found iff sep does not occur |
| Mapping.ParseHexUint64 | godeltaprof/internal/pprof/mapping.go:102-118 | `ParseUint(s, 16, 64)` succeeds only on non-empty hex digits denoting a value below 2^64 |
| Mapping.TrimLeftSpaces | godeltaprof/internal/pprof/mapping.go:91 | the result is a suffix of s that starts with no space, and everything cut off is spaces |
| Mapping.NextField | godeltaprof/internal/pprof/mapping.go:88-93 | the next closure computes Next |
| Mapping.ParseMapsLine | godeltaprof/internal/pprof/mapping.go:97-109 | the loop body computes ParseLine |
| Mapping.ParsePermStep | godeltaprof/internal/pprof/mapping.go:110-118 | the permission and offset part computes ParsePerm |
| Mapping.ParseFileStep | godeltaprof/internal/pprof/mapping.go:119-150 | the inode and file part computes ParseFile |
| Mapping.NextLine | godeltaprof/internal/pprof/mapping.go:95-96 | one line is cut off and parsed; the rest is shorter |
| Mapping.ParseProcSelfMaps | godeltaprof/internal/pprof/mapping.go:63-152 | the addMapping calls are ParseAll: one per accepted line, in input order |
| Mapping.ReadMapping | godeltaprof/internal/pprof/mapping.go:34-58 | the real entries (Fake false), or exactly one zero entry with Fake true when there are none |
| Mapping.ToMemMap | godeltaprof/internal/pprof/mapping.go:38-45 | each addMapping call becomes a MemMap with its fields and Fake false |
| MappingFormat.ParseHexFormatHex | godeltaprof/internal/pprof/mapping.go:102-118 | parsing formatted hex gives n back below 2^64 and fails at or above it |
| MappingFormat.CutAt | godeltaprof/internal/pprof/mapping.go:160-176 | cutting a ++ sep ++ b where a has no sep gives (a, b, true) |
| MappingFormat.NextOfField | godeltaprof/internal/pprof/mapping.go:88-93 | next on a field, a space and padding returns that field and the rest |
| MappingFormat.ParseFormatLine | godeltaprof/internal/pprof/mapping.go:95-150 | a well-formed executable line parses back to its range, offset and file, " (deleted)" trimmed and inode-0 empty names skipped |
| MappingFormat.ParseLineAccepts | godeltaprof/internal/pprof/mapping.go:97-114 | an accepted line has "-" in its address field and an executable permission field |
| MappingFormat.ParseFileSkips | godeltaprof/internal/pprof/mapping.go:119-139 | after the offset, a line is skipped iff nothing follows the inode or the inode is "0" and the trimmed name is empty |
| MappingFormat.TrimDeletedMarker | godeltaprof/internal/pprof/mapping.go:126-131 | the marker is removed once; a name without it is kept |
| MappingFormat.ParseLineBounds | godeltaprof/internal/pprof/mapping.go:102-150 | accepted numbers are 64-bit and the build id is that of the file |
| MappingFormat.EmptyLine | godeltaprof/internal/pprof/mapping.go:97-100 | an empty line is skipped |
| MappingFormat.ParseAllJoin | godeltaprof/internal/pprof/mapping.go:95-96 | on lines joined by newlines, addMapping is called once per accepted line, in order |
| Runtime.PrevPC | godeltaprof/internal/pprof/proto.go:214-218 | uintptr addr - 1 with wrap-around |
| Runtime.AllFrames | godeltaprof/internal/pprof/proto.go:196-225 | the iterating allFrames computes Expand |
| Runtime.FollowFrames | godeltaprof/internal/pprof/proto.go:220-223 | the loop takes the remaining frames through the first goexit |
| Runtime.ThroughGoexitShape | godeltaprof/internal/pprof/proto.go:220-223 | a prefix whose frames before the last are not goexit; everything when there is none |
| Runtime.ExpandShape | godeltaprof/internal/pprof/proto.go:196-225 | nothing (flag 0) iff the first frame is goexit; otherwise LookupTried, with LookupFailed iff the first frame is unresolved, and PC addr - 1 when it had none |
| Deck.FillContents | godeltaprof/internal/pprof/proto.go:472-479 | a filled deck holds the offered PCs, the concatenated frames, the OR of the flags and the first PC's count and flag |
| Deck.FillFirstFrames | godeltaprof/internal/pprof/proto.go:475-478 | the first PC's frames stay at the front of the deck |
| Deck.AddedInv | godeltaprof/internal/pprof/proto.go:472-479 | adding keeps the deck invariant and the first PC |
| Deck.PCDeck.Reset | godeltaprof/internal/pprof/proto.go:441-447 | all five fields zeroed |
| Deck.PCDeck.TryAdd | godeltaprof/internal/pprof/proto.go:452-480 | succeeds iff the deck is empty or the frames merge (last Func nil, both Entry non-zero and equal, symbol names differ); then appends, otherwise unchanged |
| Locations.EmitKeeps | godeltaprof/internal/pprof/proto.go:486-511 | emitLocation keeps the cache valid and every old entry; the ids it returns are new and present in the cache |
| Locations.StepKeeps | godeltaprof/internal/pprof/proto.go:313-379 | a loop iteration keeps the cache and returns only cached ids |
| Locations.WalkKeeps | godeltaprof/internal/pprof/proto.go:306-384 | the walk returns only ids present in the final cache and keeps every old entry |
| Locations.WalkCount | godeltaprof/internal/pprof/proto.go:306-384 | the walk adds exactly one cache entry per deck it emits |
| Locations.WalkCaches | godeltaprof/internal/pprof/proto.go:306-384 | the i-th deck the walk emits is non-empty and cached under its first PC with id \|locs\| + base + i |
| Locations.IdsBelow | godeltaprof/internal/pprof/proto.go:505 | ids lie in base .. base + \|locs\| - 1 |
| Locations.WalkShift | godeltaprof/otlp/otlpbuilder.go:124-203 | the pprof walk (ids from 1) and the OTLP walk (ids from 0) return the same ids shifted by one and keep shifted caches |
| Proto.FuncPassMeaning | godeltaprof/internal/pprof/proto.go:516-535 | function ids stay 1-based and distinct, known symbols keep their ids, every Line names the id registered for its frame's symbol, the keys become the old ones plus the frames' symbol names, and new functions are numbered \|funcs\| + 1, \|funcs\| + 2, ..., one per introducing frame with its name, file and start line |
| Proto.FuncPassShape | godeltaprof/internal/pprof/proto.go:518-534 | a new function gets \|funcs\| + 1, once per new symbol name |
| Proto.FuncPassNew | godeltaprof/internal/pprof/proto.go:518-534 | the new functions are exactly one per frame introducing a new symbol name, in frame order, with id \|funcs\| + 1 + k and that frame's name (symbol name with generics), file and start line |
| Proto.FuncPassKeys | godeltaprof/internal/pprof/proto.go:518-522 | the registered names are the old ones plus every frame's symbol name |
| Proto.FirstMatch | godeltaprof/internal/pprof/proto.go:538-547 | the first mapping covering addr (or fake); none before it does |
| Proto.HasFunctionsMeaning | godeltaprof/internal/pprof/proto.go:284-287 | the OR of allFrames flags equals LookupTried iff some lookup was tried and none failed |
| Proto.ProfileBuilderOptions.Mapping | godeltaprof/internal/pprof/proto.go:27-32 | re-reads unless lazy mapping is on and a slice is cached |
| Proto.NewProfileBuilder | godeltaprof/internal/pprof/proto.go:246-269 | a builder with "" at 0, empty tables, mappings from opt, and the header for stc |
| Proto.ProfileBuilder.WriteHeader | godeltaprof/internal/pprof/proto.go:260-267 | period type, period, one SampleType per entry, default sample type only when not "" |
| Proto.ProfileBuilder.StringIndex | godeltaprof/internal/pprof/proto.go:120-128 | the existing index for a known string; else the old length, appending s; strings[i] == s |
| Proto.ProfileBuilder.Flush | godeltaprof/internal/pprof/proto.go:130-136 | writes and empties the buffer only when more than 4096 bytes are pending |
| Proto.ProfileBuilder.Sample | godeltaprof/internal/pprof/proto.go:147-156 | a Sample message with the values and ids, with one "bytes" label = blockSize exactly when blockSize != 0 |
| Proto.ProfileBuilder.RecordFunctions | godeltaprof/internal/pprof/proto.go:516-537 | the frame loop computes FuncPassOf in place |
| Proto.ProfileBuilder.AttributeMapping | godeltaprof/internal/pprof/proto.go:538-547 | mapping id index + 1 of the first covering mapping; only its flag is OR-ed |
| Proto.ProfileBuilder.EmitLocation | godeltaprof/internal/pprof/proto.go:486-563 | 0 and no change on an empty deck; otherwise the id Emit gives, the functions pass and mapping attribution, and one Location message followed by one Function message per new function; the deck is reset |
| Proto.ProfileBuilder.LocsForStack | godeltaprof/internal/pprof/proto.go:306-384 | the ids and cache of LocWalk over the expanded stack, each id > 0 and cached; each deck the walk emits cached under its first PC with the next id in order; the function ids and the mappings are what emitting those decks in order leaves; the messages are appended to the log |
| Proto.ProfileBuilder.WalkStack | godeltaprof/internal/pprof/proto.go:313-382 | the loop and the final emitLocation give LocWalk's ids and cache, and the function ids and mappings of emitting WalkDecks in order |
| Proto.ProfileBuilder.WalkStep | godeltaprof/internal/pprof/proto.go:313-379 | one loop iteration is Step, and extends the emitted decks by those of the step |
| Proto.ProfileBuilder.Build | godeltaprof/internal/pprof/proto.go:272-295 | what was emitted, then TimeNanos, one Mapping message per mapping (id i + 1, HasFunctions iff its flag is LookupTried alone), then the string table, all written and nothing pending |
| Otlp.OFuncPassMeaning | godeltaprof/otlp/otlpbuilder.go:241-266 | (intended) ids 0-based and distinct, known symbols keep their ids, every Line names its symbol's id, the keys become the old ones plus the frames' symbol names, new functions are numbered \|funcs\|, \|funcs\| + 1, ... so they index the Function list, one per introducing frame |
| Otlp.OFuncPassNew | godeltaprof/otlp/otlpbuilder.go:241-260 | (intended) the new functions are exactly one per frame introducing a new symbol name, in frame order, with id \|funcs\| + k and that frame's name, file and start line |
| Otlp.AsWrittenAgrees | godeltaprof/otlp/otlpbuilder.go:243-247 | without generic functions the pass as written is the intended one |
| Otlp.FuncIdCollision | godeltaprof/otlp/otlpbuilder.go:243-247 | as written: one function index named by two functions |
| Otlp.MappingIndexOf | godeltaprof/otlp/otlpbuilder.go:267-276 | the first covering mapping's index, 0 when none |
| Otlp.NewOTLPBuilder | godeltaprof/otlp/otlpbuilder.go:32-61 | "" at 0, empty tables, mappings from opt, header set for stc |
| Otlp.OTLPBuilder.StringIndex | godeltaprof/otlp/otlpbuilder.go:292-300 | the pprof interning contract |
| Otlp.OTLPBuilder.Sample | godeltaprof/otlp/otlpbuilder.go:67-87 | locIndex grows by locs; the sample records start = old length and length = \|locs\| so the run is locs; values copied |
| Otlp.OTLPBuilder.RecordFunctions | godeltaprof/otlp/otlpbuilder.go:241-266 | (intended) the frame loop computes OFuncPassOf in place, keeping the function ids 0-based and distinct |
| Otlp.OTLPBuilder.AttributeMapping | godeltaprof/otlp/otlpbuilder.go:267-276 | MappingIndex = MappingIndexOf; only that mapping's flag OR-ed |
| Otlp.OTLPBuilder.EmitLocation | godeltaprof/otlp/otlpbuilder.go:209-290 | (intended) (0, false) and no change on an empty deck; otherwise (id, true) with the id Emit gives, the new functions and one Location (first PC, Lines, MappingIndexOf) appended |
| Otlp.OTLPBuilder.LocsForStack | godeltaprof/otlp/otlpbuilder.go:124-203 | (intended) the ids and cache of LocWalk from base 0, each id indexing its Location; each deck the walk emits cached under its first PC with the next id in order; the function ids and the mappings are what emitting those decks in order leaves; the profile only grows |
| Otlp.OTLPBuilder.WalkStack | godeltaprof/otlp/otlpbuilder.go:131-201 | (intended) the loop and the final emitLocation give LocWalk's ids and cache, and the function ids and mappings of emitting WalkDecks in order |
| Otlp.OTLPBuilder.Build | godeltaprof/otlp/otlpbuilder.go:89-109 | (intended) one Mapping per mapping (id i + 1, HasFunctions iff LookupTried alone), string table taken after them so every string index in the profile is in range, time and duration from start and now |
| Otlp.OTLPBuilder.BuildAsWritten | godeltaprof/otlp/otlpbuilder.go:89-109 | as written: a mapping name's index is in the table iff it was interned before Build |
| DeltaCommon.Stack | godeltaprof/internal/pprof/delta_heap.go:142-149 | the prefix before the first zero, the whole slice if none; no zero in it |
| DeltaCommon.Quot | godeltaprof/internal/pprof/delta_heap.go:35 | Go's division truncating toward zero: a / b for a >= 0 and b > 0, -((-a) / b) for a < 0, and the remainder is below \|b\| in size with the sign of a |
| DeltaCommon.ConfigHeader | godeltaprof/internal/pprof/proto.go:260-267 | the header calls a ProfileConfig asks for, in order |
| DeltaCommon.TrimRuntime | godeltaprof/internal/pprof/delta_heap.go:79-88 | drops leading runtime frames; whole stack when all are runtime |
| DeltaCommon.RetryShape | godeltaprof/internal/pprof/delta_heap.go:73-94 | one lookup of the hidden stack, a second of the whole stack exactly when the first found nothing |
| DeltaCommon.LocsWithRetry | godeltaprof/internal/pprof/delta_heap.go:73-94 | the tries loop computes Retry |
| DeltaCommon.ScaleHeapSample | godeltaprof/internal/pprof/delta_heap.go:111-126 | (0, 0) when count or size is 0; unchanged when rate <= 1 and both are non-zero; so at rate <= 1 the result is (0, 0) only for a zero input |
| DeltaHeap.AccPassMeaning | godeltaprof/internal/pprof/delta_heap.go:27-40 | pass one adds the sums of allocObjects and inUseObjects of all non-fresh records with a key to its acc; prev unchanged |
| DeltaHeap.DeltaPassOnce | godeltaprof/internal/pprof/delta_heap.go:53-67 | the keys that emit during pass two are distinct, belong to non-fresh records of the read, and end with acc cleared |
| DeltaHeap.OneSamplePerKey | godeltaprof/internal/pprof/delta_heap.go:27-97 | a read emits exactly one Sample per emitting key, the keys distinct and of non-fresh records, their acc cleared |
| DeltaHeap.ReadKeys | godeltaprof/internal/pprof/delta_heap.go:29-37 | after a read the map holds the old keys plus the keys of the non-fresh records, no others |
| DeltaHeap.NegativeDeltaStale | godeltaprof/internal/pprof/delta_heap.go:57-60 | acc below prev: no call, no entry changes, and the same record again changes nothing either |
| DeltaHeap.BaselineAdvances | godeltaprof/internal/pprof/delta_heap.go:57-96 | an emitting record sets prev := acc.allocObjects and clears acc; its Sample has four values, not all zero, aux blockSize, the scaled object delta and delta times blockSize, and the scaled in-use counts of acc; unscaled, the delta itself |
| DeltaHeap.DeltaPassCalls | godeltaprof/internal/pprof/delta_heap.go:73-96 | pass two extends the log with lookups and samples only, one Sample per emitting key |
| DeltaHeap.NoBuild | godeltaprof/internal/pprof/delta_heap.go:98 | the passes never call Build |
| DeltaHeap.HeapProfileConfig | godeltaprof/internal/pprof/delta_heap.go:128-140 | space/bytes, period rate, the four sample types, no default |
| DeltaHeap.DeltaHeapProfiler.Lookup | godeltaprof/internal/pprof/delta_heap.go:37 | the entry, created zero on first lookup |
| DeltaHeap.DeltaHeapProfiler.WriteHeapProto | godeltaprof/internal/pprof/delta_heap.go:24-100 | map and calls are those of Read, then one Build |
| DeltaHeap.DeltaHeapProfiler.AccRecord | godeltaprof/internal/pprof/delta_heap.go:28-39 | the first loop body computes AccStep |
| DeltaHeap.DeltaHeapProfiler.DeltaRecord | godeltaprof/internal/pprof/delta_heap.go:42-96 | the second loop body computes DeltaStep |
| MutexScale.ScaleMutexProfile | godeltaprof/internal/pprof/mutex_scale_go20.go:9-11 | count and nanoseconds returned unchanged |
| MutexScale.ScalerIrrelevant | godeltaprof/internal/pprof/mutex_scale_go20.go:9 | the scaler does not influence the result |
| MutexScale.ScalersEqual | godeltaprof/internal/pprof/mutex_scale_go20.go:13-15 | ScalerMutexProfile and ScalerBlockProfile are the same value |
| DeltaMutex.MutexPassBaseline | godeltaprof/internal/pprof/delta_mutex.go:27-31 | every key's baseline after the pass is the scaled values of its last record, skipped or not; keys are the old ones plus the records' |
| DeltaMutex.MutexStepSample | godeltaprof/internal/pprof/delta_mutex.go:27-43 | one record stores its scaled values as the baseline, and logs a lookup and a Sample of the two deltas exactly when both are non-negative and one is non-zero |
| DeltaMutex.MutexPassDeltas | godeltaprof/internal/pprof/delta_mutex.go:22-44 | with distinct stacks, the calls of a read are DeltaCalls: each record compared with the baseline the read started from |
| DeltaMutex.MutexPassPositive | godeltaprof/internal/pprof/delta_mutex.go:28-43 | every Sample has two non-negative values, one of them positive, aux 0, and comes right after the lookup of its stack; no other call is logged |
| DeltaMutex.MutexPassFixed | godeltaprof/internal/pprof/delta_mutex.go:28-38 | baselines equal to the records' values emit nothing and change nothing |
| DeltaMutex.RereadEmitsNothing | godeltaprof/internal/pprof/delta_mutex.go:22-44 | reading the same records again (distinct stacks) emits no sample |
| DeltaMutex.MutexProfileConfig | godeltaprof/internal/pprof/delta_mutex.go:49-58 | contentions/count, period 1, sample types contentions/count and delay/nanoseconds |
| DeltaMutex.DeltaMutexProfiler.PrintCountCycleProfile | godeltaprof/internal/pprof/delta_mutex.go:16-47 | map and calls are those of MutexPass, then one Build |
| DeltaMutex.DeltaMutexProfiler.MutexRecord | godeltaprof/internal/pprof/delta_mutex.go:23-43 | the loop body computes MutexStep |
| LegacyDeltaHeap.LegacyHeaderAgrees | delta/internal/pprof/delta_heap.go:18-26 | the header: space/bytes, period rate, the four sample types in order, a default only when not "" (as HeapProfileConfig) |
| LegacyDeltaHeap.LegacyResolvesAll | delta/internal/pprof/delta_heap.go:30-53 | every record, skipped or not, makes one or two lookups, at most one sample, nothing else |
| LegacyDeltaHeap.LegacyBaseline | delta/internal/pprof/delta_heap.go:65-90 | fresh: map unchanged; raw AllocObjects below v1: baseline kept; else baseline (AllocObjects, AllocBytes); no other key changes |
| LegacyDeltaHeap.LegacySample | delta/internal/pprof/delta_heap.go:82-107 | a sample comes only from a non-fresh record whose AllocObjects is not below the baseline; it is not all zero, has no label, carries the scaled deltas against the baseline and the scaled in-use counters and, unscaled, the raw deltas |
| LegacyDeltaHeap.LegacyDeltaHeapProfiler.WriteHeapProto | delta/internal/pprof/delta_heap.go:16-111 | the header, then map and calls of LegacyPass, then one Build |
| LegacyDeltaHeap.LegacyDeltaHeapProfiler.LegacyRecord | delta/internal/pprof/delta_heap.go:30-107 | the loop body computes LegacyStep |

## Findings

| source | as written | input that shows it | evidently intended | confidence | as-written member | corrected member |
|---|---|---|---|---|---|---|
| godeltaprof/otlp/otlpbuilder.go:243-247 | a function unseen under its symbol name gets id len(funcs) but is stored under frame.Function | frames f1, f1, f2 where f1's symbol name "a" differs from its Function "b" (a generic instantiation) and f2 is "c": f1's second frame is a new function with id 1, and f2 then gets id 1 as well | store the id under the symbol name it is looked up by, as proto.go:518-522 does | not executed | Otlp.FuncIdCollision | Otlp.OFuncPassMeaning |
| godeltaprof/otlp/otlpbuilder.go:90-103 | StringTable is assigned before the mapping loop interns Filename and BuildId | a mapping whose file name no function used: its Filename index equals len(StringTable) | take the string table after the loop | not executed | Otlp.OTLPBuilder.BuildAsWritten | Otlp.OTLPBuilder.Build |

## Left out

- Protobuf wire encoding and gzip: the pprof builder appends abstract messages to a log and counts bytes with a parameter function; the OTLP profile is a datatype value.
- Floating point: the Poisson factor of ScaleHeapSample and the cycles-to-nanoseconds conversion of the mutex profiler are parameters (`poisson`, `nanos`).
- Clocks: `time.Now` becomes the `start` and `now` parameters.
- Reading files: /proc/self/maps enters as text, and elfBuildID is the parameter `buildID`.
- Runtime symbol tables: `runtime.CallersFrames` is the parameter `callers`, `runtime_expandFinalInlineFrame` is `expand`, and `FuncForPC(addr).Name()` starting with "runtime." is `isRuntime`. `runtime_FrameSymbolName` and `runtime_FrameStartLine` are fields of a Frame.
- DeltaCommon.Oracle: the delta profilers' builder is a function from the call history to location ids. The logs are not executed against a Proto or Otlp builder object.
- int64 and uintptr widths: integers are unbounded. int64 overflow of the counters is not modelled, and neither is the uintptr conversion of a negative block size in profMap keys. PrevPC does model the uintptr wrap at zero.
- Slice aliasing: tmplocs and tmpLocs reuse one backing array across LocsForStack calls. The model returns fresh sequences.
- Locations.Skip: `stk[len(l.pcs):]` is clamped to the end of the stack instead of panicking when a cached location has more PCs than remain; the runtime's expansion keeps that from happening.
- Proto.ProfileBuilder.Build: the CPU branch under `havePeriod` is left out; no code in the core sets that field.
- The OTLP and pprof sample-multiset equivalence that otlp_comparision_test.go checks: only the location-id shift between the two walks is proved (Locations.WalkShift). Function and string tables are proved separately for each builder.
- Version variants: delta_mutex.go calls `ScaleMutexProfile`, and only the go1.20 `scaleMutexProfile` identity (mutex_scale_go20.go) is modelled. The pre-1.20 scalers are not part of this model.
- The legacy profiler's `pp` debugging closure and its `fmt.Printf` warnings are output only and left out.
- The godeltaprof MemProfileRecord stack is the fixed Stack0 array; the model takes it as a sequence.
- k6: W3C Baggage parsing belongs to the otel library; it is a parameter (`parse`) or its result (`Parsed`). TagWrapper/pprof label setting and the HTTP handler plumbing are left out, as is `setBaggageContextFromMetadata`.
- Otlp.OTLPBuilder.EmitLocation: models the intended keying. A new function id is stored under the symbol name it is looked up by; otlpbuilder.go:247 stores it under `frame.Function`. The pass as written is `Otlp.OFuncPassAsWrittenOf`, and the first Findings row shows the input where the two differ.
- Otlp.OTLPBuilder.RecordFunctions: computes the intended pass; see the EmitLocation line above.
- Otlp.OTLPBuilder.LocsForStack: walks with the intended pass of EmitLocation. It states that the profile only grows and that each returned id indexes its Location. It does not state the content of each emitted deck's Functions and Location; EmitLocation states that for one deck.
- Proto.ProfileBuilder.LocsForStack: states the cache, the function ids and the mappings as functions of the emitted decks, and that ms is what was appended to the log. It does not state the content of each emitted deck's Location and Function messages; EmitLocation states that for one deck.
- StackCollapse.StackCollapseProfile: stackcollapse.go:102 stores the sample's own `s.Value` slice in each stack, and the `+=` at line 116 then writes into the input profile's samples. The model builds fresh value sequences and leaves the input unchanged.
- Strings: Go strings are byte strings, and the model's strings are sequences of Unicode characters. A string holding invalid UTF-8 cannot be represented. For valid text, character order agrees with Go's byte order.
- Session: only the payload and predicate helpers named above; the upload loop, timers and goroutines are concurrency and I/O.
