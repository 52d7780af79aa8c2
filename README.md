# DynamoDB value codec of go-cloud docstore, in Dafny

This project models `docstore/awsdynamodb/codec.go`, the codec that the
DynamoDB driver of go-cloud's docstore uses to turn Go values into DynamoDB
`AttributeValue`s and back.

- **Encoding.** A `codec` records a Go value as a kind tag and a payload.
  The driver's generic walker calls `EncodeNil`, `EncodeString`, `EncodeList`
  and the other encode methods. List and map elements are written through a
  `listEncoder` or `mapEncoder`. Each one embeds a scratch codec, and on
  `ListIndex`/`MapKey` copies it into the shared slice or map and resets it.
  The model keeps this form: `Builder.Codec` is a class whose methods
  assign its `value` field. List slots are an `array<Node>`, map slots a
  `MapSlots` object. `Builder.Encode` runs the walk and is proved to build
  exactly `Builder.Encoded(v)`.
- **Rendering.** `asV1AttributeValue` renders the tree in the shape of AWS
  SDK v1, a struct with one pointer per member. `asV2AttributeValue` renders
  it in the shape of SDK v2, a tagged union. Both are `Render.RenderV1/V2`
  and loop-based methods proved equal to them. The two renderings agree
  except for one thing. For null, v1 writes `NULL: true` but v2 writes a
  NULL member whose flag is `false` (codec.go:30 against codec.go:184).
  `Render.NullFlagsDiffer` proves this difference.
- **Decoding.** `newV1Decoder`/`newV2Decoder` rebuild a codec tree, and the
  `As*`, `ListLen`, `DecodeList`, `MapLen`, `DecodeMap` and `AsSpecial`
  accessors read it back. Numbers narrow to int64, then uint64, then
  float64. String, number and binary sets become an "invalid" node that
  `AsSpecial` rejects. Only the v1 decoder turns text that parses as an
  RFC 3339 time into a timestamp node.
- **Keys.** `encodeDocKeyFields` projects a document onto its partition and
  sort key. `reReferenceMapString` drops nil string pointers.

The codec tree is `Nodes.Node`. It has one constructor per kind tag:
`Null` is `reflect.Interface`, `Bytes` is `reflect.Array`, `List` is
`reflect.Slice`, `Timestamp` is `reflect.Chan`, and `Invalid` is
`reflect.Invalid` (sets, and the zero `codec{}`). A float64 is a `real`.
The standard library's text conversions are fields of a `Nodes.Formats`
record passed as a parameter: `strconv.FormatFloat`, `strconv.ParseFloat`,
`time.Time.Format` and `time.Parse` with RFC 3339. What the round trips need
from them is stated as hypotheses, either per value or per tree
(`RoundTrip.IntegersExact`, `RoundTrip.FloatsReadBack`). Base-10 integer
formatting (`strconv.FormatInt`/`FormatUint`) is written out in
`Numbers.FormatInt`, and it is proved to read back.

The two SDK shapes are `Wire.V1` and `Wire.V2`. `Wire.ToV2` maps a v1
value to the v2 member the v1 decoder would read from it.

Map iteration order is unspecified in Go, so the error a failing map
decode reports is stated relationally. `Decode.V1FailsWith` and
`Decode.V2FailsWith` state which errors may come back. For the error of a
failing render, the order does not matter: every failure is "unknown type".

## Model

| member | source | states |
|---|---|---|
| Numbers.ToUnsigned | docstore/awsdynamodb/codec.go:347-354 | uint64(int64) keeps the value modulo 2^64 and is the identity on non-negative values |
| Numbers.ToSigned | docstore/awsdynamodb/codec.go:330-339 | int64(uint64) keeps the value modulo 2^64 and is the identity below 2^63 |
| Numbers.ReinterpretInverse | docstore/awsdynamodb/codec.go:330-354 | the two reinterpretations are mutually inverse |
| Numbers.FormatInt | docstore/awsdynamodb/codec.go:141-143 | base-10 text of an integer: non-empty, minus sign exactly for negatives, digits without a leading zero |
| Numbers.FormatIntReadsBack | docstore/awsdynamodb/codec.go:141-143 | the base-10 text reads back as the same integer, so distinct integers get distinct N texts |
| Nodes.Narrow | docstore/awsdynamodb/codec.go:469-479 | a parsed float becomes int64 exactly when integral and in [-2^63, 2^63), uint64 exactly when integral and in [2^63, 2^64), float64 otherwise; the node's numeric value is the float |
| Nodes.NarrowInteger | docstore/awsdynamodb/codec.go:473-479 | an integer in uint64 range narrows to int64 below 2^63 and to uint64 from 2^63 on |
| Nodes.AsBool | docstore/awsdynamodb/codec.go:308-313 | succeeds exactly on a bool node, with its value |
| Nodes.AsNull | docstore/awsdynamodb/codec.go:315-317 | true exactly on the null node |
| Nodes.AsString | docstore/awsdynamodb/codec.go:319-328 | succeeds exactly on a string node, with its text (a timestamp node is refused) |
| Nodes.AsInt | docstore/awsdynamodb/codec.go:330-345 | succeeds exactly on int64 and uint64 nodes, with the value modulo 2^64; an int64 node reads back exactly |
| Nodes.AsUint | docstore/awsdynamodb/codec.go:347-362 | succeeds exactly on int64 and uint64 nodes, with the value modulo 2^64; a uint64 node reads back exactly |
| Nodes.AsFloat | docstore/awsdynamodb/codec.go:364-383 | succeeds exactly on the three number kinds, with the node's numeric value |
| Nodes.AsComplex | docstore/awsdynamodb/codec.go:385-407 | succeeds on a complex node with its parts, or on a two-element list of numbers with their values, and on nothing else |
| Nodes.AsBytes | docstore/awsdynamodb/codec.go:409-414 | succeeds exactly on a bytes node, with its bytes |
| Nodes.ListLen | docstore/awsdynamodb/codec.go:416-421 | succeeds exactly on a list node, with its length |
| Nodes.DecodeList | docstore/awsdynamodb/codec.go:423-435 | calls the callback on indices 0, 1, … in order with each element; it stops after the first false and otherwise visits every element; no calls off a list |
| Nodes.MapLen | docstore/awsdynamodb/codec.go:437-442 | succeeds exactly on a map node, with its entry count |
| Nodes.DecodeMap | docstore/awsdynamodb/codec.go:444-456 | calls the callback on distinct keys of the map with their entries and with the exact-match flag set; it stops after the first false and otherwise visits every key |
| Nodes.AsSpecial | docstore/awsdynamodb/codec.go:583-598 | a set is handled with the unsupported-type error whatever the destination; a time.Time destination is handled with the instant exactly on a timestamp node, and fails with "expected string field" otherwise; other destinations are not handled |
| Builder.StringNode | docstore/awsdynamodb/codec.go:63-69 | the empty string is recorded as null, any other string as itself |
| Builder.Codec.constructor | docstore/awsdynamodb/codec.go:32-35 | a zero codec holds the invalid kind |
| Builder.Codec.Snapshot | docstore/awsdynamodb/codec.go:108-110 | the node a codec stands for, as copied out of an embedded codec: its scalar, or the current contents of the slice or map it shares |
| Builder.MapSlots.constructor | docstore/awsdynamodb/codec.go:83 | a freshly made map of slots is empty |
| Builder.Codec.EncodeNil | docstore/awsdynamodb/codec.go:37-39 | the codec now holds null |
| Builder.Codec.EncodeBool | docstore/awsdynamodb/codec.go:40-42 | the codec now holds the bool |
| Builder.Codec.EncodeInt | docstore/awsdynamodb/codec.go:43-45 | the codec now holds the int64 |
| Builder.Codec.EncodeUint | docstore/awsdynamodb/codec.go:46-48 | the codec now holds the uint64 |
| Builder.Codec.EncodeBytes | docstore/awsdynamodb/codec.go:49-51 | the codec now holds the bytes |
| Builder.Codec.EncodeFloat | docstore/awsdynamodb/codec.go:52-54 | the codec now holds the float |
| Builder.Codec.EncodeString | docstore/awsdynamodb/codec.go:63-69 | the codec now holds null for the empty string and the string otherwise |
| Builder.Codec.EncodeComplex | docstore/awsdynamodb/codec.go:71-73 | the codec now holds the complex number |
| Builder.Codec.EncodeList | docstore/awsdynamodb/codec.go:75-80 | the codec now holds a fresh slice of n zero slots, shared with the returned list encoder whose scratch codec is zero |
| Builder.ListEncoder.constructor | docstore/awsdynamodb/codec.go:79 | the list encoder shares the given slice and starts with a zero scratch codec |
| Builder.Codec.EncodeMap | docstore/awsdynamodb/codec.go:82-87 | the codec now holds a fresh empty map, shared with the returned map encoder whose scratch codec is zero |
| Builder.MapEncoder.constructor | docstore/awsdynamodb/codec.go:86 | the map encoder shares the given map and starts with a zero scratch codec |
| Builder.Codec.EncodeSpecial | docstore/awsdynamodb/codec.go:92-101 | handled exactly for a time.Time, which is stored as its RFC 3339 text (null if that text is empty); anything else leaves the codec unchanged |
| Builder.ListEncoder.ListIndex | docstore/awsdynamodb/codec.go:108-112 | slot i receives a copy of the scratch codec, no other slot changes, and the scratch codec is reset to zero |
| Builder.MapEncoder.MapKey | docstore/awsdynamodb/codec.go:119-123 | key k receives a copy of the scratch codec, no other key changes, and the scratch codec is reset to zero |
| Builder.Encoded | docstore/awsdynamodb/codec.go:37-123 | the tree the encode methods build for a value: lists keep their length and maps their keys |
| Builder.EncodedIsEncoderShaped | docstore/awsdynamodb/codec.go:37-87 | the encoder never builds a timestamp node, an invalid node or an empty String node, at any depth |
| Builder.Encode | docstore/awsdynamodb/codec.go:37-123 | driving the encode methods, list encoders and map encoders over a value leaves the codec holding Encoded of it |
| Builder.EncodeElements | docstore/awsdynamodb/codec.go:75-112 | encoding each element into the scratch codec and calling ListIndex fills every slot with the element's encoding |
| Builder.EncodeFields | docstore/awsdynamodb/codec.go:82-123 | encoding each field into the scratch codec and calling MapKey fills the map with every field's encoding |
| Builder.FillFields | docstore/awsdynamodb/codec.go:119-123 | calling MapKey after encoding each field into the scratch codec leaves the shared map with exactly the fields' keys, each holding its field's encoding |
| Builder.EncodeField | docstore/awsdynamodb/codec.go:119-123 | encoding one field and calling MapKey adds exactly that key, with the field's encoding, and resets the scratch codec |
| Builder.EncodeValue | docstore/awsdynamodb/codec.go:279-285 | a fresh codec after encoding holds Encoded of the value |
| Render.RenderV1 | docstore/awsdynamodb/codec.go:133-178 | renders exactly the trees without timestamp or invalid nodes; every failure is "unknown type" |
| Render.RenderV2 | docstore/awsdynamodb/codec.go:180-225 | renders exactly the trees without timestamp or invalid nodes; every failure is "unknown type" |
| Render.AttributeMapV1 | docstore/awsdynamodb/codec.go:227-236 | a non-map root fails with "not map"; a map root renders to a map with the same keys, each the rendering of its entry, or fails with the entry's error |
| Render.AttributeMapV2 | docstore/awsdynamodb/codec.go:238-247 | a non-map root fails with "not map"; a map root renders to a map with the same keys, each the rendering of its entry, or fails with the entry's error |
| Render.AsV1AttributeValue | docstore/awsdynamodb/codec.go:133-178 | the loop-based renderer returns RenderV1 of the tree |
| Render.ListAsV1 | docstore/awsdynamodb/codec.go:155-164 | rendering elements into a preallocated slice, stopping at the first error, returns RenderV1 of the list |
| Render.MapAsV1 | docstore/awsdynamodb/codec.go:165-174 | rendering entries into a fresh map, stopping at the first error, returns RenderV1 of the map |
| Render.AsV2AttributeValue | docstore/awsdynamodb/codec.go:180-225 | the loop-based renderer returns RenderV2 of the tree |
| Render.ListAsV2 | docstore/awsdynamodb/codec.go:202-211 | rendering elements into a preallocated slice, stopping at the first error, returns RenderV2 of the list |
| Render.MapAsV2 | docstore/awsdynamodb/codec.go:212-221 | rendering entries into a fresh map, stopping at the first error, returns RenderV2 of the map |
| Render.RenderV1SetsOneMember | docstore/awsdynamodb/codec.go:133-178 | a v1 rendering sets exactly one member in every node, at every depth |
| Render.RenderVariantsAgree | docstore/awsdynamodb/codec.go:133-225 | the two renderers succeed on the same trees and fail with the same error. Since a v1 rendering sets one member per node, they agree member by member up to the NULL flag |
| Render.NullFlagsDiffer | docstore/awsdynamodb/codec.go:180-184 | null renders as NULL true in v1 (codec.go:30) and as a NULL member with flag false in v2 |
| Render.RenderKinds | docstore/awsdynamodb/codec.go:180-225 | the kind-to-member table: null, bool, int64 and uint64 as base-10 N, bytes, float as formatted N, string, complex as a two-element list of N, lists and maps elementwise, rejection of the rest |
| Decode.V1FailureAgrees | docstore/awsdynamodb/codec.go:462-525 | a v1 decode fails exactly when some error the decoder may report applies |
| Decode.V2FailureAgrees | docstore/awsdynamodb/codec.go:527-581 | a v2 decode fails exactly when some error the decoder may report applies |
| Decode.DecodeNumber | docstore/awsdynamodb/codec.go:468-481 | an N text decodes exactly when the float parser accepts it, to a number node whose value is the parsed float |
| Decode.DecodeText1 | docstore/awsdynamodb/codec.go:485-490 | v1 S text becomes a timestamp exactly when it parses as an RFC 3339 time, with that instant; otherwise it is a string node holding the text |
| Decode.DecodeV1 | docstore/awsdynamodb/codec.go:462-525 | a set NULL member decodes to null whatever the other members; a timestamp comes only from an S member; a value with no member set is an error |
| Decode.DecodeV1Structure | docstore/awsdynamodb/codec.go:492-512 | an L member decodes to a list of the same length, and an M member to a map with the same keys, each child decoded in place; one failing child fails the whole decode |
| Decode.DecodeV2 | docstore/awsdynamodb/codec.go:527-581 | only an unrecognised, N, L or M member can fail to decode |
| Decode.DecodeV2Structure | docstore/awsdynamodb/codec.go:537-574 | the same list and map structure for v2; a NULL member decodes to null, and no v2 member decodes to a timestamp |
| Decode.ParseNumber | docstore/awsdynamodb/codec.go:468-479 | an N text that parses becomes its narrowed number; one that does not fails with a number error carrying the text |
| Decode.NewV1Decoder | docstore/awsdynamodb/codec.go:462-525 | succeeds exactly when DecodeV1 does, with its tree; a failure reports an error the v1 decoder may report |
| Decode.DecodeList1 | docstore/awsdynamodb/codec.go:492-501 | decoding L elements in order, stopping at the first error, agrees with DecodeV1 and reports the first failing element's error |
| Decode.DecodeMap1 | docstore/awsdynamodb/codec.go:503-512 | decoding M entries, stopping at the first error, agrees with DecodeV1 and reports the error of a failing entry |
| Decode.NewV2Decoder | docstore/awsdynamodb/codec.go:527-581 | succeeds exactly when DecodeV2 does, with its tree; a failure reports an error the v2 decoder may report |
| Decode.DecodeList2 | docstore/awsdynamodb/codec.go:537-545 | decoding L elements in order, stopping at the first error, agrees with DecodeV2 and reports the first failing element's error |
| Decode.DecodeMap2 | docstore/awsdynamodb/codec.go:546-554 | decoding M entries, stopping at the first error, agrees with DecodeV2 and reports the error of a failing entry |
| RoundTrip.EncoderShapedRenders | docstore/awsdynamodb/codec.go:133-178 | every tree the encoder builds has a rendering case |
| RoundTrip.EmptyStringIsNull | docstore/awsdynamodb/codec.go:63-69 | the empty string encodes and renders like nil; a non-empty string renders as an S member |
| RoundTrip.DecodeIgnoresNullFlag | docstore/awsdynamodb/codec.go:571-572 | the v2 decoder gives the same result for values that differ only in NULL flags |
| RoundTrip.DecodeVariantsAgree | docstore/awsdynamodb/codec.go:462-581 | when no S text parses as a time, the two decoders give the same tree or both fail on corresponding values |
| RoundTrip.CrossVariant | docstore/awsdynamodb/codec.go:133-581 | rendering a tree in either shape and decoding it gives the same result, unless a string of the tree parses as a time |
| RoundTrip.NumberReadsBack | docstore/awsdynamodb/codec.go:468-479 | an N member whose text the float parser reads as f decodes to Narrow(f) in both shapes |
| RoundTrip.RoundTripV2 | docstore/awsdynamodb/codec.go:180-581 | v2 render then decode gives the tree with numbers narrowed and complex numbers as two-number lists, given exact small integers and floats that read back |
| RoundTrip.RoundTripV1 | docstore/awsdynamodb/codec.go:133-525 | the same for v1, given also that no string parses as a time |
| RoundTrip.UnsignedComesBackSigned | docstore/awsdynamodb/codec.go:473-479 | a uint64 below 2^63 comes back as an int64 in both shapes, and AsUint still reads it as itself |
| RoundTrip.Text999 | docstore/awsdynamodb/codec_test.go:48 | uint64(999) is written as the N text "999", which UnsignedComesBackSigned then reads back as int64(999) |
| RoundTrip.IntegerReadsBack | docstore/awsdynamodb/codec.go:330-383 | an int64 of magnitude at most 2^53 comes back unchanged; AsInt and AsFloat read its value, and AsUint does too when it is non-negative |
| RoundTrip.ComplexRoundTrip | docstore/awsdynamodb/codec.go:385-407 | a complex number comes back as the list of its parts in both shapes, and AsComplex reads that list as the number |
| RoundTrip.TimeTextDiverges | docstore/awsdynamodb/codec.go:485-490 | v1 decodes a string that parses as a time to a timestamp that AsString refuses; v2 keeps it as a string |
| RoundTrip.TimeRoundTrip | docstore/awsdynamodb/codec.go:583-598 | an encoded time.Time comes back through AsSpecial as the same instant from v1; from v2, AsSpecial refuses it with "expected string field", while AsString reads its text |
| RoundTrip.SetsRejected | docstore/awsdynamodb/codec.go:583-588 | string, number and binary sets decode in both shapes to an invalid node that every accessor refuses and AsSpecial rejects for every destination |
| RoundTrip.NothingSetIsAnError | docstore/awsdynamodb/codec.go:522-523 | a v1 value with no member set and an unrecognised v2 member fail as not supported |
| RoundTrip.MalformedNumberIsAnError | docstore/awsdynamodb/codec.go:468-472 | an N text that does not parse fails in both shapes with the number error carrying the text |
| RoundTrip.EncodeRenderDecode | docstore/awsdynamodb/codec.go:279-285 | any encoded value renders in v2, and decoding gives back its encoding with numbers narrowed |
| Keys.FieldError | docstore/awsdynamodb/codec.go:256-266 | setting a field fails exactly when the field is missing (field not found) or cannot be encoded |
| Keys.KeyNames | docstore/awsdynamodb/codec.go:268-276 | the key names are the partition key, plus the sort key exactly when it is non-empty |
| Keys.SetField | docstore/awsdynamodb/codec.go:256-266 | adds the field's encoding to the map, or reports why it cannot |
| Keys.EncodeDocKeyFields | docstore/awsdynamodb/codec.go:252-277 | succeeds exactly when both key fields are present and encodable, with keys exactly KeyNames and each value the field's encoding; the partition key's error takes precedence |
| Keys.ReReferenceMapString | docstore/awsdynamodb/codec.go:607-617 | keeps exactly the keys whose pointer is non-nil, each with the dereferenced string |

## Left out

- Floating-point formatting and parsing (`strconv.FormatFloat` with `'f', -1`, `strconv.ParseFloat`), RFC 3339 time formatting and parsing, and Go's `time.Time` are parameters of the model (`Nodes.Formats`), not definitions. Their agreement is a hypothesis where a round trip needs it. A float64 is a real number, so NaN, the infinities, -0 and rounding are not modelled.
- Nodes.AsFloat: reads an int64 or uint64 exactly, whereas Go's `float64(...)` conversion rounds values above 2^53.
- Nodes.Narrow: the out-of-range `int64(f)` and `uint64(f)` conversions are platform-dependent in Go. The model follows amd64, where an integral float outside a type's range never passes that type's equality test. On arm64 the conversions saturate. There the N text "9223372036854775808" (2^63) decodes to `Int64(2^63 - 1)` and "18446744073709551616" (2^64) to `Uint64(2^64 - 1)`, where `Narrow` gives `Uint64(2^63)` and `Float64(2^64)`.
- Builder.ListEncoder.ListIndex: a slot that is never written is modelled as the zero codec, where Go holds a nil pointer that a later render would dereference. An out-of-range index is a precondition, where Go panics.
- Builder.Codec.EncodeList: n is a `nat`; Go panics on a negative length.
- Builder.Codec.Snapshot: the snapshot copies the tree, so the aliasing between a parent's slice and the list encoder is only visible while encoding.
- Nodes.AsString: the branch where a string node holds no value (codec.go:324-326) cannot arise, because the node type gives every string node a text.
- A nil element pointer in a v1 list or map, and the difference between a nil and an empty `[]byte`, are not modelled.
- `codec.String`, `AsInterface`, `encodeDoc`, `decodeDoc` and `decodeDocV2` are thin wrappers over the driver and not part of this model; neither is `schema.go` or the driver's reflection walk (`driver.Encode`/`driver.Decode`), beyond the value shapes in `Builder.GoValue`.
- Render.AttributeMapV1: a non-map root whose payload is nil (a null node, or the zero codec) panics in Go: the "not map" error message calls `Kind()` on `reflect.TypeOf(nil)` (codec.go:229). The model reports `NotMap` for it.
- Render.AttributeMapV2: the same panic for a null or zero-codec root (codec.go:240), which the model reports as `NotMap`.
- Render.RenderV1: a zero-codec node panics in Go when the "unknown type" message is built (codec.go:177). The model reports `UnknownType`, as it does for sets and timestamps, where Go returns that error.
- Render.RenderV2: the same panic for a zero-codec node (codec.go:224), reported as `UnknownType`.
- Nodes.DecodeList: the Go callback is a closure that may change state. The model keeps only its answers, as a pure function of index and element.
- Nodes.DecodeMap: likewise, the callback is a pure function of key, entry and flag.
- Error values are modelled by kind (unknown type, not map, bad number, not supported, unsupported set type, expected string for time, field not found, encode failed), not by message text.
- Which failing entry a map render or decode reports depends on Go's map iteration order. The model states only that it is some failing entry.
