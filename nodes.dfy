/**
 * The codec node: a kind and a payload. A finished codec tree (every
 * slot of every list and map filled) is a value of the datatype Node;
 * the read accessors of the decoder side are functions on it.
 */
module Nodes {
  import opened Wrappers
  import opened Numbers

  /** An instant of time.Time, as nanoseconds since the Unix epoch. */
  datatype Instant = Instant(unixNanos: int)

  /** What an Invalid node carries: a DynamoDB set, or nothing (the zero codec). */
  datatype SetPayload =
    | NoSet
    | StringSet(strings: seq<string>)
    | NumberSet(numbers: seq<string>)
    | BinarySet(blobs: seq<seq<byte>>)

  /**
   * One constructor per reflect.Kind the codec uses: Null is the
   * reflect.Interface flag, Bytes the reflect.Array flag, List is
   * reflect.Slice, Invalid is reflect.Invalid and Timestamp is
   * reflect.Chan, which the V1 decoder uses for parsed RFC 3339 strings.
   */
  datatype Node =
    | Null
    | Bool(b: bool)
    | Int64(i: int64)
    | Uint64(u: uint64)
    | Bytes(bytes: seq<byte>)
    | Float64(f: real)
    | String(s: string)
    | Complex(re: real, im: real)
    | List(items: seq<Node>)
    | Map(entries: map<string, Node>)
    | Invalid(payload: SetPayload)
    | Timestamp(t: Instant)

  /**
   * The text conversions of the Go standard library the codec calls,
   * which this model takes as given: strconv.FormatFloat(f, 'f', -1, 64),
   * strconv.ParseFloat(s, 64), and time.Time's Format and time.Parse
   * with the time.RFC3339Nano layout. A failed parse is None.
   */
  datatype Formats = Formats(
    formatFloat: real -> string,
    parseFloat: string -> Option<real>,
    formatTime: Instant -> string,
    parseTime: string -> Option<Instant>)

  /** The number a numeric node stands for. */
  function NumericValue(n: Node): Option<real> {
    match n
    case Int64(i) => Some(i as real)
    case Uint64(u) => Some(u as real)
    case Float64(f) => Some(f)
    case _ => None
  }

  /**
   * The decoders' narrowing of a parsed number: `int64(f)` and
   * `uint64(f)` are kept when converting back gives f again, which for a
   * finite f happens exactly when f is integral and in range.
   */
  function Narrow(f: real): (n: Node)
    ensures n.Int64? <==> IsIntegral(f) && -TWO_63 as real <= f < TWO_63 as real
    ensures n.Uint64? <==> IsIntegral(f) && TWO_63 as real <= f < TWO_64 as real
    ensures n.Float64? <==> !(IsIntegral(f) && -TWO_63 as real <= f < TWO_64 as real)
    ensures NumericValue(n) == Some(f)
  {
    if IsIntegral(f) && -TWO_63 as real <= f < TWO_63 as real then Int64(f.Floor)
    else if IsIntegral(f) && TWO_63 as real <= f < TWO_64 as real then Uint64(f.Floor)
    else Float64(f)
  }

  /** Every integer of either Go integer type narrows to Int64 when it fits there. */
  lemma NarrowInteger(x: int)
    requires -TWO_63 <= x < TWO_64
    ensures Narrow(x as real) == if x < TWO_63 then Int64(x) else Uint64(x)
  {
    assert (x as real).Floor == x;
  }

  // ---------------------------------------------------------------
  // Read accessors (the driver.Decoder side of codec)
  // ---------------------------------------------------------------

  function AsBool(n: Node): (r: Option<bool>)
    ensures r.Some? <==> n.Bool?
    ensures r.Some? ==> r.value == n.b
  {
    if n.Bool? then Some(n.b) else None
  }

  function AsNull(n: Node): (r: bool)
    ensures r <==> n == Null
  {
    n.Null?
  }

  /** Only a String node reads as a string; Null and Timestamp do not. */
  function AsString(n: Node): (r: Option<string>)
    ensures r.Some? <==> n.String?
    ensures r.Some? ==> r.value == n.s
  {
    if n.String? then Some(n.s) else None
  }

  /** Both integer kinds read as int64, an unsigned one by reinterpreting its bits. */
  function AsInt(n: Node): (r: Option<int64>)
    ensures r.Some? <==> n.Int64? || n.Uint64?
    ensures r.Some? ==> r.value % TWO_64 == NumericValue(n).value.Floor % TWO_64
    ensures n.Int64? ==> r == Some(n.i)
  {
    match n
    case Int64(i) => Some(i)
    case Uint64(u) => Some(ToSigned(u))
    case _ => None
  }

  /** Both integer kinds read as uint64, a signed one by reinterpreting its bits. */
  function AsUint(n: Node): (r: Option<uint64>)
    ensures r.Some? <==> n.Int64? || n.Uint64?
    ensures r.Some? ==> r.value % TWO_64 == NumericValue(n).value.Floor % TWO_64
    ensures n.Uint64? ==> r == Some(n.u)
  {
    match n
    case Int64(i) => Some(ToUnsigned(i))
    case Uint64(u) => Some(u)
    case _ => None
  }

  /** Every numeric kind reads as a float with the number's value. */
  function AsFloat(n: Node): (r: Option<real>)
    ensures r == NumericValue(n)
    ensures r.Some? <==> n.Int64? || n.Uint64? || n.Float64?
  {
    match n
    case Int64(i) => Some(i as real)
    case Uint64(u) => Some(u as real)
    case Float64(f) => Some(f)
    case _ => None
  }

  /** A Complex node, or a list of exactly two nodes that both read as floats. */
  function AsComplex(n: Node): (r: Option<(real, real)>)
    ensures r.Some? <==> n.Complex? ||
                         (n.List? && |n.items| == 2 &&
                          NumericValue(n.items[0]).Some? && NumericValue(n.items[1]).Some?)
    ensures n.Complex? ==> r == Some((n.re, n.im))
    ensures n.List? && r.Some? ==>
              r.value == (NumericValue(n.items[0]).value, NumericValue(n.items[1]).value)
  {
    match n
    case Complex(re, im) => Some((re, im))
    case List(l) =>
      if |l| != 2 then None
      else
        (match (AsFloat(l[0]), AsFloat(l[1]))
         case (Some(re), Some(im)) => Some((re, im))
         case _ => None)
    case _ => None
  }

  function AsBytes(n: Node): (r: Option<seq<byte>>)
    ensures r.Some? <==> n.Bytes?
    ensures r.Some? ==> r.value == n.bytes
  {
    if n.Bytes? then Some(n.bytes) else None
  }

  function ListLen(n: Node): (r: Option<nat>)
    ensures r.Some? <==> n.List?
    ensures r.Some? ==> r.value == |n.items|
  {
    if n.List? then Some(|n.items|) else None
  }

  function MapLen(n: Node): (r: Option<nat>)
    ensures r.Some? <==> n.Map?
    ensures r.Some? ==> r.value == |n.entries|
  {
    if n.Map? then Some(|n.entries|) else None
  }

  /**
   * Calls f on the elements of a list node in index order and stops
   * after the first call that answers false; a non-list calls nothing.
   * The result is the indices f was called with, in call order.
   */
  method DecodeList(n: Node, f: (nat, Node) -> bool) returns (calls: seq<nat>)
    ensures !n.List? ==> calls == []
    ensures n.List? ==> |calls| <= |n.items|
    ensures forall j :: 0 <= j < |calls| ==> calls[j] == j
    ensures n.List? ==> forall j :: 0 <= j < |calls| - 1 ==> f(j, n.items[j])
    ensures n.List? && |calls| < |n.items| ==> |calls| > 0 && !f(|calls| - 1, n.items[|calls| - 1])
  {
    calls := [];
    if !n.List? {
      return;
    }
    var s := n.items;
    var i := 0;
    while i < |s|
      invariant 0 <= i <= |s|
      invariant calls == seq(i, j => j)
      invariant forall j :: 0 <= j < i ==> f(j, s[j])
    {
      calls := calls + [i];
      if !f(i, s[i]) {
        return;
      }
      i := i + 1;
    }
  }

  /**
   * Calls f(key, value, true) on the entries of a map node, in no
   * particular order, and stops after the first call that answers
   * false; a non-map calls nothing. The result is the keys, in call order.
   */
  method DecodeMap(n: Node, f: (string, Node, bool) -> bool) returns (calls: seq<string>)
    ensures !n.Map? ==> calls == []
    ensures n.Map? ==> forall j :: 0 <= j < |calls| ==> calls[j] in n.entries
    ensures forall j, k :: 0 <= j < k < |calls| ==> calls[j] != calls[k]
    ensures n.Map? ==> forall j :: 0 <= j < |calls| - 1 ==> f(calls[j], n.entries[calls[j]], true)
    ensures n.Map? && |calls| < |n.entries| ==>
              |calls| > 0 && !f(calls[|calls| - 1], n.entries[calls[|calls| - 1]], true)
  {
    calls := [];
    if !n.Map? {
      return;
    }
    var m := n.entries;
    var todo := m.Keys;
    while todo != {}
      invariant todo <= m.Keys
      invariant forall j :: 0 <= j < |calls| ==> calls[j] in m && calls[j] !in todo
      invariant forall j, k :: 0 <= j < k < |calls| ==> calls[j] != calls[k]
      invariant forall j :: 0 <= j < |calls| ==> f(calls[j], m[calls[j]], true)
      invariant |calls| + |todo| == |m|
    {
      var k :| k in todo;
      calls := calls + [k];
      todo := todo - {k};
      if !f(k, m[k], true) {
        return;
      }
    }
  }

  /** The Go type of the destination AsSpecial is asked about. */
  datatype Destination = TimeDestination | OtherDestination

  datatype SpecialError =
    | UnsupportedSetType      // "unsupported type ... does not decode DynamoDB set types"
    | ExpectedStringForTime   // "expected string field for time.Time"

  /** The triple (handled, value, error) that AsSpecial returns. */
  datatype Special = Special(handled: bool, time: Option<Instant>, err: Option<SpecialError>)

  /**
   * An Invalid node is always handled, with the unsupported-type error.
   * A time.Time destination is handled only from a Timestamp node;
   * anything else fails with "expected string field". Other
   * destinations are left to generic decoding.
   */
  function AsSpecial(n: Node, dest: Destination): (r: Special)
    ensures n.Invalid? ==> r == Special(true, None, Some(UnsupportedSetType))
    ensures !n.Invalid? && dest == TimeDestination ==>
              (r.handled <==> n.Timestamp?) &&
              (r.handled ==> r == Special(true, Some(n.t), None)) &&
              (!r.handled ==> r == Special(false, None, Some(ExpectedStringForTime)))
    ensures !n.Invalid? && dest == OtherDestination ==> r == Special(false, None, None)
  {
    if n.Invalid? then Special(true, None, Some(UnsupportedSetType))
    else match dest
      case TimeDestination =>
        if n.Timestamp? then Special(true, Some(n.t), None)
        else Special(false, None, Some(ExpectedStringForTime))
      case OtherDestination => Special(false, None, None)
  }
}
