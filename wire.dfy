/**
 * The two shapes of a DynamoDB AttributeValue: the V1 SDK's struct of
 * optional members (dynamodb.AttributeValue) and the V2 SDK's tagged
 * union (types.AttributeValueMember*).
 */
module Wire {
  import opened Wrappers
  import opened Numbers

  /** The L member of a V1 value: a nil or a non-nil slice. */
  datatype ListMember = NoList | SomeList(items: seq<V1>)

  /** The M member of a V1 value: a nil or a non-nil map. */
  datatype MapMember = NoMap | SomeMap(entries: map<string, V1>)

  /** dynamodb.AttributeValue; None stands for a nil member. */
  datatype V1 = AttributeValue(
    NULL: Option<bool>,
    BOOL: Option<bool>,
    N: Option<string>,
    B: Option<seq<byte>>,
    S: Option<string>,
    L: ListMember,
    M: MapMember,
    SS: Option<seq<string>>,
    NS: Option<seq<string>>,
    BS: Option<seq<seq<byte>>>)

  /** new(dyn.AttributeValue): every member nil. */
  const Empty1: V1 := AttributeValue(None, None, None, None, None, NoList, NoMap, None, None, None)

  /** nullValue: new(dyn.AttributeValue).SetNULL(true). */
  const Null1: V1 := Empty1.(NULL := Some(true))

  /** How many members of the v1 value are set at its top level. */
  function MemberCount(av: V1): nat {
    (if av.NULL.Some? then 1 else 0) + (if av.BOOL.Some? then 1 else 0) +
    (if av.N.Some? then 1 else 0) + (if av.B.Some? then 1 else 0) +
    (if av.S.Some? then 1 else 0) + (if av.L.SomeList? then 1 else 0) +
    (if av.M.SomeMap? then 1 else 0) + (if av.SS.Some? then 1 else 0) +
    (if av.NS.Some? then 1 else 0) + (if av.BS.Some? then 1 else 0)
  }

  /** Exactly one member is set, in the value and in every list element and map entry below it. */
  predicate OneMember(av: V1)
    decreases av
  {
    MemberCount(av) == 1 &&
    (av.L.SomeList? ==> forall i :: 0 <= i < |av.L.items| ==> OneMember(av.L.items[i])) &&
    (av.M.SomeMap? ==> forall k :: k in av.M.entries ==> OneMember(av.M.entries[k]))
  }

  /** types.AttributeValue; Unrecognised is any other implementation of the interface. */
  datatype V2 =
    | MemberB(bytes: seq<byte>)
    | MemberBOOL(boolean: bool)
    | MemberBS(blobs: seq<seq<byte>>)
    | MemberL(items: seq<V2>)
    | MemberM(entries: map<string, V2>)
    | MemberN(number: string)
    | MemberNS(numbers: seq<string>)
    | MemberNULL(isNull: bool)
    | MemberS(text: string)
    | MemberSS(strings: seq<string>)
    | Unrecognised

  /**
   * The V2 value carrying the member a V1 value's decoder reads: the
   * first non-nil member in the order NULL, BOOL, N, B, S, L, M, SS, NS, BS.
   */
  function ToV2(av: V1): (r: V2)
    ensures av.NULL.Some? ==> r == MemberNULL(av.NULL.value)
    ensures av == Empty1 ==> r == Unrecognised
    decreases av
  {
    if av.NULL.Some? then MemberNULL(av.NULL.value)
    else if av.BOOL.Some? then MemberBOOL(av.BOOL.value)
    else if av.N.Some? then MemberN(av.N.value)
    else if av.B.Some? then MemberB(av.B.value)
    else if av.S.Some? then MemberS(av.S.value)
    else if av.L.SomeList? then
      MemberL(seq(|av.L.items|, i requires 0 <= i < |av.L.items| => ToV2(av.L.items[i])))
    else if av.M.SomeMap? then
      MemberM(map k | k in av.M.entries :: ToV2(av.M.entries[k]))
    else if av.SS.Some? then MemberSS(av.SS.value)
    else if av.NS.Some? then MemberNS(av.NS.value)
    else if av.BS.Some? then MemberBS(av.BS.value)
    else Unrecognised
  }

  /**
   * a and b carry the same attribute: the same member at every node
   * with the same payload, except that the flag of a NULL member may differ.
   */
  predicate SameAttribute(a: V2, b: V2)
    decreases a
  {
    match a
    case MemberNULL(_) => b.MemberNULL?
    case MemberL(l) =>
      b.MemberL? && |l| == |b.items| &&
      forall i :: 0 <= i < |l| ==> SameAttribute(l[i], b.items[i])
    case MemberM(m) =>
      b.MemberM? && m.Keys == b.entries.Keys &&
      forall k :: k in m ==> SameAttribute(m[k], b.entries[k])
    case _ => a == b
  }
}
