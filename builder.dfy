/**
 * The encode side of codec: a driver.Encoder that records each value
 * notification in its kind and value fields. EncodeList and EncodeMap
 * allocate slot storage that the codec and the returned sub-encoder
 * share; the sub-encoder's ListIndex or MapKey moves the node just
 * encoded into a slot and resets it to the zero codec.
 */
module Builder {
  import opened Wrappers
  import opened Numbers
  import opened Nodes

  /** codec{}: kind reflect.Invalid, value nil. */
  const Zero: Node := Invalid(NoSet)

  /** The node EncodeString leaves: the empty string collapses to Null. */
  function StringNode(x: string): (n: Node)
    ensures x == "" ==> n == Null
    ensures x != "" ==> n == String(x) && AsString(n) == Some(x)
  {
    if |x| == 0 then Null else String(x)
  }

  /** A map[string]*codec: the slot map an EncodeMap call shares. */
  class MapSlots {
    var entries: map<string, Node>

    constructor ()
      ensures entries == map[]
    {
      entries := map[];
    }
  }

  /** The value field of a codec: a finished node, or shared slot storage. */
  datatype Payload =
    | Scalar(node: Node)
    | Slots(slots: array<Node>)
    | Entries(store: MapSlots)

  class Codec {
    var value: Payload

    /** The zero codec. */
    constructor ()
      ensures value == Scalar(Zero)
    {
      value := Scalar(Zero);
    }

    /** The slot storage the codec's value refers to. */
    function Storage(): set<object>
      reads this
    {
      match value
      case Scalar(_) => {}
      case Slots(a) => {a}
      case Entries(m) => {m}
    }

    /**
     * The node the codec currently stands for, reading through shared
     * storage: what `ie := e.codec` copies out of an embedded codec.
     */
    function Snapshot(): (n: Node)
      reads this, Storage()
      ensures value.Scalar? ==> n == value.node
      ensures value.Slots? ==> n.List? && |n.items| == value.slots.Length &&
                               forall i :: 0 <= i < value.slots.Length ==> n.items[i] == value.slots[i]
      ensures value.Entries? ==> n.Map? && n.entries == value.store.entries
    {
      match value
      case Scalar(n) => n
      case Slots(a) => List(a[..])
      case Entries(m) => Map(m.entries)
    }

    method EncodeNil()
      modifies this
      ensures value == Scalar(Null)
    {
      value := Scalar(Null);
    }

    method EncodeBool(x: bool)
      modifies this
      ensures value == Scalar(Bool(x))
    {
      value := Scalar(Bool(x));
    }

    method EncodeInt(x: int64)
      modifies this
      ensures value == Scalar(Int64(x))
    {
      value := Scalar(Int64(x));
    }

    method EncodeUint(x: uint64)
      modifies this
      ensures value == Scalar(Uint64(x))
    {
      value := Scalar(Uint64(x));
    }

    method EncodeBytes(x: seq<byte>)
      modifies this
      ensures value == Scalar(Bytes(x))
    {
      value := Scalar(Bytes(x));
    }

    method EncodeFloat(x: real)
      modifies this
      ensures value == Scalar(Float64(x))
    {
      value := Scalar(Float64(x));
    }

    method EncodeString(x: string)
      modifies this
      ensures value == Scalar(StringNode(x))
    {
      if |x| == 0 {
        EncodeNil();
      } else {
        value := Scalar(String(x));
      }
    }

    method EncodeComplex(re: real, im: real)
      modifies this
      ensures value == Scalar(Complex(re, im))
    {
      value := Scalar(Complex(re, im));
    }

    /** Allocates n zero slots; this codec and the returned encoder share them. */
    method EncodeList(n: nat) returns (le: ListEncoder)
      modifies this
      ensures fresh(le) && fresh(le.slots) && fresh(le.elem)
      ensures value == Slots(le.slots)
      ensures le.slots[..] == seq(n, _ => Zero)
      ensures le.elem.value == Scalar(Zero)
      ensures Snapshot() == List(seq(n, _ => Zero))
    {
      var s := new Node[n](_ => Zero);
      value := Slots(s);
      le := new ListEncoder(s);
    }

    /** Allocates an empty slot map; this codec and the returned encoder share it. */
    method EncodeMap(n: nat) returns (me: MapEncoder)
      modifies this
      ensures fresh(me) && fresh(me.store) && fresh(me.elem)
      ensures value == Entries(me.store)
      ensures me.store.entries == map[]
      ensures me.elem.value == Scalar(Zero)
      ensures Snapshot() == Map(map[])
    {
      var m := new MapSlots();
      value := Entries(m);
      me := new MapEncoder(m);
    }

    /** Handles time.Time by encoding its RFC 3339 text; declines every other value. */
    method EncodeSpecial(v: GoValue, ops: Formats) returns (handled: bool)
      modifies this
      ensures handled <==> v.TimeValue?
      ensures handled ==> value == Scalar(StringNode(ops.formatTime(v.t)))
      ensures !handled ==> value == old(value)
    {
      match v
      case TimeValue(t) =>
        EncodeString(ops.formatTime(t));
        handled := true;
      case _ =>
        handled := false;
    }
  }

  /** listEncoder: the shared slots and the embedded codec an element is encoded into. */
  class ListEncoder {
    const slots: array<Node>
    const elem: Codec

    constructor (s: array<Node>)
      ensures slots == s && fresh(elem) && elem.value == Scalar(Zero)
    {
      slots := s;
      elem := new Codec();
    }

    /** Stores the element just encoded in slot i and resets the embedded codec. */
    method ListIndex(i: nat)
      requires i < slots.Length
      modifies slots, elem
      ensures slots[..] == old(slots[..])[i := old(elem.Snapshot())]
      ensures elem.value == Scalar(Zero)
    {
      var ie := elem.Snapshot();
      slots[i] := ie;
      elem.value := Scalar(Zero);
    }
  }

  /** mapEncoder: the shared slot map and the embedded codec a value is encoded into. */
  class MapEncoder {
    const store: MapSlots
    const elem: Codec

    constructor (m: MapSlots)
      ensures store == m && fresh(elem) && elem.value == Scalar(Zero)
    {
      store := m;
      elem := new Codec();
    }

    /** Stores the value just encoded under key k and resets the embedded codec. */
    method MapKey(k: string)
      modifies store, elem
      ensures store.entries == old(store.entries)[k := old(elem.Snapshot())]
      ensures elem.value == Scalar(Zero)
    {
      var ie := elem.Snapshot();
      store.entries := store.entries[k := ie];
      elem.value := Scalar(Zero);
    }
  }

  /**
   * A document value as the document layer walks it: the notifications
   * driver.Encode sends an encoder. A nil pointer, slice or map is NilValue.
   */
  datatype GoValue =
    | NilValue
    | BoolValue(b: bool)
    | IntValue(i: int64)
    | UintValue(u: uint64)
    | FloatValue(f: real)
    | BytesValue(bytes: seq<byte>)
    | StringValue(s: string)
    | ComplexValue(re: real, im: real)
    | ListValue(elems: seq<GoValue>)
    | MapValue(fields: map<string, GoValue>)
    | TimeValue(t: Instant)

  /** Nodes an encoder can hold: no Invalid or Timestamp node and no empty String. */
  predicate EncoderShaped(n: Node) {
    match n
    case Invalid(_) => false
    case Timestamp(_) => false
    case String(s) => s != ""
    case List(items) => forall i :: 0 <= i < |items| ==> EncoderShaped(items[i])
    case Map(entries) => forall k :: k in entries ==> EncoderShaped(entries[k])
    case _ => true
  }

  /** The tree a codec holds once v has been encoded into it. */
  function Encoded(v: GoValue, ops: Formats): (n: Node)
    ensures v.ListValue? ==> n.List? && |n.items| == |v.elems|
    ensures v.MapValue? ==> n.Map? && n.entries.Keys == v.fields.Keys
  {
    match v
    case NilValue => Null
    case BoolValue(b) => Bool(b)
    case IntValue(i) => Int64(i)
    case UintValue(u) => Uint64(u)
    case FloatValue(f) => Float64(f)
    case BytesValue(bs) => Bytes(bs)
    case StringValue(s) => StringNode(s)
    case ComplexValue(re, im) => Complex(re, im)
    case ListValue(xs) => List(seq(|xs|, i requires 0 <= i < |xs| => Encoded(xs[i], ops)))
    case MapValue(m) => Map(map k | k in m :: Encoded(m[k], ops))
    case TimeValue(t) => StringNode(ops.formatTime(t))
  }

  /** The encoder never builds a timestamp node, an invalid node or an empty String node. */
  lemma {:induction false} EncodedIsEncoderShaped(v: GoValue, ops: Formats)
    ensures EncoderShaped(Encoded(v, ops))
    decreases v
  {
    match v
    case ListValue(xs) =>
      forall i | 0 <= i < |xs| {
        EncodedIsEncoderShaped(xs[i], ops);
      }
      assert forall i :: 0 <= i < |xs| ==> Encoded(v, ops).items[i] == Encoded(xs[i], ops);
    case MapValue(m) =>
      forall k | k in m {
        EncodedIsEncoderShaped(m[k], ops);
      }
      assert forall k :: k in m ==> Encoded(v, ops).entries[k] == Encoded(m[k], ops);
    case _ =>
  }

  /**
   * Encodes v into c the way driver.Encode drives an encoder: EncodeSpecial
   * first, then one notification per value, and for a list or a map an
   * EncodeList/EncodeMap followed by one ListIndex/MapKey per element.
   */
  method Encode(c: Codec, v: GoValue, ops: Formats)
    modifies c
    ensures c.Snapshot() == Encoded(v, ops)
    decreases v, 2
  {
    var handled := c.EncodeSpecial(v, ops);
    if handled {
      return;
    }
    match v
    case NilValue => c.EncodeNil();
    case BoolValue(b) => c.EncodeBool(b);
    case IntValue(i) => c.EncodeInt(i);
    case UintValue(u) => c.EncodeUint(u);
    case FloatValue(f) => c.EncodeFloat(f);
    case BytesValue(bs) => c.EncodeBytes(bs);
    case StringValue(s) => c.EncodeString(s);
    case ComplexValue(re, im) => c.EncodeComplex(re, im);
    case ListValue(xs) => EncodeElements(c, xs, ops);
    case MapValue(m) => EncodeFields(c, m, ops);
  }

  /** EncodeList, then each element encoded into the sub-encoder and moved to its slot by ListIndex. */
  method EncodeElements(c: Codec, xs: seq<GoValue>, ops: Formats)
    modifies c
    ensures c.Snapshot() == Encoded(ListValue(xs), ops)
    decreases ListValue(xs), 0
  {
    var le := c.EncodeList(|xs|);
    var i := 0;
    while i < |xs|
      invariant 0 <= i <= |xs|
      invariant c.value == Slots(le.slots) && le.slots.Length == |xs|
      invariant forall j :: 0 <= j < i ==> le.slots[j] == Encoded(xs[j], ops)
    {
      Encode(le.elem, xs[i], ops);
      le.ListIndex(i);
      i := i + 1;
    }
    assert le.slots[..] == seq(|xs|, j requires 0 <= j < |xs| => Encoded(xs[j], ops));
  }

  /** EncodeMap, then each field encoded into the sub-encoder and moved to its key by MapKey. */
  method EncodeFields(c: Codec, m: map<string, GoValue>, ops: Formats)
    modifies c
    ensures c.Snapshot() == Encoded(MapValue(m), ops)
    decreases MapValue(m), 1
  {
    var me := c.EncodeMap(|m|);
    FillFields(me, m, ops);
    assert me.store.entries == Encoded(MapValue(m), ops).entries;
  }

  /** The loop of EncodeFields: every field of m reaches the shared map through the sub-encoder. */
  method FillFields(me: MapEncoder, m: map<string, GoValue>, ops: Formats)
    requires me.store.entries == map[]
    modifies me.store, me.elem
    ensures me.store.entries.Keys == m.Keys
    ensures forall k :: k in m ==> me.store.entries[k] == Encoded(m[k], ops)
    decreases MapValue(m), 0
  {
    var todo := m.Keys;
    while todo != {}
      invariant todo <= m.Keys
      invariant me.store.entries.Keys == m.Keys - todo
      invariant forall k :: k in me.store.entries ==> me.store.entries[k] == Encoded(m[k], ops)
    {
      var k :| k in todo;
      EncodeField(me, k, m[k], ops);
      todo := todo - {k};
    }
  }

  /** One field of EncodeFields: encode x into the sub-encoder, then MapKey(k). */
  method EncodeField(me: MapEncoder, k: string, x: GoValue, ops: Formats)
    modifies me.store, me.elem
    ensures me.store.entries == old(me.store.entries)[k := Encoded(x, ops)]
    ensures me.elem.value == Scalar(Zero)
    decreases x, 3
  {
    Encode(me.elem, x, ops);
    me.MapKey(k);
  }

  /** encodeValue: encodes v into a fresh codec and returns the tree it holds. */
  method EncodeValue(v: GoValue, ops: Formats) returns (n: Node)
    ensures n == Encoded(v, ops)
  {
    var c := new Codec();
    Encode(c, v, ops);
    n := c.Snapshot();
  }
}
