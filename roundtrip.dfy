/**
 * What survives an encode-render-decode round trip, in each wire
 * shape, and where the two shapes part ways.
 */
module RoundTrip {
  import opened Wrappers
  import opened Numbers
  import opened Nodes
  import opened Wire
  import opened Builder
  import opened Render
  import opened Decode

  // ---------------------------------------------------------------
  // Hypotheses on the standard-library text conversions
  // ---------------------------------------------------------------

  /** ParseFloat reads the base-10 text of an integer of magnitude at most 2^53 exactly. */
  ghost predicate IntegersExact(ops: Formats) {
    forall i: int {:trigger FormatInt(i)} :: -TWO_53 <= i <= TWO_53 ==> ops.parseFloat(FormatInt(i)) == Some(i as real)
  }

  /** Every integer node of the tree has magnitude at most 2^53. */
  predicate SmallIntegers(n: Node) {
    match n
    case Int64(i) => -TWO_53 <= i <= TWO_53
    case Uint64(u) => u <= TWO_53
    case List(items) => forall i :: 0 <= i < |items| ==> SmallIntegers(items[i])
    case Map(entries) => forall k :: k in entries ==> SmallIntegers(entries[k])
    case _ => true
  }

  /** Every float of the tree (complex parts included) parses back from its formatted text. */
  ghost predicate FloatsReadBack(n: Node, ops: Formats) {
    match n
    case Float64(f) => ops.parseFloat(ops.formatFloat(f)) == Some(f)
    case Complex(re, im) =>
      ops.parseFloat(ops.formatFloat(re)) == Some(re) && ops.parseFloat(ops.formatFloat(im)) == Some(im)
    case List(items) => forall i :: 0 <= i < |items| ==> FloatsReadBack(items[i], ops)
    case Map(entries) => forall k :: k in entries ==> FloatsReadBack(entries[k], ops)
    case _ => true
  }

  /** No String node of the tree holds text that parses as an RFC 3339 time. */
  predicate NoTimeText(n: Node, ops: Formats) {
    match n
    case String(s) => ops.parseTime(s).None?
    case List(items) => forall i :: 0 <= i < |items| ==> NoTimeText(items[i], ops)
    case Map(entries) => forall k :: k in entries ==> NoTimeText(entries[k], ops)
    case _ => true
  }

  /** No S member of the V1 value holds text that parses as an RFC 3339 time. */
  predicate NoTimeText1(av: V1, ops: Formats)
    decreases av
  {
    (av.S.Some? ==> ops.parseTime(av.S.value).None?) &&
    (av.L.SomeList? ==> forall i :: 0 <= i < |av.L.items| ==> NoTimeText1(av.L.items[i], ops)) &&
    (av.M.SomeMap? ==> forall k :: k in av.M.entries ==> NoTimeText1(av.M.entries[k], ops))
  }

  // ---------------------------------------------------------------
  // Encoder trees render
  // ---------------------------------------------------------------

  /** Nothing an encoder builds lacks a rendering case. */
  lemma {:induction false} EncoderShapedRenders(n: Node)
    requires EncoderShaped(n)
    ensures Renderable(n)
    decreases n
  {
    match n
    case List(items) =>
      forall i | 0 <= i < |items| {
        EncoderShapedRenders(items[i]);
      }
    case Map(entries) =>
      forall k | k in entries {
        EncoderShapedRenders(entries[k]);
      }
    case _ =>
  }

  /** The empty string encodes like nil, and both renderers write the null marker for it. */
  lemma EmptyStringIsNull(s: string, ops: Formats)
    ensures Encoded(StringValue(""), ops) == Encoded(NilValue, ops) == Null
    ensures RenderV1(Encoded(StringValue(""), ops), ops) == Success(Null1)
    ensures RenderV2(Encoded(StringValue(""), ops), ops) == Success(MemberNULL(false))
    ensures s != "" ==> Encoded(StringValue(s), ops) == String(s) &&
                        RenderV1(Encoded(StringValue(s), ops), ops).value.S == Some(s) &&
                        RenderV2(Encoded(StringValue(s), ops), ops) == Success(MemberS(s))
  {
  }

  // ---------------------------------------------------------------
  // The two decoders against each other
  // ---------------------------------------------------------------

  /** The V2 decoder ignores the flag of a NULL member. */
  lemma {:induction false} DecodeIgnoresNullFlag(a: V2, b: V2, ops: Formats)
    requires SameAttribute(a, b)
    ensures DecodeV2(a, ops) == DecodeV2(b, ops)
    decreases a
  {
    match a
    case MemberL(l) =>
      forall i | 0 <= i < |l| {
        DecodeIgnoresNullFlag(l[i], b.items[i], ops);
      }
      if DecodeV2(a, ops).Some? {
        assert DecodeV2(a, ops).value.items == DecodeV2(b, ops).value.items;
      }
    case MemberM(m) =>
      forall k | k in m {
        DecodeIgnoresNullFlag(m[k], b.entries[k], ops);
      }
      if DecodeV2(a, ops).Some? {
        assert DecodeV2(a, ops).value.entries == DecodeV2(b, ops).value.entries;
      }
    case _ =>
  }

  /**
   * Away from time text, the V1 decoder and the V2 decoder agree on a V1
   * value and its V2 counterpart: same tree, or both an error.
   */
  lemma {:induction false} DecodeVariantsAgree(av: V1, ops: Formats)
    requires NoTimeText1(av, ops)
    ensures DecodeV2(ToV2(av), ops) == DecodeV1(av, ops)
    decreases av
  {
    if av.NULL.Some? || av.BOOL.Some? || av.N.Some? || av.B.Some? || av.S.Some? {
    } else if av.L.SomeList? {
      forall i | 0 <= i < |av.L.items| {
        DecodeVariantsAgree(av.L.items[i], ops);
      }
      ListDecodesAlike(av, ops);
    } else if av.M.SomeMap? {
      forall k | k in av.M.entries {
        DecodeVariantsAgree(av.M.entries[k], ops);
      }
      MapDecodesAlike(av, ops);
    }
  }

  /** List step of DecodeVariantsAgree: elements that decode alike give lists that decode alike. */
  lemma ListDecodesAlike(av: V1, ops: Formats)
    requires ListMember1(av)
    requires forall i :: 0 <= i < |av.L.items| ==> DecodeV2(ToV2(av.L.items[i]), ops) == DecodeV1(av.L.items[i], ops)
    ensures DecodeV2(ToV2(av), ops) == DecodeV1(av, ops)
  {
    var l := av.L.items;
    var w := ToV2(av);
    assert w.MemberL? && |w.items| == |l|;
    assert forall i :: 0 <= i < |l| ==> w.items[i] == ToV2(l[i]);
    DecodeV1Structure(av, ops);
    DecodeV2Structure(w, ops);
    if DecodeV1(av, ops).Some? {
      assert DecodeV2(w, ops).Some?;
      assert DecodeV2(w, ops).value.items == DecodeV1(av, ops).value.items;
    } else {
      assert DecodeV2(w, ops).None?;
    }
  }

  /** Map step of DecodeVariantsAgree: entries that decode alike give maps that decode alike. */
  lemma MapDecodesAlike(av: V1, ops: Formats)
    requires MapMember1(av)
    requires forall k :: k in av.M.entries ==> DecodeV2(ToV2(av.M.entries[k]), ops) == DecodeV1(av.M.entries[k], ops)
    ensures DecodeV2(ToV2(av), ops) == DecodeV1(av, ops)
  {
    var m := av.M.entries;
    var w := ToV2(av);
    assert w.MemberM? && w.entries.Keys == m.Keys;
    forall k | k in w.entries
      ensures DecodeV2(w.entries[k], ops) == DecodeV1(m[k], ops)
    {
      assert w.entries[k] == ToV2(m[k]);
    }
    DecodeV1Structure(av, ops);
    DecodeV2Structure(w, ops);
    if DecodeV1(av, ops).Some? {
      var d1 := DecodeV1(av, ops).value;
      assert DecodeV2(w, ops).Some?;
      var d2 := DecodeV2(w, ops).value;
      assert d1.entries.Keys == d2.entries.Keys;
      forall k | k in d1.entries
        ensures d1.entries[k] == d2.entries[k]
      {
      }
      SameEntries(d1.entries, d2.entries);
    }
  }

  /** A tree with no time text renders, in V1, to a value with no time text. */
  lemma {:induction false} RenderedNoTimeText(n: Node, ops: Formats)
    requires Renderable(n) && NoTimeText(n, ops)
    ensures NoTimeText1(RenderV1(n, ops).value, ops)
    decreases n
  {
    match n
    case List(items) =>
      forall i | 0 <= i < |items| {
        RenderedNoTimeText(items[i], ops);
      }
    case Map(entries) =>
      forall k | k in entries {
        RenderedNoTimeText(entries[k], ops);
      }
    case _ =>
  }

  /**
   * Rendering a tree as V1 and decoding it, and rendering it as V2 and
   * decoding it, give the same tree, unless a string of it reads as a time.
   */
  lemma CrossVariant(n: Node, ops: Formats)
    requires Renderable(n) && NoTimeText(n, ops)
    ensures DecodeV1(RenderV1(n, ops).value, ops) == DecodeV2(RenderV2(n, ops).value, ops)
  {
    var av := RenderV1(n, ops).value;
    RenderVariantsAgree(n, ops);
    DecodeIgnoresNullFlag(RenderV2(n, ops).value, ToV2(av), ops);
    RenderedNoTimeText(n, ops);
    DecodeVariantsAgree(av, ops);
  }

  // ---------------------------------------------------------------
  // Decode after render
  // ---------------------------------------------------------------

  /** The tree a decoder rebuilds from a rendering of n: numbers narrowed, complex numbers as two-element lists. */
  function Reloaded(n: Node): (r: Node)
    ensures n.List? ==> r.List? && |r.items| == |n.items|
    ensures n.Map? ==> r.Map? && r.entries.Keys == n.entries.Keys
    ensures NumericValue(n).Some? ==> NumericValue(r) == NumericValue(n)
  {
    match n
    case Int64(i) => Narrow(i as real)
    case Uint64(u) => Narrow(u as real)
    case Float64(f) => Narrow(f)
    case Complex(re, im) => List([Narrow(re), Narrow(im)])
    case List(items) => List(seq(|items|, i requires 0 <= i < |items| => Reloaded(items[i])))
    case Map(entries) => Map(map k | k in entries :: Reloaded(entries[k]))
    case _ => n
  }

  /** An N member holding text the float parser reads back as f decodes to Narrow(f), in both shapes. */
  lemma NumberReadsBack(text: string, f: real, ops: Formats)
    requires ops.parseFloat(text) == Some(f)
    ensures DecodeV1(Number1(text), ops) == Some(Narrow(f))
    ensures DecodeV2(MemberN(text), ops) == Some(Narrow(f))
  {
  }

  /** The V2 rendering of a complex number decodes to the list of its narrowed parts. */
  lemma ComplexReadsBackV2(re: real, im: real, ops: Formats)
    requires ops.parseFloat(ops.formatFloat(re)) == Some(re)
    requires ops.parseFloat(ops.formatFloat(im)) == Some(im)
    ensures DecodeV2(RenderV2(Complex(re, im), ops).value, ops) == Some(List([Narrow(re), Narrow(im)]))
  {
    var w := RenderV2(Complex(re, im), ops).value;
    assert w.items == [MemberN(ops.formatFloat(re)), MemberN(ops.formatFloat(im))];
    NumberReadsBack(ops.formatFloat(re), re, ops);
    NumberReadsBack(ops.formatFloat(im), im, ops);
    assert DecodeV2(w.items[0], ops) == Some(Narrow(re));
    assert DecodeV2(w.items[1], ops) == Some(Narrow(im));
    assert DecodeV2(w, ops).Some?;
    assert DecodeV2(w, ops).value.items == [Narrow(re), Narrow(im)];
  }

  /** List step of RoundTripV2: elementwise round trips give the list round trip. */
  lemma ListReadsBackV2(items: seq<Node>, ops: Formats)
    requires Renderable(List(items))
    requires forall i :: 0 <= i < |items| ==> DecodeV2(RenderV2(items[i], ops).value, ops) == Some(Reloaded(items[i]))
    ensures DecodeV2(RenderV2(List(items), ops).value, ops) == Some(Reloaded(List(items)))
  {
    var w := RenderV2(List(items), ops).value;
    assert |w.items| == |items|;
    assert forall i :: 0 <= i < |items| ==> w.items[i] == RenderV2(items[i], ops).value;
    assert forall i :: 0 <= i < |items| ==> DecodeV2(w.items[i], ops) == Some(Reloaded(items[i]));
    assert DecodeV2(w, ops).Some?;
    assert DecodeV2(w, ops).value.items == Reloaded(List(items)).items;
  }

  /** Map step of RoundTripV2: entrywise round trips give the map round trip. */
  lemma MapReadsBackV2(entries: map<string, Node>, ops: Formats)
    requires Renderable(Map(entries))
    requires forall k :: k in entries ==> DecodeV2(RenderV2(entries[k], ops).value, ops) == Some(Reloaded(entries[k]))
    ensures DecodeV2(RenderV2(Map(entries), ops).value, ops) == Some(Reloaded(Map(entries)))
  {
    var w := RenderV2(Map(entries), ops).value;
    assert w.entries.Keys == entries.Keys;
    forall k | k in w.entries
      ensures DecodeV2(w.entries[k], ops) == Some(Reloaded(entries[k]))
    {
      assert w.entries[k] == RenderV2(entries[k], ops).value;
    }
    DecodeV2Structure(w, ops);
    var d := DecodeV2(w, ops).value;
    var r := Reloaded(Map(entries)).entries;
    assert d.entries.Keys == r.Keys;
    forall k | k in r
      ensures d.entries[k] == r[k]
    {
    }
    SameEntries(d.entries, r);
  }

  /** Two maps with the same keys and the same value at every key are equal. */
  lemma SameEntries(a: map<string, Node>, b: map<string, Node>)
    requires a.Keys == b.Keys
    requires forall k :: k in a ==> a[k] == b[k]
    ensures a == b
  {
  }

  /** V2: the decoder rebuilds Reloaded(n) from the rendering of n. */
  lemma {:induction false} RoundTripV2(n: Node, ops: Formats)
    requires Renderable(n) && SmallIntegers(n) && FloatsReadBack(n, ops) && IntegersExact(ops)
    ensures DecodeV2(RenderV2(n, ops).value, ops) == Some(Reloaded(n))
    decreases n
  {
    match n
    case Int64(i) =>
      NumberReadsBack(FormatInt(i), i as real, ops);
    case Uint64(u) =>
      NumberReadsBack(FormatInt(u), u as real, ops);
    case Float64(f) =>
      NumberReadsBack(ops.formatFloat(f), f, ops);
    case Complex(re, im) =>
      ComplexReadsBackV2(re, im, ops);
    case List(items) =>
      forall i | 0 <= i < |items| {
        RoundTripV2(items[i], ops);
      }
      ListReadsBackV2(items, ops);
    case Map(entries) =>
      forall k | k in entries {
        RoundTripV2(entries[k], ops);
      }
      MapReadsBackV2(entries, ops);
    case _ =>
  }

  /** V1: the same, provided no string of the tree reads as a time. */
  lemma RoundTripV1(n: Node, ops: Formats)
    requires Renderable(n) && SmallIntegers(n) && FloatsReadBack(n, ops) && IntegersExact(ops)
    requires NoTimeText(n, ops)
    ensures DecodeV1(RenderV1(n, ops).value, ops) == Some(Reloaded(n))
  {
    CrossVariant(n, ops);
    RoundTripV2(n, ops);
  }

  /** An unsigned integer below 2^63 comes back as a signed one: encoded uint64(999) decodes to int64(999). */
  lemma UnsignedComesBackSigned(u: uint64, ops: Formats)
    requires u < TWO_63 && ops.parseFloat(FormatInt(u)) == Some(u as real)
    ensures DecodeV1(RenderV1(Uint64(u), ops).value, ops) == Some(Int64(u))
    ensures DecodeV2(RenderV2(Uint64(u), ops).value, ops) == Some(Int64(u))
    ensures AsUint(Int64(u)) == Some(u)
  {
    NarrowInteger(u);
  }

  /** The wire text of uint64(999) is "999". */
  lemma Text999()
    ensures FormatInt(999) == "999"
  {
    assert NatText(9) == "9";
    assert NatText(99) == NatText(9) + "9";
    assert NatText(999) == NatText(99) + "9";
  }

  /**
   * An integer written through either renderer and decoded reads back
   * through AsInt, AsUint and AsFloat with its value; a non-negative
   * one reads back through AsUint as itself.
   */
  lemma IntegerReadsBack(x: int64, ops: Formats)
    requires -TWO_53 <= x <= TWO_53 && IntegersExact(ops)
    ensures DecodeV2(RenderV2(Int64(x), ops).value, ops) == Some(Int64(x))
    ensures DecodeV1(RenderV1(Int64(x), ops).value, ops) == Some(Int64(x))
    ensures AsInt(Int64(x)) == Some(x) && AsFloat(Int64(x)) == Some(x as real)
    ensures 0 <= x ==> AsUint(Int64(x)) == Some(x)
  {
    assert ops.parseFloat(FormatInt(x)) == Some(x as real);
    NarrowInteger(x);
  }

  /**
   * A complex number comes back as a list of its two parts: a generic
   * read sees the list, AsComplex sees the number.
   */
  lemma ComplexRoundTrip(re: real, im: real, ops: Formats)
    requires ops.parseFloat(ops.formatFloat(re)) == Some(re)
    requires ops.parseFloat(ops.formatFloat(im)) == Some(im)
    ensures DecodeV2(RenderV2(Complex(re, im), ops).value, ops) == Some(List([Narrow(re), Narrow(im)]))
    ensures DecodeV1(RenderV1(Complex(re, im), ops).value, ops) == Some(List([Narrow(re), Narrow(im)]))
    ensures AsComplex(List([Narrow(re), Narrow(im)])) == Some((re, im))
  {
    ComplexReadsBackV2(re, im, ops);
    CrossVariant(Complex(re, im), ops);
  }

  // ---------------------------------------------------------------
  // Time and sets
  // ---------------------------------------------------------------

  /**
   * A string that parses as an RFC 3339 time comes back from V1 as a
   * Timestamp node, which AsString refuses; from V2 it comes back as the string.
   */
  lemma TimeTextDiverges(s: string, t: Instant, ops: Formats)
    requires ops.parseTime(s) == Some(t)
    ensures DecodeV1(RenderV1(String(s), ops).value, ops) == Some(Timestamp(t))
    ensures AsString(Timestamp(t)) == None
    ensures DecodeV2(RenderV2(String(s), ops).value, ops) == Some(String(s))
    ensures AsString(String(s)) == Some(s)
  {
  }

  /**
   * A time.Time encoded via EncodeSpecial comes back through AsSpecial as
   * the same instant from V1; from V2 it comes back as its text, and
   * AsSpecial refuses it with "expected string field for time.Time".
   */
  lemma TimeRoundTrip(t: Instant, ops: Formats)
    requires ops.formatTime(t) != "" && ops.parseTime(ops.formatTime(t)) == Some(t)
    ensures Encoded(TimeValue(t), ops) == String(ops.formatTime(t))
    ensures var d := DecodeV1(RenderV1(Encoded(TimeValue(t), ops), ops).value, ops);
            d == Some(Timestamp(t)) && AsSpecial(d.value, TimeDestination) == Special(true, Some(t), None)
    ensures var d := DecodeV2(RenderV2(Encoded(TimeValue(t), ops), ops).value, ops);
            d == Some(String(ops.formatTime(t))) &&
            AsSpecial(d.value, TimeDestination) == Special(false, None, Some(ExpectedStringForTime)) &&
            AsString(d.value) == Some(ops.formatTime(t))
  {
  }

  /**
   * A string, number or binary set decodes, in both shapes, to an Invalid
   * node that every accessor refuses and that AsSpecial rejects with the
   * unsupported-type error whatever the destination.
   */
  lemma SetsRejected(ss: seq<string>, ns: seq<string>, bs: seq<seq<byte>>, dest: Destination, ops: Formats)
    ensures DecodeV1(Empty1.(SS := Some(ss)), ops) == DecodeV2(MemberSS(ss), ops) == Some(Invalid(StringSet(ss)))
    ensures DecodeV1(Empty1.(NS := Some(ns)), ops) == DecodeV2(MemberNS(ns), ops) == Some(Invalid(NumberSet(ns)))
    ensures DecodeV1(Empty1.(BS := Some(bs)), ops) == DecodeV2(MemberBS(bs), ops) == Some(Invalid(BinarySet(bs)))
    ensures forall p: SetPayload ::
              var n := Invalid(p);
              AsSpecial(n, dest) == Special(true, None, Some(UnsupportedSetType)) &&
              AsBool(n).None? && AsString(n).None? && AsInt(n).None? && AsUint(n).None? &&
              AsFloat(n).None? && AsComplex(n).None? && AsBytes(n).None? &&
              ListLen(n).None? && MapLen(n).None? && !AsNull(n)
  {
  }

  /** A value with no member set is an error in V1; so is an unrecognised member in V2. */
  lemma NothingSetIsAnError(ops: Formats)
    ensures DecodeV1(Empty1, ops).None? && V1FailsWith(Empty1, ops, NotSupported)
    ensures DecodeV2(Unrecognised, ops).None? && V2FailsWith(Unrecognised, ops, NotSupported)
  {
  }

  /** A malformed N member is an error carrying its text in both shapes, never a zero. */
  lemma MalformedNumberIsAnError(text: string, ops: Formats)
    requires ops.parseFloat(text).None?
    ensures DecodeV1(Number1(text), ops).None? && V1FailsWith(Number1(text), ops, BadNumber(text))
    ensures DecodeV2(MemberN(text), ops).None? && V2FailsWith(MemberN(text), ops, BadNumber(text))
  {
  }

  /** Any document value, encoded, rendered as V2 and decoded, gives Reloaded of its encoding. */
  lemma EncodeRenderDecode(v: GoValue, ops: Formats)
    requires SmallIntegers(Encoded(v, ops)) && FloatsReadBack(Encoded(v, ops), ops) && IntegersExact(ops)
    ensures RenderV2(Encoded(v, ops), ops).Success?
    ensures DecodeV2(RenderV2(Encoded(v, ops), ops).value, ops) == Some(Reloaded(Encoded(v, ops)))
  {
    EncodedIsEncoderShaped(v, ops);
    EncoderShapedRenders(Encoded(v, ops));
    RoundTripV2(Encoded(v, ops), ops);
  }
}
