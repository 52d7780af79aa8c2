/**
 * asV1AttributeValue and asV2AttributeValue: a top-down render of a
 * codec tree into either AttributeValue shape, and the AttributeMap
 * variants that demand a map at the root.
 */
module Render {
  import opened Wrappers
  import opened Numbers
  import opened Nodes
  import opened Wire

  /** Both are gcerr.InvalidArgument errors. */
  datatype EncodeError =
    | UnknownType   // "unknown type to encode": a kind with no rendering case
    | NotMap        // "incorrect type to encode, not map"

  /** No node of the tree is of a kind the renderers lack a case for (Invalid, Chan). */
  predicate Renderable(n: Node) {
    match n
    case Invalid(_) => false
    case Timestamp(_) => false
    case List(items) => forall i :: 0 <= i < |items| ==> Renderable(items[i])
    case Map(entries) => forall k :: k in entries ==> Renderable(entries[k])
    case _ => true
  }

  function Number1(text: string): V1 {
    Empty1.(N := Some(text))
  }

  /** The V1 rendering; it fails, with no partial result, iff some node has no rendering case. */
  function RenderV1(n: Node, ops: Formats): (r: Result<V1, EncodeError>)
    ensures r.Success? <==> Renderable(n)
    ensures r.Failure? ==> r.error == UnknownType
    decreases n
  {
    match n
    case Null => Success(Null1)
    case Bool(b) => Success(Empty1.(BOOL := Some(b)))
    case Int64(i) => Success(Number1(FormatInt(i)))
    case Uint64(u) => Success(Number1(FormatInt(u)))
    case Bytes(bs) => Success(Empty1.(B := Some(bs)))
    case Float64(f) => Success(Number1(ops.formatFloat(f)))
    case String(s) => Success(Empty1.(S := Some(s)))
    case Complex(re, im) =>
      Success(Empty1.(L := SomeList([Number1(ops.formatFloat(re)), Number1(ops.formatFloat(im))])))
    case List(items) =>
      if forall i :: 0 <= i < |items| ==> RenderV1(items[i], ops).Success? then
        Success(Empty1.(L := SomeList(seq(|items|, i requires 0 <= i < |items| => RenderV1(items[i], ops).value))))
      else Failure(UnknownType)
    case Map(entries) =>
      if forall k :: k in entries ==> RenderV1(entries[k], ops).Success? then
        Success(Empty1.(M := SomeMap(map k | k in entries :: RenderV1(entries[k], ops).value)))
      else Failure(UnknownType)
    case Invalid(_) => Failure(UnknownType)
    case Timestamp(_) => Failure(UnknownType)
  }

  /** The V2 rendering; it fails, with no partial result, iff some node has no rendering case. */
  function RenderV2(n: Node, ops: Formats): (r: Result<V2, EncodeError>)
    ensures r.Success? <==> Renderable(n)
    ensures r.Failure? ==> r.error == UnknownType
    decreases n
  {
    match n
    case Null => Success(MemberNULL(false))
    case Bool(b) => Success(MemberBOOL(b))
    case Int64(i) => Success(MemberN(FormatInt(i)))
    case Uint64(u) => Success(MemberN(FormatInt(u)))
    case Bytes(bs) => Success(MemberB(bs))
    case Float64(f) => Success(MemberN(ops.formatFloat(f)))
    case String(s) => Success(MemberS(s))
    case Complex(re, im) =>
      Success(MemberL([MemberN(ops.formatFloat(re)), MemberN(ops.formatFloat(im))]))
    case List(items) =>
      if forall i :: 0 <= i < |items| ==> RenderV2(items[i], ops).Success? then
        Success(MemberL(seq(|items|, i requires 0 <= i < |items| => RenderV2(items[i], ops).value)))
      else Failure(UnknownType)
    case Map(entries) =>
      if forall k :: k in entries ==> RenderV2(entries[k], ops).Success? then
        Success(MemberM(map k | k in entries :: RenderV2(entries[k], ops).value))
      else Failure(UnknownType)
    case Invalid(_) => Failure(UnknownType)
    case Timestamp(_) => Failure(UnknownType)
  }

  /** asV1AttributeMap: the root must be a Map; the result is the rendered M member. */
  function AttributeMapV1(n: Node, ops: Formats): (r: Result<map<string, V1>, EncodeError>)
    ensures !n.Map? ==> r == Failure(NotMap)
    ensures n.Map? ==> (r.Success? <==> Renderable(n))
    ensures n.Map? && !Renderable(n) ==> r == Failure(UnknownType)
    ensures r.Success? ==> (r.value.Keys == n.entries.Keys &&
              forall k :: k in r.value ==> Success(r.value[k]) == RenderV1(n.entries[k], ops))
  {
    if !n.Map? then Failure(NotMap)
    else match RenderV1(n, ops)
      case Success(av) => Success(av.M.entries)
      case Failure(e) => Failure(e)
  }

  /** asV2AttributeMap: the root must be a Map; the result is the rendered MemberM's map. */
  function AttributeMapV2(n: Node, ops: Formats): (r: Result<map<string, V2>, EncodeError>)
    ensures !n.Map? ==> r == Failure(NotMap)
    ensures n.Map? ==> (r.Success? <==> Renderable(n))
    ensures n.Map? && !Renderable(n) ==> r == Failure(UnknownType)
    ensures r.Success? ==> (r.value.Keys == n.entries.Keys &&
              forall k :: k in r.value ==> Success(r.value[k]) == RenderV2(n.entries[k], ops))
  {
    if !n.Map? then Failure(NotMap)
    else match RenderV2(n, ops)
      case Success(av) => Success(av.entries)
      case Failure(e) => Failure(e)
  }

  // ---------------------------------------------------------------
  // The renderers as written: loops filling preallocated storage
  // ---------------------------------------------------------------

  method AsV1AttributeValue(n: Node, ops: Formats) returns (r: Result<V1, EncodeError>)
    ensures r == RenderV1(n, ops)
    decreases n, 1
  {
    match n
    case Null => r := Success(Null1);
    case Bool(b) => r := Success(Empty1.(BOOL := Some(b)));
    case Int64(i) => r := Success(Number1(FormatInt(i)));
    case Uint64(u) => r := Success(Number1(FormatInt(u)));
    case Bytes(bs) => r := Success(Empty1.(B := Some(bs)));
    case Float64(f) => r := Success(Number1(ops.formatFloat(f)));
    case String(s) => r := Success(Empty1.(S := Some(s)));
    case Complex(re, im) =>
      r := Success(Empty1.(L := SomeList([Number1(ops.formatFloat(re)), Number1(ops.formatFloat(im))])));
    case List(items) => r := ListAsV1(items, ops);
    case Map(entries) => r := MapAsV1(entries, ops);
    case Invalid(_) => r := Failure(UnknownType);
    case Timestamp(_) => r := Failure(UnknownType);
  }

  method ListAsV1(es: seq<Node>, ops: Formats) returns (r: Result<V1, EncodeError>)
    ensures r == RenderV1(List(es), ops)
    decreases List(es), 0
  {
    var s := new V1[|es|](_ => Empty1);
    var i := 0;
    while i < |es|
      invariant 0 <= i <= |es|
      invariant forall j :: 0 <= j < i ==> RenderV1(es[j], ops) == Success(s[j])
    {
      var x := AsV1AttributeValue(es[i], ops);
      if x.Failure? {
        return Failure(x.error);
      }
      s[i] := x.value;
      i := i + 1;
    }
    assert s[..] == seq(|es|, j requires 0 <= j < |es| => RenderV1(es[j], ops).value);
    r := Success(Empty1.(L := SomeList(s[..])));
  }

  method MapAsV1(em: map<string, Node>, ops: Formats) returns (r: Result<V1, EncodeError>)
    ensures r == RenderV1(Map(em), ops)
    decreases Map(em), 0
  {
    var m: map<string, V1> := map[];
    var todo := em.Keys;
    while todo != {}
      invariant todo <= em.Keys
      invariant m.Keys == em.Keys - todo
      invariant forall k :: k in m ==> RenderV1(em[k], ops) == Success(m[k])
    {
      var k :| k in todo;
      var x := AsV1AttributeValue(em[k], ops);
      if x.Failure? {
        assert !Renderable(em[k]) && em[k] == Map(em).entries[k];
        return Failure(x.error);
      }
      m := m[k := x.value];
      todo := todo - {k};
    }
    assert RenderV1(Map(em), ops).value.M.entries == m;
    r := Success(Empty1.(M := SomeMap(m)));
  }

  method AsV2AttributeValue(n: Node, ops: Formats) returns (r: Result<V2, EncodeError>)
    ensures r == RenderV2(n, ops)
    decreases n, 1
  {
    match n
    case Null => r := Success(MemberNULL(false));
    case Bool(b) => r := Success(MemberBOOL(b));
    case Int64(i) => r := Success(MemberN(FormatInt(i)));
    case Uint64(u) => r := Success(MemberN(FormatInt(u)));
    case Bytes(bs) => r := Success(MemberB(bs));
    case Float64(f) => r := Success(MemberN(ops.formatFloat(f)));
    case String(s) => r := Success(MemberS(s));
    case Complex(re, im) =>
      r := Success(MemberL([MemberN(ops.formatFloat(re)), MemberN(ops.formatFloat(im))]));
    case List(items) => r := ListAsV2(items, ops);
    case Map(entries) => r := MapAsV2(entries, ops);
    case Invalid(_) => r := Failure(UnknownType);
    case Timestamp(_) => r := Failure(UnknownType);
  }

  method ListAsV2(es: seq<Node>, ops: Formats) returns (r: Result<V2, EncodeError>)
    ensures r == RenderV2(List(es), ops)
    decreases List(es), 0
  {
    var s := new V2[|es|](_ => Unrecognised);
    var i := 0;
    while i < |es|
      invariant 0 <= i <= |es|
      invariant forall j :: 0 <= j < i ==> RenderV2(es[j], ops) == Success(s[j])
    {
      var x := AsV2AttributeValue(es[i], ops);
      if x.Failure? {
        return Failure(x.error);
      }
      s[i] := x.value;
      i := i + 1;
    }
    assert s[..] == seq(|es|, j requires 0 <= j < |es| => RenderV2(es[j], ops).value);
    r := Success(MemberL(s[..]));
  }

  method MapAsV2(em: map<string, Node>, ops: Formats) returns (r: Result<V2, EncodeError>)
    ensures r == RenderV2(Map(em), ops)
    decreases Map(em), 0
  {
    var m: map<string, V2> := map[];
    var todo := em.Keys;
    while todo != {}
      invariant todo <= em.Keys
      invariant m.Keys == em.Keys - todo
      invariant forall k :: k in m ==> RenderV2(em[k], ops) == Success(m[k])
    {
      var k :| k in todo;
      var x := AsV2AttributeValue(em[k], ops);
      if x.Failure? {
        assert !Renderable(em[k]) && em[k] == Map(em).entries[k];
        return Failure(x.error);
      }
      m := m[k := x.value];
      todo := todo - {k};
    }
    assert RenderV2(Map(em), ops).value.entries == m;
    r := Success(MemberM(m));
  }

  // ---------------------------------------------------------------
  // Properties of the renderings
  // ---------------------------------------------------------------

  /** A V1 rendering sets exactly one member per node, as the SDK's value type requires. */
  lemma {:induction false} RenderV1SetsOneMember(n: Node, ops: Formats)
    requires Renderable(n)
    ensures OneMember(RenderV1(n, ops).value)
    decreases n
  {
    match n
    case List(items) =>
      forall i | 0 <= i < |items| {
        RenderV1SetsOneMember(items[i], ops);
      }
    case Map(entries) =>
      forall k | k in entries {
        RenderV1SetsOneMember(entries[k], ops);
      }
    case _ =>
  }

  /**
   * The V2 rendering of every tree carries the same attribute as the V2
   * counterpart of its V1 rendering, and both fail on the same trees.
   * They differ only in the NULL flag: the V1 null marker is NULL true,
   * the V2 one an AttributeValueMemberNULL whose Value is false.
   */
  lemma {:induction false} RenderVariantsAgree(n: Node, ops: Formats)
    ensures RenderV1(n, ops).Success? <==> RenderV2(n, ops).Success?
    ensures !Renderable(n) ==> RenderV1(n, ops) == Failure(UnknownType) && RenderV2(n, ops) == Failure(UnknownType)
    ensures Renderable(n) ==> SameAttribute(RenderV2(n, ops).value, ToV2(RenderV1(n, ops).value))
    decreases n
  {
    match n
    case List(items) =>
      forall i | 0 <= i < |items| {
        RenderVariantsAgree(items[i], ops);
      }
      if Renderable(n) {
        var av := RenderV1(n, ops).value;
        var l1 := av.L.items;
        assert av == Empty1.(L := SomeList(l1));
        var w := ToV2(av);
        assert w.MemberL? && |w.items| == |l1| == |items|;
        assert forall i :: 0 <= i < |l1| ==> w.items[i] == ToV2(l1[i]);
      }
    case Map(entries) =>
      forall k | k in entries {
        RenderVariantsAgree(entries[k], ops);
      }
      if Renderable(n) {
        var av := RenderV1(n, ops).value;
        var m1 := av.M.entries;
        assert av == Empty1.(M := SomeMap(m1));
        var w := ToV2(av);
        assert w.MemberM? && w.entries.Keys == m1.Keys == entries.Keys;
        assert forall k :: k in m1 ==> w.entries[k] == ToV2(m1[k]);
      }
    case Complex(re, im) =>
      var l1 := RenderV1(n, ops).value.L.items;
      assert ToV2(l1[0]) == MemberN(ops.formatFloat(re));
      assert ToV2(l1[1]) == MemberN(ops.formatFloat(im));
      assert ToV2(RenderV1(n, ops).value).items == [ToV2(l1[0]), ToV2(l1[1])];
    case _ =>
  }

  /** The one place the two renderings differ: the flag of the null marker. */
  lemma NullFlagsDiffer(ops: Formats)
    ensures RenderV1(Null, ops).value.NULL == Some(true)
    ensures RenderV2(Null, ops).value == MemberNULL(false)
    ensures ToV2(RenderV1(Null, ops).value) != RenderV2(Null, ops).value
  {
  }

  /**
   * What each kind renders to: Null to NULL, Bool to BOOL, both integer
   * kinds to base-10 N text, Bytes to B, String to S, Complex to an L of
   * exactly two N members (real, imaginary); a list keeps its length
   * and order, a map its key set; Invalid and Chan have no case.
   */
  lemma RenderKinds(n: Node, ops: Formats)
    ensures n.Null? ==> RenderV1(n, ops) == Success(Null1) && RenderV2(n, ops) == Success(MemberNULL(false))
    ensures n.Bool? ==> RenderV1(n, ops).value.BOOL == Some(n.b) && RenderV2(n, ops) == Success(MemberBOOL(n.b))
    ensures n.Int64? ==> RenderV1(n, ops).value.N == Some(FormatInt(n.i)) &&
                         RenderV2(n, ops) == Success(MemberN(FormatInt(n.i)))
    ensures n.Uint64? ==> RenderV1(n, ops).value.N == Some(FormatInt(n.u)) &&
                          RenderV2(n, ops) == Success(MemberN(FormatInt(n.u)))
    ensures n.Float64? ==> RenderV2(n, ops) == Success(MemberN(ops.formatFloat(n.f)))
    ensures n.Bytes? ==> RenderV1(n, ops).value.B == Some(n.bytes) && RenderV2(n, ops) == Success(MemberB(n.bytes))
    ensures n.String? ==> RenderV1(n, ops).value.S == Some(n.s) && RenderV2(n, ops) == Success(MemberS(n.s))
    ensures n.Complex? ==>
              RenderV1(n, ops).value.L ==
                SomeList([Number1(ops.formatFloat(n.re)), Number1(ops.formatFloat(n.im))]) &&
              RenderV2(n, ops) ==
                Success(MemberL([MemberN(ops.formatFloat(n.re)), MemberN(ops.formatFloat(n.im))]))
    ensures n.List? && Renderable(n) ==>
              var l := RenderV2(n, ops).value;
              l.MemberL? && |l.items| == |n.items| &&
              forall i :: 0 <= i < |n.items| ==> RenderV2(n.items[i], ops) == Success(l.items[i])
    ensures n.Map? && Renderable(n) ==>
              var m := RenderV2(n, ops).value;
              m.MemberM? && m.entries.Keys == n.entries.Keys &&
              forall k :: k in n.entries ==> RenderV2(n.entries[k], ops) == Success(m.entries[k])
    ensures n.Invalid? || n.Timestamp? ==>
              RenderV1(n, ops) == Failure(UnknownType) && RenderV2(n, ops) == Failure(UnknownType)
  {
  }
}
