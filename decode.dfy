/**
 * newV1Decoder and newV2Decoder: rebuild a codec tree from either
 * AttributeValue shape. Numbers are parsed as floats and narrowed;
 * set members become Invalid nodes; the V1 decoder alone turns a string
 * that parses as an RFC 3339 time into a Timestamp node.
 */
module Decode {
  import opened Wrappers
  import opened Numbers
  import opened Nodes
  import opened Wire

  datatype DecodeError =
    | BadNumber(text: string)   // the strconv.ParseFloat error for an N member
    | NotSupported              // "AttributeValue ... not supported": no member recognised

  /** An N member: ParseFloat, then the narrowing of Narrow. */
  function DecodeNumber(text: string, ops: Formats): (r: Option<Node>)
    ensures r.Some? <==> ops.parseFloat(text).Some?
    ensures r.Some? ==> NumericValue(r.value) == ops.parseFloat(text)
  {
    match ops.parseFloat(text)
    case Some(f) => Some(Narrow(f))
    case None => None
  }

  /** A V1 S member: a Timestamp when it parses as RFC 3339, otherwise a String. */
  function DecodeText1(s: string, ops: Formats): (r: Node)
    ensures r.Timestamp? <==> ops.parseTime(s).Some?
    ensures r.Timestamp? ==> ops.parseTime(s) == Some(r.t)
    ensures !r.Timestamp? ==> r == String(s) && AsString(r) == Some(s)
  {
    match ops.parseTime(s)
    case Some(t) => Timestamp(t)
    case None => String(s)
  }

  /** The v1 decoder reads the L member: no member it checks before L is set. */
  predicate ListMember1(av: V1) {
    av.NULL.None? && av.BOOL.None? && av.N.None? && av.B.None? && av.S.None? && av.L.SomeList?
  }

  /** The v1 decoder reads the M member: no member it checks before M is set. */
  predicate MapMember1(av: V1) {
    av.NULL.None? && av.BOOL.None? && av.N.None? && av.B.None? && av.S.None? && av.L.NoList? && av.M.SomeMap?
  }

  /** The tree newV1Decoder returns, or None when it returns an error. */
  function DecodeV1(av: V1, ops: Formats): (r: Option<Node>)
    ensures av.NULL.Some? ==> r == Some(Null)
    ensures r.Some? && r.value.Timestamp? ==> av.S.Some?
    ensures av == Empty1 ==> r == None
    decreases av
  {
    if av.NULL.Some? then Some(Null)
    else if av.BOOL.Some? then Some(Bool(av.BOOL.value))
    else if av.N.Some? then DecodeNumber(av.N.value, ops)
    else if av.B.Some? then Some(Bytes(av.B.value))
    else if av.S.Some? then Some(DecodeText1(av.S.value, ops))
    else if av.L.SomeList? then
      var l := av.L.items;
      if forall i :: 0 <= i < |l| ==> DecodeV1(l[i], ops).Some? then
        Some(List(seq(|l|, i requires 0 <= i < |l| => DecodeV1(l[i], ops).value)))
      else None
    else if av.M.SomeMap? then
      var m := av.M.entries;
      if forall k :: k in m ==> DecodeV1(m[k], ops).Some? then
        Some(Map(map k | k in m :: DecodeV1(m[k], ops).value))
      else None
    else if av.SS.Some? then Some(Invalid(StringSet(av.SS.value)))
    else if av.NS.Some? then Some(Invalid(NumberSet(av.NS.value)))
    else if av.BS.Some? then Some(Invalid(BinarySet(av.BS.value)))
    else None
  }

  /** The tree newV2Decoder returns, or None when it returns an error. */
  function DecodeV2(av: V2, ops: Formats): (r: Option<Node>)
    ensures r.None? ==> av.Unrecognised? || av.MemberN? || av.MemberL? || av.MemberM?
    decreases av
  {
    match av
    case MemberB(bs) => Some(Bytes(bs))
    case MemberBOOL(b) => Some(Bool(b))
    case MemberBS(bss) => Some(Invalid(BinarySet(bss)))
    case MemberL(l) =>
      if forall i :: 0 <= i < |l| ==> DecodeV2(l[i], ops).Some? then
        Some(List(seq(|l|, i requires 0 <= i < |l| => DecodeV2(l[i], ops).value)))
      else None
    case MemberM(m) =>
      if forall k :: k in m ==> DecodeV2(m[k], ops).Some? then
        Some(Map(map k | k in m :: DecodeV2(m[k], ops).value))
      else None
    case MemberN(text) => DecodeNumber(text, ops)
    case MemberNS(ns) => Some(Invalid(NumberSet(ns)))
    case MemberNULL(_) => Some(Null)
    case MemberS(s) => Some(String(s))
    case MemberSS(ss) => Some(Invalid(StringSet(ss)))
    case Unrecognised => None
  }

  /**
   * newV1Decoder on an L or M member: the result is a list of the same
   * length or a map with the same keys, each child decoded in place; a
   * failing child fails the whole decode.
   */
  lemma DecodeV1Structure(av: V1, ops: Formats)
    ensures ListMember1(av) ==>
              (DecodeV1(av, ops).Some? <==> forall i :: 0 <= i < |av.L.items| ==> DecodeV1(av.L.items[i], ops).Some?)
    ensures ListMember1(av) && DecodeV1(av, ops).Some? ==>
              DecodeV1(av, ops).value.List? && |DecodeV1(av, ops).value.items| == |av.L.items| &&
              forall i :: 0 <= i < |av.L.items| ==> Some(DecodeV1(av, ops).value.items[i]) == DecodeV1(av.L.items[i], ops)
    ensures MapMember1(av) ==>
              (DecodeV1(av, ops).Some? <==> forall k :: k in av.M.entries ==> DecodeV1(av.M.entries[k], ops).Some?)
    ensures MapMember1(av) && DecodeV1(av, ops).Some? ==>
              DecodeV1(av, ops).value.Map? && DecodeV1(av, ops).value.entries.Keys == av.M.entries.Keys &&
              forall k :: k in av.M.entries ==> Some(DecodeV1(av, ops).value.entries[k]) == DecodeV1(av.M.entries[k], ops)
  {
  }

  /**
   * newV2Decoder on an L or M member: the same structure as
   * DecodeV1Structure. A NULL member decodes to null, and nothing
   * decodes to a timestamp.
   */
  lemma DecodeV2Structure(av: V2, ops: Formats)
    ensures av.MemberNULL? ==> DecodeV2(av, ops) == Some(Null)
    ensures DecodeV2(av, ops).Some? ==> !DecodeV2(av, ops).value.Timestamp?
    ensures av.MemberL? ==> (DecodeV2(av, ops).Some? <==> forall i :: 0 <= i < |av.items| ==> DecodeV2(av.items[i], ops).Some?)
    ensures av.MemberL? && DecodeV2(av, ops).Some? ==>
              DecodeV2(av, ops).value.List? && |DecodeV2(av, ops).value.items| == |av.items| &&
              forall i :: 0 <= i < |av.items| ==> Some(DecodeV2(av, ops).value.items[i]) == DecodeV2(av.items[i], ops)
    ensures av.MemberM? ==> (DecodeV2(av, ops).Some? <==> forall k :: k in av.entries ==> DecodeV2(av.entries[k], ops).Some?)
    ensures av.MemberM? && DecodeV2(av, ops).Some? ==>
              DecodeV2(av, ops).value.Map? && DecodeV2(av, ops).value.entries.Keys == av.entries.Keys &&
              forall k :: k in av.entries ==> Some(DecodeV2(av, ops).value.entries[k]) == DecodeV2(av.entries[k], ops)
  {
  }

  /**
   * The errors newV1Decoder may return for av: the parse error of the
   * N member it reads, "not supported" for an empty value, the error of
   * the first failing list element, or of any failing map entry (Go's
   * map iteration order is unspecified).
   */
  ghost predicate V1FailsWith(av: V1, ops: Formats, e: DecodeError)
    decreases av
  {
    if av.NULL.Some? || av.BOOL.Some? then false
    else if av.N.Some? then ops.parseFloat(av.N.value).None? && e == BadNumber(av.N.value)
    else if av.B.Some? || av.S.Some? then false
    else if av.L.SomeList? then
      var l := av.L.items;
      exists i :: 0 <= i < |l| && (forall j :: 0 <= j < i ==> DecodeV1(l[j], ops).Some?) &&
                  V1FailsWith(l[i], ops, e)
    else if av.M.SomeMap? then
      var m := av.M.entries;
      exists k :: k in m && V1FailsWith(m[k], ops, e)
    else if av.SS.Some? || av.NS.Some? || av.BS.Some? then false
    else e == NotSupported
  }

  /** The errors newV2Decoder may return for av, as for V1FailsWith. */
  ghost predicate V2FailsWith(av: V2, ops: Formats, e: DecodeError)
    decreases av
  {
    match av
    case MemberN(text) => ops.parseFloat(text).None? && e == BadNumber(text)
    case MemberL(l) =>
      exists i :: 0 <= i < |l| && (forall j :: 0 <= j < i ==> DecodeV2(l[j], ops).Some?) &&
                  V2FailsWith(l[i], ops, e)
    case MemberM(m) => exists k :: k in m && V2FailsWith(m[k], ops, e)
    case Unrecognised => e == NotSupported
    case _ => false
  }

  /** Every error V1FailsWith allows is one DecodeV1 fails with, and a failing DecodeV1 has one. */
  lemma {:induction false} V1FailureAgrees(av: V1, ops: Formats, e: DecodeError)
    ensures V1FailsWith(av, ops, e) ==> DecodeV1(av, ops).None?
    ensures DecodeV1(av, ops).None? ==> exists e' :: V1FailsWith(av, ops, e')
    decreases av
  {
    if av.NULL.Some? || av.BOOL.Some? || av.N.Some? || av.B.Some? || av.S.Some? {
      if DecodeV1(av, ops).None? {
        assert V1FailsWith(av, ops, BadNumber(av.N.value));
      }
    } else if av.L.SomeList? {
      var l := av.L.items;
      if V1FailsWith(av, ops, e) {
        var i :| 0 <= i < |l| && (forall j :: 0 <= j < i ==> DecodeV1(l[j], ops).Some?) &&
                 V1FailsWith(l[i], ops, e);
        V1FailureAgrees(l[i], ops, e);
      }
      if DecodeV1(av, ops).None? {
        var i := FirstFailure1(l, ops);
        V1FailureAgrees(l[i], ops, e);
        var e' :| V1FailsWith(l[i], ops, e');
        assert V1FailsWith(av, ops, e');
      }
    } else if av.M.SomeMap? {
      var m := av.M.entries;
      if V1FailsWith(av, ops, e) {
        var k :| k in m && V1FailsWith(m[k], ops, e);
        V1FailureAgrees(m[k], ops, e);
      }
      if DecodeV1(av, ops).None? {
        var k :| k in m && DecodeV1(m[k], ops).None?;
        V1FailureAgrees(m[k], ops, e);
        var e' :| V1FailsWith(m[k], ops, e');
        assert V1FailsWith(av, ops, e');
      }
    } else if DecodeV1(av, ops).None? {
      assert V1FailsWith(av, ops, NotSupported);
    }
  }

  /** The index of the first element of l that fails to decode. */
  lemma FirstFailure1(l: seq<V1>, ops: Formats) returns (i: nat)
    requires exists i :: 0 <= i < |l| && DecodeV1(l[i], ops).None?
    ensures i < |l| && DecodeV1(l[i], ops).None?
    ensures forall j :: 0 <= j < i ==> DecodeV1(l[j], ops).Some?
  {
    i := 0;
    while DecodeV1(l[i], ops).Some?
      invariant i < |l|
      invariant forall j :: 0 <= j < i ==> DecodeV1(l[j], ops).Some?
      invariant exists i' :: i <= i' < |l| && DecodeV1(l[i'], ops).None?
      decreases |l| - i
    {
      i := i + 1;
    }
  }

  /** Every error V2FailsWith allows is one DecodeV2 fails with, and a failing DecodeV2 has one. */
  lemma {:induction false} V2FailureAgrees(av: V2, ops: Formats, e: DecodeError)
    ensures V2FailsWith(av, ops, e) ==> DecodeV2(av, ops).None?
    ensures DecodeV2(av, ops).None? ==> exists e' :: V2FailsWith(av, ops, e')
    decreases av
  {
    match av
    case MemberN(text) =>
      if DecodeV2(av, ops).None? {
        assert V2FailsWith(av, ops, BadNumber(text));
      }
    case MemberL(l) =>
      if V2FailsWith(av, ops, e) {
        var i :| 0 <= i < |l| && (forall j :: 0 <= j < i ==> DecodeV2(l[j], ops).Some?) &&
                 V2FailsWith(l[i], ops, e);
        V2FailureAgrees(l[i], ops, e);
      }
      if DecodeV2(av, ops).None? {
        var i := FirstFailure2(l, ops);
        V2FailureAgrees(l[i], ops, e);
        var e' :| V2FailsWith(l[i], ops, e');
        assert V2FailsWith(av, ops, e');
      }
    case MemberM(m) =>
      if V2FailsWith(av, ops, e) {
        var k :| k in m && V2FailsWith(m[k], ops, e);
        V2FailureAgrees(m[k], ops, e);
      }
      if DecodeV2(av, ops).None? {
        var k :| k in m && DecodeV2(m[k], ops).None?;
        V2FailureAgrees(m[k], ops, e);
        var e' :| V2FailsWith(m[k], ops, e');
        assert V2FailsWith(av, ops, e');
      }
    case Unrecognised =>
      assert V2FailsWith(av, ops, NotSupported);
    case _ =>
  }

  /** The index of the first element of l that fails to decode. */
  lemma FirstFailure2(l: seq<V2>, ops: Formats) returns (i: nat)
    requires exists i :: 0 <= i < |l| && DecodeV2(l[i], ops).None?
    ensures i < |l| && DecodeV2(l[i], ops).None?
    ensures forall j :: 0 <= j < i ==> DecodeV2(l[j], ops).Some?
  {
    i := 0;
    while DecodeV2(l[i], ops).Some?
      invariant i < |l|
      invariant forall j :: 0 <= j < i ==> DecodeV2(l[j], ops).Some?
      invariant exists i' :: i <= i' < |l| && DecodeV2(l[i'], ops).None?
      decreases |l| - i
    {
      i := i + 1;
    }
  }

  // ---------------------------------------------------------------
  // The decoders as written: loops filling preallocated storage
  // ---------------------------------------------------------------

  method ParseNumber(text: string, ops: Formats) returns (r: Result<Node, DecodeError>)
    ensures r.Success? <==> ops.parseFloat(text).Some?
    ensures r.Success? ==> r.value == Narrow(ops.parseFloat(text).value)
    ensures r.Failure? ==> r.error == BadNumber(text)
  {
    var f := ops.parseFloat(text);
    if f.None? {
      return Failure(BadNumber(text));
    }
    r := Success(Narrow(f.value));
  }

  method NewV1Decoder(av: V1, ops: Formats) returns (r: Result<Node, DecodeError>)
    ensures r.Success? <==> DecodeV1(av, ops).Some?
    ensures r.Success? ==> r.value == DecodeV1(av, ops).value
    ensures r.Failure? ==> V1FailsWith(av, ops, r.error)
    decreases av, 1
  {
    if av.NULL.Some? {
      r := Success(Null);
    } else if av.BOOL.Some? {
      r := Success(Bool(av.BOOL.value));
    } else if av.N.Some? {
      r := ParseNumber(av.N.value, ops);
    } else if av.B.Some? {
      r := Success(Bytes(av.B.value));
    } else if av.S.Some? {
      var t := ops.parseTime(av.S.value);
      if t.Some? {
        r := Success(Timestamp(t.value));
      } else {
        r := Success(String(av.S.value));
      }
    } else if av.L.SomeList? {
      r := DecodeList1(av, ops);
    } else if av.M.SomeMap? {
      r := DecodeMap1(av, ops);
    } else if av.SS.Some? {
      r := Success(Invalid(StringSet(av.SS.value)));
    } else if av.NS.Some? {
      r := Success(Invalid(NumberSet(av.NS.value)));
    } else if av.BS.Some? {
      r := Success(Invalid(BinarySet(av.BS.value)));
    } else {
      r := Failure(NotSupported);
    }
  }

  /** The av.L branch of newV1Decoder. */
  method DecodeList1(av: V1, ops: Formats) returns (r: Result<Node, DecodeError>)
    requires av.NULL.None? && av.BOOL.None? && av.N.None? && av.B.None? && av.S.None?
    requires av.L.SomeList?
    ensures r.Success? <==> DecodeV1(av, ops).Some?
    ensures r.Success? ==> r.value == DecodeV1(av, ops).value
    ensures r.Failure? ==> V1FailsWith(av, ops, r.error)
    decreases av, 0
  {
    var l := av.L.items;
    var s := new Node[|l|](_ => Null);
    var i := 0;
    while i < |l|
      invariant 0 <= i <= |l|
      invariant forall j :: 0 <= j < i ==> DecodeV1(l[j], ops) == Some(s[j])
    {
      var x := NewV1Decoder(l[i], ops);
      if x.Failure? {
        assert V1FailsWith(l[i], ops, x.error);
        return Failure(x.error);
      }
      s[i] := x.value;
      i := i + 1;
    }
    assert s[..] == seq(|l|, j requires 0 <= j < |l| => DecodeV1(l[j], ops).value);
    r := Success(List(s[..]));
  }

  /** The av.M branch of newV1Decoder. */
  method DecodeMap1(av: V1, ops: Formats) returns (r: Result<Node, DecodeError>)
    requires av.NULL.None? && av.BOOL.None? && av.N.None? && av.B.None? && av.S.None?
    requires av.L.NoList? && av.M.SomeMap?
    ensures r.Success? <==> DecodeV1(av, ops).Some?
    ensures r.Success? ==> r.value == DecodeV1(av, ops).value
    ensures r.Failure? ==> V1FailsWith(av, ops, r.error)
    decreases av, 0
  {
    var em := av.M.entries;
    var m: map<string, Node> := map[];
    var todo := em.Keys;
    while todo != {}
      invariant todo <= em.Keys
      invariant m.Keys == em.Keys - todo
      invariant forall k :: k in m ==> DecodeV1(em[k], ops) == Some(m[k])
    {
      var k :| k in todo;
      var x := NewV1Decoder(em[k], ops);
      if x.Failure? {
        assert V1FailsWith(em[k], ops, x.error);
        return Failure(x.error);
      }
      m := m[k := x.value];
      todo := todo - {k};
    }
    assert DecodeV1(av, ops).value.entries == m;
    r := Success(Map(m));
  }

  method NewV2Decoder(av: V2, ops: Formats) returns (r: Result<Node, DecodeError>)
    ensures r.Success? <==> DecodeV2(av, ops).Some?
    ensures r.Success? ==> r.value == DecodeV2(av, ops).value
    ensures r.Failure? ==> V2FailsWith(av, ops, r.error)
    decreases av, 1
  {
    match av
    case MemberB(bs) => r := Success(Bytes(bs));
    case MemberBOOL(b) => r := Success(Bool(b));
    case MemberBS(bss) => r := Success(Invalid(BinarySet(bss)));
    case MemberL(l) => r := DecodeList2(l, ops);
    case MemberM(m) => r := DecodeMap2(m, ops);
    case MemberN(text) => r := ParseNumber(text, ops);
    case MemberNS(ns) => r := Success(Invalid(NumberSet(ns)));
    case MemberNULL(_) => r := Success(Null);
    case MemberS(s) => r := Success(String(s));
    case MemberSS(ss) => r := Success(Invalid(StringSet(ss)));
    case Unrecognised => r := Failure(NotSupported);
  }

  /** The MemberL case of newV2Decoder. */
  method DecodeList2(l: seq<V2>, ops: Formats) returns (r: Result<Node, DecodeError>)
    ensures r.Success? <==> DecodeV2(MemberL(l), ops).Some?
    ensures r.Success? ==> r.value == DecodeV2(MemberL(l), ops).value
    ensures r.Failure? ==> V2FailsWith(MemberL(l), ops, r.error)
    decreases MemberL(l), 0
  {
    var s := new Node[|l|](_ => Null);
    var i := 0;
    while i < |l|
      invariant 0 <= i <= |l|
      invariant forall j :: 0 <= j < i ==> DecodeV2(l[j], ops) == Some(s[j])
    {
      var x := NewV2Decoder(l[i], ops);
      if x.Failure? {
        assert V2FailsWith(l[i], ops, x.error);
        return Failure(x.error);
      }
      s[i] := x.value;
      i := i + 1;
    }
    assert s[..] == seq(|l|, j requires 0 <= j < |l| => DecodeV2(l[j], ops).value);
    r := Success(List(s[..]));
  }

  /** The MemberM case of newV2Decoder. */
  method DecodeMap2(em: map<string, V2>, ops: Formats) returns (r: Result<Node, DecodeError>)
    ensures r.Success? <==> DecodeV2(MemberM(em), ops).Some?
    ensures r.Success? ==> r.value == DecodeV2(MemberM(em), ops).value
    ensures r.Failure? ==> V2FailsWith(MemberM(em), ops, r.error)
    decreases MemberM(em), 0
  {
    var m: map<string, Node> := map[];
    var todo := em.Keys;
    while todo != {}
      invariant todo <= em.Keys
      invariant m.Keys == em.Keys - todo
      invariant forall k :: k in m ==> DecodeV2(em[k], ops) == Some(m[k])
    {
      var k :| k in todo;
      var x := NewV2Decoder(em[k], ops);
      if x.Failure? {
        assert V2FailsWith(em[k], ops, x.error);
        return Failure(x.error);
      }
      m := m[k := x.value];
      todo := todo - {k};
    }
    assert DecodeV2(MemberM(em), ops).value.entries == m;
    r := Success(Map(m));
  }
}
