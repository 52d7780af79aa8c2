/**
 * Projecting a document onto its key fields, and the map helper that
 * drops nil string pointers.
 */
module Keys {
  import opened Wrappers
  import opened Nodes
  import opened Builder

  /** A document field: a value the encoder accepts, or one it rejects. */
  datatype Field = Encodable(v: GoValue) | Unencodable

  /** A document, by field name; a name missing here is a field the document lacks. */
  type Document = map<string, Field>

  datatype KeyError = FieldNotFound(name: string) | EncodeFailed(name: string)

  /** The error setting field name reports, if any. */
  function FieldError(doc: Document, name: string): (r: Option<KeyError>)
    ensures r.None? <==> name in doc && doc[name].Encodable?
    ensures r == Some(FieldNotFound(name)) <==> name !in doc
  {
    if name !in doc then Some(FieldNotFound(name))
    else if doc[name].Unencodable? then Some(EncodeFailed(name))
    else None
  }

  /** The names of the key fields: the partition key, and the sort key when it is non-empty. */
  function KeyNames(pkey: string, skey: string): (r: set<string>)
    ensures pkey in r
    ensures forall k :: k in r <==> k == pkey || (skey != "" && k == skey)
  {
    if skey == "" then {pkey} else {pkey, skey}
  }

  /** encodeDocKeyFields' set closure: look up the field and encode it. */
  method SetField(doc: Document, name: string, m: map<string, Node>, ops: Formats)
    returns (r: Result<map<string, Node>, KeyError>)
    ensures FieldError(doc, name).Some? ==> r == Failure(FieldError(doc, name).value)
    ensures FieldError(doc, name).None? ==> r == Success(m[name := Encoded(doc[name].v, ops)])
  {
    if name !in doc {
      return Failure(FieldNotFound(name));
    }
    match doc[name]
    case Unencodable =>
      r := Failure(EncodeFailed(name));
    case Encodable(v) =>
      var n := EncodeValue(v, ops);
      r := Success(m[name := n]);
  }

  /**
   * encodeDocKeyFields: the encoded key fields of doc, the partition key's
   * error taking precedence over the sort key's.
   */
  method EncodeDocKeyFields(doc: Document, pkey: string, skey: string, ops: Formats)
    returns (r: Result<map<string, Node>, KeyError>)
    ensures FieldError(doc, pkey).Some? ==> r == Failure(FieldError(doc, pkey).value)
    ensures FieldError(doc, pkey).None? && skey != "" && FieldError(doc, skey).Some? ==>
              r == Failure(FieldError(doc, skey).value)
    ensures r.Success? <==> FieldError(doc, pkey).None? && (skey != "" ==> FieldError(doc, skey).None?)
    ensures r.Success? ==> r.value.Keys == KeyNames(pkey, skey)
    ensures r.Success? ==> forall k :: k in r.value ==> k in doc && doc[k].Encodable? && r.value[k] == Encoded(doc[k].v, ops)
  {
    var m: map<string, Node> := map[];
    r := SetField(doc, pkey, m, ops);
    if r.Failure? {
      return;
    }
    m := r.value;
    if skey != "" {
      r := SetField(doc, skey, m, ops);
      if r.Failure? {
        return;
      }
      m := r.value;
    }
    r := Success(m);
  }

  /** reReferenceMapString: keeps exactly the entries whose pointer is non-nil, dereferenced. */
  method ReReferenceMapString(m: map<string, Option<string>>) returns (out: map<string, string>)
    ensures forall k :: k in out <==> k in m && m[k].Some?
    ensures forall k :: k in out ==> m[k] == Some(out[k])
  {
    out := map[];
    var todo := m.Keys;
    while todo != {}
      invariant todo <= m.Keys
      invariant forall k :: k in out <==> k in m && k !in todo && m[k].Some?
      invariant forall k :: k in out ==> m[k] == Some(out[k])
      decreases todo
    {
      var k :| k in todo;
      if m[k].Some? {
        out := out[k := m[k].value];
      }
      todo := todo - {k};
    }
  }
}
