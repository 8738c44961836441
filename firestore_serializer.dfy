/** Conversion of Firestore documents into JSON-serialisable values (utils/firestore_serializer.py). */
module FirestoreSerializer {
  import opened Values

  /** No datetime occurs anywhere inside `v`. */
  predicate Plain(v: Value)
  {
    match v
    case DateTime(_) => false
    case List(xs) => forall i :: 0 <= i < |xs| ==> Plain(xs[i])
    case Obj(m) => forall k :: k in m ==> Plain(m[k])
    case _ => true
  }

  /**
   * `convert_firestore_datetime`: every datetime becomes its ISO string;
   * dicts keep their keys and lists their order, converted element-wise;
   * any other value is returned as it is.
   */
  function ConvertFirestoreDatetime(v: Value): (r: Value)
    ensures Plain(r)
    ensures v.DateTime? ==> r == Str(v.iso)
    ensures v.Obj? ==> r.Obj? && r.fields.Keys == v.fields.Keys
    ensures v.List? ==> r.List? && |r.items| == |v.items|
    ensures !v.DateTime? && !v.Obj? && !v.List? ==> r == v
  {
    match v
    case DateTime(iso) => Str(iso)
    case List(xs) => List(seq(|xs|, i requires 0 <= i < |xs| => ConvertFirestoreDatetime(xs[i])))
    case Obj(m) => Obj(map k | k in m :: ConvertFirestoreDatetime(m[k]))
    case _ => v
  }

  /** Each element of a list and each value of a dict is converted on its own. */
  lemma ConvertPointwise(v: Value)
    ensures v.List? ==> forall i :: 0 <= i < |v.items| ==>
      ConvertFirestoreDatetime(v).items[i] == ConvertFirestoreDatetime(v.items[i])
    ensures v.Obj? ==> forall k :: k in v.fields ==>
      ConvertFirestoreDatetime(v).fields[k] == ConvertFirestoreDatetime(v.fields[k])
  {
  }

  /** A value without datetimes is left exactly as it is. */
  lemma {:induction false} ConvertPlainIsIdentity(v: Value)
    requires Plain(v)
    ensures ConvertFirestoreDatetime(v) == v
  {
    match v
    case List(xs) =>
      forall i | 0 <= i < |xs| ensures ConvertFirestoreDatetime(xs[i]) == xs[i] {
        ConvertPlainIsIdentity(xs[i]);
      }
      assert ConvertFirestoreDatetime(v).items == xs;
    case Obj(m) =>
      forall k | k in m ensures ConvertFirestoreDatetime(m[k]) == m[k] {
        ConvertPlainIsIdentity(m[k]);
      }
      assert ConvertFirestoreDatetime(v).fields == m;
    case _ =>
  }

  /** Converting twice is converting once. */
  lemma ConvertIdempotent(v: Value)
    ensures ConvertFirestoreDatetime(ConvertFirestoreDatetime(v)) == ConvertFirestoreDatetime(v)
  {
    ConvertPlainIsIdentity(ConvertFirestoreDatetime(v));
  }

  /** `firestore_to_json`: the same conversion, applied to a document or a list of documents. */
  function FirestoreToJson(data: Value): (r: Value)
    ensures Plain(r)
    ensures data.Obj? ==> r.Obj? && r.fields.Keys == data.fields.Keys
    ensures data.List? ==> r.List? && |r.items| == |data.items|
  {
    ConvertFirestoreDatetime(data)
  }
}
