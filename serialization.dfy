/** The serialisation layer of main.py: store documents become API payloads,
    with the internal `_id` replaced by a string `id`. */
module Serialization {
  import opened Documents

  /** `serialize_doc`: an empty document passes through; otherwise the copy
      loses `_id`, and `id` holds `str()` of the removed value. */
  function SerializeDoc(doc: Doc): (r: Doc)
    ensures doc == map[] ==> r == doc
    ensures "_id" !in doc ==> r == doc
    ensures "_id" in doc ==> "_id" !in r && "id" in r && r["id"] == Str(ToStr(doc["_id"]))
    ensures forall k :: k in doc && k != "_id" && k != "id" ==> k in r && r[k] == doc[k]
    ensures r.Keys == if "_id" in doc then doc.Keys - {"_id"} + {"id"} else doc.Keys
  {
    if doc == map[] then doc
    else if "_id" in doc then (doc - {"_id"})["id" := Str(ToStr(doc["_id"]))]
    else doc
  }

  /** Serialising twice is the same as serialising once: the first pass leaves
      no `_id` behind. */
  lemma {:induction false} SerializeDocIdempotent(doc: Doc)
    ensures SerializeDoc(SerializeDoc(doc)) == SerializeDoc(doc)
  {
  }

  /** A document carrying an object identifier and no `id` key of its own can
      be recovered from its payload: serialisation loses nothing. */
  lemma {:induction false} SerializeDocInjective(d1: Doc, d2: Doc)
    requires "_id" in d1 && d1["_id"].ObjId? && "id" !in d1
    requires "_id" in d2 && d2["_id"].ObjId? && "id" !in d2
    requires SerializeDoc(d1) == SerializeDoc(d2)
    ensures d1 == d2
  {
    var r := SerializeDoc(d1);
    ToStrObjIdInjective(d1["_id"], d2["_id"]);
    assert d1["_id"] == d2["_id"];
    assert d1.Keys == r.Keys - {"id"} + {"_id"} == d2.Keys;
    forall k | k in d1
      ensures d1[k] == d2[k]
    {
      if k != "_id" {
        assert d1[k] == r[k] == d2[k];
      }
    }
  }

  /** `serialize_list`: the element-wise serialisation, in the same order. */
  function SerializeList(docs: seq<Doc>): (r: seq<Doc>)
    ensures |r| == |docs|
    ensures forall i :: 0 <= i < |docs| ==> r[i] == SerializeDoc(docs[i])
  {
    if docs == [] then []
    else [SerializeDoc(docs[0])] + SerializeList(docs[1..])
  }

  /** Listing a concatenation lists each part in turn. */
  lemma {:induction false} SerializeListAppend(a: seq<Doc>, b: seq<Doc>)
    ensures SerializeList(a + b) == SerializeList(a) + SerializeList(b)
  {
    if a != [] {
      assert (a + b)[1..] == a[1..] + b;
      SerializeListAppend(a[1..], b);
    }
  }

  /** Every payload built from documents that carry an object identifier has a
      string `id` and no `_id`. */
  lemma {:induction false} SerializedListHasIds(docs: seq<Doc>)
    requires forall i :: 0 <= i < |docs| ==> "_id" in docs[i] && docs[i]["_id"].ObjId?
    ensures forall p: Doc :: p in SerializeList(docs) ==>
      "_id" !in p && "id" in p && p["id"].Str? && |p["id"].s| >= 1
  {
    var r := SerializeList(docs);
    forall p: Doc | p in r
      ensures "_id" !in p && "id" in p && p["id"].Str? && |p["id"].s| >= 1
    {
      var i :| 0 <= i < |r| && r[i] == p;
      assert p == SerializeDoc(docs[i]);
    }
  }
}
