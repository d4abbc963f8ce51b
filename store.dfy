/** An in-memory document store standing in for the store adapter main.py
    imports (`create_document`, `get_documents`, and the `count_documents`
    call the seeder makes). database.py is not part of this model: this is an
    assumed abstraction of it, with the collections as a map of sequences in
    insertion order and object identifiers drawn from a counter. */
module DocumentStore {
  import opened Wrappers
  import opened Documents

  /** The failures of the database layer: the process has no database
      handle, so every store call fails; or a connected handle was
      truth-tested, which raises. */
  datatype StoreError = Unavailable | NoTruthValue

  /** Exact-match filter: every filter entry is present with the same value. */
  predicate Matches(doc: Doc, filter: Doc)
  {
    forall k :: k in filter ==> k in doc && doc[k] == filter[k]
  }

  /** A document matches a filter exactly when the filter is a sub-map of it. */
  lemma {:induction false} MatchesIsSubmap(doc: Doc, filter: Doc)
    ensures Matches(doc, filter) <==> filter.Items <= doc.Items
  {
    if Matches(doc, filter) {
      forall e | e in filter.Items
        ensures e in doc.Items
      {
        assert e.0 in filter && filter[e.0] == e.1;
      }
    }
    if filter.Items <= doc.Items {
      forall k | k in filter
        ensures k in doc && doc[k] == filter[k]
      {
        assert (k, filter[k]) in filter.Items;
      }
    }
  }

  /** The documents that match `filter`, in their stored order. */
  function Select(docs: seq<Doc>, filter: Doc): (r: seq<Doc>)
    ensures |r| <= |docs|
  {
    if docs == [] then []
    else (if Matches(docs[0], filter) then [docs[0]] else []) + Select(docs[1..], filter)
  }

  /** A document is selected exactly when it is stored and matches. */
  lemma {:induction false} SelectMembers(docs: seq<Doc>, filter: Doc, d: Doc)
    ensures d in Select(docs, filter) <==> d in docs && Matches(d, filter)
  {
    if docs != [] {
      SelectMembers(docs[1..], filter, d);
      assert docs == [docs[0]] + docs[1..];
    }
  }

  /** Nothing is selected exactly when no stored document matches. */
  lemma {:induction false} SelectEmptyIff(docs: seq<Doc>, filter: Doc)
    ensures Select(docs, filter) == [] <==> forall d :: d in docs ==> !Matches(d, filter)
  {
    if docs != [] {
      SelectEmptyIff(docs[1..], filter);
      assert forall d :: d in docs <==> d == docs[0] || d in docs[1..];
    }
  }

  /** Selection keeps order: selecting from a concatenation selects from each
      part in turn. */
  lemma {:induction false} SelectAppend(a: seq<Doc>, b: seq<Doc>, filter: Doc)
    ensures Select(a + b, filter) == Select(a, filter) + Select(b, filter)
  {
    if a == [] {
      assert a + b == b;
    } else {
      assert (a + b)[1..] == a[1..] + b;
      SelectAppend(a[1..], b, filter);
    }
  }

  /** The empty filter selects every document, in order. */
  lemma {:induction false} SelectAll(docs: seq<Doc>)
    ensures Select(docs, map[]) == docs
  {
    if docs != [] {
      SelectAll(docs[1..]);
    }
  }

  /** Reading one more document extends the selection by it when it matches. */
  lemma {:induction false} SelectPrefixStep(docs: seq<Doc>, filter: Doc, i: nat)
    requires i < |docs|
    ensures Select(docs[..i + 1], filter) == Select(docs[..i], filter) + (if Matches(docs[i], filter) then [docs[i]] else [])
  {
    assert docs[..i + 1] == docs[..i] + [docs[i]];
    SelectAppend(docs[..i], [docs[i]], filter);
  }

  /** The optional cap on the number of returned documents. */
  function Limit(docs: seq<Doc>, limit: Option<nat>): (r: seq<Doc>)
    ensures r <= docs
    ensures limit.None? ==> r == docs
    ensures limit.Some? ==> |r| == if |docs| <= limit.value then |docs| else limit.value
  {
    match limit
    case None => docs
    case Some(k) => if |docs| <= k then docs else docs[..k]
  }

  /** A scan that stops after reading all documents, or once it holds `limit`
      matches, holds exactly the capped selection. */
  lemma {:induction false} SelectStopped(docs: seq<Doc>, filter: Doc, limit: Option<nat>, i: nat)
    requires i <= |docs|
    requires i == |docs| || (limit.Some? && |Select(docs[..i], filter)| == limit.value)
    requires limit.Some? ==> |Select(docs[..i], filter)| <= limit.value
    ensures Limit(Select(docs, filter), limit) == Select(docs[..i], filter)
  {
    var found := Select(docs[..i], filter);
    assert docs == docs[..i] + docs[i..];
    SelectAppend(docs[..i], docs[i..], filter);
    var all := Select(docs, filter);
    assert all == found + Select(docs[i..], filter);
    if i < |docs| {
      assert all[..|found|] == found;
    } else {
      assert docs[i..] == [];
    }
  }

  /** A collection's documents; a collection never written to is empty. */
  function Stored(cols: map<string, seq<Doc>>, name: string): seq<Doc>
  {
    if name in cols then cols[name] else []
  }

  /** The inserted document: the given data with a fresh `_id`. */
  function Stamp(data: Doc, id: nat): (r: Doc)
    ensures "_id" in r && r["_id"] == ObjId(id)
    ensures r.Keys == data.Keys + {"_id"}
    ensures forall k :: k in data && k != "_id" ==> r[k] == data[k]
  {
    data["_id" := ObjId(id)]
  }

  /** The collections after appending `doc` to collection `name`. */
  function Inserted(cols: map<string, seq<Doc>>, name: string, doc: Doc): (r: map<string, seq<Doc>>)
    ensures Stored(r, name) == Stored(cols, name) + [doc]
    ensures forall other :: other != name ==> Stored(r, other) == Stored(cols, other)
  {
    cols[name := Stored(cols, name) + [doc]]
  }

  /** The `_id` entry of a document, `Null` when it has none. */
  function IdOf(doc: Doc): (v: Value)
    ensures "_id" in doc ==> v == doc["_id"]
  {
    if "_id" in doc then doc["_id"] else Null
  }

  /** Every stored document carries an object identifier below `next`. */
  ghost predicate IdsBelow(cols: map<string, seq<Doc>>, next: nat)
  {
    forall name, i {:trigger IdOf(cols[name][i])} :: name in cols && 0 <= i < |cols[name]| ==>
      "_id" in cols[name][i] && IdOf(cols[name][i]).ObjId? && IdOf(cols[name][i]).n < next
  }

  /** No two stored documents, in any collections, share an identifier. */
  ghost predicate IdsUnique(cols: map<string, seq<Doc>>)
  {
    forall n1, i1, n2, i2 {:trigger IdOf(cols[n1][i1]), IdOf(cols[n2][i2])} ::
      n1 in cols && n2 in cols && 0 <= i1 < |cols[n1]| && 0 <= i2 < |cols[n2]| &&
      (n1 != n2 || i1 != i2) && "_id" in cols[n1][i1] && "_id" in cols[n2][i2]
      ==> IdOf(cols[n1][i1]) != IdOf(cols[n2][i2])
  }

  /** Inserting a document stamped with the next identifier keeps every
      identifier below the counter and all of them distinct. */
  lemma {:induction false} InsertKeepsIds(cols: map<string, seq<Doc>>, next: nat, name: string, data: Doc)
    requires IdsBelow(cols, next) && IdsUnique(cols)
    ensures IdsBelow(Inserted(cols, name, Stamp(data, next)), next + 1)
    ensures IdsUnique(Inserted(cols, name, Stamp(data, next)))
  {
    var r: map<string, seq<Doc>> := Inserted(cols, name, Stamp(data, next));
    forall n: string, i: int | n in r && 0 <= i < |r[n]|
      ensures "_id" in r[n][i] && IdOf(r[n][i]).ObjId? && IdOf(r[n][i]).n < next + 1
      ensures IdOf(r[n][i]) == ObjId(next) <==> n == name && i == |Stored(cols, name)|
    {
      if n != name || i < |Stored(cols, name)| {
        assert r[n][i] == cols[n][i];
        assert IdOf(cols[n][i]).n < next;
      }
    }
  }

  /** The string id handed out for a new document differs from the string
      form of every stored document's identifier. */
  lemma {:induction false} FreshIdIsNew(cols: map<string, seq<Doc>>, next: nat, name: string, i: int)
    requires IdsBelow(cols, next)
    requires name in cols && 0 <= i < |cols[name]|
    ensures "_id" in cols[name][i] && ToStr(IdOf(cols[name][i])) != IdToString(next)
  {
    ToStrObjIdInjective(IdOf(cols[name][i]), ObjId(next));
  }

  /** The store. `available` is false when the process has no database
      handle; every store call then fails. */
  class Store {
    const available: bool
    var collections: map<string, seq<Doc>>
    var nextId: nat

    ghost predicate Valid()
      reads this
    {
      IdsBelow(collections, nextId) && IdsUnique(collections)
    }

    function Docs(name: string): seq<Doc>
      reads this
    {
      Stored(collections, name)
    }

    constructor (available: bool)
      ensures Valid()
      ensures this.available == available && collections == map[] && nextId == 0
    {
      this.available := available;
      collections := map[];
      nextId := 0;
    }

    /** `create_document`: append `data` with a fresh `_id` to the named
        collection and return the id's string form. */
    method CreateDocument(name: string, data: Doc) returns (r: Result<string, StoreError>)
      requires Valid()
      modifies this
      ensures Valid()
      ensures !available ==> r == Err(Unavailable) && collections == old(collections) && nextId == old(nextId)
      ensures available ==> r == Ok(IdToString(old(nextId))) && nextId == old(nextId) + 1
      ensures available ==> collections == Inserted(old(collections), name, Stamp(data, old(nextId)))
      ensures available ==> Docs(name) == old(Docs(name)) + [Stamp(data, old(nextId))]
      ensures forall other :: other != name ==> Docs(other) == old(Docs(other))
    {
      if !available {
        return Err(Unavailable);
      }
      InsertKeepsIds(collections, nextId, name, data);
      collections := Inserted(collections, name, Stamp(data, nextId));
      r := Ok(IdToString(nextId));
      nextId := nextId + 1;
    }

    /** `get_documents`: the documents of a collection that match `filter`,
        in stored order, at most `limit` of them when a limit is given. */
    method GetDocuments(name: string, filter: Doc, limit: Option<nat>) returns (r: Result<seq<Doc>, StoreError>)
      ensures !available ==> r == Err(Unavailable)
      ensures available ==> r == Ok(Limit(Select(Docs(name), filter), limit))
    {
      if !available {
        return Err(Unavailable);
      }
      var docs := Docs(name);
      var found: seq<Doc> := [];
      var i := 0;
      while i < |docs| && (limit.None? || |found| < limit.value)
        invariant 0 <= i <= |docs|
        invariant found == Select(docs[..i], filter)
        invariant limit.Some? ==> |found| <= limit.value
      {
        SelectPrefixStep(docs, filter, i);
        if Matches(docs[i], filter) {
          found := found + [docs[i]];
        }
        i := i + 1;
      }
      SelectStopped(docs, filter, limit, i);
      return Ok(found);
    }

    /** `count_documents({})` on a collection; only reached with a handle. */
    method CountDocuments(name: string) returns (n: nat)
      requires available
      ensures n == |Docs(name)|
    {
      n := |Docs(name)|;
    }
  }
}
