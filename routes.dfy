/** The content and progress routes of main.py over the document store:
    GET /api/lessons, GET /api/lessons/{lesson_id}/words, POST /api/progress
    and GET /api/progress/{user_id}/{lesson_id}. A store error stands for the
    exception each route turns into an HTTP 500 response. */
module Routes {
  import opened Wrappers
  import opened Documents
  import opened Serialization
  import opened DocumentStore
  import Schemas

  /** The request body of POST /api/progress. Unlike the `Progress` record it
      declares no lower bound on the two counters. */
  datatype ProgressIn = ProgressIn(
    userId: string,
    lessonId: string,
    correct: int := 0,
    incorrect: int := 0,
    lastScore: Option<int> := None)

  /** Request-body validation; a `None` is answered with HTTP 422 before the
      route runs. */
  function ParseProgressIn(doc: Doc): (r: Option<ProgressIn>)
    ensures "user_id" !in doc || "lesson_id" !in doc ==> r.None?
    ensures r.Some? ==> doc["user_id"] == Str(r.value.userId) && doc["lesson_id"] == Str(r.value.lessonId)
    ensures r.Some? && "correct" !in doc ==> r.value.correct == 0
    ensures r.Some? && "incorrect" !in doc ==> r.value.incorrect == 0
    ensures r.Some? && "correct" in doc ==> doc["correct"] == Int(r.value.correct)
    ensures r.Some? && "incorrect" in doc ==> doc["incorrect"] == Int(r.value.incorrect)
    ensures r.Some? ==> (if "last_score" in doc then doc["last_score"] else Null) == Schemas.OptionalIntValue(r.value.lastScore)
  {
    var userId, lessonId := Schemas.RequiredStr(doc, "user_id"), Schemas.RequiredStr(doc, "lesson_id");
    var correct, incorrect := Schemas.IntOrDefault(doc, "correct", 0), Schemas.IntOrDefault(doc, "incorrect", 0);
    var lastScore := Schemas.OptionalInt(doc, "last_score");
    if userId.Some? && lessonId.Some? && correct.Some? && incorrect.Some? && lastScore.Some? then
      Some(ProgressIn(userId.value, lessonId.value, correct.value, incorrect.value, lastScore.value))
    else None
  }

  /** `payload.model_dump()`: every declared field, `None` as null. */
  function Dump(p: ProgressIn): (r: Doc)
    ensures r.Keys == {"user_id", "lesson_id", "correct", "incorrect", "last_score"}
    ensures r["user_id"] == Str(p.userId) && r["lesson_id"] == Str(p.lessonId)
    ensures r["correct"] == Int(p.correct) && r["incorrect"] == Int(p.incorrect)
    ensures r["last_score"] == if p.lastScore.Some? then Int(p.lastScore.value) else Null
  {
    map["user_id" := Str(p.userId), "lesson_id" := Str(p.lessonId), "correct" := Int(p.correct),
        "incorrect" := Int(p.incorrect), "last_score" := Schemas.OptionalIntValue(p.lastScore)]
  }

  /** The dumped body validates back to the same body. */
  lemma {:induction false} ProgressInRoundTrip(p: ProgressIn)
    ensures ParseProgressIn(Dump(p)) == Some(p)
  {
  }

  /** The stored progress record is a valid `Progress` exactly when the
      submitted counters are non-negative; the route itself does not check. */
  lemma {:induction false} StoredProgressValidIff(p: ProgressIn, id: nat)
    ensures Schemas.ParseProgress(Stamp(Dump(p), id)).Some? <==> p.correct >= 0 && p.incorrect >= 0
    ensures p.correct >= 0 && p.incorrect >= 0 ==>
      Schemas.ParseProgress(Stamp(Dump(p), id)) == Some(Schemas.Progress(p.userId, p.lessonId, p.correct, p.incorrect, p.lastScore))
  {
    var doc := Stamp(Dump(p), id);
    assert doc["correct"] == Int(p.correct) && doc["incorrect"] == Int(p.incorrect);
  }

  /** A body with a negative counter passes request validation, and what the
      route would store is then not a valid `Progress`. */
  lemma {:induction false} NegativeCountsAccepted()
    ensures ParseProgressIn(Dump(ProgressIn("guest", "l1", -1))) == Some(ProgressIn("guest", "l1", -1))
    ensures Schemas.ParseProgress(Dump(ProgressIn("guest", "l1", -1))).None?
  {
  }

  /** GET /api/lessons: every lesson, serialised, in stored order. */
  method ListLessons(store: Store) returns (r: Result<seq<Doc>, StoreError>)
    ensures !store.available ==> r == Err(Unavailable)
    ensures store.available ==> r == Ok(SerializeList(store.Docs("lesson")))
  {
    var lessons := store.GetDocuments("lesson", map[], None);
    if lessons.Err? {
      return Err(lessons.error);
    }
    SelectAll(store.Docs("lesson"));
    return Ok(SerializeList(lessons.value));
  }

  function WordFilter(lessonId: string): Doc
  {
    map["lesson_id" := Str(lessonId)]
  }

  /** The word filter accepts exactly the documents tagged with that lesson id. */
  lemma MatchesWordFilter(d: Doc, lessonId: string)
    ensures Matches(d, WordFilter(lessonId)) <==> "lesson_id" in d && d["lesson_id"] == Str(lessonId)
  {
    if "lesson_id" in d && d["lesson_id"] == Str(lessonId) {
      forall k | k in WordFilter(lessonId)
        ensures k in d && d[k] == WordFilter(lessonId)[k]
      {
        assert k == "lesson_id";
      }
    } else {
      assert "lesson_id" in WordFilter(lessonId);
    }
  }

  /** GET /api/lessons/{lesson_id}/words: the words tagged with that lesson,
      serialised, in stored order; none is an empty list, not an error. */
  method ListWordsForLesson(store: Store, lessonId: string) returns (r: Result<seq<Doc>, StoreError>)
    ensures !store.available ==> r == Err(Unavailable)
    ensures store.available ==> r == Ok(SerializeList(Select(store.Docs("word"), WordFilter(lessonId))))
    ensures r.Ok? ==> forall w :: w in r.value ==> "lesson_id" in w && w["lesson_id"] == Str(lessonId)
  {
    var words := store.GetDocuments("word", WordFilter(lessonId), None);
    if words.Err? {
      return Err(words.error);
    }
    SelectedWordsTagged(store.Docs("word"), lessonId);
    return Ok(SerializeList(words.value));
  }

  /** Every serialised word selected for a lesson carries that lesson's id. */
  lemma {:induction false} SelectedWordsTagged(docs: seq<Doc>, lessonId: string)
    ensures forall w :: w in SerializeList(Select(docs, WordFilter(lessonId))) ==>
      "lesson_id" in w && w["lesson_id"] == Str(lessonId)
  {
    var found := Select(docs, WordFilter(lessonId));
    var r := SerializeList(found);
    forall w | w in r
      ensures "lesson_id" in w && w["lesson_id"] == Str(lessonId)
    {
      var i :| 0 <= i < |r| && r[i] == w;
      SelectMembers(docs, WordFilter(lessonId), found[i]);
      MatchesWordFilter(found[i], lessonId);
    }
  }

  /** POST /api/progress: always a new record (never an update of an earlier
      one), answered with its id. */
  method SubmitProgress(store: Store, payload: ProgressIn) returns (r: Result<Doc, StoreError>)
    requires store.Valid()
    modifies store
    ensures store.Valid()
    ensures !store.available ==> r == Err(Unavailable)
    ensures !store.available ==> store.collections == old(store.collections) && store.nextId == old(store.nextId)
    ensures store.available ==> r == Ok(map["id" := Str(IdToString(old(store.nextId))), "status" := Str("ok")])
    ensures store.available ==> store.nextId == old(store.nextId) + 1
    ensures store.available ==>
      store.collections == Inserted(old(store.collections), "progress", Stamp(Dump(payload), old(store.nextId)))
  {
    var data := Dump(payload);
    var newId := store.CreateDocument("progress", data);
    if newId.Err? {
      return Err(newId.error);
    }
    return Ok(map["id" := Str(newId.value), "status" := Str("ok")]);
  }

  /** Two submissions of the same body leave two records with different
      identifiers, each found by its own id string. */
  lemma {:induction false} ResubmitKeepsBoth(cols: map<string, seq<Doc>>, next: nat, p: ProgressIn)
    ensures var after := Inserted(Inserted(cols, "progress", Stamp(Dump(p), next)), "progress", Stamp(Dump(p), next + 1));
      var n := |Stored(cols, "progress")|;
      && Stored(after, "progress")[..n] == Stored(cols, "progress")
      && Stored(after, "progress")[n..] == [Stamp(Dump(p), next), Stamp(Dump(p), next + 1)]
      && ToStr(Stored(after, "progress")[n]["_id"]) != ToStr(Stored(after, "progress")[n + 1]["_id"])
  {
    var first, second := Stamp(Dump(p), next), Stamp(Dump(p), next + 1);
    var after := Inserted(Inserted(cols, "progress", first), "progress", second);
    assert Stored(after, "progress") == Stored(cols, "progress") + [first, second];
    IdToStringInjective(next, next + 1);
  }

  function ProgressFilter(userId: string, lessonId: string): Doc
  {
    map["user_id" := Str(userId), "lesson_id" := Str(lessonId)]
  }

  const NoRecord: Doc := map["status" := Str("none")]

  /** What GET /api/progress answers for a pair, given the stored progress
      records: the first matching record in stored order, serialised, or the
      "none" marker. */
  function ProgressLookup(docs: seq<Doc>, userId: string, lessonId: string): (r: Doc)
    ensures "_id" !in r
    ensures r != NoRecord ==> "user_id" in r && r["user_id"] == Str(userId) && "lesson_id" in r && r["lesson_id"] == Str(lessonId)
  {
    var filter := ProgressFilter(userId, lessonId);
    var found := Select(docs, filter);
    if found != [] then
      SelectMembers(docs, filter, found[0]);
      assert "user_id" in filter && "lesson_id" in filter && Matches(found[0], filter);
      SerializeDoc(found[0])
    else NoRecord
  }

  /** The "none" marker comes back exactly when no record matches the pair. */
  lemma {:induction false} LookupNoneIff(docs: seq<Doc>, userId: string, lessonId: string)
    ensures ProgressLookup(docs, userId, lessonId) == NoRecord <==>
      forall d :: d in docs ==> !Matches(d, ProgressFilter(userId, lessonId))
  {
    var filter := ProgressFilter(userId, lessonId);
    var found := Select(docs, filter);
    SelectEmptyIff(docs, filter);
    if found != [] {
      SelectMembers(docs, filter, found[0]);
      assert "user_id" in SerializeDoc(found[0]);
    }
  }

  /** After the first submission for a pair, the lookup returns that record. */
  lemma {:induction false} LookupAfterFirstSubmit(docs: seq<Doc>, p: ProgressIn, id: nat)
    requires forall d :: d in docs ==> !Matches(d, ProgressFilter(p.userId, p.lessonId))
    ensures ProgressLookup(docs + [Stamp(Dump(p), id)], p.userId, p.lessonId) == SerializeDoc(Stamp(Dump(p), id))
  {
    var filter := ProgressFilter(p.userId, p.lessonId);
    var doc := Stamp(Dump(p), id);
    assert Select(docs + [doc], filter) == [doc] by {
      SelectEmptyIff(docs, filter);
      SelectAppend(docs, [doc], filter);
      assert Matches(doc, filter);
      assert [doc][1..] == [];
    }
  }

  /** The payload of a stored submission carries its id string and the
      submitted counters. */
  lemma {:induction false} SubmittedPayload(p: ProgressIn, id: nat)
    ensures var r := SerializeDoc(Stamp(Dump(p), id));
      && r["id"] == Str(IdToString(id))
      && r["correct"] == Int(p.correct) && r["incorrect"] == Int(p.incorrect)
  {
    var doc := Stamp(Dump(p), id);
    assert doc["correct"] == Int(p.correct) && doc["incorrect"] == Int(p.incorrect);
  }

  /** Once a pair has a record, later submissions do not change what the
      lookup returns: it keeps answering with the earliest stored record. */
  lemma {:induction false} LookupKeepsEarliest(docs: seq<Doc>, doc: Doc, userId: string, lessonId: string)
    requires exists d :: d in docs && Matches(d, ProgressFilter(userId, lessonId))
    ensures ProgressLookup(docs + [doc], userId, lessonId) == ProgressLookup(docs, userId, lessonId)
  {
    var filter := ProgressFilter(userId, lessonId);
    var d :| d in docs && Matches(d, filter);
    SelectMembers(docs, filter, d);
    SelectAppend(docs, [doc], filter);
  }

  /** GET /api/progress/{user_id}/{lesson_id}: the store is asked for at most
      one matching record. */
  method GetProgress(store: Store, userId: string, lessonId: string) returns (r: Result<Doc, StoreError>)
    ensures !store.available ==> r == Err(Unavailable)
    ensures store.available ==> r == Ok(ProgressLookup(store.Docs("progress"), userId, lessonId))
  {
    var docs := store.GetDocuments("progress", ProgressFilter(userId, lessonId), Some(1));
    if docs.Err? {
      return Err(docs.error);
    }
    if |docs.value| > 0 {
      return Ok(SerializeDoc(docs.value[0]));
    }
    return Ok(NoRecord);
  }
}
