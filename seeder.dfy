/** POST /api/seed: the one-shot demo-content seeder of main.py. It writes
    three lessons and then four words for each, tagging every word with the
    id of its lesson, but only when the lesson collection is empty. */
module Seeder {
  import opened Wrappers
  import opened Documents
  import opened DocumentStore
  import Schemas
  import Routes

  datatype SeedResponse =
    | Created(lessons: nat, words: nat)   // {"status": "ok", "created": {...}}
    | Exists(message: string)             // {"status": "exists", "message": ...}

  const AlreadySeeded: string := "Lessons already seeded"

  const DemoLessons: seq<Doc> := [
    map["title" := Str("צבעים"), "english_title" := Str("Colors"), "description" := Str("לומדים צבעים בסיסיים"),
        "level" := Str("beginner"), "cover_emoji" := Str("🎨")],
    map["title" := Str("חיות"), "english_title" := Str("Animals"), "description" := Str("מכירים חיות נפוצות"),
        "level" := Str("beginner"), "cover_emoji" := Str("🐾")],
    map["title" := Str("אוכל"), "english_title" := Str("Food"), "description" := Str("מילים על אוכל טעים"),
        "level" := Str("beginner"), "cover_emoji" := Str("🍎")]
  ]

  datatype DemoWord = DemoWord(english: string, hebrew: string)

  const ColorWords: seq<DemoWord> :=
    [DemoWord("red", "אדום"), DemoWord("blue", "כחול"), DemoWord("green", "ירוק"), DemoWord("yellow", "צהוב")]
  const AnimalWords: seq<DemoWord> :=
    [DemoWord("dog", "כלב"), DemoWord("cat", "חתול"), DemoWord("bird", "ציפור"), DemoWord("fish", "דג")]
  const FoodWords: seq<DemoWord> :=
    [DemoWord("apple", "תפוח"), DemoWord("bread", "לחם"), DemoWord("milk", "חלב"), DemoWord("cheese", "גבינה")]

  /** The word lists in the order they are inserted, one per demo lesson. */
  const WordLists: seq<seq<DemoWord>> := [ColorWords, AnimalWords, FoodWords]

  /** `{**w, "lesson_id": lesson_id}`: the demo word's two fields, tagged
      with its lesson. */
  function WordData(w: DemoWord, lessonId: string): (r: Doc)
  {
    map["english" := Str(w.english), "hebrew" := Str(w.hebrew), "lesson_id" := Str(lessonId)]
  }

  /** The demo data: three lessons, each a valid `Lesson` at level
      "beginner" under the English titles Colors, Animals and Food, and three
      word lists of four words, one per lesson. */
  lemma {:induction false} DemoContent()
    ensures |DemoLessons| == 3 && ThreeByFour(WordLists)
    ensures forall k :: 0 <= k < 3 ==>
      Schemas.ParseLesson(DemoLessons[k]).Some? && Schemas.ParseLesson(DemoLessons[k]).value.level == "beginner"
    ensures Schemas.ParseLesson(DemoLessons[0]).value.englishTitle == Some("Colors")
    ensures Schemas.ParseLesson(DemoLessons[1]).value.englishTitle == Some("Animals")
    ensures Schemas.ParseLesson(DemoLessons[2]).value.englishTitle == Some("Food")
  {
  }

  /** Documents as stored one after another from identifier `first` on. */
  function StampedFrom(docs: seq<Doc>, first: nat): (r: seq<Doc>)
    ensures |r| == |docs|
  {
    seq(|docs|, k requires 0 <= k < |docs| => Stamp(docs[k], first + k))
  }

  /** The demo lessons as stored when the first gets identifier `first`. */
  function StampedLessons(first: nat): (r: seq<Doc>)
    ensures |r| == 3
  {
    StampedFrom(DemoLessons, first)
  }

  /** One word list as stored, tagged with `lessonId`, identifiers from `first`. */
  function TaggedWords(words: seq<DemoWord>, lessonId: string, first: nat): (r: seq<Doc>)
    ensures |r| == |words|
  {
    seq(|words|, j requires 0 <= j < |words| => Stamp(WordData(words[j], lessonId), first + j))
  }

  /** Three word lists of four words each, the shape of the seeder's data. */
  predicate ThreeByFour(lists: seq<seq<DemoWord>>)
  {
    |lists| == 3 && |lists[0]| == 4 && |lists[1]| == 4 && |lists[2]| == 4
  }

  /** The three word lists as stored one after another from identifier
      `first` on, list `m` tagged with `ids[m]`. */
  function TaggedLists(lists: seq<seq<DemoWord>>, ids: seq<string>, first: nat): (r: seq<Doc>)
    requires ThreeByFour(lists) && |ids| == 3
    ensures |r| == 12
  {
    TaggedWords(lists[0], ids[0], first)
    + TaggedWords(lists[1], ids[1], first + 4)
    + TaggedWords(lists[2], ids[2], first + 8)
  }

  /** The id strings of `n` documents stored one after another from
      identifier `first` on. */
  function IdStrings(first: nat, n: nat): (r: seq<string>)
    ensures |r| == n
  {
    seq(n, k requires 0 <= k < n => IdToString(first + k))
  }

  /** The id strings of the three lessons stored from identifier `first` on. */
  function LessonIds(first: nat): (r: seq<string>)
    ensures |r| == 3
  {
    IdStrings(first, 3)
  }

  /** The id string that word list `m` is tagged with is `str()` of the
      `_id` of the `m`-th stored demo lesson. */
  lemma {:induction false} LessonIdIsStoredId(first: nat, m: nat)
    requires m < 3
    ensures "_id" in StampedLessons(first)[m]
    ensures ToStr(StampedLessons(first)[m]["_id"]) == LessonIds(first)[m]
  {
    StampedIdAt(DemoLessons, first, m);
  }

  /** The `m`-th of a run of stored documents carries identifier `first + m`. */
  lemma {:induction false} StampedIdAt(docs: seq<Doc>, first: nat, m: nat)
    requires m < |docs|
    ensures "_id" in StampedFrom(docs, first)[m] && StampedFrom(docs, first)[m]["_id"] == ObjId(first + m)
  {
    assert StampedFrom(docs, first)[m] == Stamp(docs[m], first + m);
  }

  /** The three lesson ids differ from each other. */
  lemma {:induction false} LessonIdsDistinct(first: nat)
    ensures LessonIds(first)[0] != LessonIds(first)[1]
    ensures LessonIds(first)[0] != LessonIds(first)[2]
    ensures LessonIds(first)[1] != LessonIds(first)[2]
  {
    IdToStringInjective(first, first + 1);
    IdToStringInjective(first, first + 2);
    IdToStringInjective(first + 1, first + 2);
  }

  /** The word documents the seeder stores after the lessons that got
      identifiers `first`, `first + 1` and `first + 2`: list `m` tagged with
      the id string of lesson `m`. */
  function SeededWords(lists: seq<seq<DemoWord>>, first: nat): (r: seq<Doc>)
    requires ThreeByFour(lists)
    ensures |r| == 12
  {
    TaggedLists(lists, LessonIds(first), first + 3)
  }

  /** Word `i` of list `m` is seed word `4 * m + i`: it carries the id
      string of lesson `m`, and its own identifier comes after the three
      lessons'. */
  lemma {:induction false} SeededWordAt(lists: seq<seq<DemoWord>>, first: nat, m: nat, i: nat)
    requires ThreeByFour(lists) && m < 3 && i < 4
    ensures SeededWords(lists, first)[4 * m + i] == TaggedWords(lists[m], LessonIds(first)[m], first + 3 + 4 * m)[i]
  {
    TaggedWordAt(lists, LessonIds(first), first + 3, m, i);
  }

  /** Element `i` of block `m` in three blocks of four laid end to end. */
  lemma {:induction false} ThreeFoursAt<T>(a: seq<T>, b: seq<T>, c: seq<T>, m: nat, i: nat)
    requires |a| == 4 && |b| == 4 && |c| == 4 && m < 3 && i < 4
    ensures (a + b + c)[4 * m + i] == if m == 0 then a[i] else if m == 1 then b[i] else c[i]
  {
    if m == 2 {
      assert (a + b + c)[8 + i] == c[i];
    }
  }

  /** Every lesson document the seeder writes is a valid `Lesson`, with the
      demo titles and the "beginner" level. */
  lemma {:induction false} SeededLessonsValid(first: nat, k: nat)
    requires k < 3
    ensures var l := Schemas.ParseLesson(StampedLessons(first)[k]);
      && l.Some?
      && Str(l.value.title) == DemoLessons[k]["title"]
      && l.value.englishTitle.Some? && l.value.description.Some?
      && l.value.level == "beginner"
  {
  }

  /** Every word document the seeder writes is a valid `Word` of its lesson,
      spelled as in the list. */
  lemma {:induction false} SeededWordValid(lists: seq<seq<DemoWord>>, first: nat, m: nat, i: nat)
    requires ThreeByFour(lists) && m < 3 && i < 4
    ensures Schemas.ParseWord(SeededWords(lists, first)[4 * m + i]) ==
      Some(Schemas.Word(LessonIds(first)[m], lists[m][i].english, lists[m][i].hebrew, None, None))
  {
    TaggedWordValid(lists, LessonIds(first), first + 3, m, i);
  }

  /** Word `i` of list `m`, stored among three tagged lists, validates as a
      `Word` of `ids[m]`. */
  lemma {:induction false} TaggedWordValid(lists: seq<seq<DemoWord>>, ids: seq<string>, first: nat, m: nat, i: nat)
    requires ThreeByFour(lists) && |ids| == 3 && m < 3 && i < 4
    ensures Schemas.ParseWord(TaggedLists(lists, ids, first)[4 * m + i]) ==
      Some(Schemas.Word(ids[m], lists[m][i].english, lists[m][i].hebrew, None, None))
  {
    var d := Stamp(WordData(lists[m][i], ids[m]), first + 4 * m + i);
    assert TaggedLists(lists, ids, first)[4 * m + i] == d by {
      TaggedWordAt(lists, ids, first, m, i);
    }
    StoredWordValid(lists[m][i], ids[m], first + 4 * m + i);
  }

  /** Word `i` of list `m` is element `4 * m + i` of three tagged lists. */
  lemma {:induction false} TaggedWordAt(lists: seq<seq<DemoWord>>, ids: seq<string>, first: nat, m: nat, i: nat)
    requires ThreeByFour(lists) && |ids| == 3 && m < 3 && i < 4
    ensures TaggedLists(lists, ids, first)[4 * m + i] == Stamp(WordData(lists[m][i], ids[m]), first + 4 * m + i)
  {
    var t0 := TaggedWords(lists[0], ids[0], first);
    var t1 := TaggedWords(lists[1], ids[1], first + 4);
    var t2 := TaggedWords(lists[2], ids[2], first + 8);
    ThreeFoursAt(t0, t1, t2, m, i);
    if m == 0 {
      assert t0[i] == Stamp(WordData(lists[0][i], ids[0]), first + i);
    } else if m == 1 {
      assert t1[i] == Stamp(WordData(lists[1][i], ids[1]), first + 4 + i);
    } else {
      assert t2[i] == Stamp(WordData(lists[2][i], ids[2]), first + 8 + i);
    }
  }

  /** A demo word as stored validates as a `Word` of its lesson. */
  lemma {:induction false} StoredWordValid(w: DemoWord, lessonId: string, id: nat)
    ensures Schemas.ParseWord(Stamp(WordData(w, lessonId), id)) == Some(Schemas.Word(lessonId, w.english, w.hebrew, None, None))
  {
    var d := Stamp(WordData(w, lessonId), id);
    assert d["lesson_id"] == Str(lessonId) && d["english"] == Str(w.english) && d["hebrew"] == Str(w.hebrew);
    assert "image_url" !in d && "example" !in d;
  }

  /** Selection from the old words followed by three lists, when nothing old
      matches. */
  lemma {:induction false} SelectAfterUnmatched(oldWords: seq<Doc>, t0: seq<Doc>, t1: seq<Doc>, t2: seq<Doc>, filter: Doc)
    requires forall d :: d in oldWords ==> !Matches(d, filter)
    ensures Select(oldWords + (t0 + t1 + t2), filter) == Select(t0, filter) + Select(t1, filter) + Select(t2, filter)
  {
    SelectEmptyIff(oldWords, filter);
    SelectAppend(oldWords, t0 + t1 + t2, filter);
    SelectAppend(t0 + t1, t2, filter);
    SelectAppend(t0, t1, filter);
  }

  /** Three tagged lists with distinct lesson ids, stored after words none
      of which has the `k`-th id: selecting by that id yields exactly list `k`. */
  lemma {:induction false} SelectOneOfThree(oldWords: seq<Doc>, lists: seq<seq<DemoWord>>, ids: seq<string>, first: nat, k: nat)
    requires ThreeByFour(lists) && |ids| == 3 && k < 3
    requires ids[0] != ids[1] && ids[0] != ids[2] && ids[1] != ids[2]
    requires forall d :: d in oldWords ==> !Matches(d, Routes.WordFilter(ids[k]))
    ensures Select(oldWords + TaggedLists(lists, ids, first), Routes.WordFilter(ids[k]))
            == TaggedWords(lists[k], ids[k], first + 4 * k)
  {
    var t0 := TaggedWords(lists[0], ids[0], first);
    var t1 := TaggedWords(lists[1], ids[1], first + 4);
    var t2 := TaggedWords(lists[2], ids[2], first + 8);
    var id := ids[k];
    var filter := Routes.WordFilter(id);
    var all := Select(oldWords + TaggedLists(lists, ids, first), filter);
    var s0, s1, s2 := Select(t0, filter), Select(t1, filter), Select(t2, filter);
    assert all == s0 + s1 + s2 by {
      SelectAfterUnmatched(oldWords, t0, t1, t2, filter);
    }
    assert s0 == if k == 0 then t0 else [] by {
      SelectTagged(lists[0], ids[0], first, id);
    }
    assert s1 == if k == 1 then t1 else [] by {
      SelectTagged(lists[1], ids[1], first + 4, id);
    }
    assert s2 == if k == 2 then t2 else [] by {
      SelectTagged(lists[2], ids[2], first + 8, id);
    }
    PickOne(all, s0, s1, s2, t0, t1, t2, k);
    assert TaggedWords(lists[k], ids[k], first + 4 * k) == if k == 0 then t0 else if k == 1 then t1 else t2;
  }

  /** Of three parts of which only the `k`-th is non-empty, the whole is that part. */
  lemma {:induction false} PickOne<T>(all: seq<T>, s0: seq<T>, s1: seq<T>, s2: seq<T>, t0: seq<T>, t1: seq<T>, t2: seq<T>, k: nat)
    requires k < 3 && all == s0 + s1 + s2
    requires s0 == (if k == 0 then t0 else []) && s1 == (if k == 1 then t1 else []) && s2 == (if k == 2 then t2 else [])
    ensures all == if k == 0 then t0 else if k == 1 then t1 else t2
  {
    if k == 0 {
      assert s0 + s1 + s2 == t0 + [] + [];
    } else if k == 1 {
      assert s0 + s1 + s2 == [] + t1 + [];
    } else {
      assert s0 + s1 + s2 == [] + [] + t2;
    }
  }

  /** After seeding, listing the words of the `k`-th new lesson yields exactly
      its four words, in insertion order, provided no earlier word already
      pointed at that id (the store keeps no referential integrity). */
  lemma {:induction false} WordsOfSeededLesson(oldWords: seq<Doc>, lists: seq<seq<DemoWord>>, first: nat, k: nat)
    requires ThreeByFour(lists) && k < 3
    requires forall d :: d in oldWords ==> !Matches(d, Routes.WordFilter(LessonIds(first)[k]))
    ensures Select(oldWords + SeededWords(lists, first), Routes.WordFilter(LessonIds(first)[k]))
            == TaggedWords(lists[k], LessonIds(first)[k], first + 3 + 4 * k)
  {
    LessonIdsDistinct(first);
    SelectOneOfThree(oldWords, lists, LessonIds(first), first + 3, k);
  }

  /** A tagged word list is selected whole by its own lesson id and not at
      all by any other. */
  lemma {:induction false} SelectTagged(words: seq<DemoWord>, lessonId: string, first: nat, id: string)
    ensures Select(TaggedWords(words, lessonId, first), Routes.WordFilter(id))
            == if id == lessonId then TaggedWords(words, lessonId, first) else []
  {
    if words != [] {
      var t := TaggedWords(words, lessonId, first);
      assert t[1..] == TaggedWords(words[1..], lessonId, first + 1);
      SelectTagged(words[1..], lessonId, first + 1, id);
      assert t[0]["lesson_id"] == Str(lessonId);
      Routes.MatchesWordFilter(t[0], id);
    }
  }

  /** Four words for lesson `lessonId`, inserted in list order. Reached only
      after the lessons were written, so with a working store. */
  method InsertWords(store: Store, words: seq<DemoWord>, lessonId: string) returns (created: nat)
    requires store.Valid() && store.available
    modifies store
    ensures store.Valid()
    ensures created == |words|
    ensures store.nextId == old(store.nextId) + |words|
    ensures store.Docs("word") == old(store.Docs("word")) + TaggedWords(words, lessonId, old(store.nextId))
    ensures forall name :: name != "word" ==> store.Docs(name) == old(store.Docs(name))
  {
    created := 0;
    ghost var first, before := store.nextId, store.Docs("word");
    for j := 0 to |words|
      invariant store.Valid()
      invariant created == j
      invariant store.nextId == first + j
      invariant store.Docs("word") == before + TaggedWords(words, lessonId, first)[..j]
      invariant forall name :: name != "word" ==> store.Docs(name) == old(store.Docs(name))
    {
      var newId := store.CreateDocument("word", WordData(words[j], lessonId));
      assert TaggedWords(words, lessonId, first)[..j + 1]
             == TaggedWords(words, lessonId, first)[..j] + [Stamp(WordData(words[j], lessonId), first + j)];
      created := created + 1;
    }
  }

  /** The three word loops of the seeder, list `m` tagged with `ids[m]`. */
  method InsertWordLists(store: Store, lists: seq<seq<DemoWord>>, ids: seq<string>) returns (created: nat)
    requires store.Valid() && store.available && ThreeByFour(lists) && |ids| == 3
    modifies store
    ensures store.Valid()
    ensures created == 12 && store.nextId == old(store.nextId) + 12
    ensures store.Docs("word") == old(store.Docs("word")) + TaggedLists(lists, ids, old(store.nextId))
    ensures forall name :: name != "word" ==> store.Docs(name) == old(store.Docs(name))
  {
    ghost var first, before := store.nextId, store.Docs("word");
    ghost var t0 := TaggedWords(lists[0], ids[0], first);
    ghost var t1 := TaggedWords(lists[1], ids[1], first + 4);
    ghost var t2 := TaggedWords(lists[2], ids[2], first + 8);
    created := InsertWords(store, lists[0], ids[0]);
    assert store.Docs("word") == before + t0;
    var n := InsertWords(store, lists[1], ids[1]);
    created := created + n;
    assert store.Docs("word") == (before + t0) + t1;
    n := InsertWords(store, lists[2], ids[2]);
    created := created + n;
    assert store.Docs("word") == ((before + t0) + t1) + t2;
  }

  /** One more stored document extends the stored prefix by its stamped form. */
  lemma {:induction false} StampedFromStep(docs: seq<Doc>, first: nat, i: nat)
    requires i < |docs|
    ensures StampedFrom(docs, first)[..i + 1] == StampedFrom(docs, first)[..i] + [Stamp(docs[i], first + i)]
  {
  }

  /** One more stored document extends the collected ids by its id string. */
  lemma {:induction false} IdStringsStep(first: nat, i: nat)
    ensures IdStrings(first, i + 1) == IdStrings(first, i) + [IdToString(first + i)]
  {
    assert IdStrings(first, i + 1)[..i] == IdStrings(first, i);
  }

  /** The lessons inserted in order; their ids are collected in insertion
      order. Only the first insertion can fail, on a store without a handle,
      and then nothing has been written. */
  method InsertLessons(store: Store, lessons: seq<Doc>) returns (r: Result<seq<string>, StoreError>, created: nat)
    requires store.Valid()
    modifies store
    ensures store.Valid()
    ensures !store.available && lessons != [] ==> r == Err(Unavailable)
    ensures r.Err? ==> store.collections == old(store.collections) && store.nextId == old(store.nextId)
    ensures store.available ==>
      && r == Ok(IdStrings(old(store.nextId), |lessons|))
      && created == |lessons|
      && store.nextId == old(store.nextId) + |lessons|
      && store.Docs("lesson") == old(store.Docs("lesson")) + StampedFrom(lessons, old(store.nextId))
      && forall name :: name != "lesson" ==> store.Docs(name) == old(store.Docs(name))
  {
    created := 0;
    var lessonIds: seq<string> := [];
    ghost var first, before := store.nextId, store.Docs("lesson");
    var i := 0;
    while i < |lessons|
      invariant 0 <= i <= |lessons|
      invariant store.Valid()
      invariant i > 0 ==> store.available
      invariant i == 0 ==> store.collections == old(store.collections)
      invariant store.nextId == first + i
      invariant created == i
      invariant lessonIds == IdStrings(first, i)
      invariant store.Docs("lesson") == before + StampedFrom(lessons, first)[..i]
      invariant forall name :: name != "lesson" ==> store.Docs(name) == old(store.Docs(name))
    {
      var lid := store.CreateDocument("lesson", lessons[i]);
      if lid.Err? {
        return Err(lid.error), created;
      }
      StampedFromStep(lessons, first, i);
      IdStringsStep(first, i);
      lessonIds := lessonIds + [lid.value];
      created := created + 1;
      i := i + 1;
    }
    assert StampedFrom(lessons, first)[..i] == StampedFrom(lessons, first);
    r := Ok(lessonIds);
  }

  /** Lines 141-181 of `seed_content`: the demo lessons, then the three word
      lists, each word tagged with the id collected for its lesson. Without a
      handle the first insertion fails and nothing is written. */
  method WriteDemoContent(store: Store) returns (r: Result<SeedResponse, StoreError>)
    requires store.Valid()
    modifies store
    ensures store.Valid()
    ensures !store.available ==>
      r == Err(Unavailable) && store.collections == old(store.collections) && store.nextId == old(store.nextId)
    ensures store.available ==>
      && r == Ok(Created(3, 12))
      && store.nextId == old(store.nextId) + 15
      && store.Docs("lesson") == old(store.Docs("lesson")) + StampedLessons(old(store.nextId))
      && store.Docs("word") == old(store.Docs("word")) + SeededWords(WordLists, old(store.nextId))
      && forall name :: name != "lesson" && name != "word" ==> store.Docs(name) == old(store.Docs(name))
  {
    ghost var first := store.nextId;
    var lessonIds, createdLessons := InsertLessons(store, DemoLessons);
    if lessonIds.Err? {
      return Err(lessonIds.error);
    }
    var ids := lessonIds.value;
    assert ThreeByFour(WordLists);
    var createdWords := InsertWordLists(store, WordLists, ids);
    assert ids == LessonIds(first);
    return Ok(Created(createdLessons, createdWords));
  }

  /** `seed_content`, with the lesson count taken only when the store has a
      database handle and 0 otherwise. */
  method SeedContent(store: Store) returns (r: Result<SeedResponse, StoreError>)
    requires store.Valid()
    modifies store
    ensures store.Valid()
    ensures !store.available ==> r == Err(Unavailable)
    ensures store.available && |old(store.Docs("lesson"))| > 0 ==> r == Ok(Exists(AlreadySeeded))
    ensures r.Err? || r == Ok(Exists(AlreadySeeded)) ==>
      store.collections == old(store.collections) && store.nextId == old(store.nextId)
    ensures store.available && |old(store.Docs("lesson"))| == 0 ==>
      && r == Ok(Created(3, 12))
      && store.nextId == old(store.nextId) + 15
      && store.Docs("lesson") == old(store.Docs("lesson")) + StampedLessons(old(store.nextId))
      && store.Docs("word") == old(store.Docs("word")) + SeededWords(WordLists, old(store.nextId))
      && forall name :: name != "lesson" && name != "word" ==> store.Docs(name) == old(store.Docs(name))
  {
    var lessonsCount := 0;
    if store.available {
      lessonsCount := store.CountDocuments("lesson");
    }
    if lessonsCount != 0 {
      return Ok(Exists(AlreadySeeded));
    }
    r := WriteDemoContent(store);
  }

  /** `seed_content` as written. The guard `... if db else 0` truth-tests the
      database handle: a connected PyMongo handle raises there, before any
      store call, so the route answers HTTP 500 and writes nothing. Without a
      handle the count is 0 and the first insertion fails. The guard never
      yields a non-zero count, so the "already seeded" answer is never
      reached. */
  method SeedContentAsWritten(store: Store) returns (r: Result<SeedResponse, StoreError>)
    requires store.Valid()
    modifies store
    ensures store.Valid()
    ensures store.available ==> r == Err(NoTruthValue)
    ensures !store.available ==> r == Err(Unavailable)
    ensures store.collections == old(store.collections) && store.nextId == old(store.nextId)
  {
    if store.available {
      return Err(NoTruthValue);
    }
    r := WriteDemoContent(store);
  }

  /** On a fresh, connected, empty store the seeder as written answers with
      the raise and writes nothing, while SeedContent writes the three lessons
      and twelve words. */
  method AsWrittenNeverSeeds() returns (asWritten: Result<SeedResponse, StoreError>, written: nat,
                                        corrected: Result<SeedResponse, StoreError>, seeded: nat)
    ensures asWritten == Err(NoTruthValue) && written == 0
    ensures corrected == Ok(Created(3, 12)) && seeded == 15
  {
    var before := new Store(true);
    asWritten := SeedContentAsWritten(before);
    written := |before.Docs("lesson")| + |before.Docs("word")|;
    var after := new Store(true);
    corrected := SeedContent(after);
    seeded := |after.Docs("lesson")| + |after.Docs("word")|;
  }
}
