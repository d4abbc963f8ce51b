/** The record shapes of schemas.py: `Lesson`, `Word` and `Progress`, with
    their required fields, defaults and the `ge=0` bounds on the counters.
    Validation of a document against a shape is modelled as a partial parse:
    `None` where the shape would reject the document. Keys a shape does not
    declare are ignored, as the shapes do by default. */
module Schemas {
  import opened Wrappers
  import opened Documents

  const DefaultLevel: string := "beginner"
  const DefaultCoverEmoji: string := "📘"

  datatype Lesson = Lesson(
    title: string,
    englishTitle: Option<string> := None,
    description: Option<string> := None,
    level: string := DefaultLevel,
    coverEmoji: string := DefaultCoverEmoji)

  datatype Word = Word(
    lessonId: string,
    english: string,
    hebrew: string,
    imageUrl: Option<string> := None,
    example: Option<string> := None)

  datatype Progress = Progress(
    userId: string,
    lessonId: string,
    correct: int := 0,
    incorrect: int := 0,
    lastScore: Option<int> := None)

  /** The declared constraints of a progress record: both counters `ge=0`. */
  predicate ValidProgress(p: Progress)
  {
    p.correct >= 0 && p.incorrect >= 0
  }

  // Field validators: a required `str`, an `Optional[...] = None`, and a
  // field with a default value. `None` is a validation error.

  function RequiredStr(doc: Doc, key: string): Option<string>
  {
    if key in doc && doc[key].Str? then Some(doc[key].s) else None
  }

  function OptionalStr(doc: Doc, key: string): Option<Option<string>>
  {
    if key !in doc then Some(None)
    else match doc[key]
      case Null => Some(None)
      case Str(s) => Some(Some(s))
      case _ => None
  }

  function StrOrDefault(doc: Doc, key: string, default: string): Option<string>
  {
    if key !in doc then Some(default)
    else if doc[key].Str? then Some(doc[key].s)
    else None
  }

  function IntOrDefault(doc: Doc, key: string, default: int): Option<int>
  {
    if key !in doc then Some(default)
    else if doc[key].Int? then Some(doc[key].i)
    else None
  }

  function OptionalInt(doc: Doc, key: string): Option<Option<int>>
  {
    if key !in doc then Some(None)
    else match doc[key]
      case Null => Some(None)
      case Int(i) => Some(Some(i))
      case _ => None
  }

  /** The document form of an optional field: `None` is stored as null. */
  function OptionalStrValue(o: Option<string>): Value
  {
    match o
    case None => Null
    case Some(s) => Str(s)
  }

  function OptionalIntValue(o: Option<int>): Value
  {
    match o
    case None => Null
    case Some(i) => Int(i)
  }

  /** Validation of a document as a `Lesson`. */
  function ParseLesson(doc: Doc): (r: Option<Lesson>)
    ensures "title" !in doc || !doc["title"].Str? ==> r.None?
    ensures r.Some? ==> doc["title"] == Str(r.value.title)
    ensures r.Some? && "level" !in doc ==> r.value.level == "beginner"
    ensures r.Some? && "cover_emoji" !in doc ==> r.value.coverEmoji == "📘"
    ensures r.Some? && "english_title" !in doc ==> r.value.englishTitle.None?
    ensures r.Some? && "description" !in doc ==> r.value.description.None?
  {
    var title, englishTitle, description := RequiredStr(doc, "title"), OptionalStr(doc, "english_title"), OptionalStr(doc, "description");
    var level, coverEmoji := StrOrDefault(doc, "level", DefaultLevel), StrOrDefault(doc, "cover_emoji", DefaultCoverEmoji);
    if title.Some? && englishTitle.Some? && description.Some? && level.Some? && coverEmoji.Some? then
      Some(Lesson(title.value, englishTitle.value, description.value, level.value, coverEmoji.value))
    else None
  }

  /** The document form of a `Lesson`, every field present. */
  function LessonDoc(l: Lesson): Doc
  {
    map["title" := Str(l.title), "english_title" := OptionalStrValue(l.englishTitle),
        "description" := OptionalStrValue(l.description), "level" := Str(l.level),
        "cover_emoji" := Str(l.coverEmoji)]
  }

  /** Validating the document form of a lesson gives the lesson back. */
  lemma {:induction false} LessonRoundTrip(l: Lesson)
    ensures ParseLesson(LessonDoc(l)) == Some(l)
  {
  }

  /** A lesson given only its title takes the declared defaults. */
  lemma {:induction false} LessonDefaults(title: string)
    ensures ParseLesson(map["title" := Str(title)]) == Some(Lesson(title))
    ensures Lesson(title).level == "beginner" && Lesson(title).coverEmoji == "📘"
    ensures Lesson(title).englishTitle == None && Lesson(title).description == None
  {
  }

  /** Validation of a document as a `Word`. */
  function ParseWord(doc: Doc): (r: Option<Word>)
    ensures "lesson_id" !in doc || "english" !in doc || "hebrew" !in doc ==> r.None?
    ensures r.Some? ==> doc["lesson_id"] == Str(r.value.lessonId)
    ensures r.Some? ==> doc["english"] == Str(r.value.english) && doc["hebrew"] == Str(r.value.hebrew)
    ensures r.Some? && "image_url" !in doc ==> r.value.imageUrl.None?
    ensures r.Some? && "example" !in doc ==> r.value.example.None?
  {
    var lessonId, english, hebrew := RequiredStr(doc, "lesson_id"), RequiredStr(doc, "english"), RequiredStr(doc, "hebrew");
    var imageUrl, example := OptionalStr(doc, "image_url"), OptionalStr(doc, "example");
    if lessonId.Some? && english.Some? && hebrew.Some? && imageUrl.Some? && example.Some? then
      Some(Word(lessonId.value, english.value, hebrew.value, imageUrl.value, example.value))
    else None
  }

  function WordDoc(w: Word): Doc
  {
    map["lesson_id" := Str(w.lessonId), "english" := Str(w.english), "hebrew" := Str(w.hebrew),
        "image_url" := OptionalStrValue(w.imageUrl), "example" := OptionalStrValue(w.example)]
  }

  lemma {:induction false} WordRoundTrip(w: Word)
    ensures ParseWord(WordDoc(w)) == Some(w)
  {
  }

  /** The three required fields make a word; the optional ones default to null. */
  lemma {:induction false} WordDefaults(lessonId: string, english: string, hebrew: string)
    ensures ParseWord(map["lesson_id" := Str(lessonId), "english" := Str(english), "hebrew" := Str(hebrew)])
            == Some(Word(lessonId, english, hebrew, None, None))
  {
  }

  /** Validation of a document as a `Progress`, including both bounds. */
  function ParseProgress(doc: Doc): (r: Option<Progress>)
    ensures r.Some? ==> ValidProgress(r.value)
    ensures "user_id" !in doc || "lesson_id" !in doc ==> r.None?
    ensures r.Some? ==> doc["user_id"] == Str(r.value.userId) && doc["lesson_id"] == Str(r.value.lessonId)
    ensures r.Some? && "correct" !in doc ==> r.value.correct == 0
    ensures r.Some? && "incorrect" !in doc ==> r.value.incorrect == 0
    ensures r.Some? && "last_score" !in doc ==> r.value.lastScore.None?
    ensures "correct" in doc && doc["correct"].Int? && doc["correct"].i < 0 ==> r.None?
    ensures "incorrect" in doc && doc["incorrect"].Int? && doc["incorrect"].i < 0 ==> r.None?
  {
    var userId, lessonId := RequiredStr(doc, "user_id"), RequiredStr(doc, "lesson_id");
    var correct, incorrect := IntOrDefault(doc, "correct", 0), IntOrDefault(doc, "incorrect", 0);
    var lastScore := OptionalInt(doc, "last_score");
    if userId.Some? && lessonId.Some? && correct.Some? && incorrect.Some? && lastScore.Some?
       && correct.value >= 0 && incorrect.value >= 0 then
      Some(Progress(userId.value, lessonId.value, correct.value, incorrect.value, lastScore.value))
    else None
  }

  function ProgressDoc(p: Progress): Doc
  {
    map["user_id" := Str(p.userId), "lesson_id" := Str(p.lessonId), "correct" := Int(p.correct),
        "incorrect" := Int(p.incorrect), "last_score" := OptionalIntValue(p.lastScore)]
  }

  /** A progress record's document validates exactly when both counters are
      non-negative, and then gives the record back. */
  lemma {:induction false} ProgressRoundTrip(p: Progress)
    ensures ParseProgress(ProgressDoc(p)).Some? <==> ValidProgress(p)
    ensures ValidProgress(p) ==> ParseProgress(ProgressDoc(p)) == Some(p)
  {
  }

  /** Both counters default to zero and the score to null. */
  lemma {:induction false} ProgressDefaults(userId: string, lessonId: string)
    ensures ParseProgress(map["user_id" := Str(userId), "lesson_id" := Str(lessonId)])
            == Some(Progress(userId, lessonId, 0, 0, None))
    ensures ValidProgress(Progress(userId, lessonId))
  {
  }
}
