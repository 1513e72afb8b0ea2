/** The lesson content data model (src/data/lessons.js): topics map to lists of lessons, a lesson is
    a list of slides, and a slide carries a type string and optional fields depending on that type.
    A JavaScript object keyed by topic id is modelled as a list of entries looked up by key. */
module Content {
  import opened Common

  /** A term to sort into the "safe" or "unsafe" bucket of a term-sorter slide. */
  datatype TermItem = TermItem(id: string, content: string, category: string)

  /** Custom bucket titles of a term-sorter slide; either may be absent. */
  datatype Labels = Labels(safe: Option<string>, unsafe: Option<string>)

  /** One slide. `kind` is the `type` field (intro, theory, fact, interactive, outtro); the other
      fields are present only on some slides, hence `Option`. */
  datatype Slide = Slide(
    id: string,
    kind: string,
    title: string,
    content: Option<string>,
    variant: Option<string>,
    description: Option<string>,
    data: Option<seq<TermItem>>,
    labels: Option<Labels>,
    icon: Option<string>)

  datatype Lesson = Lesson(id: string, title: string, description: string, duration: string, slides: seq<Slide>)

  /** One key of the `LESSONS` object: a topic id and its lessons. */
  datatype TopicLessons = TopicLessons(topicId: string, lessons: seq<Lesson>)

  type Catalog = seq<TopicLessons>

  /** The callbacks a component may be handed by its parent; a button's `onClick` is one of these or
      absent. `Navigate(path)` stands for `navigate(path)` of the router. */
  datatype Callback = OnNext | OnPrevious | OnClose | OnComplete | OnHome | Navigate(path: string)

  /** The topic keys, in declaration order. */
  function TopicIds(c: Catalog): (ids: seq<string>)
    ensures |ids| == |c|
    ensures forall i :: 0 <= i < |c| ==> ids[i] == c[i].topicId
  {
    if c == [] then [] else [c[0].topicId] + TopicIds(c[1..])
  }

  /** `LESSONS[topicId]`: the lessons of the first entry with that key, or `undefined`. */
  function LessonsOf(c: Catalog, topicId: string): (r: Option<seq<Lesson>>)
    ensures r.None? <==> (forall i :: 0 <= i < |c| ==> c[i].topicId != topicId)
    ensures r.Some? ==> exists i :: 0 <= i < |c| && c[i] == TopicLessons(topicId, r.value)
                                   && (forall j :: 0 <= j < i ==> c[j].topicId != topicId)
  {
    if c == [] then None
    else if c[0].topicId == topicId then Some(c[0].lessons)
    else
      var r := LessonsOf(c[1..], topicId);
      assert r.Some? ==> exists i :: 0 <= i < |c| && c[i] == TopicLessons(topicId, r.value)
                                   && (forall j :: 0 <= j < i ==> c[j].topicId != topicId) by {
        if r.Some? {
          var k :| 0 <= k < |c[1..]| && c[1..][k] == TopicLessons(topicId, r.value)
                   && (forall j :: 0 <= j < k ==> c[1..][j].topicId != topicId);
          assert c[k + 1] == TopicLessons(topicId, r.value);
          assert forall j :: 0 <= j < k + 1 ==> c[j].topicId != topicId by {
            forall j | 0 <= j < k + 1 ensures c[j].topicId != topicId {
              if j > 0 { assert c[j] == c[1..][j - 1]; }
            }
          }
        }
      }
      r
  }

  /** `LESSONS[topicId] || []`: a topic without an entry has no lessons. */
  function LessonsOrEmpty(c: Catalog, topicId: string): (ls: seq<Lesson>)
    ensures LessonsOf(c, topicId).None? ==> ls == []
    ensures LessonsOf(c, topicId).Some? ==> ls == LessonsOf(c, topicId).value
  {
    match LessonsOf(c, topicId)
    case None => []
    case Some(ls) => ls
  }

  /** `lessons.find(l => l.id === lessonId)`: the first lesson with that id, or `undefined`. */
  function FindLesson(lessons: seq<Lesson>, lessonId: string): (r: Option<Lesson>)
    ensures r.None? <==> (forall i :: 0 <= i < |lessons| ==> lessons[i].id != lessonId)
    ensures r.Some? ==> exists i :: 0 <= i < |lessons| && lessons[i] == r.value && r.value.id == lessonId
                                   && (forall j :: 0 <= j < i ==> lessons[j].id != lessonId)
  {
    if lessons == [] then None
    else if lessons[0].id == lessonId then Some(lessons[0])
    else
      var r := FindLesson(lessons[1..], lessonId);
      assert r.Some? ==> exists i :: 0 <= i < |lessons| && lessons[i] == r.value && r.value.id == lessonId
                                   && (forall j :: 0 <= j < i ==> lessons[j].id != lessonId) by {
        if r.Some? {
          var k :| 0 <= k < |lessons[1..]| && lessons[1..][k] == r.value && r.value.id == lessonId
                   && (forall j :: 0 <= j < k ==> lessons[1..][j].id != lessonId);
          assert lessons[k + 1] == r.value;
          forall j | 0 <= j < k + 1 ensures lessons[j].id != lessonId {
            if j > 0 { assert lessons[j] == lessons[1..][j - 1]; }
          }
        }
      }
      r
  }
}
