/** The topic page (src/pages/TopicPage.jsx): the lessons of a topic in catalog order, each shown as
    completed or not, and each after the first locked until the lesson before it is completed. */
module TopicPage {
  import opened Common
  import opened Content
  import opened Topics

  /** `s.includes(sub)` for strings: `sub` occurs at some position of `s`. */
  predicate Includes(s: string, sub: string)
    decreases |s|
  {
    |sub| <= |s| && (s[..|sub|] == sub || Includes(s[1..], sub))
  }

  /** `completedLessons.includes(lessons[index].id)`. */
  predicate IsCompleted(lessons: seq<Lesson>, completed: seq<string>, index: nat)
    requires index < |lessons|
  {
    lessons[index].id in completed
  }

  /** `actuallyLocked`: lesson `index` is locked when a lesson comes before it and that lesson is not
      completed. */
  predicate ActuallyLocked(lessons: seq<Lesson>, completed: seq<string>, index: nat)
    requires index < |lessons|
  {
    index > 0 && lessons[index - 1].id !in completed
  }

  /** `isLocked`, computed but not used: like `actuallyLocked`, except that a lesson after one whose
      id contains "intro" is never locked. */
  predicate IsLocked(lessons: seq<Lesson>, completed: seq<string>, index: nat)
    requires index < |lessons|
  {
    index > 0 && lessons[index - 1].id !in completed && !Includes(lessons[index - 1].id, "intro")
  }

  /** One rendered lesson card: its number, whether it is completed and locked, and what a click does
      (nothing when locked). */
  datatype Card = Card(lessonId: string, number: int, completed: bool, locked: bool, onClick: Option<Callback>)

  /** The link of a lesson of topic `id`. */
  function LessonPath(id: string, lessonId: string): (p: string)
    ensures p == "/topic/" + id + "/lesson/" + lessonId
  {
    "/topic/" + id + "/lesson/" + lessonId
  }

  /** The route `/topic/:id/lesson/:lessonId` gives back the pair a link was built from: for topic
      ids without a '/', two links are equal only for the same topic and the same lesson. */
  lemma LessonPathInjective(id1: string, lesson1: string, id2: string, lesson2: string)
    requires '/' !in id1 && '/' !in id2
    ensures LessonPath(id1, lesson1) == LessonPath(id2, lesson2) <==> id1 == id2 && lesson1 == lesson2
  {
    if LessonPath(id1, lesson1) == LessonPath(id2, lesson2) {
      var u1 := id1 + "/lesson/" + lesson1;
      var u2 := id2 + "/lesson/" + lesson2;
      assert LessonPath(id1, lesson1) == "/topic/" + u1;
      assert LessonPath(id2, lesson2) == "/topic/" + u2;
      assert u1 == LessonPath(id1, lesson1)[7..] == u2;
      assert u1[|id1|] == '/' && u2[|id2|] == '/';
      assert forall i :: 0 <= i < |id1| ==> u1[i] == id1[i];
      assert forall i :: 0 <= i < |id2| ==> u2[i] == id2[i];
      assert id1 == u1[..|id1|] == u2[..|id2|] == id2;
      assert lesson1 == u1[|id1| + 8..] == u2[|id2| + 8..] == lesson2;
    }
  }

  function RenderCards(id: string, lessons: seq<Lesson>, completed: seq<string>): (cs: seq<Card>)
    ensures |cs| == |lessons|
    ensures forall i :: 0 <= i < |lessons| ==>
      && cs[i].lessonId == lessons[i].id
      && cs[i].number == i + 1
      && (cs[i].completed <==> lessons[i].id in completed)
      && (cs[i].locked <==> i > 0 && lessons[i - 1].id !in completed)
      && (cs[i].onClick.None? <==> cs[i].locked)
      && (cs[i].onClick.Some? ==> cs[i].onClick.value == Navigate(LessonPath(id, lessons[i].id)))
  {
    seq(|lessons|, i requires 0 <= i < |lessons| =>
      Card(lessons[i].id, i + 1, IsCompleted(lessons, completed, i), ActuallyLocked(lessons, completed, i),
           if ActuallyLocked(lessons, completed, i) then None else Some(Navigate(LessonPath(id, lessons[i].id)))))
  }

  /** The page: "Topic not found" for an id missing from `TOPICS`, else the topic and its cards. A
      topic without a catalog entry shows no cards. */
  datatype Page = NotFound | Found(topic: Topic, cards: seq<Card>, back: Callback)

  function Render(topics: seq<Topic>, c: Catalog, id: string, completed: seq<string>): (p: Page)
    ensures p.NotFound? <==> FindTopic(topics, id).None?
    ensures p.Found? ==>
      && Some(p.topic) == FindTopic(topics, id)
      && p.cards == RenderCards(id, LessonsOrEmpty(c, id), completed)
      && p.back == Navigate("/")
    ensures p.Found? && LessonsOf(c, id).None? ==> p.cards == []
  {
    match FindTopic(topics, id)
    case None => NotFound
    case Some(t) => Found(t, RenderCards(id, LessonsOrEmpty(c, id), completed), Navigate("/"))
  }

  /** The first lesson is never locked, whatever has been completed. */
  lemma FirstOpen(id: string, lessons: seq<Lesson>, completed: seq<string>)
    requires lessons != []
    ensures !RenderCards(id, lessons, completed)[0].locked
    ensures RenderCards(id, lessons, completed)[0].onClick == Some(Navigate(LessonPath(id, lessons[0].id)))
  {
  }

  /** Completing more lessons never locks a lesson that was open. */
  lemma UnlockMonotone(id: string, lessons: seq<Lesson>, completed: seq<string>, more: seq<string>, i: nat)
    requires i < |lessons| && (forall x :: x in completed ==> x in more)
    ensures !RenderCards(id, lessons, completed)[i].locked ==> !RenderCards(id, lessons, more)[i].locked
    ensures RenderCards(id, lessons, completed)[i].completed ==> RenderCards(id, lessons, more)[i].completed
  {
  }

  /** Completing lesson `i` opens lesson `i + 1`. */
  lemma CompletingOpensNext(id: string, lessons: seq<Lesson>, completed: seq<string>, i: nat)
    requires i + 1 < |lessons|
    ensures !RenderCards(id, lessons, completed + [lessons[i].id])[i + 1].locked
  {
  }

  /** `isLocked` is only ever weaker than the lock in force, and differs from it only after a lesson
      whose id contains "intro". */
  lemma IsLockedAgrees(lessons: seq<Lesson>, completed: seq<string>, index: nat)
    requires index < |lessons|
    ensures IsLocked(lessons, completed, index) ==> ActuallyLocked(lessons, completed, index)
    ensures index > 0 && !Includes(lessons[index - 1].id, "intro") ==>
            (IsLocked(lessons, completed, index) <==> ActuallyLocked(lessons, completed, index))
  {
  }
}
