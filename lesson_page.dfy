/** The lesson player (src/pages/LessonPage.jsx): it looks the lesson up, keeps a slide cursor and
    the set of completed interactive slides, picks a component per slide type and routes the
    callbacks the slides fire back to the cursor, the router and the progress store. */
module LessonPage {
  import opened Common
  import opened Content
  import ProgressStore
  import TheorySlide
  import IntroSlide
  import FactSlide
  import InteractiveSlide
  import OuttroSlide
  import Lessons
  import CryptoScanner
  import TopicPage

  /** The components of `SLIDE_COMPONENTS`. */
  datatype Component = Intro | Theory | Fact | Interactive | Outtro

  /** `SLIDE_COMPONENTS[type] || TheorySlide`: a slide of any other type is shown as theory. */
  function ComponentFor(kind: string): (c: Component)
    ensures c == Intro <==> kind == "intro"
    ensures c == Fact <==> kind == "fact"
    ensures c == Interactive <==> kind == "interactive"
    ensures c == Outtro <==> kind == "outtro"
    ensures c == Theory <==> kind !in {"intro", "fact", "interactive", "outtro"}
  {
    match kind
    case "intro" => Intro
    case "theory" => Theory
    case "fact" => Fact
    case "interactive" => Interactive
    case "outtro" => Outtro
    case _ => Theory
  }

  /** `LESSONS[topicId]?.find((l) => l.id === lessonId)`. */
  function FindInCatalog(c: Catalog, topicId: string, lessonId: string): (r: Option<Lesson>)
    ensures r.Some? ==> r.value.id == lessonId && LessonsOf(c, topicId).Some?
                        && r.value in LessonsOf(c, topicId).value
    ensures r.None? <==> (forall l :: l in LessonsOrEmpty(c, topicId) ==> l.id != lessonId)
  {
    match LessonsOf(c, topicId)
    case None => None
    case Some(ls) => FindLesson(ls, lessonId)
  }

  /** The names `LESSONS[key]` finds on `Object.prototype` when the catalog has no entry of its own
      under `key`. None of them has a `find` method, so `topicLessons?.find(...)` throws. */
  const InheritedKeys: set<string> := {
    "constructor", "__proto__", "__defineGetter__", "__defineSetter__", "__lookupGetter__",
    "__lookupSetter__", "hasOwnProperty", "isPrototypeOf", "propertyIsEnumerable", "toString",
    "toLocaleString", "valueOf"}

  /** What the page does for a route: throw while rendering when the topic key names an inherited
      property, redirect to the topic (rendering nothing) when the lesson is not found, show the
      "under construction" panel, whose only action closes the lesson, for a lesson without slides,
      or play the lesson. */
  datatype Page =
    | Crash
    | Redirect(path: string)
    | UnderConstruction(title: string, close: Callback)
    | Playing(lesson: Lesson)

  function Route(c: Catalog, topicId: string, lessonId: string): (p: Page)
    ensures p.Crash? <==> LessonsOf(c, topicId).None? && topicId in InheritedKeys
    ensures p.Redirect? <==> FindInCatalog(c, topicId, lessonId).None? && !p.Crash?
    ensures p.Redirect? ==> p.path == OuttroSlide.TopicPath(topicId)
    ensures p.UnderConstruction? <==> FindInCatalog(c, topicId, lessonId).Some?
                                      && FindInCatalog(c, topicId, lessonId).value.slides == []
    ensures p.UnderConstruction? ==> p.close == Navigate(OuttroSlide.TopicPath(topicId))
    ensures p.Playing? ==> Some(p.lesson) == FindInCatalog(c, topicId, lessonId) && p.lesson.slides != []
  {
    if LessonsOf(c, topicId).None? && topicId in InheritedKeys then Crash
    else
      match FindInCatalog(c, topicId, lessonId)
      case None => Redirect(OuttroSlide.TopicPath(topicId))
      case Some(l) =>
        if l.slides == [] then UnderConstruction(l.title, Navigate(OuttroSlide.TopicPath(topicId)))
        else Playing(l)
  }

  /** `handleNext` on the cursor: one step forward unless on the last slide. */
  function NextIndex(i: int, n: int): (j: int)
    requires 0 <= i < n
    ensures 0 <= j < n
    ensures i < n - 1 ==> j == i + 1
    ensures i == n - 1 ==> j == i
  {
    if i < n - 1 then i + 1 else i
  }

  /** `handlePrevious` on the cursor: one step back unless on the first slide. */
  function PrevIndex(i: int, n: int): (j: int)
    requires 0 <= i < n
    ensures 0 <= j < n
    ensures i > 0 ==> j == i - 1
    ensures i == 0 ==> j == 0
  {
    if i > 0 then i - 1 else i
  }

  /** `Progress` as the ratio `(index + 1) / length` of 100. */
  datatype Ratio = Ratio(num: int, den: int)

  function ProgressOf(i: int, n: int): (r: Ratio)
    requires 0 <= i < n
    ensures 0 < r.num <= r.den
    ensures r.num == r.den <==> i == n - 1
    ensures r.den == n
  {
    Ratio(i + 1, n)
  }

  /** Stepping forward from the first slide reaches the last one after `n - 1` steps and stays
      there; the progress ratio is full exactly then. */
  function Forward(i: int, n: int, k: nat): (j: int)
    requires 0 <= i < n
    ensures 0 <= j < n
    decreases k
  {
    if k == 0 then i else Forward(NextIndex(i, n), n, k - 1)
  }

  lemma {:induction false} ForwardReachesEnd(i: int, n: int, k: nat)
    requires 0 <= i < n
    ensures Forward(i, n, k) == if i + k < n - 1 then i + k else n - 1
    decreases k
  {
    if k > 0 {
      ForwardReachesEnd(NextIndex(i, n), n, k - 1);
    }
  }

  /** The props every slide component receives, beyond the slide itself. Callbacks are named by what
      they are bound to: `OnNext` is `handleInteractiveComplete` on an interactive slide and
      `handleNext` on the others, `OnPrevious` is `handlePrevious`, `OnClose` navigates to the
      topic and `OnComplete` is `handleComplete`. */
  datatype SlideProps = SlideProps(canGoPrevious: bool, isCompleted: bool)

  /** The rendered current slide. */
  datatype SlideView =
    | IntroView(intro: IntroSlide.View)
    | TheoryView(theory: Option<TheorySlide.View>)
    | FactView(fact: FactSlide.View)
    | InteractiveView(interactive: InteractiveSlide.View)
    | OuttroView(outtro: OuttroSlide.View)

  /** The component chosen for `slide`, rendered with the player's props. */
  function RenderSlide(slide: Slide, topicId: string, props: SlideProps): (v: SlideView)
    ensures ComponentFor(slide.kind) == Intro <==> v.IntroView?
    ensures ComponentFor(slide.kind) == Theory <==> v.TheoryView?
    ensures ComponentFor(slide.kind) == Fact <==> v.FactView?
    ensures ComponentFor(slide.kind) == Interactive <==> v.InteractiveView?
    ensures ComponentFor(slide.kind) == Outtro <==> v.OuttroView?
  {
    match ComponentFor(slide.kind)
    case Intro => IntroView(IntroSlide.Render(slide, OnNext, OnPrevious, OnClose, props.canGoPrevious))
    case Theory => TheoryView(TheorySlide.Render(slide, OnNext))
    case Fact => FactView(FactSlide.Render(slide, OnNext, OnPrevious, props.canGoPrevious))
    case Interactive => InteractiveView(InteractiveSlide.Render(slide, OnNext))
    case Outtro => OuttroView(OuttroSlide.Render(slide, topicId))
  }

  /** `handleNext` as bound by the render that showed slide `rendered`, run when the live cursor is
      `live`: the guard reads the render's `currentSlideIndex`, the update `prev => prev + 1` the live
      one. Called from the render it came from, it is the guarded step. */
  function AfterNext(live: int, rendered: int, n: int): (j: int)
    requires 0 <= rendered < n
    ensures rendered < n - 1 ==> j == live + 1
    ensures rendered == n - 1 ==> j == live
    ensures live == rendered ==> j == NextIndex(rendered, n)
  {
    if rendered < n - 1 then live + 1 else live
  }

  /** `handlePrevious` as bound by the render that showed slide `rendered`, run on the live cursor. */
  function AfterPrevious(live: int, rendered: int, n: int): (j: int)
    requires 0 <= rendered < n
    ensures rendered > 0 ==> j == live - 1
    ensures rendered == 0 ==> j == live
    ensures live == rendered ==> j == PrevIndex(rendered, n)
  {
    if rendered > 0 then live - 1 else live
  }

  /** The player's state for a lesson with at least one slide. Every handler is the closure of one
      render: `rendered` is the `currentSlideIndex` that render saw. A click reaches the handlers of
      the render on screen (`rendered == index`); a game's delayed `onComplete` still runs the
      handler of the render that mounted it after the cursor has moved on. */
  class Player {
    const topicId: string
    const lessonId: string
    const slides: seq<Slide>
    var index: int
    var completedInteractives: set<int>

    /** Only rendered indices are ever marked completed; the cursor itself is not bounded (see
        `StaleCompletionOvershoots`). */
    ghost predicate Valid()
      reads this
    {
      slides != [] && forall i :: i in completedInteractives ==> 0 <= i < |slides|
    }

    /** The first render of a lesson that has slides: the cursor on slide 0 and nothing completed. */
    constructor (topicId: string, lessonId: string, lesson: Lesson)
      requires lesson.slides != []
      ensures this.topicId == topicId && this.lessonId == lessonId && slides == lesson.slides
      ensures index == 0 && completedInteractives == {} && Valid()
    {
      this.topicId := topicId;
      this.lessonId := lessonId;
      slides := lesson.slides;
      index := 0;
      completedInteractives := {};
    }

    /** `slides[currentSlideIndex]`, which is undefined off the end; the page then returns null. */
    function Current(): (r: Option<Slide>)
      reads this
      ensures r.Some? <==> 0 <= index < |slides|
      ensures r.Some? ==> r.value == slides[index]
    {
      if 0 <= index < |slides| then Some(slides[index]) else None
    }

    /** `canGoPrevious={currentSlideIndex > 0}` and `isCompleted={completedInteractives.has(...)}`. */
    function Props(): (p: SlideProps)
      reads this
      ensures p.canGoPrevious <==> index > 0
      ensures p.isCompleted <==> index in completedInteractives
    {
      SlideProps(index > 0, index in completedInteractives)
    }

    /** The rendered slide, or nothing once the cursor is off the slides. */
    function View(): (v: Option<SlideView>)
      reads this
      ensures v.None? <==> Current().None?
      ensures v.Some? ==> (ComponentFor(slides[index].kind) == Interactive <==> v.value.InteractiveView?)
      ensures v.Some? ==> (ComponentFor(slides[index].kind) == Outtro <==> v.value.OuttroView?)
    {
      match Current()
      case None => None
      case Some(slide) => Some(RenderSlide(slide, topicId, Props()))
    }

    function Progress(): (r: Ratio)
      requires 0 <= index < |slides|
      reads this
      ensures 0 < r.num <= r.den && (r.num == r.den <==> index == |slides| - 1)
    {
      ProgressOf(index, |slides|)
    }

    /** `handleNext` of the render that showed slide `rendered`. */
    method HandleNext(rendered: int)
      requires Valid() && 0 <= rendered < |slides|
      modifies this
      ensures index == AfterNext(old(index), rendered, |slides|)
      ensures completedInteractives == old(completedInteractives) && Valid()
    {
      if rendered < |slides| - 1 {
        index := index + 1;
      }
    }

    /** `handlePrevious` of the render that showed slide `rendered`. */
    method HandlePrevious(rendered: int)
      requires Valid() && 0 <= rendered < |slides|
      modifies this
      ensures index == AfterPrevious(old(index), rendered, |slides|)
      ensures completedInteractives == old(completedInteractives) && Valid()
    {
      if rendered > 0 {
        index := index - 1;
      }
    }

    /** `handleInteractiveComplete` of the render that showed slide `rendered`: marks that slide as a
        completed interactive, then runs the same render's `handleNext`. */
    method HandleInteractiveComplete(rendered: int)
      requires Valid() && 0 <= rendered < |slides|
      modifies this
      ensures completedInteractives == old(completedInteractives) + {rendered}
      ensures index == AfterNext(old(index), rendered, |slides|) && Valid()
    {
      completedInteractives := completedInteractives + {rendered};
      HandleNext(rendered);
    }

    /** `handleComplete`: records the lesson in the store. */
    method HandleComplete(store: ProgressStore.Store)
      requires store.Valid()
      modifies store
      ensures store.State() == ProgressStore.ApplyCompleteLesson(old(store.State()), lessonId)
      ensures store.Valid()
    {
      store.CompleteLesson(topicId, lessonId);
    }

    /** A callback handed out by the render that showed slide `rendered`. `nav` is the path the
        router is sent to, if any. */
    method Fire(cb: Callback, rendered: int, store: ProgressStore.Store) returns (nav: Option<string>)
      requires Valid() && store.Valid() && 0 <= rendered < |slides|
      modifies this, store
      ensures Valid() && store.Valid()
      ensures cb == OnNext && slides[rendered].kind == "interactive" ==>
        && completedInteractives == old(completedInteractives) + {rendered}
        && index == AfterNext(old(index), rendered, |slides|)
      ensures cb == OnNext && slides[rendered].kind != "interactive" ==>
        completedInteractives == old(completedInteractives) && index == AfterNext(old(index), rendered, |slides|)
      ensures cb == OnPrevious ==>
        completedInteractives == old(completedInteractives) && index == AfterPrevious(old(index), rendered, |slides|)
      ensures cb != OnNext && cb != OnPrevious ==>
        index == old(index) && completedInteractives == old(completedInteractives)
      ensures cb == OnComplete ==> store.State() == ProgressStore.ApplyCompleteLesson(old(store.State()), lessonId)
      ensures cb != OnComplete ==> store.State() == old(store.State())
      ensures cb == OnClose ==> nav == Some(OuttroSlide.TopicPath(topicId))
      ensures cb.Navigate? ==> nav == Some(cb.path)
      ensures !cb.Navigate? && cb != OnClose ==> nav == None
    {
      nav := None;
      match cb
      case OnNext =>
        if slides[rendered].kind == "interactive" {
          HandleInteractiveComplete(rendered);
        } else {
          HandleNext(rendered);
        }
      case OnPrevious =>
        HandlePrevious(rendered);
      case OnClose =>
        nav := Some(OuttroSlide.TopicPath(topicId));
      case OnComplete =>
        HandleComplete(store);
      case OnHome =>
      case Navigate(p) =>
        nav := Some(p);
    }

    /** The effects of mounting the current slide (each index change remounts it): only the outtro
        has one, which fires `onComplete`; an index off the slides mounts nothing. */
    method MountCurrent(store: ProgressStore.Store)
      requires store.Valid()
      modifies store
      ensures store.Valid()
      ensures Current().Some? && ComponentFor(Current().value.kind) == Outtro ==>
        store.State() == ProgressStore.ApplyCompleteLesson(old(store.State()), lessonId)
      ensures !(Current().Some? && ComponentFor(Current().value.kind) == Outtro) ==>
        store.State() == old(store.State())
    {
      if 0 <= index < |slides| && ComponentFor(slides[index].kind) == Outtro {
        var slide := new OuttroSlide.Outtro(slides[index], topicId);
        var fired := slide.RunEffects();
        assert fired == Some(OnComplete);
        HandleComplete(store);
      }
    }
  }

  // ---------------------------------------------------------------- properties

  /** Under the store's guard, mounting the outtro again (after going back and forth) awards
      nothing more: the second completion leaves the state as the first one left it. */
  lemma RemountAwardsNothing(s: ProgressStore.StoreState, lessonId: string)
    ensures var once := ProgressStore.ApplyCompleteLesson(s, lessonId);
            ProgressStore.ApplyCompleteLesson(once, lessonId) == once && once.xp <= s.xp + ProgressStore.LessonXp
  {
    ProgressStore.CompleteLessonIdempotent(s, lessonId);
  }

  /** An interactive slide whose variant is not registered shows a Skip button bound to `onNext`,
      which on an interactive slide is `handleInteractiveComplete`: skipping marks it completed. */
  lemma SkipCompletes(slide: Slide, topicId: string, props: SlideProps)
    requires slide.kind == "interactive" && InteractiveSlide.Lookup(slide.variant).None?
    ensures RenderSlide(slide, topicId, props) == InteractiveView(InteractiveSlide.Unknown(slide.variant, OnNext))
  {
  }

  /** The mini-game of an interactive slide is never told whether it was completed before, nor
      given a way back: the player's `isCompleted` and `canGoPrevious` stop at the slide. */
  lemma GameNotToldCompleted(slide: Slide, topicId: string, props: SlideProps)
    requires slide.kind == "interactive"
    ensures RenderSlide(slide, topicId, props).InteractiveView?
    ensures var v := RenderSlide(slide, topicId, props).interactive;
            && (v.Game? ==> v.props.isCompleted.None? && v.props.canGoPrevious.None?
                            && v.props.onPrevious.None? && v.props.onComplete == OnNext)
            && (v.Unknown? ==> v.skip == OnNext)
  {
  }

  /** The intro slide's exit button goes back when a previous slide exists and leaves the lesson on
      the first slide. */
  lemma IntroExit(slide: Slide, topicId: string, props: SlideProps)
    requires slide.kind == "intro"
    ensures RenderSlide(slide, topicId, props).intro.exit == if props.canGoPrevious then OnPrevious else OnClose
  {
  }

  /** An open card on the topic page links to a route that the lesson page resolves to that very
      lesson: the link is parsed back into the card's topic and lesson ids, the lookup finds a lesson
      with that id, and it is the card's lesson when no earlier lesson of the topic shares its id. */
  lemma CardOpensItsLesson(c: Catalog, id: string, completed: seq<string>, i: nat)
    requires '/' !in id
    requires i < |LessonsOrEmpty(c, id)|
    ensures var ls := LessonsOrEmpty(c, id);
            var card := TopicPage.RenderCards(id, ls, completed)[i];
            && (card.onClick.Some? ==> card.onClick.value == Navigate(TopicPage.LessonPath(id, ls[i].id)))
            && (forall t, l :: '/' !in t && TopicPage.LessonPath(t, l) == TopicPage.LessonPath(id, ls[i].id) ==>
                                t == id && l == ls[i].id)
            && !Route(c, id, ls[i].id).Crash? && !Route(c, id, ls[i].id).Redirect?
            && FindInCatalog(c, id, ls[i].id).Some? && FindInCatalog(c, id, ls[i].id).value.id == ls[i].id
    ensures var ls := LessonsOrEmpty(c, id);
            (forall j :: 0 <= j < i ==> ls[j].id != ls[i].id) ==>
              Route(c, id, ls[i].id) == if ls[i].slides == [] then UnderConstruction(ls[i].title, Navigate(OuttroSlide.TopicPath(id)))
                                        else Playing(ls[i])
  {
    var ls := LessonsOrEmpty(c, id);
    forall t, l | '/' !in t && TopicPage.LessonPath(t, l) == TopicPage.LessonPath(id, ls[i].id)
      ensures t == id && l == ls[i].id
    {
      TopicPage.LessonPathInjective(t, l, id, ls[i].id);
    }
    var r := FindLesson(ls, ls[i].id);
    assert r.Some?;
    if forall j :: 0 <= j < i ==> ls[j].id != ls[i].id {
      var k :| 0 <= k < |ls| && ls[k] == r.value && r.value.id == ls[i].id
               && (forall j :: 0 <= j < k ==> ls[j].id != ls[i].id);
      assert k == i;
    }
  }

  /** Two calls of the `onNext` of one render on the next-to-last slide (a game that completes twice,
      each time with a delayed call) move the cursor two steps: past the last slide, where the page
      renders nothing. */
  lemma StaleCompletionOvershoots(n: int)
    requires n >= 2
    ensures AfterNext(n - 2, n - 2, n) == n - 1
    ensures AfterNext(AfterNext(n - 2, n - 2, n), n - 2, n) == n
  {
  }

  /** In `crypto-lesson-1` the scanner sits on slide 1 of 3; clicking the real token twice schedules
      two delayed calls of that render's `handleInteractiveComplete`, which leave the player showing
      nothing. */
  method CryptoLessonGoesBlank(store: ProgressStore.Store) returns (p: Player)
    requires store.Valid()
    modifies store
    ensures p.index == 3 && p.Current().None? && p.View().None?
    ensures p.completedInteractives == {1}
  {
    CryptoScanner.RealTwiceCallsTwice();
    p := new Player("crypto-safety", "crypto-lesson-1", Lessons.CryptoLesson1);
    var nav := p.Fire(OnNext, 0, store);
    assert p.index == 1;
    nav := p.Fire(OnNext, 1, store);
    assert p.index == 2;
    p.MountCurrent(store);
    nav := p.Fire(OnNext, 1, store);
    assert p.index == 3;
  }
}
