/** The footer most mini-games render through `InteractiveNavigation`, a plain wrapper around
    `LessonNavigation`: previous as the game's own `onPrevious`/`canGoPrevious` props, next bound to
    `onComplete` and unlocked by the game's own completion flag, no home button. */
module GameNav {
  import opened Common
  import opened Content
  import LessonNavigation
  import InteractiveSlide

  /** The truthiness of an optional boolean prop. */
  function Truthy(b: Option<bool>): (t: bool)
    ensures t <==> b == Some(true)
  {
    b.Some? && b.value
  }

  /** The footer of a game with props `props` whose forward step is unlocked iff `unlocked`. */
  function Footer(props: InteractiveSlide.GameProps, unlocked: bool): (v: LessonNavigation.NavView)
    ensures v.previous.Some? <==> Truthy(props.canGoPrevious)
    ensures v.previous.Some? ==> v.previous.value.onClick == props.onPrevious
    ensures !v.isHome && v.next.disabled == !unlocked
    ensures v.next.onClick == if unlocked then Some(props.onComplete) else None
  {
    var p := LessonNavigation.NavProps(props.onPrevious, Truthy(props.canGoPrevious), Some(props.onComplete),
                                       Some(unlocked), false, None);
    LessonNavigation.ForwardGate(p, props.onComplete);
    LessonNavigation.Render(p)
  }

  /** Inside a lesson the game is never given a previous step, so its footer shows only next. */
  lemma NoPreviousInLesson(slide: Slide, onNext: Callback, unlocked: bool)
    requires InteractiveSlide.Render(slide, onNext).Game?
    ensures Footer(InteractiveSlide.Render(slide, onNext).props, unlocked).previous.None?
  {
  }
}
