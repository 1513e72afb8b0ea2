/** The footer navigation shared by the mini-games
    (src/components/features/lesson-slides/LessonNavigation.jsx): a previous button, and either a
    home button or a next button gated on `isCompleted`. */
module LessonNavigation {
  import opened Common
  import opened Content

  /** A rendered button: its `onClick` (absent when none is attached) and whether it is disabled. */
  datatype Button = Button(onClick: Option<Callback>, disabled: bool)

  /** `previous` is absent when only the spacer is rendered. */
  datatype NavView = NavView(previous: Option<Button>, next: Button, isHome: bool)

  /** The props read by the component; `canGoPrevious` is its truthiness (`undefined` is false) and
      `isCompleted == None` means the prop was not supplied. */
  datatype NavProps = NavProps(
    onPrevious: Option<Callback>,
    canGoPrevious: bool,
    onNext: Option<Callback>,
    isCompleted: Option<bool>,
    showHome: bool,
    onHome: Option<Callback>)

  /** `isCompleted = true` as the default of the destructured prop. */
  function Completed(p: NavProps): (c: bool)
    ensures p.isCompleted.None? ==> c
    ensures p.isCompleted.Some? ==> c == p.isCompleted.value
  {
    match p.isCompleted
    case None => true
    case Some(b) => b
  }

  function Render(p: NavProps): (v: NavView)
    ensures v.previous.Some? <==> p.canGoPrevious
    ensures v.previous.Some? ==> v.previous.value == Button(p.onPrevious, false)
    ensures v.isHome == p.showHome
    ensures p.showHome ==> v.next == Button(p.onHome, false)
    ensures !p.showHome ==> v.next.disabled == !Completed(p)
    ensures !p.showHome ==> (v.next.onClick.Some? ==> v.next.onClick == p.onNext && Completed(p))
    ensures !p.showHome && Completed(p) ==> v.next.onClick == p.onNext
  {
    var previous := if p.canGoPrevious then Some(Button(p.onPrevious, false)) else None;
    if p.showHome then NavView(previous, Button(p.onHome, false), true)
    else NavView(previous, Button(if Completed(p) then p.onNext else None, !Completed(p)), false)
  }

  /** A click on the forward button reaches `onHome` when `showHome`, whatever `isCompleted` is,
      and otherwise reaches `onNext` exactly when the step is completed. */
  lemma ForwardGate(p: NavProps, cb: Callback)
    ensures Render(p).next.onClick == Some(cb) <==>
            (p.showHome && p.onHome == Some(cb)) || (!p.showHome && Completed(p) && p.onNext == Some(cb))
  {
  }

  /** Leaving `isCompleted` out renders the same as passing `true`. */
  lemma DefaultIsCompleted(p: NavProps)
    ensures Render(p.(isCompleted := None)) == Render(p.(isCompleted := Some(true)))
  {
  }
}
