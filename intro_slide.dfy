/** The intro slide (src/components/features/lesson-slides/IntroSlide.jsx): title, normalised
    content, an exit button and a start button. */
module IntroSlide {
  import opened Common
  import opened Content
  import SlideText

  /** The title, the normalised text, the left ("exit") button's callback and the right
      ("start") button's callback. */
  datatype View = View(title: string, text: string, exit: Callback, start: Callback)

  /** The slide for its props. The exit button goes back a slide when one can go back, and
      otherwise closes the lesson; the start button always goes forward. */
  function Render(slide: Slide, onNext: Callback, onPrevious: Callback, onClose: Callback,
                  canGoPrevious: bool): (v: View)
    ensures v.title == slide.title
    ensures canGoPrevious ==> v.exit == onPrevious
    ensures !canGoPrevious ==> v.exit == onClose
    ensures v.start == onNext
    ensures v.text == SlideText.CleanOrEmpty(slide.content)
    ensures SlideText.Clean(v.text) == v.text
  {
    var text := SlideText.CleanOrEmpty(slide.content);
    SlideText.CleanIdempotent(if slide.content.Some? then slide.content.value else "", SlideText.JsSpace);
    View(slide.title, text, if canGoPrevious then onPrevious else onClose, onNext)
  }
}
