/** The fact slide (src/components/features/lesson-slides/FactSlide.jsx): title, normalised
    content, a previous button when one can go back, and a next button. */
module FactSlide {
  import opened Common
  import opened Content
  import SlideText

  /** The title, the normalised text, the previous button's callback when it is rendered and the
      next button's callback. */
  datatype View = View(title: string, text: string, previous: Option<Callback>, next: Callback)

  function Render(slide: Slide, onNext: Callback, onPrevious: Callback, canGoPrevious: bool): (v: View)
    ensures v.title == slide.title
    ensures v.previous.Some? <==> canGoPrevious
    ensures v.previous.Some? ==> v.previous.value == onPrevious
    ensures v.next == onNext
    ensures v.text == SlideText.CleanOrEmpty(slide.content)
    ensures SlideText.Clean(v.text) == v.text
  {
    var text := SlideText.CleanOrEmpty(slide.content);
    SlideText.CleanIdempotent(if slide.content.Some? then slide.content.value else "", SlideText.JsSpace);
    View(slide.title, text, if canGoPrevious then Some(onPrevious) else None, onNext)
  }
}
