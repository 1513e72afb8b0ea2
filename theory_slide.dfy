/** The theory slide (src/components/features/lesson-slides/TheorySlide.jsx): the title, the
    normalised content and a single forward button. */
module TheorySlide {
  import opened Common
  import opened Content
  import SlideText

  /** What the slide shows: its title, the normalised text and the callback of its one button. */
  datatype View = View(title: string, text: string, next: Callback)

  /** The slide for the props `slide` and `onNext`. `None` stands for the render that throws:
      `slide.content.split` is evaluated without a guard, so a slide without content fails. */
  function Render(slide: Slide, onNext: Callback): (v: Option<View>)
    ensures v.None? <==> slide.content.None?
    ensures v.Some? ==> v.value.title == slide.title && v.value.next == onNext
    ensures v.Some? ==> v.value.text == SlideText.Clean(slide.content.value)
    ensures v.Some? ==> SlideText.Clean(v.value.text) == v.value.text
    ensures v.Some? && SlideText.AllSpace(slide.content.value, SlideText.JsSpace) ==> v.value.text == ""
  {
    match slide.content
    case None => None
    case Some(c) =>
      SlideText.CleanIdempotent(c, SlideText.JsSpace);
      var v := View(slide.title, SlideText.Clean(c), onNext);
      if SlideText.AllSpace(c, SlideText.JsSpace) then
        SlideText.CleanBlank(c, SlideText.JsSpace);
        Some(v)
      else Some(v)
  }

  /** Every rendered paragraph is non-empty, trimmed and a single line, and consecutive
      paragraphs are separated by exactly one blank line. */
  lemma RenderedParagraphs(slide: Slide, onNext: Callback)
    requires slide.content.Some?
    ensures var text := Render(slide, onNext).value.text;
            var ls := SlideText.Lines(slide.content.value, SlideText.JsSpace);
            && (text == "" <==> ls == [])
            && (ls != [] ==> SlideText.Split(text) == SlideText.Interleave(ls))
            && (forall i :: 0 <= i < |ls| ==> ls[i] != "" && SlideText.Trimmed(ls[i], SlideText.JsSpace))
  {
    SlideText.CleanSegments(slide.content.value, SlideText.JsSpace);
  }
}
