/** The closing slide (src/components/features/lesson-slides/OuttroSlide.jsx): it reports the lesson
    as completed from a mount effect, shows its content as it is, and offers only the way back to
    the topic. */
module OuttroSlide {
  import opened Common
  import opened Content

  /** The title, the content as written (not normalised) and the callback of its only button. */
  datatype View = View(title: string, text: string, back: Callback)

  /** The route of a topic's page. */
  function TopicPath(topicId: string): (p: string)
    ensures |p| == |"/topic/"| + |topicId| && p[..|"/topic/"|] == "/topic/" && p[|"/topic/"|..] == topicId
  {
    "/topic/" + topicId
  }

  /** `slide.content || ""`, and a button that navigates to `/topic/{topicId}`. */
  function Render(slide: Slide, topicId: string): (v: View)
    ensures slide.content.Some? ==> v.text == slide.content.value
    ensures slide.content.None? ==> v.text == ""
    ensures v.back == Navigate(TopicPath(topicId)) && v.title == slide.title
  {
    View(slide.title, if slide.content.Some? then slide.content.value else "", Navigate(TopicPath(topicId)))
  }

  /** One mounted instance of the slide. Its effect has no dependencies, so it runs once per
      mount; a remount is a new instance. */
  class Outtro {
    const slide: Slide
    const topicId: string
    var effectRan: bool

    constructor (slide: Slide, topicId: string)
      ensures this.slide == slide && this.topicId == topicId && !effectRan
    {
      this.slide := slide;
      this.topicId := topicId;
      effectRan := false;
    }

    /** The effect pass after a render: the first one calls `onComplete`, later ones call nothing. */
    method RunEffects() returns (fired: Option<Callback>)
      modifies this
      ensures !old(effectRan) ==> fired == Some(OnComplete)
      ensures old(effectRan) ==> fired == None
      ensures effectRan
    {
      if effectRan {
        fired := None;
      } else {
        effectRan := true;
        fired := Some(OnComplete);
      }
    }
  }
}
