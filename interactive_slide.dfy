/** The interactive slide (src/components/features/lesson-slides/InteractiveSlide.jsx): the
    `VARIANTS` table from variant ids to mini-games, and the fallback for an unknown variant. */
module InteractiveSlide {
  import opened Common
  import opened Content

  /** The mini-games registered in `VARIANTS`. */
  datatype Variant = PasswordBuilder | TermSorter | ChatSimulation | WifiSimulator | CryptoScanner | TotpSimulator

  /** The keys of `VARIANTS`, in declaration order. */
  const VariantIds: seq<string> :=
    ["password-builder", "term-sorter", "chat-simulation", "wifi-simulator", "crypto-scanner", "totp-simulator"]

  /** The key under which a mini-game is registered. */
  function IdOf(v: Variant): (id: string)
    ensures id in VariantIds
  {
    match v
    case PasswordBuilder => "password-builder"
    case TermSorter => "term-sorter"
    case ChatSimulation => "chat-simulation"
    case WifiSimulator => "wifi-simulator"
    case CryptoScanner => "crypto-scanner"
    case TotpSimulator => "totp-simulator"
  }

  /** `VARIANTS[slide.variant]`; a missing variant field looks up `undefined` and finds nothing. */
  function Lookup(variant: Option<string>): (r: Option<Variant>)
    ensures r.Some? <==> variant.Some? && variant.value in VariantIds
    ensures r.Some? ==> IdOf(r.value) == variant.value
  {
    if variant.None? then None
    else match variant.value
      case "password-builder" => Some(PasswordBuilder)
      case "term-sorter" => Some(TermSorter)
      case "chat-simulation" => Some(ChatSimulation)
      case "wifi-simulator" => Some(WifiSimulator)
      case "crypto-scanner" => Some(CryptoScanner)
      case "totp-simulator" => Some(TotpSimulator)
      case _ => None
  }

  /** The props a registered mini-game receives. The `Option` fields are the props the mini-games
      declare but this slide never passes, so inside the game they are `undefined`. */
  datatype GameProps = GameProps(
    onComplete: Callback,
    data: Option<seq<TermItem>>,
    labels: Option<Labels>,
    onPrevious: Option<Callback>,
    canGoPrevious: Option<bool>,
    isCompleted: Option<bool>)

  /** What the slide shows: the mini-game, or the "Unknown interactive variant" panel whose Skip
      button calls `skip`. */
  datatype View = Game(game: Variant, props: GameProps) | Unknown(variant: Option<string>, skip: Callback)

  /** The slide for the props `slide` and `onNext` (the only ones it reads). */
  function Render(slide: Slide, onNext: Callback): (v: View)
    ensures v.Game? <==> Lookup(slide.variant).Some?
    ensures v.Game? ==>
      && v.game == Lookup(slide.variant).value
      && v.props.onComplete == onNext
      && v.props.data == slide.data && v.props.labels == slide.labels
      && v.props.onPrevious.None? && v.props.canGoPrevious.None? && v.props.isCompleted.None?
    ensures v.Unknown? ==> v.skip == onNext && v.variant == slide.variant
  {
    match Lookup(slide.variant)
    case Some(g) => Game(g, GameProps(onNext, slide.data, slide.labels, None, None, None))
    case None => Unknown(slide.variant, onNext)
  }

  /** Exactly six distinct ids are registered, and looking up the id of a game finds that game. */
  lemma VariantTable()
    ensures |VariantIds| == 6 && NoDup(VariantIds)
    ensures forall v: Variant :: Lookup(Some(IdOf(v))) == Some(v)
    ensures forall id :: id in VariantIds ==> IdOf(Lookup(Some(id)).value) == id
  {
  }

  /** Whatever the slide renders, the one way forward out of it calls `onNext`. */
  lemma ForwardIsOnNext(slide: Slide, onNext: Callback)
    ensures match Render(slide, onNext)
            case Game(_, p) => p.onComplete == onNext
            case Unknown(_, skip) => skip == onNext
  {
  }
}
