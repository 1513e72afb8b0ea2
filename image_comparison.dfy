/** The spot-the-artifact game (interactives/ImageComparison.jsx): a deepfake portrait with four
    circular zones hiding artifacts; a click inside a zone not yet found records it, a click outside
    every zone flashes "wrong" for half a second, and the game is complete once enough zones are
    found. A click is given as the set of zone ids whose circle contains it: the distance test on the
    pointer's position in percent of the image is left out. `flashes` counts the pending ends of the
    "wrong" flash. */
module ImageComparison {
  import opened Common
  import opened Content
  import InteractiveSlide
  import LessonNavigation
  import GameNav

  /** A zone: its id, centre and radius in percent of the image. */
  datatype Artifact = Artifact(id: string, x: int, y: int, radius: int, title: string)

  const Artifacts: seq<Artifact> := [
    Artifact("eyes", 45, 28, 8, "Неестественные глаза"),
    Artifact("hairline", 50, 15, 10, "Размытая линия волос"),
    Artifact("teeth", 48, 60, 7, "Странные зубы"),
    Artifact("neck", 50, 85, 9, "Резкая граница на шее")
  ]

  const ArtifactIds: set<string> := {"eyes", "hairline", "teeth", "neck"}

  lemma ArtifactIdsAreTheZones()
    ensures forall id :: id in ArtifactIds <==> exists i :: 0 <= i < |Artifacts| && Artifacts[i].id == id
    ensures |ArtifactIds| == 4
  {
    assert Artifacts[0].id == "eyes" && Artifacts[1].id == "hairline";
    assert Artifacts[2].id == "teeth" && Artifacts[3].id == "neck";
  }

  /** The click lies strictly inside the zone: the source's `distance < artifact.radius`, whose
      outcome for each zone is what `click` records. */
  predicate Inside(a: Artifact, click: set<string>)
  {
    a.id in click
  }

  /** Which zones hold the point, zone by zone. */
  function Holding(click: set<string>): (flags: seq<bool>)
    ensures |flags| == |Artifacts|
    ensures forall i :: 0 <= i < |Artifacts| ==> (flags[i] <==> Inside(Artifacts[i], click))
  {
    seq(|Artifacts|, i requires 0 <= i < |Artifacts| => Inside(Artifacts[i], click))
  }

  /** The first position from `k` on whose flag is set, or none exactly when none is. */
  function FirstFrom(flags: seq<bool>, k: nat): (r: Option<nat>)
    requires k <= |flags|
    ensures r.Some? ==> k <= r.value < |flags| && flags[r.value] && forall j :: k <= j < r.value ==> !flags[j]
    ensures r.None? <==> forall j :: k <= j < |flags| ==> !flags[j]
    decreases |flags| - k
  {
    if k == |flags| then None
    else if flags[k] then Some(k)
    else FirstFrom(flags, k + 1)
  }

  /** `ARTIFACTS.find(...)`: the first zone of the list holding the point. */
  function Hit(click: set<string>): (r: Option<Artifact>)
    ensures r.Some? ==> exists i :: (&& 0 <= i < |Artifacts| && Artifacts[i] == r.value && Inside(r.value, click)
                                     && forall j :: 0 <= j < i ==> !Inside(Artifacts[j], click))
    ensures r.Some? ==> r.value.id in ArtifactIds
    ensures r.None? <==> forall j :: 0 <= j < |Artifacts| ==> !Inside(Artifacts[j], click)
  {
    var flags := Holding(click);
    var i := FirstFrom(flags, 0);
    if i.Some? then
      assert Artifacts[i.value].id in ArtifactIds by {
        assert Artifacts[0].id == "eyes" && Artifacts[1].id == "hairline";
        assert Artifacts[2].id == "teeth" && Artifacts[3].id == "neck";
      }
      Some(Artifacts[i.value])
    else None
  }

  /** The eye and hairline zones overlap; a click in both counts for the eyes, the earlier one. */
  lemma OverlapGoesToTheEyes()
    ensures Hit({"hairline", "eyes"}) == Some(Artifacts[0])
  {
  }

  /** The game's optional `data`. */
  datatype ComparisonData = ComparisonData(image: Option<string>, requiredFinds: Option<int>)

  const DefaultImage := "/assets/deepfake-comparison.png"
  const DefaultRequired := 3

  /** `data?.requiredFinds || 3`: absent and zero both fall back to three. */
  function Required(data: Option<ComparisonData>): (n: int)
    ensures data.None? || data.value.requiredFinds.None? || data.value.requiredFinds == Some(0) ==> n == DefaultRequired
    ensures data.Some? && data.value.requiredFinds.Some? && data.value.requiredFinds.value != 0 ==>
              n == data.value.requiredFinds.value
  {
    if data.Some? && data.value.requiredFinds.Some? && data.value.requiredFinds.value != 0
    then data.value.requiredFinds.value else DefaultRequired
  }

  datatype ComparisonState = ComparisonState(found: set<string>, selected: Option<Artifact>, showHints: bool,
                                             wrong: bool, flashes: nat)

  /** The first render; a completed game has every zone found. */
  function Initial(isCompleted: bool): (s: ComparisonState)
    ensures s.found == if isCompleted then ArtifactIds else {}
    ensures s.selected.None? && !s.wrong && !s.showHints && s.flashes == 0
  {
    ComparisonState(if isCompleted then ArtifactIds else {}, None, false, false, 0)
  }

  /** `handleImageClick` at percent position (`x`, `y`). */
  function Click(s: ComparisonState, click: set<string>): (t: ComparisonState)
    ensures Hit(click).Some? && Hit(click).value.id !in s.found ==>
              t == s.(found := s.found + {Hit(click).value.id}, selected := Hit(click))
    ensures Hit(click).Some? && Hit(click).value.id in s.found ==> t == s
    ensures Hit(click).None? ==> t == s.(wrong := true, flashes := s.flashes + 1)
  {
    var a := Hit(click);
    if a.Some? && a.value.id !in s.found then s.(found := s.found + {a.value.id}, selected := a)
    else if a.None? then s.(wrong := true, flashes := s.flashes + 1)
    else s
  }

  /** The end of a "wrong" flash. */
  function EndFlash(s: ComparisonState): ComparisonState
    requires s.flashes > 0
  {
    s.(wrong := false, flashes := s.flashes - 1)
  }

  /** `isComplete`: at least the required number of zones found. */
  predicate IsComplete(s: ComparisonState, required: int)
  {
    |s.found| >= required
  }

  /** Only the four zones can ever be found. */
  predicate Inv(s: ComparisonState)
  {
    s.found <= ArtifactIds
  }

  /** A click keeps the invariant and never loses a found zone, so completion is never lost. */
  lemma ClickGrows(s: ComparisonState, click: set<string>, required: int)
    requires Inv(s)
    ensures Inv(Click(s, click)) && s.found <= Click(s, click).found
    ensures IsComplete(s, required) ==> IsComplete(Click(s, click), required)
  {
    assert s.found <= Click(s, click).found;
    SubsetCard(s.found, Click(s, click).found);
  }

  lemma SubsetCard(a: set<string>, b: set<string>)
    requires a <= b
    ensures |a| <= |b|
  {
    assert b == a + (b - a);
  }

  /** Asking for more than four finds makes the game impossible to complete. */
  lemma TooManyRequired(s: ComparisonState, required: int)
    requires Inv(s) && required > 4
    ensures !IsComplete(s, required)
  {
    ArtifactIdsAreTheZones();
    SubsetCard(s.found, ArtifactIds);
  }

  /** With the default of three, clicks in the eye, teeth and neck zones complete the game. */
  lemma ThreeCentresComplete()
    ensures var s := Click(Click(Click(Initial(false), {"eyes"}), {"teeth"}), {"neck"});
            s.found == {"eyes", "teeth", "neck"} && IsComplete(s, DefaultRequired)
  {
    assert Hit({"eyes"}) == Some(Artifacts[0]);
    assert Hit({"teeth"}) == Some(Artifacts[2]);
    assert Hit({"neck"}) == Some(Artifacts[3]);
  }

  class Comparison {
    const props: InteractiveSlide.GameProps
    const image: string
    const required: int
    var found: set<string>
    var selected: Option<Artifact>
    var showHints: bool
    var wrong: bool
    var flashes: nat

    function State(): ComparisonState
      reads this
    {
      ComparisonState(found, selected, showHints, wrong, flashes)
    }

    ghost predicate Valid()
      reads this
    {
      Inv(State())
    }

    constructor (props: InteractiveSlide.GameProps, data: Option<ComparisonData>)
      ensures this.props == props && required == Required(data)
      ensures image == OrElse(if data.Some? then data.value.image else None, DefaultImage)
      ensures State() == Initial(GameNav.Truthy(props.isCompleted)) && Valid()
    {
      this.props := props;
      image := OrElse(if data.Some? then data.value.image else None, DefaultImage);
      required := Required(data);
      found := if GameNav.Truthy(props.isCompleted) then ArtifactIds else {};
      selected := None;
      showHints := false;
      wrong := false;
      flashes := 0;
    }

    method HandleImageClick(click: set<string>)
      requires Valid()
      modifies this
      ensures State() == Click(old(State()), click) && Valid()
    {
      ClickGrows(State(), click, required);
      var a := Hit(click);
      if a.Some? && a.value.id !in found {
        found := found + {a.value.id};
        selected := a;
      } else if a.None? {
        wrong := true;
        flashes := flashes + 1;
      }
    }

    method FlashEnds()
      requires Valid() && flashes > 0
      modifies this
      ensures State() == EndFlash(old(State())) && Valid()
    {
      wrong := false;
      flashes := flashes - 1;
    }

    method ToggleHints()
      modifies this
      ensures State() == old(State()).(showHints := !old(showHints))
    {
      showHints := !showHints;
    }

    function Nav(): (v: LessonNavigation.NavView)
      reads this
      ensures v.next.onClick == Some(props.onComplete) <==>
                GameNav.Truthy(props.isCompleted) || IsComplete(State(), required)
    {
      GameNav.Footer(props, GameNav.Truthy(props.isCompleted) || IsComplete(State(), required))
    }
  }
}
