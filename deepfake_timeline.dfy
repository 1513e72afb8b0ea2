/** The deepfake history timeline (interactives/DeepfakeTimeline.jsx): six dated events; clicking one
    opens its story and marks it viewed, and the footer unlocks once all six have been viewed. */
module DeepfakeTimeline {
  import opened Common
  import opened Content
  import InteractiveSlide
  import LessonNavigation
  import GameNav

  datatype Event = Event(id: int, year: int, title: string)

  const Events: seq<Event> := [
    Event(1, 2017, "Рождение термина"),
    Event(2, 2018, "Первый скандал"),
    Event(3, 2019, "Криминальное применение"),
    Event(4, 2021, "Законы и защита"),
    Event(5, 2023, "Эра Real-time"),
    Event(6, 2026, "AI-детекторы")
  ]

  const EventIds: set<int> := {1, 2, 3, 4, 5, 6}

  lemma EventIdsAreTheEvents()
    ensures forall i :: 0 <= i < |Events| ==> Events[i].id in EventIds
    ensures forall id :: id in EventIds ==> exists i :: 0 <= i < |Events| && Events[i].id == id
    ensures |EventIds| == |Events| == 6
  {
    assert forall id :: id in EventIds ==> Events[id - 1].id == id;
  }

  /** The id of event `i`: its position plus one. */
  function IdAt(i: int): (id: int)
    requires 0 <= i < |Events|
    ensures id == i + 1 && id in EventIds
  {
    Events[i].id
  }

  datatype TimelineState = TimelineState(selected: Option<Event>, viewed: set<int>)

  /** The first render; a completed game has every event viewed. */
  function Initial(isCompleted: bool): (s: TimelineState)
    ensures s.selected.None? && s.viewed == if isCompleted then EventIds else {}
  {
    TimelineState(None, if isCompleted then EventIds else {})
  }

  /** `handleEventClick` on event `i` of the timeline. */
  function Click(s: TimelineState, i: int): (t: TimelineState)
    requires 0 <= i < |Events|
    ensures t.selected == Some(Events[i]) && t.viewed == s.viewed + {IdAt(i)}
  {
    TimelineState(Some(Events[i]), s.viewed + {IdAt(i)})
  }

  /** `allViewed`: a comparison of counts. */
  predicate AllViewed(s: TimelineState)
  {
    |s.viewed| == |Events|
  }

  function Clicks(s: TimelineState, idx: seq<int>): TimelineState
    requires forall k :: 0 <= k < |idx| ==> 0 <= idx[k] < |Events|
    decreases |idx|
  {
    if idx == [] then s else Clicks(Click(s, idx[0]), idx[1..])
  }

  /** The events viewed after a run of clicks are those viewed before and those clicked. */
  lemma {:induction false} ClicksView(s: TimelineState, idx: seq<int>)
    requires forall k :: 0 <= k < |idx| ==> 0 <= idx[k] < |Events|
    ensures Clicks(s, idx).viewed == s.viewed + set k | 0 <= k < |idx| :: IdAt(idx[k])
    decreases |idx|
  {
    if idx != [] {
      ClicksView(Click(s, idx[0]), idx[1..]);
      var rest := set k | 0 <= k < |idx[1..]| :: IdAt(idx[1..][k]);
      var all := set k | 0 <= k < |idx| :: IdAt(idx[k]);
      assert all == {IdAt(idx[0])} + rest by {
        forall x | x in all ensures x in {IdAt(idx[0])} + rest {
          var k :| 0 <= k < |idx| && IdAt(idx[k]) == x;
          if k > 0 { assert IdAt(idx[1..][k - 1]) == x; }
        }
        forall x | x in rest ensures x in all {
          var k :| 0 <= k < |idx[1..]| && IdAt(idx[1..][k]) == x;
          assert IdAt(idx[k + 1]) == x;
        }
      }
    }
  }

  /** Only timeline events can be viewed. */
  predicate Inv(s: TimelineState)
  {
    s.viewed <= EventIds
  }

  /** With only timeline events viewed, the count reaches six exactly when every event was viewed. */
  lemma AllViewedMeansEvery(s: TimelineState)
    requires Inv(s)
    ensures AllViewed(s) <==> s.viewed == EventIds
  {
    EventIdsAreTheEvents();
    if AllViewed(s) {
      assert EventIds == s.viewed + (EventIds - s.viewed);
    }
  }

  /** The events a run of clicks from a fresh game has viewed are the events it clicked. */
  lemma FreshClicks(idx: seq<int>)
    requires forall k :: 0 <= k < |idx| ==> 0 <= idx[k] < |Events|
    ensures var v := Clicks(Initial(false), idx).viewed;
            v <= EventIds && forall i :: 0 <= i < |Events| ==> (i + 1 in v <==> i in idx)
  {
    ClicksView(Initial(false), idx);
    var clicked := set k | 0 <= k < |idx| :: IdAt(idx[k]);
    forall x | x in clicked ensures x in EventIds {
      var k :| 0 <= k < |idx| && IdAt(idx[k]) == x;
      EventIdIn(idx[k]);
    }
    forall i | 0 <= i < |Events| ensures i + 1 in clicked <==> i in idx {
      if i in idx {
        var k :| 0 <= k < |idx| && idx[k] == i;
        EventIdIn(i);
      }
      if i + 1 in clicked {
        var k :| 0 <= k < |idx| && IdAt(idx[k]) == i + 1;
        EventIdIn(idx[k]);
      }
    }
  }

  /** From a fresh game, a run of clicks, in any order and with any repeats, unlocks the footer
      exactly when it clicked every event at least once. */
  lemma VisitingAllUnlocks(idx: seq<int>)
    requires forall k :: 0 <= k < |idx| ==> 0 <= idx[k] < |Events|
    ensures AllViewed(Clicks(Initial(false), idx)) <==> forall i :: 0 <= i < |Events| ==> i in idx
  {
    FreshClicks(idx);
    CoverCount(Clicks(Initial(false), idx).viewed, idx);
  }

  /** A set of event ids holding exactly the ids of the clicked events has all six exactly when
      every event was clicked. */
  lemma CoverCount(v: set<int>, idx: seq<int>)
    requires v <= EventIds && forall i :: 0 <= i < |Events| ==> (i + 1 in v <==> i in idx)
    ensures |v| == |Events| <==> forall i :: 0 <= i < |Events| ==> i in idx
  {
    assert |EventIds| == 6;
    if forall i :: 0 <= i < |Events| ==> i in idx {
      forall id | id in EventIds ensures id in v {
        assert 0 <= id - 1 < |Events| && id - 1 in idx;
      }
      assert v == EventIds;
    } else {
      var i :| 0 <= i < |Events| && i !in idx;
      MissingOne(v, i + 1);
    }
  }

  lemma MissingOne(c: set<int>, j: int)
    requires c <= EventIds && j in EventIds && j !in c
    ensures |c| < |EventIds|
  {
    var rest := EventIds - {j};
    assert c <= rest;
    assert rest == c + (rest - c);
    assert EventIds == rest + {j};
  }

  lemma EventIdIn(i: int)
    requires 0 <= i < |Events|
    ensures Events[i].id in EventIds && Events[i].id == i + 1
  {
  }

  lemma ClickKeepsInv(s: TimelineState, i: int)
    requires Inv(s) && 0 <= i < |Events|
    ensures Inv(Click(s, i)) && s.viewed <= Click(s, i).viewed
  {
    EventIdsAreTheEvents();
  }

  class Timeline {
    const props: InteractiveSlide.GameProps
    var selected: Option<Event>
    var viewed: set<int>

    function State(): TimelineState
      reads this
    {
      TimelineState(selected, viewed)
    }

    ghost predicate Valid()
      reads this
    {
      Inv(State())
    }

    constructor (props: InteractiveSlide.GameProps)
      ensures this.props == props && State() == Initial(GameNav.Truthy(props.isCompleted)) && Valid()
    {
      this.props := props;
      selected := None;
      viewed := if GameNav.Truthy(props.isCompleted) then EventIds else {};
    }

    method HandleEventClick(i: int)
      requires Valid() && 0 <= i < |Events|
      modifies this
      ensures State() == Click(old(State()), i) && Valid()
    {
      ClickKeepsInv(State(), i);
      selected := Some(Events[i]);
      viewed := viewed + {IdAt(i)};
    }

    function Nav(): (v: LessonNavigation.NavView)
      reads this
      ensures v.next.onClick == Some(props.onComplete) <==> GameNav.Truthy(props.isCompleted) || AllViewed(State())
    {
      GameNav.Footer(props, GameNav.Truthy(props.isCompleted) || AllViewed(State()))
    }
  }
}
