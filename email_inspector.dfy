/** The phishing-email game (interactives/EmailInspector.jsx): clicking a suspicious part of the email
    records its flag id and opens that red flag's details. The game counts as complete once as many
    ids are recorded as there are red flags. Which part of the email was clicked is abstracted to the
    flag id it carries; the header always carries "sender". */
module EmailInspector {
  import opened Common
  import opened Content
  import InteractiveSlide
  import LessonNavigation
  import GameNav

  datatype RedFlag = RedFlag(id: string, title: string, severity: string, location: string, description: string)

  /** The game's `data`; the component destructures it, so it is required. */
  datatype EmailData = EmailData(from: string, subject: string, date: string, body: string, redFlags: seq<RedFlag>)

  /** The id every click on the sender header records. */
  const SenderId := "sender"

  function FlagIds(flags: seq<RedFlag>): (ids: seq<string>)
    ensures |ids| == |flags| && forall i :: 0 <= i < |flags| ==> ids[i] == flags[i].id
  {
    if flags == [] then [] else [flags[0].id] + FlagIds(flags[1..])
  }

  /** `redFlags.find((f) => f.id === id)`. */
  function FindFlag(flags: seq<RedFlag>, id: string): (r: Option<RedFlag>)
    ensures r.None? <==> id !in FlagIds(flags)
    ensures r.Some? ==> r.value.id == id && r.value in flags
  {
    if flags == [] then None
    else if flags[0].id == id then Some(flags[0])
    else
      var r := FindFlag(flags[1..], id);
      assert FlagIds(flags) == [flags[0].id] + FlagIds(flags[1..]);
      r
  }

  datatype InspectorState = InspectorState(found: seq<string>, selected: Option<RedFlag>)

  /** `handleFlagClick`: the id is recorded if new, and its red flag, if it has one, is opened. */
  function Click(s: InspectorState, flags: seq<RedFlag>, id: string): (t: InspectorState)
    ensures id in t.found && (forall x :: x in s.found ==> x in t.found)
    ensures |t.found| == if id in s.found then |s.found| else |s.found| + 1
    ensures NoDup(s.found) ==> NoDup(t.found)
    ensures t.selected == FindFlag(flags, id)
  {
    InspectorState(AppendIfAbsent(s.found, id), FindFlag(flags, id))
  }

  /** `isComplete`: a comparison of counts, not of ids. */
  predicate IsComplete(s: InspectorState, flags: seq<RedFlag>)
  {
    |s.found| == |flags|
  }

  /** Every red flag has been found. */
  predicate AllFound(s: InspectorState, flags: seq<RedFlag>)
  {
    forall i :: 0 <= i < |flags| ==> flags[i].id in s.found
  }

  /** Counting is enough when only red-flag ids can be recorded: with distinct ids on both sides,
      as many recorded ids as red flags means every red flag was found, and the converse. */
  lemma CountMeansAll(s: InspectorState, flags: seq<RedFlag>)
    requires NoDup(s.found) && NoDup(FlagIds(flags))
    requires forall x :: x in s.found ==> x in FlagIds(flags)
    ensures IsComplete(s, flags) <==> AllFound(s, flags)
  {
    Common.CountMeansAll(s.found, FlagIds(flags));
    if AllFound(s, flags) {
      forall x | x in FlagIds(flags) ensures x in s.found {
        var i :| 0 <= i < |flags| && FlagIds(flags)[i] == x;
      }
    }
  }

  /** The count can be met without finding every red flag: with red flags "urgency" and "link", a
      click on the header and one on the urgent phrase complete the game while "link" is still
      hidden. */
  lemma CountIsNotAll()
    ensures var flags := [RedFlag("urgency", "", "high", "content", ""), RedFlag("link", "", "critical", "content", "")];
            var s := Click(Click(InspectorState([], None), flags, SenderId), flags, "urgency");
            IsComplete(s, flags) && !AllFound(s, flags)
  {
    var flags := [RedFlag("urgency", "", "high", "content", ""), RedFlag("link", "", "critical", "content", "")];
    var s1 := Click(InspectorState([], None), flags, SenderId);
    assert s1.found == [SenderId];
    var s := Click(s1, flags, "urgency");
    assert s.found == [SenderId, "urgency"];
    assert flags[1].id !in s.found;
  }

  /** The first render; a completed game has every red-flag id recorded and so is complete. */
  function Initial(flags: seq<RedFlag>, isCompleted: bool): (s: InspectorState)
    ensures s.selected.None?
    ensures isCompleted ==> s.found == FlagIds(flags) && IsComplete(s, flags) && AllFound(s, flags)
    ensures !isCompleted ==> s.found == []
  {
    InspectorState(if isCompleted then FlagIds(flags) else [], None)
  }

  class Inspector {
    const props: InteractiveSlide.GameProps
    const email: EmailData
    var found: seq<string>
    var selected: Option<RedFlag>

    function State(): InspectorState
      reads this
    {
      InspectorState(found, selected)
    }

    constructor (props: InteractiveSlide.GameProps, email: EmailData)
      ensures this.props == props && this.email == email
      ensures State() == Initial(email.redFlags, GameNav.Truthy(props.isCompleted))
    {
      this.props := props;
      this.email := email;
      found := if GameNav.Truthy(props.isCompleted) then FlagIds(email.redFlags) else [];
      selected := None;
    }

    /** A click on a part of the email carrying the flag `id`. */
    method HandleFlagClick(id: string)
      modifies this
      ensures State() == Click(old(State()), email.redFlags, id)
    {
      if id !in found {
        found := found + [id];
      }
      selected := FindFlag(email.redFlags, id);
    }

    /** A click on the red flag listed at `i`: it opens only once found. */
    method SelectListed(i: int)
      requires 0 <= i < |email.redFlags|
      modifies this
      ensures found == old(found)
      ensures selected == if email.redFlags[i].id in found then Some(email.redFlags[i]) else old(selected)
    {
      if email.redFlags[i].id in found {
        selected := Some(email.redFlags[i]);
      }
    }

    method CloseDetails()
      modifies this
      ensures State() == old(State()).(selected := None)
    {
      selected := None;
    }

    function Nav(): (v: LessonNavigation.NavView)
      reads this
      ensures v.next.onClick == Some(props.onComplete) <==> IsComplete(State(), email.redFlags)
    {
      GameNav.Footer(props, IsComplete(State(), email.redFlags))
    }
  }
}
