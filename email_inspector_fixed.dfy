/** The second version of the email game (interactives/EmailInspector_fixed.jsx): the same clicks and
    the same count-based completion, but it always starts with nothing found, and instead of the
    shared footer it shows a single completion button, only once complete. */
module EmailInspectorFixed {
  import opened Common
  import opened Content
  import EmailInspector

  /** The completion button, when shown, calls `onComplete`; no way back is rendered. */
  datatype View = View(complete: Option<Callback>)

  class Inspector {
    const onComplete: Callback
    const email: EmailInspector.EmailData
    var found: seq<string>
    var selected: Option<EmailInspector.RedFlag>

    function State(): EmailInspector.InspectorState
      reads this
    {
      EmailInspector.InspectorState(found, selected)
    }

    /** The game reads only `onComplete` and `data`. */
    constructor (onComplete: Callback, email: EmailInspector.EmailData)
      ensures this.onComplete == onComplete && this.email == email
      ensures State() == EmailInspector.Initial(email.redFlags, false)
    {
      this.onComplete := onComplete;
      this.email := email;
      found := [];
      selected := None;
    }

    method HandleFlagClick(id: string)
      modifies this
      ensures State() == EmailInspector.Click(old(State()), email.redFlags, id)
    {
      if id !in found {
        found := found + [id];
      }
      selected := EmailInspector.FindFlag(email.redFlags, id);
    }

    /** A click on the red flag listed at `i`: it opens only once found. */
    method SelectListed(i: int)
      requires 0 <= i < |email.redFlags|
      modifies this
      ensures found == old(found)
      ensures selected == if email.redFlags[i].id in found then Some(email.redFlags[i]) else old(selected)
    {
      if email.redFlags[i].id in found {
        selected := Some(email.redFlags[i]);
      }
    }

    method CloseDetails()
      modifies this
      ensures State() == old(State()).(selected := None)
    {
      selected := None;
    }

    function Render(): (v: View)
      reads this
      ensures v.complete.Some? <==> EmailInspector.IsComplete(State(), email.redFlags)
      ensures v.complete.Some? ==> v.complete.value == onComplete
    {
      if |found| == |email.redFlags| then View(Some(onComplete)) else View(None)
    }
  }

  /** A run of clicks, from the empty start, records each id once, in the order first clicked. */
  function Clicks(s: EmailInspector.InspectorState, flags: seq<EmailInspector.RedFlag>, ids: seq<string>): (t: EmailInspector.InspectorState)
    ensures NoDup(s.found) ==> NoDup(t.found)
    ensures forall x :: x in t.found <==> x in s.found || x in ids
    decreases |ids|
  {
    if ids == [] then s else Clicks(EmailInspector.Click(s, flags, ids[0]), flags, ids[1..])
  }

  /** Clicking every red flag, in any order and with repeats, finds them all, and completes the game
      as long as nothing but red flags was clicked. */
  lemma ClickingAllFlags(flags: seq<EmailInspector.RedFlag>, ids: seq<string>)
    requires NoDup(EmailInspector.FlagIds(flags))
    requires forall i :: 0 <= i < |flags| ==> flags[i].id in ids
    ensures var t := Clicks(EmailInspector.Initial(flags, false), flags, ids);
            EmailInspector.AllFound(t, flags)
            && ((forall x :: x in ids ==> x in EmailInspector.FlagIds(flags)) ==> EmailInspector.IsComplete(t, flags))
  {
    var t := Clicks(EmailInspector.Initial(flags, false), flags, ids);
    if forall x :: x in ids ==> x in EmailInspector.FlagIds(flags) {
      EmailInspector.CountMeansAll(t, flags);
    }
  }
}
