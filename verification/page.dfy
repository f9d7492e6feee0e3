/** The page around the cards: loading the activity list, the activity select control,
    and the page-level signup form that updates a card found by name. */
module Page {
  import opened Optional
  import opened Cards

  /** One `<option>` of the activity select control. */
  datatype SelectOption = SelectOption(value: string, text: string)

  const Placeholder := SelectOption("", "-- Select an activity --")
  const GlobalRejected := "An error occurred"
  const GlobalFailed := "Failed to sign up. Please try again."

  /** The position of the first card with the given name, or -1 when there is none. */
  function IndexOfCard(cards: seq<ActivityCard>, activity: string): (k: int)
    ensures -1 <= k < |cards|
    ensures k >= 0 ==> cards[k].name == activity
    ensures k >= 0 ==> forall j :: 0 <= j < k ==> cards[j].name != activity
    ensures k == -1 ==> forall j :: 0 <= j < |cards| ==> cards[j].name != activity
  {
    if cards == [] then -1
    else if cards[0].name == activity then 0
    else
      var k := IndexOfCard(cards[1..], activity);
      if k == -1 then -1 else k + 1
  }

  /** The page-level message after a signup request ended. A 2xx answer shows its
      `message` field as is, so an absent one shows an empty message. */
  function GlobalNotice(reply: Reply): (n: Notice)
    ensures n.Shown? && (n.isError <==> !reply.Accepted?)
  {
    match reply
    case Accepted(message) => Shown(OrElse(message, ""), false)
    case Rejected(detail) => Shown(OrElse(detail, GlobalRejected), true)
    case Failed => Shown(GlobalFailed, true)
  }

  /** A successful page-level signup shows the server's message as sent (empty when
      absent), styled as a success; a failed one shows the server's detail or the fixed
      fallback text, or the thrown-error text, styled as an error. */
  lemma GlobalNoticeText(reply: Reply)
    ensures GlobalNotice(reply).Shown?
    ensures GlobalNotice(reply).isError <==> !reply.Accepted?
    ensures reply.Rejected? && reply.detail.Some? && reply.detail.value != "" ==>
      GlobalNotice(reply).text == reply.detail.value
    ensures reply.Rejected? && (reply.detail.None? || reply.detail.value == "") ==>
      GlobalNotice(reply).text == GlobalRejected
    ensures reply.Accepted? ==>
      GlobalNotice(reply).text == (if reply.message.Some? then reply.message.value else "")
    ensures reply.Failed? ==> GlobalNotice(reply).text == GlobalFailed
  {
  }

  class ActivityPage {
    var cards: seq<ActivityCard>   // the children of the activities list, in order
    var options: seq<SelectOption> // the activity select control's options
    var loadFailed: bool           // the list shows the load-failure text
    var email: string              // the page-level email field
    var selected: string           // the value of the activity select control
    var message: Notice            // the page-level message area

    /** The page before its first load. */
    constructor ()
      ensures cards == [] && options == [] && !loadFailed
      ensures email == "" && selected == "" && message == Hidden
    {
      cards := [];
      options := [];
      loadFailed := false;
      email := "";
      selected := "";
      message := Hidden;
    }

    /** Loads the activities: `fetched` is the decoded `GET /activities` body as its
        entries in order, or None when the request or the decoding failed. On success the
        list and the select control are rebuilt from scratch, one card and one option per
        activity after the placeholder; on failure the list shows the failure text and
        the select control is left as it was. */
    method Load(fetched: Option<seq<(string, Details)>>)
      modifies this
      ensures email == old(email) && message == old(message)
      ensures fetched.None? ==>
        loadFailed && cards == [] && options == old(options) && selected == old(selected)
      ensures fetched.Some? ==>
        && !loadFailed
        && selected == ""
        && |cards| == |fetched.value|
        && |options| == |fetched.value| + 1
        && options[0] == Placeholder
        && (forall i, j :: 0 <= i < j < |cards| ==> cards[i] != cards[j])
        && forall i :: 0 <= i < |cards| ==>
             && fresh(cards[i])
             && cards[i].name == fetched.value[i].0
             && cards[i].max == fetched.value[i].1.maxParticipants
             && cards[i].State() == Rendered(fetched.value[i].1)
             && options[i + 1] == SelectOption(fetched.value[i].0, fetched.value[i].0)
    {
      if fetched.None? {
        loadFailed := true;
        cards := [];
        return;
      }
      var entries := fetched.value;
      var built: seq<ActivityCard> := [];
      var opts := [Placeholder];
      var i := 0;
      while i < |entries|
        invariant 0 <= i <= |entries|
        invariant |built| == i && |opts| == i + 1 && opts[0] == Placeholder
        modifies {}
        invariant forall a, b :: 0 <= a < b < i ==> built[a] != built[b]
        invariant forall k :: 0 <= k < i ==> fresh(built[k])
        invariant forall k :: 0 <= k < i ==>
             built[k].name == entries[k].0 && built[k].max == entries[k].1.maxParticipants
        invariant forall k :: 0 <= k < i ==> built[k].State() == Rendered(entries[k].1)
        invariant forall k :: 0 <= k < i ==> opts[k + 1] == SelectOption(entries[k].0, entries[k].0)
      {
        var (name, details) := entries[i];
        var card := new ActivityCard(name, details);
        built := built + [card];
        opts := opts + [SelectOption(name, name)];
        i := i + 1;
      }
      loadFailed := false;
      cards := built;
      options := opts;
      selected := "";
    }

    /** The user fills in the page-level form. */
    method Fill(address: string, activity: string)
      modifies this
      ensures email == address && selected == activity
      ensures cards == old(cards) && options == old(options)
      ensures loadFailed == old(loadFailed) && message == old(message)
    {
      email := address;
      selected := activity;
    }

    /** The lookup at app.js:197-198: the first card whose activity name matches. */
    method FindCard(activity: string) returns (k: int)
      ensures k == IndexOfCard(cards, activity)
    {
      k := 0;
      while k < |cards| && cards[k].name != activity
        invariant 0 <= k <= |cards|
        invariant forall j :: 0 <= j < k ==> cards[j].name != activity
      {
        k := k + 1;
      }
      if k == |cards| {
        k := -1;
      }
    }

    /** The page-level form's submit handler, given how its request ended. The email and
        the activity are sent as they are (no trimming, no emptiness check). A 2xx answer
        shows its message, resets the form, and updates the first card whose name is the
        selected activity; no other card changes, and nothing but the message changes
        otherwise. */
    method GlobalSubmit(reply: Reply)
      modifies this, cards
      ensures cards == old(cards) && options == old(options) && loadFailed == old(loadFailed)
      ensures message == GlobalNotice(reply)
      ensures reply.Accepted? ==> email == "" && selected == ""
      ensures !reply.Accepted? ==> email == old(email) && selected == old(selected)
      ensures forall c :: c in cards ==>
        c.State() == (if reply.Accepted? && IndexOfCard(cards, old(selected)) >= 0
                         && c == cards[IndexOfCard(cards, old(selected))]
                      then AfterGlobal(c.max, old(c.State()), old(email))
                      else old(c.State()))
    {
      match reply {
        case Accepted(m) =>
          message := Shown(OrElse(m, ""), false);
          var address, activity := email, selected;
          email, selected := "", "";
          var k := FindCard(activity);
          if k >= 0 {
            cards[k].ApplyGlobalSignup(address);
          }
        case Rejected(d) =>
          message := Shown(OrElse(d, GlobalRejected), true);
        case Failed =>
          message := Shown(GlobalFailed, true);
      }
    }
  }
}
