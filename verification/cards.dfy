/** One activity card of the page, with the DOM stripped away: the numbers and flags the
    card shows, the participant list it shares with the fetched activity record, and the
    two ways a signup updates it (the card's own inline form, and the page-level form). */
module Cards {
  import opened Optional
  import opened Display
  import Server

  /** One activity record of `GET /activities`. */
  datatype Details = Details(
    description: string,
    schedule: string,
    maxParticipants: int,
    participants: seq<Participant>)

  /** How a signup request ended, as the page sees it: a 2xx answer with its `message`
      field, a non-2xx answer with its `detail` field, or a thrown error (the request or
      the JSON parse failed). */
  datatype Reply = Accepted(message: Option<string>) | Rejected(detail: Option<string>) | Failed

  /** A status message area: hidden, or shown with a text and success/error styling. */
  datatype Notice = Hidden | Shown(text: string, isError: bool)

  /** Everything about a card that can change after it is rendered. */
  datatype CardState = CardState(
    count: int,                      // dataset.count
    participants: seq<Participant>,  // details.participants, shared with the fetched record
    entries: seq<string>,            // the text of each list item, in order
    emptyNote: bool,                 // the "No participants yet" note is present
    spotsLeft: int,                  // the number in the availability line
    disabled: bool,                  // the inline input and its button are disabled
    input: string,                   // the value of the inline email input
    notice: Notice)                  // the card's own message area

  const InlineAdded := "Participant added"
  const InlineRejected := "Failed to add participant"
  const InlineFailed := "Failed to add participant. Try again."

  /** The list items for a participant list: one per participant, in order. */
  function Texts(ps: seq<Participant>): (r: seq<string>)
    ensures |r| == |ps|
    ensures forall i :: 0 <= i < |ps| ==> r[i] == DisplayText(ps[i])
  {
    if ps == [] then [] else [DisplayText(ps[0])] + Texts(ps[1..])
  }

  /** A card as the page builds it from a fetched record. */
  function Rendered(d: Details): (r: CardState)
    ensures |r.entries| == |r.participants| == r.count
    ensures r.emptyNote <==> r.entries == []
    ensures r.disabled <==> r.spotsLeft <= 0
  {
    var n := |d.participants|;
    CardState(
      n,
      d.participants,
      Texts(d.participants),
      n == 0,
      d.maxParticipants - n,
      d.maxParticipants - n <= 0,
      "",
      Hidden)
  }

  /** The inline form's submit handler: the typed value is trimmed and, when nothing is
      left, the handler returns without a request. Otherwise a 2xx answer removes the empty
      note, appends the email to the list items and to the shared participant list,
      recomputes the spots left from that list (not clamped), disables the form when no
      spot is left and clears the input; `count` is not touched. Any other outcome only
      shows a message. */
  function AfterInline(max: int, s: CardState, reply: Reply): (r: CardState)
    ensures r.count == s.count
    ensures s.disabled ==> r.disabled
    ensures s.entries <= r.entries
  {
    var email := Trim(s.input);
    if email == "" then s
    else match reply
      case Accepted(message) =>
        var ps := s.participants + [Plain(email)];
        var left := max - |ps|;
        s.(participants := ps,
           entries := s.entries + [email],
           emptyNote := false,
           spotsLeft := left,
           disabled := s.disabled || left <= 0,
           input := "",
           notice := Shown(OrElse(message, InlineAdded), false))
      case Rejected(detail) => s.(notice := Shown(OrElse(detail, InlineRejected), true))
      case Failed => s.(notice := Shown(InlineFailed, true))
  }

  function ClampAtZero(x: int): int {
    if x > 0 then x else 0
  }

  /** What a successful page-level signup does to the card whose name matches: removes
      the empty note, appends the (untrimmed) email to the list items, increments `count`,
      shows `max(0, max - count)` spots left and disables the form when that is 0; the
      shared participant list is not touched. */
  function AfterGlobal(max: int, s: CardState, email: string): (r: CardState)
    ensures r.spotsLeft >= 0
    ensures r.participants == s.participants
    ensures s.disabled ==> r.disabled
  {
    var count := s.count + 1;
    var left := ClampAtZero(max - count);
    s.(emptyNote := false,
       entries := s.entries + [email],
       count := count,
       spotsLeft := left,
       disabled := s.disabled || left <= 0)
  }

  /** A rendered card counts its participants, shows one list item per participant in
      order, shows the empty note exactly when there is none, and starts disabled exactly
      when no spot is left. */
  lemma RenderedView(d: Details)
    ensures var s := Rendered(d);
      && s.count == |s.participants| == |d.participants|
      && s.participants == d.participants
      && s.input == "" && s.notice == Hidden
      && s.spotsLeft == d.maxParticipants - s.count
      && (s.emptyNote <==> s.participants == [])
      && |s.entries| == |s.participants|
      && (forall i :: 0 <= i < |s.entries| ==> s.entries[i] == DisplayText(d.participants[i]))
      && (s.disabled <==> s.spotsLeft <= 0)
  {
  }

  /** A submit whose input is blank once trimmed changes nothing on the card. */
  lemma BlankInlineSubmitChangesNothing(max: int, s: CardState, reply: Reply)
    requires AllSpace(s.input)
    ensures AfterInline(max, s, reply) == s
  {
  }

  /** A successful inline signup appends the trimmed email to both the list items and the
      shared list, shows `max` minus the new list length (possibly negative), disables
      the form exactly when it was already disabled or that number is not positive, and
      leaves `count` as it was. */
  lemma InlineSuccess(max: int, s: CardState, message: Option<string>)
    requires !AllSpace(s.input)
    ensures var s' := AfterInline(max, s, Accepted(message));
      var email := Trim(s.input);
      && email != ""
      && s'.entries == s.entries + [email]
      && s'.participants == s.participants + [Plain(email)]
      && s'.spotsLeft == max - |s'.participants|
      && (s'.disabled <==> s.disabled || s'.spotsLeft <= 0)
      && s'.count == s.count
      && !s'.emptyNote && s'.input == ""
      && s'.notice == Shown(if message.Some? && message.value != "" then message.value else InlineAdded, false)
  {
  }

  /** A rejected or failed inline signup leaves the list, the counts and the form as they
      were and shows the server's detail, or the fixed fallback text. */
  lemma InlineFailureKeepsCard(max: int, s: CardState, reply: Reply)
    requires !AllSpace(s.input) && !reply.Accepted?
    ensures var s' := AfterInline(max, s, reply);
      && s'.participants == s.participants && s'.entries == s.entries
      && s'.count == s.count && s'.spotsLeft == s.spotsLeft
      && s'.disabled == s.disabled && s'.emptyNote == s.emptyNote && s'.input == s.input
      && s'.notice.Shown? && s'.notice.isError
      && (reply.Rejected? && reply.detail.Some? && reply.detail.value != "" ==> s'.notice.text == reply.detail.value)
      && (reply.Rejected? && (reply.detail.None? || reply.detail.value == "") ==> s'.notice.text == InlineRejected)
      && (reply.Failed? ==> s'.notice.text == InlineFailed)
  {
  }

  /** A page-level signup adds one to `count`, never shows a negative number of spots,
      disables the form when it shows 0, and leaves the shared list alone. Starting from
      a card that shows `max - count` (as rendered), the number shown drops by one and
      stops at 0. */
  lemma GlobalSuccess(max: int, s: CardState, email: string)
    ensures var s' := AfterGlobal(max, s, email);
      && s'.count == s.count + 1
      && s'.spotsLeft >= 0
      && s'.spotsLeft == (if max - s'.count > 0 then max - s'.count else 0)
      && (s'.spotsLeft == 0 ==> s'.disabled)
      && (s'.disabled <==> s.disabled || s'.spotsLeft == 0)
      && s'.participants == s.participants
      && s'.entries == s.entries + [email]
      && !s'.emptyNote
      && s'.input == s.input && s'.notice == s.notice
      && (s.spotsLeft == max - s.count ==>
            s'.spotsLeft == (if s.spotsLeft > 1 then s.spotsLeft - 1 else 0))
  {
  }

  /** What can happen to one card, in order: the user types into its input, submits its
      inline form (with the outcome of the request), or a page-level signup for its name
      succeeds. */
  datatype Event = Typed(text: string) | InlineSubmit(reply: Reply) | GlobalSignup(email: string)

  function Step(max: int, s: CardState, e: Event): CardState {
    match e
    case Typed(text) => s.(input := text)
    case InlineSubmit(reply) => AfterInline(max, s, reply)
    case GlobalSignup(email) => AfterGlobal(max, s, email)
  }

  function Run(max: int, s: CardState, es: seq<Event>): CardState
    decreases |es|
  {
    if es == [] then s else Run(max, Step(max, s, es[0]), es[1..])
  }

  // One-step facts behind the lemmas about runs below.

  lemma StepAppends(max: int, s: CardState, e: Event)
    ensures s.entries <= Step(max, s, e).entries
  {
  }

  lemma StepKeepsEmptyNoteAgreement(max: int, s: CardState, e: Event)
    requires s.emptyNote <==> s.entries == []
    ensures var s1 := Step(max, s, e); s1.emptyNote <==> s1.entries == []
  {
  }

  lemma StepBalance(max: int, s: CardState, e: Event)
    ensures var s1 := Step(max, s, e);
      |s1.entries| - |s.entries| == (s1.count - s.count) + (|s1.participants| - |s.participants|)
  {
  }

  /** No path re-enables a card's form: once full, a card stays full for the session. */
  lemma {:induction false} DisabledIsTerminal(max: int, s: CardState, es: seq<Event>)
    requires s.disabled
    ensures Run(max, s, es).disabled
    decreases |es|
  {
    if es != [] {
      var s1 := Step(max, s, es[0]);
      assert s1.disabled;
      DisabledIsTerminal(max, s1, es[1..]);
    }
  }

  /** List items are only ever appended: what a card showed before it still shows, first. */
  lemma {:induction false} EntriesOnlyGrow(max: int, s: CardState, es: seq<Event>)
    ensures s.entries <= Run(max, s, es).entries
    decreases |es|
  {
    if es != [] {
      var s1 := Step(max, s, es[0]);
      StepAppends(max, s, es[0]);
      EntriesOnlyGrow(max, s1, es[1..]);
    }
  }

  /** The empty note and the list items never disagree: the note is there exactly when the
      list shows no item, as after rendering. */
  lemma {:induction false} EmptyNoteIffNoEntries(max: int, s: CardState, es: seq<Event>)
    requires s.emptyNote <==> s.entries == []
    ensures var r := Run(max, s, es); r.emptyNote <==> r.entries == []
    decreases |es|
  {
    if es != [] {
      var s1 := Step(max, s, es[0]);
      StepKeepsEmptyNoteAgreement(max, s, es[0]);
      EmptyNoteIffNoEntries(max, s1, es[1..]);
    }
  }

  /** Each list item added after rendering was counted by exactly one of the two paths:
      the inline path grows the shared list, the page-level path grows `count`. */
  lemma {:induction false} EntriesBalance(max: int, s: CardState, es: seq<Event>)
    ensures var r := Run(max, s, es);
      |r.entries| - |s.entries| == (r.count - s.count) + (|r.participants| - |s.participants|)
    decreases |es|
  {
    if es != [] {
      var s1 := Step(max, s, es[0]);
      StepBalance(max, s, es[0]);
      EntriesBalance(max, s1, es[1..]);
    }
  }

  /** From a rendered card, the list items always number the rendered participants plus
      the additions seen by either path; `count` and the shared list each miss the
      additions made by the other path. */
  lemma RenderedBalance(d: Details, es: seq<Event>)
    ensures var r := Run(d.maxParticipants, Rendered(d), es);
      |r.entries| + |d.participants| == r.count + |r.participants|
  {
    EntriesBalance(d.maxParticipants, Rendered(d), es);
  }

  /** The two paths drift apart when both are used on one card: with room for two and no
      participant, a page-level signup and then an inline signup leave two list items, yet
      the card shows one spot left and keeps its form enabled, because the inline path
      counts only the shared list. */
  lemma MixedPathsDrift()
    ensures var d := Details("", "", 2, []);
      var r := Run(2, Rendered(d),
                   [GlobalSignup("a@x.edu"), Typed("b@x.edu"), InlineSubmit(Accepted(None))]);
      && |r.entries| == 2
      && r.spotsLeft == 1
      && !r.disabled
      && r.count == 1 && |r.participants| == 1
  {
  }

  /** The page's view of a server answer. */
  function FromServer(r: Server.Response): (reply: Reply)
    ensures reply.Failed? == false
    ensures r.Ok? <==> reply.Accepted?
    ensures r.Ok? ==> reply.message == Some(r.message)
    ensures r.Err? ==> reply.detail == Some(r.detail)
  {
    match r
    case Ok(message) => Accepted(Some(message))
    case Err(_, detail) => Rejected(Some(detail))
  }

  /** The shared list as plain-string participants. */
  function AsParticipants(emails: seq<string>): (ps: seq<Participant>)
    ensures |ps| == |emails|
    ensures forall i :: 0 <= i < |ps| ==> ps[i] == Plain(emails[i])
  {
    seq(|emails|, i requires 0 <= i < |emails| => Plain(emails[i]))
  }

  /** Inline signups keep the card's shared list equal to the server's list for that
      activity, and the spots shown equal to the server's spare capacity; a rejection is
      shown with the server's own detail text and adds no list item. */
  lemma InlineTracksServer(t: Server.Table, name: string, s: CardState)
    requires name in t && !AllSpace(s.input)
    requires s.participants == AsParticipants(t[name].participants)
    ensures var email := Trim(s.input);
      var out := Server.SignupOutcome(t, name, Some(email));
      var s' := AfterInline(t[name].maxParticipants, s, FromServer(out.0));
      && name in out.1
      && s'.participants == AsParticipants(out.1[name].participants)
      && (out.0.Ok? ==> s'.spotsLeft == out.1[name].maxParticipants - |out.1[name].participants|)
      && (out.0.Err? ==> s'.notice == Shown(out.0.detail, true) && s'.entries == s.entries)
  {
  }

  /** Page-level signups keep the card's `count` equal to the length of the server's list
      for that activity. */
  lemma GlobalTracksServer(t: Server.Table, name: string, email: string, s: CardState)
    requires name in t && s.count == |t[name].participants|
    ensures var out := Server.SignupOutcome(t, name, Some(email));
      var s' := if out.0.Ok? then AfterGlobal(t[name].maxParticipants, s, email) else s;
      && name in out.1
      && s'.count == |out.1[name].participants|
      && (out.0.Ok? ==> s'.spotsLeft == out.1[name].maxParticipants - |out.1[name].participants|)
  {
  }

  /** One card on the page. Its name and capacity are fixed when it is rendered. */
  class ActivityCard {
    const name: string
    const max: int
    var count: int
    var participants: seq<Participant>
    var entries: seq<string>
    var emptyNote: bool
    var spotsLeft: int
    var disabled: bool
    var input: string
    var notice: Notice

    function State(): CardState
      reads this
    {
      CardState(count, participants, entries, emptyNote, spotsLeft, disabled, input, notice)
    }

    /** Builds the card for one fetched record, one list item per participant. */
    constructor (name: string, d: Details)
      ensures this.name == name && max == d.maxParticipants
      ensures State() == Rendered(d)
    {
      var ps := d.participants;
      var items: seq<string> := [];
      var i := 0;
      while i < |ps|
        invariant 0 <= i <= |ps|
        invariant |items| == i
        invariant forall k :: 0 <= k < i ==> items[k] == DisplayText(ps[k])
      {
        items := items + [DisplayText(ps[i])];
        i := i + 1;
      }
      assert items == Texts(ps);
      this.name := name;
      max := d.maxParticipants;
      count := |ps|;
      participants := ps;
      entries := items;
      emptyNote := |ps| == 0;
      spotsLeft := d.maxParticipants - |ps|;
      disabled := d.maxParticipants - |ps| <= 0;
      input := "";
      notice := Hidden;
    }

    /** The user types into the card's email input. */
    method Type(text: string)
      modifies this
      ensures State() == old(State()).(input := text)
    {
      input := text;
    }

    /** The inline form's submit handler, given how its request ended. */
    method SubmitInline(reply: Reply)
      modifies this
      ensures State() == AfterInline(max, old(State()), reply)
      ensures old(disabled) ==> disabled
    {
      ghost var before := State();
      var email := Trim(input);
      if email == "" {
        return;
      }
      match reply {
        case Accepted(message) =>
          var ps := participants + [Plain(email)];
          var left := max - |ps|;
          emptyNote := false;
          entries := entries + [email];
          participants := ps;
          spotsLeft := left;
          if left <= 0 {
            disabled := true;
          }
          notice := Shown(OrElse(message, InlineAdded), false);
          input := "";
          assert disabled == (before.disabled || left <= 0);
        case Rejected(detail) =>
          notice := Shown(OrElse(detail, InlineRejected), true);
        case Failed =>
          notice := Shown(InlineFailed, true);
      }
    }

    /** The card part of a successful page-level signup for this card's name. */
    method ApplyGlobalSignup(email: string)
      modifies this
      ensures State() == AfterGlobal(max, old(State()), email)
      ensures old(disabled) ==> disabled
      ensures spotsLeft >= 0
    {
      emptyNote := false;
      entries := entries + [email];
      count := count + 1;
      var left := if max - count > 0 then max - count else 0;
      spotsLeft := left;
      if left <= 0 {
        disabled := true;
      }
    }
  }
}
