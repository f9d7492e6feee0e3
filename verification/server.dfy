/** The signup endpoint of the activities server: an in-memory table from activity
    name to its record, and the guard chain that decides whether an email joins it. */
module Server {
  import opened Optional

  datatype Activity = Activity(
    description: string,
    schedule: string,
    maxParticipants: int,
    participants: seq<string>)

  /** The module-level `activities` dictionary. */
  type Table = map<string, Activity>

  /** What the endpoint answers: a 200 with a message, or an error status with a detail. */
  datatype Response = Ok(message: string) | Err(status: int, detail: string)

  const NotFound := "Activity not found"
  const EmailRequired := "Email is required"
  const AlreadySignedUp := "Already signed up"
  const ActivityFull := "Activity is full"
  const SuccessPrefix := "Successfully signed up for "

  /** The table the server starts with. */
  function InitialTable(): (t: Table)
    ensures WithinCapacity(t) && NoDuplicates(t)
    ensures t.Keys == {"Chess Club", "Programming Class"}
  {
    map[
      "Chess Club" := Activity(
        "Learn strategies and compete in chess tournaments",
        "Fridays, 3:30 PM - 5:00 PM",
        12,
        ["michael@mergington.edu", "daniel@mergington.edu"]),
      "Programming Class" := Activity(
        "Learn programming fundamentals",
        "Tuesdays and Thursdays, 3:30 PM - 4:30 PM",
        20,
        [])]
  }

  /** Python's `not email` is false exactly for a present, non-empty string. */
  predicate HasEmail(email: Option<string>) {
    email.Some? && email.value != ""
  }

  /** No activity holds more participants than its maximum. */
  ghost predicate WithinCapacity(t: Table) {
    forall name :: name in t ==> |t[name].participants| <= t[name].maxParticipants
  }

  ghost predicate Distinct(s: seq<string>) {
    forall i, j :: 0 <= i < j < |s| ==> s[i] != s[j]
  }

  /** No participant list names the same email twice. */
  ghost predicate NoDuplicates(t: Table) {
    forall name :: name in t ==> Distinct(t[name].participants)
  }

  /** Whether every guard of the chain lets the signup through. */
  predicate Admits(t: Table, name: string, email: Option<string>) {
    && name in t
    && HasEmail(email)
    && email.value !in t[name].participants
    && |t[name].participants| < t[name].maxParticipants
  }

  /** The answer of a signup and the table after it: the guards are tried in order
      (unknown activity, missing email, duplicate, full), and only when all pass is the
      email appended to that one activity's participants. */
  function SignupOutcome(t: Table, name: string, email: Option<string>): (out: (Response, Table))
    ensures out.0.Ok? <==> Admits(t, name, email)
    ensures out.0.Err? ==> out.1 == t && (out.0.status == 404 <==> name !in t)
    ensures out.0.Err? ==> out.0.status in {400, 404}
    ensures out.0.Ok? ==> out.0.message == SuccessPrefix + name
    ensures out.0.Ok? ==>
      && out.1.Keys == t.Keys
      && out.1[name].participants == t[name].participants + [email.value]
      && out.1[name].maxParticipants == t[name].maxParticipants
      && out.1[name].description == t[name].description
      && out.1[name].schedule == t[name].schedule
      && forall other :: other in t && other != name ==> out.1[other] == t[other]
  {
    if name !in t then (Err(404, NotFound), t)
    else if !HasEmail(email) then (Err(400, EmailRequired), t)
    else if email.value in t[name].participants then (Err(400, AlreadySignedUp), t)
    else if |t[name].participants| >= t[name].maxParticipants then (Err(400, ActivityFull), t)
    else
      var a := t[name];
      (Ok(SuccessPrefix + name), t[name := a.(participants := a.participants + [email.value])])
  }

  lemma UnknownActivityRejected(t: Table, name: string, email: Option<string>)
    requires name !in t
    ensures SignupOutcome(t, name, email) == (Err(404, NotFound), t)
  {
  }

  lemma MissingEmailRejected(t: Table, name: string, email: Option<string>)
    requires name in t && !HasEmail(email)
    ensures SignupOutcome(t, name, email) == (Err(400, EmailRequired), t)
  {
  }

  /** The duplicate check comes before the capacity check: an email already on a full
      activity is told it is already signed up, not that the activity is full. */
  lemma DuplicateRejectedBeforeFull(t: Table, name: string, email: string)
    requires name in t && email != "" && email in t[name].participants
    ensures SignupOutcome(t, name, Some(email)) == (Err(400, AlreadySignedUp), t)
  {
  }

  lemma FullActivityRejected(t: Table, name: string, email: string)
    requires name in t && email != "" && email !in t[name].participants
    requires |t[name].participants| >= t[name].maxParticipants
    ensures SignupOutcome(t, name, Some(email)) == (Err(400, ActivityFull), t)
  {
  }

  /** A signup never pushes an activity past its maximum. */
  lemma SignupKeepsCapacity(t: Table, name: string, email: Option<string>)
    requires WithinCapacity(t)
    ensures WithinCapacity(SignupOutcome(t, name, email).1)
  {
  }

  /** A signup never makes a participant list name the same email twice. */
  lemma SignupKeepsNoDuplicates(t: Table, name: string, email: Option<string>)
    requires NoDuplicates(t)
    ensures NoDuplicates(SignupOutcome(t, name, email).1)
  {
  }

  /** Signing the same email up for the same activity a second time changes nothing:
      the table after two identical calls is the table after one. */
  lemma SignupTwiceAddsOnce(t: Table, name: string, email: Option<string>)
    ensures var once := SignupOutcome(t, name, email);
            var twice := SignupOutcome(once.1, name, email);
            twice.1 == once.1 && (once.0.Ok? ==> twice.0 == Err(400, AlreadySignedUp))
  {
  }

  /** The server process's state: the activities table, updated in place. */
  class ActivityStore {
    var activities: Table

    constructor ()
      ensures activities == InitialTable()
    {
      activities := InitialTable();
    }

    /** `GET /activities`: the whole table, as it stands. */
    method GetActivities() returns (t: Table)
      ensures t == activities
    {
      t := activities;
    }

    /** `POST /activities/<name>/signup?email=...`: the guard chain with early returns,
        then an append to the one activity's participant list. */
    method Signup(name: string, email: Option<string>) returns (r: Response)
      modifies this
      ensures (r, activities) == SignupOutcome(old(activities), name, email)
      ensures WithinCapacity(old(activities)) ==> WithinCapacity(activities)
      ensures NoDuplicates(old(activities)) ==> NoDuplicates(activities)
    {
      if WithinCapacity(activities) { SignupKeepsCapacity(activities, name, email); }
      if NoDuplicates(activities) { SignupKeepsNoDuplicates(activities, name, email); }
      if name !in activities {
        return Err(404, NotFound);
      }
      if email.None? || email.value == "" {
        return Err(400, EmailRequired);
      }
      var address := email.value;
      if address in activities[name].participants {
        return Err(400, AlreadySignedUp);
      }
      if |activities[name].participants| >= activities[name].maxParticipants {
        return Err(400, ActivityFull);
      }
      var entry := activities[name];
      activities := activities[name := entry.(participants := entry.participants + [address])];
      r := Ok(SuccessPrefix + name);
    }
  }
}
