/** Meeting requests: how a new one is built, which ones a viewer sees as upcoming, when
    the approve and reject buttons are offered, and what approving or rejecting does to the
    list on screen. */
module Meetings {
  import opened Wrappers
  import opened Seqs

  const Pending: string := "Pending"
  const Approved: string := "Approved"
  const Rejected: string := "Rejected"

  /** The role value that marks a staff member in the session. */
  const Staff: string := "staff"

  /** The fields of the Schedule form. Times are the raw `datetime-local` strings. */
  datatype ScheduleForm = ScheduleForm(
    participantEmail: string,
    purpose: string,
    venue: string,
    startTime: string,
    endTime: string,
    isGroup: bool,
    participants: seq<string>)

  /** The body the Schedule form posts. It has no `approvedBy` field and no id. */
  datatype MeetingRequest = MeetingRequest(
    scheduler: Option<string>,
    status: string,
    participantEmail: string,
    purpose: string,
    venue: string,
    startTime: string,
    endTime: string,
    isGroup: bool,
    participants: seq<string>,
    token: string)

  /** The `id` of a listed meeting as JavaScript sees it: a key the record lacks
      (`undefined`), an explicit `null`, or a string. `===` holds between two of them
      exactly when they are equal here: `undefined === undefined` and `null === null`,
      but `null !== undefined`. */
  datatype MeetingId = Missing | Null | Id(key: string)

  /** A meeting as listed for the signed-in user. `startTime` is the instant the stored
      start time parses to, None when it is missing, empty or unparseable; `status` and
      `approvedBy` are None when the stored record lacks them. */
  datatype Meeting = Meeting(
    id: MeetingId,
    token: string,
    scheduler: string,
    participantEmail: string,
    purpose: string,
    venue: string,
    startTime: Option<int>,
    status: Option<string>,
    approvedBy: Option<string>)

  /** The status a new meeting starts in: staff members' meetings are approved at once,
      every other scheduler's (a student, an unknown role, no role) wait as pending. */
  function InitialStatus(role: Option<string>): (status: string)
    ensures status == Approved <==> role == Some(Staff)
    ensures status == Pending <==> role != Some(Staff)
  {
    if role == Some(Staff) then Approved else Pending
  }

  /** The request the Schedule form posts on submit: the form's fields as entered, the
      session's email as scheduler, the token shown on the form, and the initial status.
      The participants are sent whether or not the meeting is marked as a group. */
  function ScheduleRequest(scheduler: Option<string>, role: Option<string>, form: ScheduleForm,
                           token: string): (r: MeetingRequest)
    ensures r.status == Approved <==> role == Some(Staff)
    ensures r.status == Pending <==> role != Some(Staff)
    ensures r.scheduler == scheduler && r.token == token
    ensures && r.participantEmail == form.participantEmail && r.purpose == form.purpose
            && r.venue == form.venue && r.startTime == form.startTime
            && r.endTime == form.endTime && r.isGroup == form.isGroup
            && r.participants == form.participants
  {
    MeetingRequest(scheduler, InitialStatus(role), form.participantEmail, form.purpose,
                   form.venue, form.startTime, form.endTime, form.isGroup,
                   form.participants, token)
  }

  /** The gate for the approve and reject buttons: the viewer is staff and the meeting's
      status is exactly "Pending". */
  predicate ActionsOffered(viewerRole: Option<string>, m: Meeting)
    ensures ActionsOffered(viewerRole, m) ==> viewerRole == Some(Staff) && DisplayStatus(m.status) == Pending
    ensures ActionsOffered(viewerRole, m) <==>
      viewerRole == Some(Staff) && m.status.Some? && m.status.value == Pending
  {
    viewerRole == Some(Staff) && m.status == Some(Pending)
  }

  /** No viewer other than staff, and in particular no student, is ever offered the
      approve or reject buttons. */
  lemma OnlyStaffOfferedActions(viewerRole: Option<string>, m: Meeting)
    ensures ActionsOffered(viewerRole, m) ==> viewerRole == Some(Staff)
    ensures viewerRole == Some("student") ==> !ActionsOffered(viewerRole, m)
  {
  }

  /** A stored meeting that still carries its initial status is offered for approval
      exactly when a staff member views a meeting someone other than staff scheduled. */
  lemma NewMeetingActionable(schedulerRole: Option<string>, viewerRole: Option<string>, m: Meeting)
    requires m.status == Some(InitialStatus(schedulerRole))
    ensures ActionsOffered(viewerRole, m) <==>
      viewerRole == Some(Staff) && schedulerRole != Some(Staff)
  {
  }

  /** The list on screen after approving or rejecting meeting `meetingId` succeeded:
      every meeting with that id takes `action` as status and the viewer's email as
      approver; nothing else changes. The current status is not consulted. The id is the
      one the clicked meeting carried; when that was missing or null, every meeting whose
      id is missing, or respectively null, is updated. */
  function HandleAction(ms: seq<Meeting>, meetingId: MeetingId, action: string,
                        viewerEmail: Option<string>): (r: seq<Meeting>)
    ensures |r| == |ms|
    ensures forall i :: 0 <= i < |ms| && ms[i].id != meetingId ==> r[i] == ms[i]
    ensures forall i :: 0 <= i < |ms| && ms[i].id == meetingId ==>
      && r[i].status == Some(action) && r[i].approvedBy == viewerEmail
      && r[i].(status := ms[i].status, approvedBy := ms[i].approvedBy) == ms[i]
  {
    if |ms| == 0 then []
    else
      var m := ms[0];
      var m' := if m.id == meetingId then m.(status := Some(action), approvedBy := viewerEmail) else m;
      [m'] + HandleAction(ms[1..], meetingId, action, viewerEmail)
  }

  /** Once a meeting has been approved or rejected, no viewer is offered buttons for it;
      every other meeting keeps the gate it had. */
  lemma HandleActionClosesGate(ms: seq<Meeting>, meetingId: MeetingId, action: string,
                               viewerEmail: Option<string>, viewerRole: Option<string>)
    requires action != Pending
    ensures var r := HandleAction(ms, meetingId, action, viewerEmail);
      forall i :: 0 <= i < |ms| ==>
        (ActionsOffered(viewerRole, r[i]) <==> ms[i].id != meetingId && ActionsOffered(viewerRole, ms[i]))
  {
  }

  /** Repeating the same approval or rejection changes nothing more. */
  lemma HandleActionIdempotent(ms: seq<Meeting>, meetingId: MeetingId, action: string,
                               viewerEmail: Option<string>)
    ensures var r := HandleAction(ms, meetingId, action, viewerEmail);
      HandleAction(r, meetingId, action, viewerEmail) == r
  {
    var r := HandleAction(ms, meetingId, action, viewerEmail);
    var r2 := HandleAction(r, meetingId, action, viewerEmail);
    assert forall i :: 0 <= i < |r| ==> r2[i] == r[i];
  }

  /** A meeting is upcoming when it has a start time strictly after `now`. */
  predicate IsUpcoming(m: Meeting, now: int)
    ensures IsUpcoming(m, now) ==> m.startTime.Some? && now < m.startTime.value
    ensures m.startTime.None? ==> !IsUpcoming(m, now)
    ensures m.startTime == Some(now) ==> !IsUpcoming(m, now)
  {
    m.startTime.Some? && m.startTime.value > now
  }

  /** The meetings shown: those that are upcoming, in the order they were fetched, each
      as often as it was fetched. A meeting in the past is hidden whatever its status. */
  function Upcoming(ms: seq<Meeting>, now: int): (r: seq<Meeting>)
    ensures IsSubsequence(r, ms)
    ensures forall m :: m in r <==> m in ms && IsUpcoming(m, now)
    ensures forall m :: multiset(r)[m] == if IsUpcoming(m, now) then multiset(ms)[m] else 0
  {
    FilterIsSubsequence(m => IsUpcoming(m, now), ms);
    Filter(m => IsUpcoming(m, now), ms)
  }

  /** Approving or rejecting never moves a meeting into or out of the upcoming list:
      acting on the full list and then filtering is acting on the filtered list. */
  lemma {:induction false} UpcomingAfterAction(ms: seq<Meeting>, now: int, meetingId: MeetingId,
                                               action: string, viewerEmail: Option<string>)
    ensures Upcoming(HandleAction(ms, meetingId, action, viewerEmail), now)
         == HandleAction(Upcoming(ms, now), meetingId, action, viewerEmail)
  {
    if |ms| > 0 {
      var p := (m: Meeting) => IsUpcoming(m, now);
      var r := HandleAction(ms, meetingId, action, viewerEmail);
      assert r[1..] == HandleAction(ms[1..], meetingId, action, viewerEmail);
      UpcomingAfterAction(ms[1..], now, meetingId, action, viewerEmail);
      assert Upcoming(r, now) == Filter(p, r);
      assert Upcoming(ms, now) == Filter(p, ms);
      if p(ms[0]) {
        var u := Filter(p, ms);
        assert u == [ms[0]] + Filter(p, ms[1..]);
        assert u[1..] == Filter(p, ms[1..]);
      }
    }
  }

  /** The status text shown: the stored status, or "Pending" when it is missing or
      empty. */
  function DisplayStatus(status: Option<string>): (shown: string)
    ensures shown != ""
    ensures status.Some? && status.value != "" ==> shown == status.value
    ensures status.None? || status == Some("") ==> shown == Pending
  {
    match status
    case None => Pending
    case Some(s) => if s == "" then Pending else s
  }

  /** A meeting offered for approval is shown as pending. The converse fails: a meeting
      stored without a status is shown as pending but offers no buttons. */
  lemma OfferedMeansShownPending(viewerRole: Option<string>, m: Meeting)
    ensures ActionsOffered(viewerRole, m) ==> DisplayStatus(m.status) == Pending
    ensures m.status.None? ==> DisplayStatus(m.status) == Pending && !ActionsOffered(viewerRole, m)
  {
  }

  /** A student schedules a meeting, which waits as pending; while it lies ahead, a staff
      member sees it with the buttons and approves it, which records them as approver and
      removes the buttons. */
  lemma StudentRequestApprovedByStaff(form: ScheduleForm, token: string, student: string,
                                      staff: string, stored: Meeting, now: int)
    requires stored.status == Some(ScheduleRequest(Some(student), Some("student"), form, token).status)
    requires IsUpcoming(stored, now)
    ensures stored in Upcoming([stored], now)
    ensures ButtonsShown(Some(Staff), [stored], now, stored)
    ensures var r := HandleAction([stored], stored.id, Approved, Some(staff));
      && r[0].status == Some(Approved) && r[0].approvedBy == Some(staff)
      && !ActionsOffered(Some(Staff), r[0])
  {
  }

  /** Acting on a meeting listed without an id updates every meeting listed without one,
      and leaves alone the meetings that have a string id or a null one. */
  lemma ActionOnMissingIdHitsAllMissing(ms: seq<Meeting>, action: string,
                                        viewerEmail: Option<string>)
    ensures var r := HandleAction(ms, Missing, action, viewerEmail);
      && (forall i :: 0 <= i < |ms| && ms[i].id.Missing? ==>
            r[i].status == Some(action) && r[i].approvedBy == viewerEmail)
      && (forall i :: 0 <= i < |ms| && !ms[i].id.Missing? ==> r[i] == ms[i])
  {
  }

  /** The buttons are drawn on a card only inside the upcoming list, so a meeting has
      them on screen when it is among the upcoming meetings and passes the gate. */
  predicate ButtonsShown(viewerRole: Option<string>, ms: seq<Meeting>, now: int, m: Meeting)
    ensures ButtonsShown(viewerRole, ms, now, m) ==> m in ms && IsUpcoming(m, now)
    ensures ButtonsShown(viewerRole, ms, now, m) ==> viewerRole == Some(Staff)
    ensures ButtonsShown(viewerRole, ms, now, m) ==> DisplayStatus(m.status) == Pending
  {
    m in Upcoming(ms, now) && ActionsOffered(viewerRole, m)
  }

  /** A meeting has buttons on screen exactly when it was fetched, starts after now, the
      viewer is staff and its status is exactly "Pending"; so a pending meeting without a
      parsable start time, or one that has begun, is never offered for approval. */
  lemma ButtonsShownIff(viewerRole: Option<string>, ms: seq<Meeting>, now: int, m: Meeting)
    ensures ButtonsShown(viewerRole, ms, now, m) <==>
      && m in ms
      && m.startTime.Some? && m.startTime.value > now
      && viewerRole == Some(Staff) && m.status == Some(Pending)
  {
  }
}
