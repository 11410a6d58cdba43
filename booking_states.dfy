/**
 * Booking lifecycle of a tutoring session: the transition table between the
 * six booking statuses, the role-based action flags shown to tutors and
 * students, and the status classifications used by the booking lists.
 */
module BookingStates {

  import opened Common

  datatype BookingStatus = Pending | Confirmed | InProgress | Completed | Cancelled | NoShow

  /** The transition table, each status's successors in table order. */
  function ValidTransitions(from: BookingStatus): (r: seq<BookingStatus>)
    ensures Pending !in r
    ensures Cancelled in r <==> from == Pending || from == Confirmed
    ensures from == InProgress ==> r == [Completed]
    ensures forall i, j :: 0 <= i < j < |r| ==> r[i] != r[j]
  {
    match from
    case Pending => [Confirmed, Cancelled]
    case Confirmed => [InProgress, Cancelled, NoShow]
    case InProgress => [Completed]
    case Completed => []
    case Cancelled => []
    case NoShow => []
  }

  /** canTransition: no move stays in place or goes back to pending, and an
      in-progress session can only complete. */
  function CanTransition(from: BookingStatus, to: BookingStatus): (r: bool)
    ensures r ==> to != from && to != Pending
    ensures from == InProgress ==> (r <==> to == Completed)
  {
    to in ValidTransitions(from)
  }

  /** A status is terminal when its list of successors is empty. */
  function IsTerminalState(status: BookingStatus): (r: bool)
    ensures r <==> forall to :: !CanTransition(status, to)
    ensures r <==> status in {Completed, Cancelled, NoShow}
  {
    var next := ValidTransitions(status);
    assert next != [] ==> CanTransition(status, next[0]);
    |next| == 0
  }

  function GetAvailableTransitions(status: BookingStatus): (r: seq<BookingStatus>)
    ensures forall to :: to in r <==> CanTransition(status, to)
    ensures |r| == 0 <==> IsTerminalState(status)
  {
    ValidTransitions(status)
  }

  /** The action flags a booking card shows. */
  datatype BookingActions = BookingActions(
    canConfirm: bool,
    canReject: bool,
    canCancel: bool,
    canStart: bool,
    canComplete: bool,
    canMarkNoShow: bool,
    canReview: bool)

  function GetTutorActions(status: BookingStatus): (a: BookingActions)
    // each action is offered exactly when its transition is valid; reject goes with confirm
    ensures a.canConfirm <==> CanTransition(status, Confirmed)
    ensures a.canCancel <==> CanTransition(status, Cancelled)
    ensures a.canStart <==> CanTransition(status, InProgress)
    ensures a.canComplete <==> CanTransition(status, Completed)
    ensures a.canMarkNoShow <==> CanTransition(status, NoShow)
    ensures a.canReject ==> CanTransition(status, Cancelled)
    ensures a.canConfirm <==> a.canReject
    ensures !a.canReview
  {
    BookingActions(
      canConfirm := status == Pending,
      canReject := status == Pending,
      canCancel := status == Pending || status == Confirmed,
      canStart := status == Confirmed,
      canComplete := status == InProgress,
      canMarkNoShow := status == Confirmed,
      canReview := false)
  }

  function GetStudentActions(status: BookingStatus): (a: BookingActions)
    ensures !a.canConfirm && !a.canReject && !a.canStart && !a.canComplete && !a.canMarkNoShow
    ensures a.canCancel <==> status == Pending || status == Confirmed
    ensures a.canReview <==> status == Completed
    ensures a.canCancel ==> CanTransition(status, Cancelled)
  {
    BookingActions(
      canConfirm := false,
      canReject := false,
      canCancel := status == Pending || status == Confirmed,
      canStart := false,
      canComplete := false,
      canMarkNoShow := false,
      canReview := status == Completed)
  }

  datatype TimestampField = ConfirmedAt | CompletedAt

  /** The timestamp column stamped when a booking enters a status, if any. */
  function GetTimestampFieldForStatus(status: BookingStatus): (r: Option<TimestampField>)
    ensures r == Some(ConfirmedAt) <==> status == Confirmed
    ensures r == Some(CompletedAt) <==> status == Completed
    ensures r.None? <==> status !in {Confirmed, Completed}
  {
    match status
    case Confirmed => Some(ConfirmedAt)
    case Completed => Some(CompletedAt)
    case _ => None
  }

  /** The session might still happen: exactly the statuses that can still move. */
  function IsActiveStatus(status: BookingStatus): (r: bool)
    ensures r <==> !IsTerminalState(status)
  {
    status == Pending || status == Confirmed || status == InProgress
  }

  /** The session happened or will not happen: exactly the terminal statuses. */
  function IsPastStatus(status: BookingStatus): (r: bool)
    ensures r <==> IsTerminalState(status)
  {
    status == Completed || status == Cancelled || status == NoShow
  }

  function CanModifyBooking(status: BookingStatus): (r: bool)
    ensures r <==> GetTutorActions(status).canCancel
    ensures r <==> GetStudentActions(status).canCancel
    ensures r ==> IsActiveStatus(status)
  {
    status == Pending || status == Confirmed
  }

  /** Active and past split the statuses: each status is exactly one of the two,
      and the past ones are exactly the terminal ones. */
  lemma ActivePastPartition(status: BookingStatus)
    ensures IsActiveStatus(status) != IsPastStatus(status)
    ensures IsPastStatus(status) <==> IsTerminalState(status)
  {
  }

  /** How far along the life-cycle a status is; every transition moves strictly forward. */
  function Stage(status: BookingStatus): (n: nat)
    ensures n <= 3
    ensures n == 0 <==> status == Pending
  {
    match status
    case Pending => 0
    case Confirmed => 1
    case InProgress => 2
    case _ => 3
  }

  lemma StageIncreases(from: BookingStatus, to: BookingStatus)
    requires CanTransition(from, to)
    ensures Stage(from) < Stage(to)
  {
  }

  /** A chain of valid transitions never re-enters pending and never visits a status
      twice: the life-cycle has no cycles, so a booking changes status at most three times. */
  lemma {:induction false} TransitionChainAcyclic(path: seq<BookingStatus>)
    requires |path| >= 1
    requires forall i :: 0 <= i < |path| - 1 ==> CanTransition(path[i], path[i + 1])
    ensures forall i, j :: 0 <= i < j < |path| ==> Stage(path[i]) < Stage(path[j])
    ensures forall i :: 0 < i < |path| ==> path[i] != Pending
    ensures |path| <= 4
  {
    if |path| > 1 {
      var init := path[..|path| - 1];
      assert forall i :: 0 <= i < |init| ==> init[i] == path[i];
      TransitionChainAcyclic(init);
      StageIncreases(path[|path| - 2], path[|path| - 1]);
      assert Stage(path[0]) + |path| - 1 <= Stage(path[|path| - 1]) by {
        StageGrows(path);
      }
    }
  }

  lemma {:induction false} StageGrows(path: seq<BookingStatus>)
    requires |path| >= 1
    requires forall i :: 0 <= i < |path| - 1 ==> CanTransition(path[i], path[i + 1])
    ensures Stage(path[0]) + |path| - 1 <= Stage(path[|path| - 1])
  {
    if |path| > 1 {
      StageGrows(path[1..]);
      assert path[1..][0] == path[1];
      StageIncreases(path[0], path[1]);
    }
  }
}
