/** The backoffice booking detail view: which status buttons it shows, that
    they are all disabled while an update is in flight, the busy flag around
    the update call, and the unit word of the duration line. */
module BookingDetails {
  import opened Wrappers
  import opened BookingList

  /** The status buttons in the order the view lists them, for a booking in
      status `current`. */
  function OfferedTargets(current: Status): (r: seq<Status>)
    ensures forall t :: t in r <==> Offered(current, t)
    ensures current !in r
    ensures Pending in r ==> current == Cancelled
  {
    (if current != Confirmed then [Confirmed] else []) +
    (if current != Completed then [Completed] else []) +
    (if current != Cancelled then [Cancelled] else []) +
    (if current == Cancelled && current != Pending then [Pending] else [])
  }

  /** The reference rule: a forward status is offered iff the booking is not
      already in it, and "Reopen as Pending" iff the booking is cancelled. */
  predicate Offered(current: Status, target: Status) {
    if target == Pending then current == Cancelled else target != current
  }

  function ActionLabel(target: Status): string {
    match target
    case Confirmed => "Mark as Confirmed"
    case Completed => "Mark as Completed"
    case Cancelled => "Cancel Booking"
    case Pending => "Reopen as Pending"
  }

  datatype Button = Button(caption: string, target: Status, disabled: bool)

  /** The rendered action buttons. */
  function Buttons(current: Status, isUpdatingStatus: bool): (r: seq<Button>)
    ensures |r| == |OfferedTargets(current)|
    ensures forall i :: 0 <= i < |r| ==>
              r[i].target == OfferedTargets(current)[i] && r[i].caption == ActionLabel(r[i].target)
    ensures forall i :: 0 <= i < |r| ==> r[i].disabled == isUpdatingStatus
  {
    var ts := OfferedTargets(current);
    seq(|ts|, i requires 0 <= i < |ts| => Button(ActionLabel(ts[i]), ts[i], isUpdatingStatus))
  }

  /** A pending or cancelled booking is offered three targets, a confirmed or
      completed one two. */
  lemma OfferedCounts(current: Status)
    ensures |OfferedTargets(current)| == (if current == Pending || current == Cancelled then 3 else 2)
  {
  }

  /** The unit of the duration line: "hour" exactly for a duration of one. */
  function DurationUnit(duration: real): (r: string)
    ensures r == "hour" || r == "hours"
    ensures r == "hour" <==> duration == 1.0
  {
    "hour" + (if duration != 1.0 then "s" else "")
  }

  /** The component's state. `booking` is the one it shows. */
  class DetailsView {
    var booking: Booking
    var isUpdatingStatus: bool

    constructor (b: Booking)
      ensures booking == b && !isUpdatingStatus
    {
      booking := b;
      isUpdatingStatus := false;
    }

    /** `handleStatusUpdate(status)`: `onUpdateStatus(booking.id, status)` runs
        with the busy flag set; `outcome` is what that call ends with. The flag
        is cleared in `finally`, so a failure is passed on with it cleared. */
    method HandleStatusUpdate(status: Status, outcome: Result<()>)
        returns (call: (string, Status), busyDuringCall: bool, r: Result<()>)
      modifies this
      ensures call == (old(booking).id, status)
      ensures busyDuringCall
      ensures !isUpdatingStatus && booking == old(booking)
      ensures r == outcome
    {
      isUpdatingStatus := true;
      call := (booking.id, status);
      busyDuringCall := isUpdatingStatus;
      r := outcome;
      isUpdatingStatus := false;
    }
  }
}
