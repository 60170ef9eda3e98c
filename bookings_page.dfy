/** The backoffice bookings page: the route id, the lookup of the booking to
    show, and the status update that the list and the detail view trigger. */
module BookingsPage {
  import opened Wrappers
  import opened RecordList
  import opened BookingList

  /** `isViewingDetails = !!id` for the optional route parameter. */
  function IsViewingDetails(routeId: Option<string>): (r: bool)
    ensures r <==> routeId.Some? && routeId.value != ""
  {
    match routeId
    case None => false
    case Some(id) => id != ""
  }

  /** `fetchBooking(id)`: `bookings.find(b => b.id === id) || null`. */
  function FetchBooking(bookings: seq<Booking>, id: string): (r: Option<Booking>)
    ensures r.None? <==> forall b :: b in bookings ==> b.id != id
    ensures r.Some? ==> r.value.id == id
    ensures r.Some? ==> exists i :: 0 <= i < |bookings| && bookings[i] == r.value &&
                          forall j :: 0 <= j < i ==> bookings[j].id != id
  {
    FindById(bookings, BookingId, id)
  }

  function WithStatus(b: Booking, status: Status): Booking {
    b.(status := status)
  }

  /** `bookings.map(b => b.id === id ? { ...b, status } : b)` */
  function SetStatusById(bookings: seq<Booking>, id: string, status: Status): (r: seq<Booking>)
    ensures |r| == |bookings|
    ensures forall i :: 0 <= i < |bookings| && bookings[i].id == id ==>
              r[i] == bookings[i].(status := status)
    ensures forall i :: 0 <= i < |bookings| && bookings[i].id != id ==> r[i] == bookings[i]
  {
    UpdateById(bookings, BookingId, id, (b: Booking) => WithStatus(b, status))
  }

  /** After a status update, looking the id up finds the booking found before,
      now in the new status; other ids find what they found before. */
  lemma {:induction false} FetchAfterSetStatus(bookings: seq<Booking>, id: string, status: Status, other: string)
    ensures FetchBooking(SetStatusById(bookings, id, status), id) ==
            (match FetchBooking(bookings, id)
             case None => None
             case Some(b) => Some(b.(status := status)))
    ensures other != id ==> FetchBooking(SetStatusById(bookings, id, status), other) == FetchBooking(bookings, other)
    decreases |bookings|
  {
    if bookings != [] {
      var f := (b: Booking) => WithStatus(b, status);
      var head := if bookings[0].id == id then f(bookings[0]) else bookings[0];
      var r := SetStatusById(bookings, id, status);
      assert r == [head] + SetStatusById(bookings[1..], id, status);
      assert r[0] == head && r[1..] == SetStatusById(bookings[1..], id, status);
      FetchAfterSetStatus(bookings[1..], id, status, other);
      FindByIdStep(r, BookingId, id);
      FindByIdStep(bookings, BookingId, id);
      FindByIdStep(r, BookingId, other);
      FindByIdStep(bookings, BookingId, other);
    }
  }

  /** The page state that the status update touches. */
  class Page {
    var bookings: seq<Booking>
    var currentBooking: Option<Booking>

    constructor ()
      ensures bookings == [] && currentBooking == None
    {
      bookings := [];
      currentBooking := None;
    }

    /** `handleUpdateStatus(id, status)`. `outcome` is what the update call
        ends with: `Success(true)` applies the change to the list and, when it
        shows that booking, to `currentBooking`; `Success(false)` and a
        failure (caught and logged) leave the page as it was. */
    method HandleUpdateStatus(id: string, status: Status, outcome: Result<bool>)
      modifies this
      ensures outcome == Success(true) ==> bookings == SetStatusById(old(bookings), id, status)
      ensures outcome == Success(true) && old(currentBooking).Some? && old(currentBooking).value.id == id ==>
                currentBooking == Some(old(currentBooking).value.(status := status))
      ensures !(outcome == Success(true) && old(currentBooking).Some? && old(currentBooking).value.id == id) ==>
                currentBooking == old(currentBooking)
      ensures outcome != Success(true) ==> bookings == old(bookings)
    {
      if outcome.Success? {
        var success := outcome.value;
        if success {
          bookings := SetStatusById(bookings, id, status);
          if currentBooking.Some? && currentBooking.value.id == id {
            currentBooking := Some(WithStatus(currentBooking.value, status));
          }
        }
      }
    }
  }
}
