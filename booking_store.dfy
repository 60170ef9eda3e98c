/** The public site's booking store: one `localStorage` key, `bookings`,
    holding the JSON array of every booking made in this browser. */
module BookingStore {
  import opened Wrappers

  datatype StoredStatus = Confirmed | Completed | Cancelled

  /** The booking wizard's record before the store stamps it
      (`Omit<Booking, 'id' | 'createdAt'>`). */
  datatype BookingInput = BookingInput(
    providerId: string,
    providerName: string,
    providerImage: string,
    service: string,
    date: string,
    time: string,
    address: string,
    notes: Option<string>,
    status: StoredStatus)

  datatype Booking = Booking(
    id: string,
    providerId: string,
    providerName: string,
    providerImage: string,
    service: string,
    date: string,
    time: string,
    address: string,
    notes: Option<string>,
    status: StoredStatus,
    createdAt: string)

  /** The fields a stored booking was built from: the booking without `id` and `createdAt`. */
  function Unstamped(b: Booking): BookingInput {
    BookingInput(b.providerId, b.providerName, b.providerImage, b.service, b.date, b.time,
                 b.address, b.notes, b.status)
  }

  /** `{ ...booking, id, createdAt }`: the input with a fresh id and timestamp. */
  function Stamp(input: BookingInput, id: string, createdAt: string): (b: Booking)
    ensures Unstamped(b) == input
    ensures b.id == id && b.createdAt == createdAt
  {
    Booking(id, input.providerId, input.providerName, input.providerImage, input.service,
            input.date, input.time, input.address, input.notes, input.status, createdAt)
  }

  /** Error thrown by `localStorage.setItem` where there is no browser window. */
  const NoStorageError := "localStorage is not defined"

  /** The browser's storage as far as the store uses it. The JSON text is
      represented by the array it encodes. */
  class Store {
    /** `typeof window !== 'undefined'` */
    var hasWindow: bool
    /** `localStorage.getItem('bookings')`, parsed; `None` when the key is absent. */
    var item: Option<seq<Booking>>

    constructor (hasWindow: bool, item: Option<seq<Booking>>)
      ensures this.hasWindow == hasWindow && this.item == item
    {
      this.hasWindow := hasWindow;
      this.item := item;
    }

    /** `getBookings()`: the stored list, or `[]` when nothing is stored or
        there is no window. */
    function GetBookings(): (r: seq<Booking>)
      reads this
      ensures !hasWindow || item.None? ==> r == []
      ensures hasWindow && item.Some? ==> r == item.value
    {
      if hasWindow && item.Some? then item.value else []
    }

    /** `saveBooking(input)`, with `generateId()` and the clock as the fresh
        values `freshId` and `now`. Outside a browser the write throws. */
    method SaveBooking(input: BookingInput, freshId: string, now: string) returns (r: Result<Booking>)
      modifies this
      ensures hasWindow == old(hasWindow)
      ensures !hasWindow ==> r == Failure(NoStorageError) && item == old(item)
      ensures hasWindow ==> r.Success?
      ensures r.Success? ==> Unstamped(r.value) == input && r.value.id == freshId && r.value.createdAt == now
      ensures r.Success? ==> item == Some(old(GetBookings()) + [r.value])
      ensures r.Success? ==> GetBookings() == old(GetBookings()) + [r.value]
    {
      var bookings := GetBookings();
      var newBooking := Stamp(input, freshId, now);
      bookings := bookings + [newBooking];
      if !hasWindow {
        return Failure(NoStorageError);
      }
      item := Some(bookings);
      return Success(newBooking);
    }
  }
}
