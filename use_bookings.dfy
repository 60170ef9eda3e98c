/** The `useBookings` data hook: the booking list, its total, the summary,
    two loading flags, the last error and the filters. Each method is one
    step, with the outcome of its API call as a parameter; `Failure` stands
    for a thrown error, and a method that rethrows returns that same
    failure. The summary is kept as the JSON value the server sent. */
module UseBookings {
  import opened Wrappers
  import opened RecordList
  import Js
  import opened BookingList

  const LoadBookingsError := "Failed to load bookings"
  const LoadSummaryError := "Failed to load booking summary"
  const UpdateStatusError := "Failed to update booking status"
  const CreateError := "Failed to create booking"
  const UpdateError := "Failed to update booking"

  class Hook {
    var bookings: seq<Booking>
    var total: int
    var summary: Option<Js.Value>
    var isLoading: bool
    var isSummaryLoading: bool
    var error: Option<string>
    var filters: map<string, Js.Value>

    constructor (initialFilters: map<string, Js.Value>)
      ensures bookings == [] && total == 0 && summary.None? && isLoading && isSummaryLoading
      ensures error.None? && filters == initialFilters
    {
      bookings := [];
      total := 0;
      summary := None;
      isLoading := true;
      isSummaryLoading := true;
      error := None;
      filters := initialFilters;
    }

    /** `fetchBookings`: the list and total come from the answer; a failure
        sets the error and keeps them. The flag ends false either way, and a
        success does not clear an earlier error. */
    method FetchBookings(outcome: Result<(seq<Booking>, int)>) returns (busyDuringCall: bool)
      modifies this
      ensures busyDuringCall && !isLoading
      ensures outcome.Success? ==> bookings == outcome.value.0 && total == outcome.value.1 && error == old(error)
      ensures outcome.Failure? ==> bookings == old(bookings) && total == old(total) && error == Some(LoadBookingsError)
      ensures summary == old(summary) && isSummaryLoading == old(isSummaryLoading) && filters == old(filters)
    {
      isLoading := true;
      busyDuringCall := isLoading;
      if outcome.Success? {
        bookings := outcome.value.0;
        total := outcome.value.1;
      } else {
        error := Some(LoadBookingsError);
      }
      isLoading := false;
    }

    /** `fetchSummary` */
    method FetchSummary(outcome: Result<Js.Value>) returns (busyDuringCall: bool)
      modifies this
      ensures busyDuringCall && !isSummaryLoading
      ensures outcome.Success? ==> summary == Some(outcome.value) && error == old(error)
      ensures outcome.Failure? ==> summary == old(summary) && error == Some(LoadSummaryError)
      ensures bookings == old(bookings) && total == old(total) && isLoading == old(isLoading)
      ensures filters == old(filters)
    {
      isSummaryLoading := true;
      busyDuringCall := isSummaryLoading;
      if outcome.Success? {
        summary := Some(outcome.value);
      } else {
        error := Some(LoadSummaryError);
      }
      isSummaryLoading := false;
    }

    /** `updateFilters(newFilters)`: a key-wise override. */
    method UpdateFilters(newFilters: map<string, Js.Value>)
      modifies this
      ensures filters == MergeFilters(old(filters), newFilters)
      ensures bookings == old(bookings) && total == old(total) && summary == old(summary)
      ensures isLoading == old(isLoading) && isSummaryLoading == old(isSummaryLoading) && error == old(error)
    {
      filters := MergeFilters(filters, newFilters);
    }

    /** `updateBookingStatus(bookingId, status)`: the server's booking replaces
        every booking with that id and the summary is fetched again, with
        `summaryOutcome` as that call's result. */
    method UpdateBookingStatus(bookingId: string, status: Status, outcome: Result<Booking>,
                               summaryOutcome: Result<Js.Value>) returns (r: Result<Booking>)
      modifies this
      ensures r == outcome
      ensures outcome.Success? ==> bookings == ReplaceById(old(bookings), BookingId, bookingId, outcome.value)
      ensures outcome.Success? && summaryOutcome.Success? ==> summary == Some(summaryOutcome.value) && error == old(error)
      ensures outcome.Success? && summaryOutcome.Failure? ==> summary == old(summary) && error == Some(LoadSummaryError)
      ensures outcome.Success? ==> !isSummaryLoading
      ensures outcome.Failure? ==> bookings == old(bookings) && error == Some(UpdateStatusError) &&
                                   summary == old(summary) && isSummaryLoading == old(isSummaryLoading)
      ensures total == old(total) && isLoading == old(isLoading) && filters == old(filters)
    {
      r := outcome;
      if outcome.Failure? {
        error := Some(UpdateStatusError);
        return;
      }
      bookings := ReplaceById(bookings, BookingId, bookingId, outcome.value);
      var _ := FetchSummary(summaryOutcome);
    }

    /** `createBooking(data)`: the booking the server created is appended and
        the summary fetched again. */
    method CreateBooking(outcome: Result<Booking>, summaryOutcome: Result<Js.Value>) returns (r: Result<Booking>)
      modifies this
      ensures r == outcome
      ensures outcome.Success? ==> bookings == Append(old(bookings), outcome.value)
      ensures outcome.Success? && summaryOutcome.Success? ==> summary == Some(summaryOutcome.value) && error == old(error)
      ensures outcome.Success? && summaryOutcome.Failure? ==> summary == old(summary) && error == Some(LoadSummaryError)
      ensures outcome.Success? ==> !isSummaryLoading
      ensures outcome.Failure? ==> bookings == old(bookings) && error == Some(CreateError) &&
                                   summary == old(summary) && isSummaryLoading == old(isSummaryLoading)
      ensures total == old(total) && isLoading == old(isLoading) && filters == old(filters)
    {
      r := outcome;
      if outcome.Failure? {
        error := Some(CreateError);
        return;
      }
      bookings := Append(bookings, outcome.value);
      var _ := FetchSummary(summaryOutcome);
    }

    /** `refetch`: the list, then the summary. */
    method Refetch(listOutcome: Result<(seq<Booking>, int)>, summaryOutcome: Result<Js.Value>)
      modifies this
      ensures !isLoading && !isSummaryLoading
      ensures listOutcome.Success? ==> bookings == listOutcome.value.0 && total == listOutcome.value.1
      ensures listOutcome.Failure? ==> bookings == old(bookings) && total == old(total)
      ensures summaryOutcome.Success? ==> summary == Some(summaryOutcome.value)
      ensures summaryOutcome.Failure? ==> summary == old(summary) && error == Some(LoadSummaryError)
      ensures summaryOutcome.Success? && listOutcome.Failure? ==> error == Some(LoadBookingsError)
      ensures summaryOutcome.Success? && listOutcome.Success? ==> error == old(error)
      ensures filters == old(filters)
    {
      var _ := FetchBookings(listOutcome);
      var _ := FetchSummary(summaryOutcome);
    }

    /** `updateBooking(id, data)`: the server's booking replaces every booking
        with that id; the summary is not refreshed. */
    method UpdateBooking(id: string, outcome: Result<Booking>) returns (r: Result<Booking>)
      modifies this
      ensures r == outcome
      ensures outcome.Success? ==> bookings == ReplaceById(old(bookings), BookingId, id, outcome.value) && error == old(error)
      ensures outcome.Failure? ==> bookings == old(bookings) && error == Some(UpdateError)
      ensures total == old(total) && summary == old(summary) && filters == old(filters)
      ensures isLoading == old(isLoading) && isSummaryLoading == old(isSummaryLoading)
    {
      r := outcome;
      if outcome.Failure? {
        error := Some(UpdateError);
      } else {
        bookings := ReplaceById(bookings, BookingId, id, outcome.value);
      }
    }
  }
}
