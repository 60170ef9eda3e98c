/** The backoffice booking table: the service-type drop-down and the
    conjunctive filter over search term, status, service type and an
    inclusive date range. Dates are strings compared through `parse`, the
    timestamp `new Date(d)` stands for; an empty date input sets no bound. */
module BookingList {
  import opened Wrappers
  import opened Text
  import opened RecordList

  datatype Status = Pending | Confirmed | Completed | Cancelled

  function StatusName(s: Status): string {
    match s
    case Pending => "pending"
    case Confirmed => "confirmed"
    case Completed => "completed"
    case Cancelled => "cancelled"
  }

  datatype Contact = Contact(id: string, name: string, email: string, phone: string)

  /** A booking as the backoffice and its API see it. `price` is in whole
      units, `duration` in hours. */
  datatype Booking = Booking(
    id: string,
    serviceType: string,
    customer: Contact,
    provider: Contact,
    status: Status,
    dateTime: string,
    address: string,
    price: int,
    duration: real,
    notes: Option<string>,
    createdAt: string)

  function BookingId(b: Booking): string { b.id }

  /** `[...new Set(bookings.map(b => b.serviceType))]` */
  function ServiceTypes(bookings: seq<Booking>): (r: seq<string>)
    ensures NoDuplicates(r)
    ensures forall t :: t in r <==> exists b :: b in bookings && b.serviceType == t
  {
    DistinctOf(bookings, (b: Booking) => b.serviceType)
  }

  /** The filter controls. Empty strings impose nothing. */
  datatype Criteria = Criteria(
    searchTerm: string,
    statusFilter: string,
    serviceFilter: string,
    start: string,
    end: string)

  const NoCriteria := Criteria("", "", "", "", "")

  predicate MatchesSearch(b: Booking, term: string) {
    var t := Lower(term);
    Contains(Lower(b.id), t) || Contains(Lower(b.customer.name), t) ||
    Contains(Lower(b.provider.name), t) || Contains(Lower(b.serviceType), t) ||
    Contains(Lower(b.address), t)
  }

  /** The predicate of `filteredBookings`. */
  predicate Matches(c: Criteria, b: Booking, parse: string -> int) {
    && MatchesSearch(b, c.searchTerm)
    && (c.statusFilter != "" ==> StatusName(b.status) == c.statusFilter)
    && (c.serviceFilter != "" ==> b.serviceType == c.serviceFilter)
    && (c.start != "" ==> parse(c.start) <= parse(b.dateTime))
    && (c.end != "" ==> parse(c.end) >= parse(b.dateTime))
  }

  function FilterBookings(bookings: seq<Booking>, c: Criteria, parse: string -> int): (r: seq<Booking>)
    ensures forall b :: b in r <==> b in bookings && Matches(c, b, parse)
    ensures IsSubsequence(r, bookings)
  {
    FilterIsSubsequence(bookings, (b: Booking) => Matches(c, b, parse));
    Filter(bookings, (b: Booking) => Matches(c, b, parse))
  }

  /** `weak` constrains at most what `strict` constrains: each of its controls
      is empty or agrees with (for dates: lies outside) `strict`'s. */
  predicate Weaker(weak: Criteria, strict: Criteria, parse: string -> int) {
    && (weak.searchTerm == "" || weak.searchTerm == strict.searchTerm)
    && (weak.statusFilter == "" || weak.statusFilter == strict.statusFilter)
    && (weak.serviceFilter == "" || weak.serviceFilter == strict.serviceFilter)
    && (weak.start != "" ==> strict.start != "" && parse(weak.start) <= parse(strict.start))
    && (weak.end != "" ==> strict.end != "" && parse(weak.end) >= parse(strict.end))
  }

  /** Any booking kept under stricter criteria is kept under weaker ones, and in
      the same relative order. */
  lemma WeakerKeepsMore(bookings: seq<Booking>, weak: Criteria, strict: Criteria, parse: string -> int)
    requires Weaker(weak, strict, parse)
    ensures IsSubsequence(FilterBookings(bookings, strict, parse), FilterBookings(bookings, weak, parse))
  {
    forall b | b in bookings && Matches(strict, b, parse) ensures Matches(weak, b, parse) {
      assert Lower("") == "";
    }
    FilterMonotone(bookings, (b: Booking) => Matches(strict, b, parse), (b: Booking) => Matches(weak, b, parse));
  }

  /** All-empty criteria give back the list itself. */
  lemma NoCriteriaKeepsAll(bookings: seq<Booking>, parse: string -> int)
    ensures FilterBookings(bookings, NoCriteria, parse) == bookings
  {
    forall b | b in bookings ensures Matches(NoCriteria, b, parse) {
      assert Lower("") == "";
    }
    FilterKeepsAll(bookings, (b: Booking) => Matches(NoCriteria, b, parse));
  }

  /** With only a date range set, a booking is kept iff its time lies inside
      the range, bounds included. */
  lemma DateRangeInclusive(bookings: seq<Booking>, start: string, end: string, b: Booking, parse: string -> int)
    requires b in bookings && start != "" && end != ""
    ensures b in FilterBookings(bookings, Criteria("", "", "", start, end), parse) <==>
            parse(start) <= parse(b.dateTime) <= parse(end)
  {
    assert Lower("") == "";
  }

  /** A non-empty status or service selector keeps only exact matches. */
  lemma SelectorsExact(bookings: seq<Booking>, c: Criteria, parse: string -> int, b: Booking)
    requires b in FilterBookings(bookings, c, parse)
    ensures c.statusFilter != "" ==> StatusName(b.status) == c.statusFilter
    ensures c.serviceFilter != "" ==> b.serviceType == c.serviceFilter
  {
  }
}
