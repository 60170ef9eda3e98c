/** The public "My Bookings" page: server bookings merged with the ones in the
    browser store, narrowed by a search term and a status button, and sorted
    by date or price. Dates are compared through `parse`, the timestamp
    `new Date(d).getTime()` gives; prices are integers. */
module PublicBookings {
  import opened Wrappers
  import opened Text
  import opened RecordList
  import Store = BookingStore

  datatype Status = Pending | Confirmed | Completed | Cancelled

  function StatusName(s: Status): string {
    match s
    case Pending => "PENDING"
    case Confirmed => "CONFIRMED"
    case Completed => "COMPLETED"
    case Cancelled => "CANCELLED"
  }

  datatype Person = Person(id: string, name: string, email: string, phone: string)
  datatype Service = Service(id: string, name: string, category: string)
  datatype ProviderRef = ProviderRef(id: string, name: string)

  datatype Booking = Booking(
    id: string,
    date: string,
    status: Status,
    user: Person,
    address: string,
    location: (int, int),
    service: Service,
    provider: ProviderRef,
    price: int)

  function StoredStatusName(s: Store.StoredStatus): string {
    match s
    case Confirmed => "confirmed"
    case Completed => "completed"
    case Cancelled => "cancelled"
  }

  /** `booking.status.toUpperCase()`: the stored status as a page status. */
  function ConvertStatus(s: Store.StoredStatus): (r: Status)
    ensures StatusName(r) == Upper(StoredStatusName(s))
    ensures r != Pending
  {
    UpperStoredName(s);
    match s
    case Confirmed => Confirmed
    case Completed => Completed
    case Cancelled => Cancelled
  }

  /** Upper-casing a stored status name gives the page's name for it. */
  lemma UpperStoredName(s: Store.StoredStatus)
    ensures Upper(StoredStatusName(s)) == match s
                                          case Confirmed => "CONFIRMED"
                                          case Completed => "COMPLETED"
                                          case Cancelled => "CANCELLED"
  {
    match s
    case Confirmed => UpperPointwise("confirmed", "CONFIRMED");
    case Completed => UpperPointwise("completed", "COMPLETED");
    case Cancelled => UpperPointwise("cancelled", "CANCELLED");
  }

  /** The page's view of a stored booking. `userSuffix` and `serviceSuffix`
      stand for the two `Math.random()` fragments of the made-up ids. */
  function ConvertStored(b: Store.Booking, userSuffix: string, serviceSuffix: string): (r: Booking)
    ensures r.id == b.id && r.date == b.date && r.address == b.address
    ensures StatusName(r.status) == Upper(StoredStatusName(b.status)) && r.status != Pending
    ensures r.provider == ProviderRef(b.providerId, b.providerName)
    ensures r.service.name == b.service
    ensures r.price == 100
  {
    Booking(b.id, b.date, ConvertStatus(b.status),
            Person("U-" + userSuffix, "Customer", "customer@example.com", "555-000-0000"),
            b.address, (0, 0),
            Service("S-" + serviceSuffix, b.service, "General"),
            ProviderRef(b.providerId, b.providerName),
            100)
  }

  /** `[...initialBookings, ...formattedStoredBookings]`, one pair of random
      fragments per stored booking. */
  function MergeStored(server: seq<Booking>, stored: seq<Store.Booking>, suffixes: seq<(string, string)>): (r: seq<Booking>)
    requires |suffixes| == |stored|
    ensures |r| == |server| + |stored|
    ensures r[..|server|] == server
    ensures forall i :: 0 <= i < |stored| ==>
              r[|server| + i] == ConvertStored(stored[i], suffixes[i].0, suffixes[i].1)
  {
    server + seq(|stored|, i requires 0 <= i < |stored| => ConvertStored(stored[i], suffixes[i].0, suffixes[i].1))
  }

  /** The search box and the status buttons (`null` is "All"). */
  predicate Matches(b: Booking, searchTerm: string, statusFilter: Option<Status>) {
    var term := Lower(searchTerm);
    (Contains(Lower(b.id), term) || Contains(Lower(b.user.name), term) ||
     Contains(Lower(b.service.name), term) || Contains(Lower(b.address), term)) &&
    (statusFilter.Some? ==> b.status == statusFilter.value)
  }

  /** `filteredBookings` */
  function FilterBookings(bookings: seq<Booking>, searchTerm: string, statusFilter: Option<Status>): (r: seq<Booking>)
    ensures forall b :: b in r <==> b in bookings && Matches(b, searchTerm, statusFilter)
    ensures IsSubsequence(r, bookings)
  {
    FilterIsSubsequence(bookings, (b: Booking) => Matches(b, searchTerm, statusFilter));
    Filter(bookings, (b: Booking) => Matches(b, searchTerm, statusFilter))
  }

  /** An empty search and no status filter show every booking. */
  lemma EmptyFilterKeepsAll(bookings: seq<Booking>)
    ensures FilterBookings(bookings, "", None) == bookings
  {
    forall b | b in bookings ensures Matches(b, "", None) {
      assert Lower("") == "";
    }
    FilterKeepsAll(bookings, (b: Booking) => Matches(b, "", None));
  }

  datatype SortField = Date | Price
  datatype Direction = Asc | Desc

  /** `a` may stand before `b` under the comparator of `sortedBookings`. */
  predicate Precedes(a: int, b: int, dir: Direction) {
    if dir == Asc then a <= b else a >= b
  }

  function SortKey(b: Booking, field: SortField, parse: string -> int): int {
    if field == Date then parse(b.date) else b.price
  }

  predicate SortedBy(s: seq<Booking>, field: SortField, dir: Direction, parse: string -> int) {
    forall i, j :: 0 <= i < j < |s| ==> Precedes(SortKey(s[i], field, parse), SortKey(s[j], field, parse), dir)
  }

  /** Puts `x` in front of the first element it may precede. */
  function Insert(x: Booking, s: seq<Booking>, field: SortField, dir: Direction, parse: string -> int): (r: seq<Booking>)
    requires SortedBy(s, field, dir, parse)
    ensures multiset(r) == multiset(s) + multiset{x}
    ensures SortedBy(r, field, dir, parse)
    decreases |s|
  {
    if s == [] then [x]
    else if Precedes(SortKey(x, field, parse), SortKey(s[0], field, parse), dir) then
      SortedCons(x, s, field, dir, parse);
      [x] + s
    else
      var rest := Insert(x, s[1..], field, dir, parse);
      assert s == [s[0]] + s[1..];
      HeadPrecedesInserted(s[0], s[1..], x, rest, field, dir, parse);
      SortedCons(s[0], rest, field, dir, parse);
      [s[0]] + rest
  }

  /** A first element that precedes everything after it keeps a sorted tail
      sorted. */
  lemma SortedCons(h: Booking, t: seq<Booking>, field: SortField, dir: Direction, parse: string -> int)
    requires SortedBy(t, field, dir, parse)
    requires t != [] ==> Precedes(SortKey(h, field, parse), SortKey(t[0], field, parse), dir)
    ensures SortedBy([h] + t, field, dir, parse)
  {
    var r := [h] + t;
    forall i, j | 0 <= i < j < |r|
      ensures Precedes(SortKey(r[i], field, parse), SortKey(r[j], field, parse), dir)
    {
      if i == 0 && j > 1 {
        assert r[j] == t[j - 1] && t[0] == r[1];
      }
    }
  }

  /** A head that precedes its tail and the inserted element precedes the
      tail after the insertion. */
  lemma HeadPrecedesInserted(h: Booking, t: seq<Booking>, x: Booking, rest: seq<Booking>,
                             field: SortField, dir: Direction, parse: string -> int)
    requires SortedBy([h] + t, field, dir, parse)
    requires !Precedes(SortKey(x, field, parse), SortKey(h, field, parse), dir)
    requires multiset(rest) == multiset(t) + multiset{x}
    ensures rest != [] ==> Precedes(SortKey(h, field, parse), SortKey(rest[0], field, parse), dir)
  {
    if rest != [] {
      assert rest[0] in multiset(rest);
      if rest[0] != x {
        assert rest[0] in multiset(t);
        var m :| 0 <= m < |t| && t[m] == rest[0];
        assert ([h] + t)[0] == h && ([h] + t)[m + 1] == t[m];
      } else {
        assert rest[0] == x;
      }
    }
  }

  /** `[...filteredBookings].sort(...)` on a copy: a stable insertion sort. */
  function SortBookings(s: seq<Booking>, field: SortField, dir: Direction, parse: string -> int): (r: seq<Booking>)
    ensures multiset(r) == multiset(s)
    ensures SortedBy(r, field, dir, parse)
    decreases |s|
  {
    if s == [] then []
    else
      assert s == [s[0]] + s[1..];
      Insert(s[0], SortBookings(s[1..], field, dir, parse), field, dir, parse)
  }

  /** The displayed rows: the filtered bookings in sort order. The page shows
      `sortedBookings.length` of `bookings.length`, never more. */
  lemma ShownCountBounded(bookings: seq<Booking>, searchTerm: string, statusFilter: Option<Status>,
                          field: SortField, dir: Direction, parse: string -> int)
    ensures |SortBookings(FilterBookings(bookings, searchTerm, statusFilter), field, dir, parse)| <= |bookings|
  {
    var f := FilterBookings(bookings, searchTerm, statusFilter);
    var r := SortBookings(f, field, dir, parse);
    assert |r| == |multiset(r)| == |multiset(f)| == |f|;
  }

  /** `toggleSort(field)` on the state `(sortField, sortDirection)`. */
  function ToggleSort(sortField: SortField, sortDirection: Direction, clicked: SortField): (r: (SortField, Direction))
    ensures r.0 == clicked
    ensures sortField == clicked ==> r.1 != sortDirection
    ensures sortField != clicked ==> r.1 == Desc
  {
    if sortField == clicked then (sortField, if sortDirection == Asc then Desc else Asc)
    else (clicked, Desc)
  }

  /** Clicking the current column twice restores its direction; clicking
      another column twice ends ascending on that column. */
  lemma ToggleTwice(sortField: SortField, sortDirection: Direction, clicked: SortField)
    ensures var once := ToggleSort(sortField, sortDirection, clicked);
            var twice := ToggleSort(once.0, once.1, clicked);
            (sortField == clicked ==> twice == (sortField, sortDirection)) &&
            (sortField != clicked ==> twice == (clicked, Asc))
  {
  }
}
