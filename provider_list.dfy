/** The provider table: the category drop-down, the search and selector
    filter, and the confirmed delete. */
module ProviderList {
  import opened Wrappers
  import opened Text
  import opened RecordList

  /** A provider record. The form and the save step can leave the last six
      fields unset, hence the options. */
  datatype Provider = Provider(
    id: string,
    name: string,
    email: string,
    phone: string,
    serviceCategory: string,
    location: string,
    status: string,
    verified: bool,
    rating: Option<real>,
    bookingsCompleted: Option<int>,
    joinedDate: Option<string>,
    description: Option<string>,
    avatarUrl: Option<string>,
    hourlyRate: Option<real>)

  function ProviderId(p: Provider): string { p.id }

  /** `[...new Set(providers.map(p => p.serviceCategory))]` */
  function Categories(providers: seq<Provider>): (r: seq<string>)
    ensures NoDuplicates(r)
    ensures forall c :: c in r <==> exists p :: p in providers && p.serviceCategory == c
  {
    DistinctOf(providers, (p: Provider) => p.serviceCategory)
  }

  /** The predicate of `filteredProviders`; the phone number is not searched. */
  predicate Matches(p: Provider, searchTerm: string, selectedCategory: string, selectedStatus: string) {
    var t := Lower(searchTerm);
    && (Contains(Lower(p.name), t) || Contains(Lower(p.email), t) ||
        Contains(Lower(p.serviceCategory), t) || Contains(Lower(p.location), t))
    && (selectedCategory != "" ==> p.serviceCategory == selectedCategory)
    && (selectedStatus != "" ==> p.status == selectedStatus)
  }

  function FilterProviders(providers: seq<Provider>, searchTerm: string, selectedCategory: string,
                           selectedStatus: string): (r: seq<Provider>)
    ensures forall p :: p in r <==> p in providers && Matches(p, searchTerm, selectedCategory, selectedStatus)
    ensures IsSubsequence(r, providers)
  {
    FilterIsSubsequence(providers, (p: Provider) => Matches(p, searchTerm, selectedCategory, selectedStatus));
    Filter(providers, (p: Provider) => Matches(p, searchTerm, selectedCategory, selectedStatus))
  }

  /** With nothing typed or selected every provider is listed. */
  lemma EmptyFilterKeepsAll(providers: seq<Provider>)
    ensures FilterProviders(providers, "", "", "") == providers
  {
    forall p | p in providers ensures Matches(p, "", "", "") {
      assert Lower("") == "";
    }
    FilterKeepsAll(providers, (p: Provider) => Matches(p, "", "", ""));
  }

  /** A search term found only in the phone number finds nothing: a provider
      whose other searched fields do not contain the term is filtered out,
      whatever its phone number. */
  lemma PhoneNotSearched(providers: seq<Provider>, p: Provider, term: string)
    requires p in providers
    requires Contains(Lower(p.phone), Lower(term))
    requires !Contains(Lower(p.name), Lower(term)) && !Contains(Lower(p.email), Lower(term))
    requires !Contains(Lower(p.serviceCategory), Lower(term)) && !Contains(Lower(p.location), Lower(term))
    ensures p !in FilterProviders(providers, term, "", "")
  {
  }

  /** `handleDeleteClick(id)`: the id handed to `onDelete`, when the user
      confirms the dialog. */
  function HandleDeleteClick(confirmed: bool, id: string): (r: Option<string>)
    ensures r.Some? <==> confirmed
    ensures r.Some? ==> r.value == id
  {
    if confirmed then Some(id) else None
  }
}
