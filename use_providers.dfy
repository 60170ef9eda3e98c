/** The `useProviders` data hook: the provider list, its total, the loading
    flag, the last error and the filters. API outcomes are parameters; a
    method that rethrows returns the same failure. */
module UseProviders {
  import opened Wrappers
  import opened RecordList
  import Js
  import opened ProviderList

  const LoadError := "Failed to load providers"
  const CreateError := "Failed to create provider"
  const UpdateError := "Failed to update provider"
  const DeleteError := "Failed to delete provider"

  class Hook {
    var providers: seq<Provider>
    var total: int
    var isLoading: bool
    var error: Option<string>
    var filters: map<string, Js.Value>

    constructor (initialFilters: map<string, Js.Value>)
      ensures providers == [] && total == 0 && isLoading && error.None? && filters == initialFilters
    {
      providers := [];
      total := 0;
      isLoading := true;
      error := None;
      filters := initialFilters;
    }

    /** `fetchProviders` (also `refetch`) */
    method FetchProviders(outcome: Result<(seq<Provider>, int)>) returns (busyDuringCall: bool)
      modifies this
      ensures busyDuringCall && !isLoading
      ensures outcome.Success? ==> providers == outcome.value.0 && total == outcome.value.1 && error == old(error)
      ensures outcome.Failure? ==> providers == old(providers) && total == old(total) && error == Some(LoadError)
      ensures filters == old(filters)
    {
      isLoading := true;
      busyDuringCall := isLoading;
      if outcome.Success? {
        providers := outcome.value.0;
        total := outcome.value.1;
      } else {
        error := Some(LoadError);
      }
      isLoading := false;
    }

    /** `updateFilters(newFilters)`: a key-wise override. */
    method UpdateFilters(newFilters: map<string, Js.Value>)
      modifies this
      ensures filters == MergeFilters(old(filters), newFilters)
      ensures providers == old(providers) && total == old(total) && isLoading == old(isLoading) && error == old(error)
    {
      filters := MergeFilters(filters, newFilters);
    }

    /** `createProvider(data)`: the provider the server created is appended. */
    method CreateProvider(outcome: Result<Provider>) returns (r: Result<Provider>)
      modifies this
      ensures r == outcome
      ensures outcome.Success? ==> providers == Append(old(providers), outcome.value) && error == old(error)
      ensures outcome.Failure? ==> providers == old(providers) && error == Some(CreateError)
      ensures total == old(total) && isLoading == old(isLoading) && filters == old(filters)
    {
      r := outcome;
      if outcome.Success? {
        providers := Append(providers, outcome.value);
      } else {
        error := Some(CreateError);
      }
    }

    /** `updateProvider(id, data)`: the server's provider replaces every
        provider with that id. */
    method UpdateProvider(id: string, outcome: Result<Provider>) returns (r: Result<Provider>)
      modifies this
      ensures r == outcome
      ensures outcome.Success? ==> providers == ReplaceById(old(providers), ProviderId, id, outcome.value) &&
                                   error == old(error)
      ensures outcome.Failure? ==> providers == old(providers) && error == Some(UpdateError)
      ensures total == old(total) && isLoading == old(isLoading) && filters == old(filters)
    {
      r := outcome;
      if outcome.Success? {
        providers := ReplaceById(providers, ProviderId, id, outcome.value);
      } else {
        error := Some(UpdateError);
      }
    }

    /** `deleteProvider(id)`: every provider with that id is dropped. */
    method DeleteProvider(id: string, outcome: Result<()>) returns (r: Result<()>)
      modifies this
      ensures r == outcome
      ensures outcome.Success? ==> providers == RemoveById(old(providers), ProviderId, id) && error == old(error)
      ensures outcome.Failure? ==> providers == old(providers) && error == Some(DeleteError)
      ensures total == old(total) && isLoading == old(isLoading) && filters == old(filters)
    {
      r := outcome;
      if outcome.Success? {
        providers := RemoveById(providers, ProviderId, id);
      } else {
        error := Some(DeleteError);
      }
    }
  }
}
