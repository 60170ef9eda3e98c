/** The generic `useApi` hook (data, loading flag, error) and the paginated
    `usePaginatedApi` hook (data, total, page, limit, loading flag, error).
    The API call is a parameter: a function from the request to its outcome,
    where `Failure(m)` is a thrown error whose message is `m`. Page and limit
    numbers are integers. */
module UseApi {
  import opened Wrappers
  import Js

  /** `useApi(apiCall)` */
  class Api {
    var data: Js.Value
    var loading: bool
    var error: Option<string>

    constructor ()
      ensures data == Js.Null && !loading && error.None?
    {
      data := Js.Null;
      loading := false;
      error := None;
    }

    /** `execute(...args)`: while the call runs the flag is set and the error
        cleared; a result becomes `data` and is returned; a failure's message
        becomes `error`, `data` is kept and the failure passed on. */
    method Execute(outcome: Result<Js.Value>) returns (busyDuringCall: bool, clearedDuringCall: bool, r: Result<Js.Value>)
      modifies this
      ensures busyDuringCall && clearedDuringCall && !loading
      ensures r == outcome
      ensures outcome.Success? ==> data == outcome.value && error.None?
      ensures outcome.Failure? ==> data == old(data) && error == Some(outcome.error)
    {
      loading := true;
      error := None;
      busyDuringCall, clearedDuringCall := loading, error.None?;
      r := outcome;
      if outcome.Success? {
        data := outcome.value;
      } else {
        error := Some(outcome.error);
      }
      loading := false;
    }

    /** `reset()` */
    method Reset()
      modifies this
      ensures data == Js.Null && !loading && error.None?
    {
      data := Js.Null;
      loading := false;
      error := None;
    }
  }

  /** `x || fallback` for an optional page or limit number. */
  function OrNumber(x: Option<int>, fallback: int): (r: int)
    ensures x.Some? && x.value != 0 ==> r == x.value
    ensures x.None? || x.value == 0 ==> r == fallback
  {
    if x.Some? && x.value != 0 then x.value else fallback
  }

  /** The key `Object.keys(result).find(k => Array.isArray(result[k]))`
      finds: the first entry holding an array. */
  function FirstArrayKey(entries: seq<(string, Js.Value)>): (r: Option<string>)
    ensures r.None? <==> forall i :: 0 <= i < |entries| ==> !Js.IsArray(entries[i].1)
    ensures r.Some? ==> exists i :: 0 <= i < |entries| && entries[i].0 == r.value && Js.IsArray(entries[i].1) &&
                          forall j :: 0 <= j < i ==> !Js.IsArray(entries[j].1)
    decreases |entries|
  {
    if entries == [] then None
    else if Js.IsArray(entries[0].1) then Some(entries[0].0)
    else
      var r := FirstArrayKey(entries[1..]);
      assert r.Some? ==> exists i :: 1 <= i < |entries| && entries[i].0 == r.value && Js.IsArray(entries[i].1) &&
                          forall j :: 0 <= j < i ==> !Js.IsArray(entries[j].1) by {
        if r.Some? {
          var i :| 0 <= i < |entries| - 1 && entries[1..][i].0 == r.value && Js.IsArray(entries[1..][i].1) &&
                   forall j :: 0 <= j < i ==> !Js.IsArray(entries[1..][j].1);
          assert entries[i + 1] == entries[1..][i];
          forall j | 0 <= j < i + 1 ensures !Js.IsArray(entries[j].1) {
            if j > 0 { assert entries[j] == entries[1..][j - 1]; }
          }
        }
      }
      r
  }

  /** The key the data is read from: the found key when it is truthy,
      otherwise "data" (so an array under the empty key is passed over). */
  function DataKey(entries: seq<(string, Js.Value)>): (r: string)
    ensures FirstArrayKey(entries).Some? && FirstArrayKey(entries).value != "" ==> r == FirstArrayKey(entries).value
    ensures FirstArrayKey(entries).None? || FirstArrayKey(entries).value == "" ==> r == "data"
  {
    var k := FirstArrayKey(entries);
    if k.Some? && k.value != "" then k.value else "data"
  }

  /** What `setData` receives for an object result: `result[key] || []`. */
  function SelectData(entries: seq<(string, Js.Value)>): (r: Js.Value)
    ensures Js.Truthy(r)
  {
    Js.Or(Js.Lookup(entries, DataKey(entries)), Js.Arr([]))
  }

  /** Object keys are unique. */
  predicate UniqueKeys(entries: seq<(string, Js.Value)>) {
    forall i, j :: 0 <= i < j < |entries| ==> entries[i].0 != entries[j].0
  }

  lemma {:induction false} LookupUnique(entries: seq<(string, Js.Value)>, i: nat)
    requires UniqueKeys(entries) && i < |entries|
    ensures Js.Lookup(entries, entries[i].0) == entries[i].1
    decreases i
  {
    if i > 0 {
      assert UniqueKeys(entries[1..]);
      assert entries[1..][i - 1] == entries[i];
      LookupUnique(entries[1..], i - 1);
    }
  }

  /** For an object whose first array-valued entry has a non-empty key, the
      data is that array; when no entry holds an array, the data is the
      truthy `data` entry or else the empty array. */
  lemma SelectsFirstArray(entries: seq<(string, Js.Value)>)
    requires UniqueKeys(entries)
    ensures FirstArrayKey(entries).Some? && FirstArrayKey(entries).value != "" ==>
              exists i :: 0 <= i < |entries| && Js.IsArray(entries[i].1) && SelectData(entries) == entries[i].1 &&
                forall j :: 0 <= j < i ==> !Js.IsArray(entries[j].1)
    ensures FirstArrayKey(entries).None? ==>
              SelectData(entries) == Js.Or(Js.Lookup(entries, "data"), Js.Arr([]))
  {
    var k := FirstArrayKey(entries);
    if k.Some? && k.value != "" {
      var i :| 0 <= i < |entries| && entries[i].0 == k.value && Js.IsArray(entries[i].1) &&
               forall j :: 0 <= j < i ==> !Js.IsArray(entries[j].1);
      LookupUnique(entries, i);
    }
  }

  /** The engine's message for `Object.keys(null)` and `Object.keys(undefined)`. */
  const KeysOfNothing := "Cannot convert undefined or null to object"

  /** The data and total a result sets, or the error reading it raises. An
      array, string, number or boolean result has no `total` and no `data`
      entry; for an array the first array-valued element is found. */
  function ReadResult(result: Js.Value): (r: Result<(Js.Value, Js.Value)>)
    ensures r.Failure? <==> result.Null? || result.Undefined?
    ensures result.Obj? ==> r == Success((SelectData(result.entries), Js.Lookup(result.entries, "total")))
  {
    match result
    case Null => Failure(KeysOfNothing)
    case Undefined => Failure(KeysOfNothing)
    case Obj(entries) => Success((SelectData(entries), Js.Lookup(entries, "total")))
    case Arr(items) => Success((FirstArrayItem(items), Js.Undefined))
    case _ => Success((Js.Arr([]), Js.Undefined))
  }

  /** `result[k] || []` for the first index `k` holding an array. */
  function FirstArrayItem(items: seq<Js.Value>): (r: Js.Value)
    ensures Js.IsArray(r)
    ensures (forall i :: 0 <= i < |items| ==> !Js.IsArray(items[i])) ==> r == Js.Arr([])
    ensures (exists i :: 0 <= i < |items| && Js.IsArray(items[i])) ==>
              exists i :: 0 <= i < |items| && r == items[i] && Js.IsArray(items[i]) &&
                forall j :: 0 <= j < i ==> !Js.IsArray(items[j])
    decreases |items|
  {
    if items == [] then Js.Arr([])
    else if Js.IsArray(items[0]) then items[0]
    else
      var r := FirstArrayItem(items[1..]);
      assert (exists i :: 0 <= i < |items| && Js.IsArray(items[i])) ==>
               exists i :: 1 <= i < |items| && r == items[i] && Js.IsArray(items[i]) &&
                 forall j :: 0 <= j < i ==> !Js.IsArray(items[j]) by {
        if exists i :: 0 <= i < |items| && Js.IsArray(items[i]) {
          var k :| 0 <= k < |items| && Js.IsArray(items[k]);
          assert k > 0 && items[1..][k - 1] == items[k];
          var i :| 0 <= i < |items| - 1 && r == items[1..][i] && Js.IsArray(items[1..][i]) &&
                   forall j :: 0 <= j < i ==> !Js.IsArray(items[1..][j]);
          assert items[i + 1] == items[1..][i];
          forall j | 0 <= j < i + 1 ensures !Js.IsArray(items[j]) {
            if j > 0 { assert items[j] == items[1..][j - 1]; }
          }
        }
      }
      assert (forall i :: 0 <= i < |items| ==> !Js.IsArray(items[i])) ==> r == Js.Arr([]) by {
        if forall i :: 0 <= i < |items| ==> !Js.IsArray(items[i]) {
          forall i | 0 <= i < |items| - 1 ensures !Js.IsArray(items[1..][i]) {
            assert items[1..][i] == items[i + 1];
          }
        }
      }
      r
  }

  /** `usePaginatedApi(apiCall, initialPage, initialLimit)` */
  class Paginated {
    var data: Js.Value
    var total: Js.Value
    var page: int
    var limit: int
    var loading: bool
    var error: Option<string>

    /** The defaults are page 1 and limit 10. */
    constructor (initialPage: Option<int>, initialLimit: Option<int>)
      ensures data == Js.Arr([]) && total == Js.Num(0) && !loading && error.None?
      ensures page == (if initialPage.Some? then initialPage.value else 1)
      ensures limit == (if initialLimit.Some? then initialLimit.value else 10)
    {
      data := Js.Arr([]);
      total := Js.Num(0);
      page := if initialPage.Some? then initialPage.value else 1;
      limit := if initialLimit.Some? then initialLimit.value else 10;
      loading := false;
      error := None;
    }

    /** `fetchData` as created when the state held `closurePage` and
        `closureLimit`. Returns the `(page, limit)` requested and the call's
        outcome, passed on. */
    method FetchWith(currentPage: Option<int>, currentLimit: Option<int>, closurePage: int, closureLimit: int,
                     apiCall: (int, int) -> Result<Js.Value>)
        returns (requested: (int, int), busyDuringCall: bool, r: Result<Js.Value>)
      modifies this
      ensures requested == (OrNumber(currentPage, closurePage), OrNumber(currentLimit, closureLimit))
      ensures busyDuringCall && !loading
      ensures page == old(page) && limit == old(limit)
      ensures apiCall(requested.0, requested.1).Failure? ==>
                r == apiCall(requested.0, requested.1) && error == Some(r.error) &&
                data == old(data) && total == old(total)
      ensures apiCall(requested.0, requested.1).Success? ==>
                var read := ReadResult(apiCall(requested.0, requested.1).value);
                if read.Success? then
                  r == apiCall(requested.0, requested.1) && error.None? &&
                  data == read.value.0 && total == read.value.1
                else
                  r == Failure(read.error) && error == Some(read.error) && data == old(data) && total == old(total)
    {
      loading := true;
      error := None;
      busyDuringCall := loading;
      requested := (OrNumber(currentPage, closurePage), OrNumber(currentLimit, closureLimit));
      var outcome := apiCall(requested.0, requested.1);
      if outcome.Failure? {
        error := Some(outcome.error);
        r := outcome;
      } else {
        var read := ReadResult(outcome.value);
        if read.Failure? {
          error := Some(read.error);
          r := Failure(read.error);
        } else {
          data := read.value.0;
          total := read.value.1;
          r := outcome;
        }
      }
      loading := false;
    }

    /** `fetchData(currentPage, currentLimit)` from the current state. */
    method FetchData(currentPage: Option<int>, currentLimit: Option<int>, apiCall: (int, int) -> Result<Js.Value>)
        returns (requested: (int, int), r: Result<Js.Value>)
      modifies this
      ensures requested == (OrNumber(currentPage, old(page)), OrNumber(currentLimit, old(limit)))
      ensures page == old(page) && limit == old(limit) && !loading
      ensures apiCall(requested.0, requested.1).Failure? ==>
                r == apiCall(requested.0, requested.1) && error == Some(apiCall(requested.0, requested.1).error) &&
                data == old(data) && total == old(total)
      ensures apiCall(requested.0, requested.1).Success? ==>
                var read := ReadResult(apiCall(requested.0, requested.1).value);
                if read.Success? then
                  r == apiCall(requested.0, requested.1) && error.None? &&
                  data == read.value.0 && total == read.value.1
                else
                  r == Failure(read.error) && error == Some(read.error) && data == old(data) && total == old(total)
    {
      var busy;
      requested, busy, r := FetchWith(currentPage, currentLimit, page, limit, apiCall);
    }

    /** `changePage(newPage)`: the page is set and fetched. The `fetchData`
        it calls still sees the old page, so a page number of 0 is stored
        while the old page is requested. */
    method ChangePage(newPage: int, apiCall: (int, int) -> Result<Js.Value>) returns (requested: (int, int))
      modifies this
      ensures page == newPage && limit == old(limit) && !loading
      ensures requested == (if newPage != 0 then newPage else old(page), old(limit))
      ensures apiCall(requested.0, requested.1).Failure? ==>
                error == Some(apiCall(requested.0, requested.1).error) &&
                data == old(data) && total == old(total)
      ensures apiCall(requested.0, requested.1).Success? ==>
                var read := ReadResult(apiCall(requested.0, requested.1).value);
                if read.Success? then
                  error.None? &&
                  data == read.value.0 && total == read.value.1
                else
                  error == Some(read.error) && data == old(data) && total == old(total)
    {
      var closurePage, closureLimit := page, limit;
      page := newPage;
      var busy, outcome;
      requested, busy, outcome := FetchWith(Some(newPage), None, closurePage, closureLimit, apiCall);
    }

    /** `changeLimit(newLimit)`: the limit is set and the current page fetched
        with it; a limit of 0 is stored while the old limit is requested. */
    method ChangeLimit(newLimit: int, apiCall: (int, int) -> Result<Js.Value>) returns (requested: (int, int))
      modifies this
      ensures limit == newLimit && page == old(page) && !loading
      ensures requested == (old(page), if newLimit != 0 then newLimit else old(limit))
      ensures apiCall(requested.0, requested.1).Failure? ==>
                error == Some(apiCall(requested.0, requested.1).error) &&
                data == old(data) && total == old(total)
      ensures apiCall(requested.0, requested.1).Success? ==>
                var read := ReadResult(apiCall(requested.0, requested.1).value);
                if read.Success? then
                  error.None? &&
                  data == read.value.0 && total == read.value.1
                else
                  error == Some(read.error) && data == old(data) && total == old(total)
    {
      var closurePage, closureLimit := page, limit;
      limit := newLimit;
      var busy, outcome;
      requested, busy, outcome := FetchWith(Some(closurePage), Some(newLimit), closurePage, closureLimit, apiCall);
    }
  }
}
