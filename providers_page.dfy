/** The backoffice providers page: what the route id means, the provider
    lookup, the save step's defaults, and the list updates after a delete or a
    submitted form. */
module ProvidersPage {
  import opened Wrappers
  import opened Text
  import opened RecordList
  import opened ProviderList
  import Form = ProviderForm

  /** `isCreating = id === 'new'` */
  function IsCreating(routeId: Option<string>): (r: bool)
    ensures r <==> routeId == Some("new")
  {
    routeId.Some? && routeId.value == "new"
  }

  /** `isEditing = id !== undefined && id !== 'new'` */
  function IsEditing(routeId: Option<string>): (r: bool)
    ensures r <==> routeId.Some? && routeId.value != "new"
  {
    routeId.Some? && routeId.value != "new"
  }

  /** Creating and editing exclude each other, and without a route id the page
      does neither. */
  lemma CreatingXorEditing(routeId: Option<string>)
    ensures !(IsCreating(routeId) && IsEditing(routeId))
    ensures IsCreating(routeId) || IsEditing(routeId) <==> routeId.Some?
  {
  }

  /** `fetchProvider(id)`: the first provider with that id, or `null`. */
  function FetchProvider(providers: seq<Provider>, id: string): (r: Option<Provider>)
    ensures r.None? <==> forall p :: p in providers ==> p.id != id
    ensures r.Some? ==> r.value.id == id
    ensures r.Some? ==> exists i :: 0 <= i < |providers| && providers[i] == r.value &&
                          forall j :: 0 <= j < i ==> providers[j].id != id
  {
    FindById(providers, ProviderId, id)
  }

  /** The record `{...data, id}` that the page hands to the save step. */
  function FromForm(data: Form.FormValues, id: string): Provider {
    Provider(id, data.name, data.email, data.phone, data.serviceCategory, data.location, data.status,
             data.verified, None, None, None, Some(data.description), Some(data.avatarUrl), Some(data.hourlyRate))
  }

  /** `saveProvider({...data, id})`. Without a (non-empty) id the record gets
      the fresh id, `today` as its joined date and zero rating and completed
      bookings; with one it comes back as it went in. `freshId` stands for the
      random id. */
  function SaveProvider(data: Form.FormValues, id: Option<string>, freshId: string, today: string): (r: Provider)
    ensures id.None? || id.value == "" ==>
              r == FromForm(data, freshId).(joinedDate := Some(today), rating := Some(0.0), bookingsCompleted := Some(0))
    ensures id.Some? && id.value != "" ==> r == FromForm(data, id.value)
    ensures r.name == data.name && r.email == data.email && r.status == data.status
  {
    if id.None? || id.value == "" then
      FromForm(data, freshId).(joinedDate := Some(today), rating := Some(0.0), bookingsCompleted := Some(0))
    else
      FromForm(data, id.value)
  }

  /** The page state the handlers change. `location` is the path navigated
      to last. */
  class Page {
    const routeId: Option<string>
    var providers: seq<Provider>
    var isSubmitting: bool
    var location: string

    constructor (routeId: Option<string>, path: string)
      ensures this.routeId == routeId && providers == [] && !isSubmitting && location == path
    {
      this.routeId := routeId;
      providers := [];
      isSubmitting := false;
      location := path;
    }

    /** `handleDeleteProvider(id)`: once the delete call returns, every
        provider with that id is dropped; a failing call (caught and logged)
        changes nothing. */
    method HandleDeleteProvider(id: string, outcome: Result<bool>)
      modifies this
      ensures outcome.Success? ==> providers == RemoveById(old(providers), ProviderId, id)
      ensures outcome.Failure? ==> providers == old(providers)
      ensures isSubmitting == old(isSubmitting) && location == old(location)
    {
      if outcome.Success? {
        providers := RemoveById(providers, ProviderId, id);
      }
    }

    /** `handleSubmit(data)`. `outcome` is whether the save call returns or
        throws; `nowIso` is the ISO time whose date part becomes the joined
        date. On success a new provider is appended when creating, and the
        providers with the route id are replaced when editing; then the page
        goes back to the list. `isSubmitting` is set during the save and
        cleared in `finally`. */
    method HandleSubmit(data: Form.FormValues, freshId: string, nowIso: string, outcome: Result<()>)
        returns (busyDuringSave: bool, saved: Option<Provider>)
      modifies this
      ensures busyDuringSave && !isSubmitting
      ensures outcome.Failure? ==> saved.None? && providers == old(providers) && location == old(location)
      ensures outcome.Success? ==>
                saved == Some(SaveProvider(data, if IsEditing(routeId) then routeId else None,
                                           freshId, FirstField(nowIso, 'T'))) &&
                location == "/admin/providers"
      ensures outcome.Success? && IsCreating(routeId) ==> providers == Append(old(providers), saved.value)
      ensures outcome.Success? && IsEditing(routeId) ==>
                providers == ReplaceById(old(providers), ProviderId, routeId.value, saved.value)
      ensures !IsCreating(routeId) && !IsEditing(routeId) ==> providers == old(providers)
    {
      isSubmitting := true;
      busyDuringSave := isSubmitting;
      saved := None;
      if outcome.Success? {
        var p := SaveProvider(data, if IsEditing(routeId) then routeId else None, freshId, FirstField(nowIso, 'T'));
        saved := Some(p);
        if IsCreating(routeId) {
          providers := Append(providers, p);
        } else if IsEditing(routeId) {
          providers := ReplaceById(providers, ProviderId, routeId.value, p);
        }
        location := "/admin/providers";
      }
      isSubmitting := false;
    }
  }

  /** After an edit the list shows the saved values under the route id, when
      a provider with that id was listed. */
  lemma EditedIsFound(providers: seq<Provider>, data: Form.FormValues, id: string, freshId: string, today: string)
    requires id != "" && exists p :: p in providers && p.id == id
    ensures var saved := SaveProvider(data, Some(id), freshId, today);
            FetchProvider(ReplaceById(providers, ProviderId, id, saved), id) == Some(saved)
  {
    var saved := SaveProvider(data, Some(id), freshId, today);
    FindReplaced(providers, ProviderId, id, saved);
  }

  /** A created provider whose fresh id nobody else has is found under it. */
  lemma CreatedIsFound(providers: seq<Provider>, data: Form.FormValues, freshId: string, today: string)
    requires forall p :: p in providers ==> p.id != freshId
    ensures var saved := SaveProvider(data, None, freshId, today);
            FetchProvider(Append(providers, saved), freshId) == Some(saved)
  {
    var saved := SaveProvider(data, None, freshId, today);
    FindAppended(providers, ProviderId, saved);
  }

  /** After a delete no provider with that id can be found. */
  lemma DeletedIsGone(providers: seq<Provider>, id: string)
    ensures FetchProvider(RemoveById(providers, ProviderId, id), id).None?
    ensures IsSubsequence(RemoveById(providers, ProviderId, id), providers)
  {
    RemoveKeepsOrder(providers, ProviderId, id);
  }
}
