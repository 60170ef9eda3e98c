# Tool2U marketplace: a Dafny model of the backoffice and booking core

This project models the core of the Tool2U marketplace. It is a React web
application with an admin backoffice, plus two Python scripts that prepare
the repository's files for embedding. The model covers:

- **The backoffice API client** (`api_client.dfy`). It builds the `fetch`
  request for an endpoint: base URL, JSON and bearer-token headers,
  credentials, and a body only for payload verbs. It classifies the
  response: 401, a non-ok status with its error message, 204, or JSON. On a
  401 it forgets the stored token and redirects to the login page.
- **The authentication context** (`auth_context.dfy`): the stored token,
  the signed-in user and the loading flag, with the token check on mount,
  login and logout.
- **The generic API hooks** (`use_api.dfy`). One runs a call and keeps its
  data and error. The other is `usePaginatedApi`: page and limit
  fallbacks, choosing the data array out of a result object, and page and
  limit changes.
- **The resource hooks** (`use_bookings.dfy`, `use_providers.dfy`,
  `use_users.dfy`, `use_settings.dfy`). Each hook is a class whose fields
  are the hook's state. Each operation states the whole new state for a
  successful and for a failed call, including the follow-up summary or
  statistics refresh.
- **The backoffice pages and components** (`bookings_page.dfy`,
  `booking_list.dfy`, `booking_details.dfy`, `providers_page.dfy`,
  `provider_list.dfy`, `provider_form.dfy`, `users_page.dfy`,
  `settings_page.dfy`, `sidebar.dfy`, `export_tools.dfy`):
  - the filters behind the search boxes and selectors;
  - the status changes and which buttons are offered;
  - the form schema and defaults;
  - the highlighted sidebar entries;
  - the export panel and the sales page's alert.
- **The public site's booking store and bookings route**
  (`booking_store.dfy`, `public_bookings.dfy`). The store keeps the
  `localStorage` list of bookings. The route merges stored bookings into
  the list, filters and sorts it, and toggles the sort column.
- **The embedding scripts' file selection and chunking** (`embed_chunks.dfy`,
  `embed.py` in `embed.dfy`).

Shared modules:
- `wrappers.dfy`: `Option` and `Result`.
- `text.dfy`: ASCII case mapping, substring and prefix, `split(sep)[0]`, and
  `" ".join`.
- `js.dfy`: a JSON-like `Value` with JavaScript truthiness and property
  lookup.
- `record_list.dfy`: filtering, subsequences, by-id replacement and
  removal, distinct values, and the `{...prev, ...next}` merge of filter
  objects.

## Conventions

- Server answers, `fetch` outcomes, `window.confirm` answers, fresh ids and
  clock readings are parameters.
  - A `Failure` stands for a thrown error or a rejected promise.
  - A `Success` holds the resolved value.
- Functions the model cannot see are parameters:
  - `fnmatch`;
  - the tokenizer's `count_tokens`;
  - JavaScript's `String(v)` on non-strings;
  - date parsing;
  - the e-mail check of the form schema.
- A handler that sets a flag before an awaited call and clears it in
  `finally` reports the flag's value during the call in an out-parameter
  (`busyDuringCall`, `busyDuringSave`). Its `ensures` states the value
  after the call.
- Each asynchronous handler runs to completion as one method call. A
  follow-up fetch (the summary or statistics refresh) takes its own
  outcome parameter.

## Model

| member | source | states |
|---|---|---|
| ApiClient.BaseUrl | src/backoffice/api/apiClient.ts:7 | A non-empty `REACT_APP_API_BASE_URL` is the base URL; otherwise it is `/api`. |
| ApiClient.BuildRequest | src/backoffice/api/apiClient.ts:25-44 | The URL is base plus endpoint, with credentials `include`. The first header is `Content-Type: application/json`. `Authorization: Bearer <token>` is sent iff a non-empty token is stored, and is then the only other header. A body is present iff the data is truthy and the verb is POST, PUT or PATCH, and it is that data. |
| ApiClient.NoBodyWithoutPayloadVerb | src/backoffice/api/apiClient.ts:42-44 | GET and DELETE never carry a body, and no verb carries one without data. |
| ApiClient.ErrorMessage | src/backoffice/api/apiClient.ts:56-68 | A non-empty string `message` in the error body is the message. An unparsable, `null` or missing body gives the status text, or the default message when that is empty. A falsy `message` gives the default message. A truthy `message` that is not a string gives its string conversion. |
| ApiClient.Classify | src/backoffice/api/apiClient.ts:50-75 | 401 fails with the "log in again" message. Any other non-ok status fails with `ErrorMessage`. An ok 204 succeeds with `{}`; any other ok status yields the parsed JSON. Success implies an ok, non-401 response. |
| ApiClient.StatusOverridesBody | src/backoffice/api/apiClient.ts:50-54 | For 401 and for an ok 204 the body is irrelevant: two responses with the same status and flag classify alike. |
| ApiClient.Client.constructor | src/backoffice/api/apiClient.ts:26 | The client starts from the stored token and the current location. |
| ApiClient.Client.ApiRequest | src/backoffice/api/apiClient.ts:24-80 | It sends exactly `BuildRequest` with the token held before the call. A network failure is passed on. Otherwise the result is `Classify` of the response. A 401 removes the token and sets the location to `/admin/login`; every other outcome leaves both unchanged. |
| ApiClient.Verb | src/backoffice/api/apiClient.ts:84-91 | `post`, `put` and `patch` forward their data; `get` and `delete` send none. |
| ApiClient.VerbBody | src/backoffice/api/apiClient.ts:84-91 | Through the verb helpers a request has a body exactly when the verb is `post`, `put` or `patch` and the data is truthy, and the body is that data. |
| AuthContext.StoredText | src/backoffice/contexts/AuthContext.tsx:88 | A string value is stored as its own text. |
| AuthContext.LoginResult | src/backoffice/contexts/AuthContext.tsx:70-100 | A network failure is passed on. A non-ok answer fails with "Login failed". Success requires an ok answer with a parsed body, and stores that body's `token` (as text) and `user`. |
| AuthContext.LoginStoresAnswer | src/backoffice/contexts/AuthContext.tsx:86-90 | An ok answer `{token, user}` with a string token stores exactly that token and signs that user in. |
| AuthContext.Session.constructor | src/backoffice/contexts/AuthContext.tsx:22-24 | The session starts loading, with no user and the stored token. |
| AuthContext.Session.CheckAuth | src/backoffice/contexts/AuthContext.tsx:36-68 | Without a non-empty token no request is made, nobody is signed in and it answers false. Otherwise it sends `Bearer <token>`. An ok parsed answer signs that user in and answers true. Every other outcome removes the token, clears the user and answers false. |
| AuthContext.Session.InitAuth | src/backoffice/contexts/AuthContext.tsx:27-34 | After the mount check the flag is cleared. A true answer implies the kept non-empty token and the received user; false leaves nobody authenticated. |
| AuthContext.Session.Login | src/backoffice/contexts/AuthContext.tsx:70-100 | It posts `{email, password}` with the flag set during the call and cleared after it. A successful `LoginResult` stores its token and user; a failure is passed on and leaves both as they were. |
| AuthContext.Session.Logout | src/backoffice/contexts/AuthContext.tsx:102-105 | The token and the user are cleared, so nobody is authenticated. |
| UseApi.Api.constructor | src/backoffice/hooks/useApi.ts:7-9 | No data, not loading, no error. |
| UseApi.Api.Execute | src/backoffice/hooks/useApi.ts:11-26 | During the call it is loading with the error cleared. It returns the call's outcome. Success stores the data with no error; failure keeps the data and stores the message. It is not loading afterwards. |
| UseApi.Api.Reset | src/backoffice/hooks/useApi.ts:28-32 | Back to no data, not loading, no error. |
| UseApi.OrNumber | src/backoffice/hooks/useApi.ts:66-67 | `x \|\| fallback`: a given non-zero number wins; a missing or zero one falls back. |
| UseApi.FirstArrayKey | src/backoffice/hooks/useApi.ts:71 | None iff no property holds an array; otherwise the key of the first property that does. |
| UseApi.DataKey | src/backoffice/hooks/useApi.ts:71 | The found array key unless it is missing or the empty (falsy) key, in which case `data`. |
| UseApi.SelectData | src/backoffice/hooks/useApi.ts:71 | The stored data is always truthy, because of the `\|\| []` fallback. |
| UseApi.LookupUnique | src/backoffice/hooks/useApi.ts:71 | With distinct keys, reading a property yields its own value. |
| UseApi.SelectsFirstArray | src/backoffice/hooks/useApi.ts:71 | With distinct keys, the data is the first array property. When no property holds an array, the data is `data \|\| []`. |
| UseApi.ReadResult | src/backoffice/hooks/useApi.ts:70-72 | Reading the result throws iff it is `null` or `undefined`. For an object it yields the selected data and its `total`. |
| UseApi.FirstArrayItem | src/backoffice/hooks/useApi.ts:71 | The data read from an array result is its first array-valued item, or `[]` when no item is an array. |
| UseApi.Paginated.constructor | src/backoffice/hooks/useApi.ts:51-59 | Page 1 and limit 10 unless given. Empty data, total 0, not loading, no error. |
| UseApi.Paginated.FetchWith | src/backoffice/hooks/useApi.ts:61-81 | It requests `(currentPage \|\| page, currentLimit \|\| limit)`. It is loading during the call and not after. A failure stores the message. A success stores `ReadResult`'s data and total, or the read error. Page and limit are unchanged. |
| UseApi.Paginated.FetchData | src/backoffice/hooks/useApi.ts:61-81 | It requests with the hook's own page and limit as fallbacks and leaves them unchanged. A failing call stores its message and keeps data and total. A success stores `ReadResult`'s data and total, or stores the read error. The outcome is passed on. |
| UseApi.Paginated.ChangePage | src/backoffice/hooks/useApi.ts:83-86 | The page becomes the new page. The fetch asks for it, or for the old page when the new page is 0, with the old limit. The fetch's outcome sets data, total and error as in `FetchData`. |
| UseApi.Paginated.ChangeLimit | src/backoffice/hooks/useApi.ts:88-91 | The limit becomes the new limit. The fetch asks for the old page with it, or with the old limit when the new one is 0. The fetch's outcome sets data, total and error as in `FetchData`. |
| UseBookings.Hook.constructor | src/backoffice/hooks/useBookings.tsx:5-11 | Empty list, total 0, no summary, both loading flags set, no error, the given filters. |
| UseBookings.Hook.FetchBookings | src/backoffice/hooks/useBookings.tsx:13-25 | Success replaces the list and the total. Failure keeps them and sets the load error. The flag is set during the call and cleared after; the rest is unchanged. |
| UseBookings.Hook.FetchSummary | src/backoffice/hooks/useBookings.tsx:27-41 | Success stores the summary. Failure keeps it and sets the summary error. The rest is unchanged. |
| UseBookings.Hook.UpdateFilters | src/backoffice/hooks/useBookings.tsx:48-50 | The new filters are merged over the old ones; nothing else changes. |
| UseBookings.Hook.UpdateBookingStatus | src/backoffice/hooks/useBookings.tsx:52-68 | Success replaces the booking with that id by the server's booking and refreshes the summary. Failure sets the status error, keeps the list and passes the failure on. |
| UseBookings.Hook.CreateBooking | src/backoffice/hooks/useBookings.tsx:70-81 | Success appends the created booking and refreshes the summary. Failure sets the create error and keeps the list. |
| UseBookings.Hook.UpdateBooking | src/backoffice/hooks/useBookings.tsx:83-97 | Success replaces the booking with that id. Failure sets the update error. The total, summary and filters are unchanged. |
| UseBookings.Hook.Refetch | src/backoffice/hooks/useBookings.tsx:130-133 | The list and then the summary are fetched, in call order. The later fetch's error is the one kept; both flags are cleared. |
| UseProviders.Hook.constructor | src/backoffice/hooks/useProviders.tsx:5-9 | Empty list, total 0, loading, no error, the given filters. |
| UseProviders.Hook.FetchProviders | src/backoffice/hooks/useProviders.tsx:11-24 | Success replaces the list and the total. Failure keeps them and sets the load error. |
| UseProviders.Hook.UpdateFilters | src/backoffice/hooks/useProviders.tsx:30-32 | The new filters are merged over the old ones; nothing else changes. |
| UseProviders.Hook.CreateProvider | src/backoffice/hooks/useProviders.tsx:34-44 | Success appends the created provider. Failure sets the create error and passes it on. |
| UseProviders.Hook.UpdateProvider | src/backoffice/hooks/useProviders.tsx:46-60 | Success replaces the provider with that id. Failure sets the update error. |
| UseProviders.Hook.DeleteProvider | src/backoffice/hooks/useProviders.tsx:62-71 | Success removes every provider with that id. Failure sets the delete error and keeps the list. |
| UseUsers.Hook.constructor | src/backoffice/hooks/useUsers.tsx:11-17 | Empty list, total 0, no statistics, both flags set, no error, the given filters. |
| UseUsers.Hook.FetchUsers | src/backoffice/hooks/useUsers.tsx:19-31 | Success replaces the list and the total. Failure keeps them and sets the load error. |
| UseUsers.Hook.FetchUserStats | src/backoffice/hooks/useUsers.tsx:33-44 | Success stores the statistics. Failure keeps them and sets the statistics error. |
| UseUsers.Hook.UpdateFilters | src/backoffice/hooks/useUsers.tsx:51-53 | The new filters are merged over the old ones; nothing else changes. |
| UseUsers.Hook.GetUserBookings | src/backoffice/hooks/useUsers.tsx:55-67 | It returns the outcome. Failure sets the user-bookings error; no other state changes. |
| UseUsers.Hook.UpdateUserStatus | src/backoffice/hooks/useUsers.tsx:69-85 | Success replaces the user with that id and refreshes the statistics. Failure sets the status error and keeps the list. |
| UseUsers.Hook.CreateUser | src/backoffice/hooks/useUsers.tsx:87-98 | Success appends the created user and refreshes the statistics. Failure sets the create error. |
| UseUsers.Hook.UpdateUser | src/backoffice/hooks/useUsers.tsx:100-114 | Success replaces the user with that id. Failure sets the update error. |
| UseUsers.Hook.Refetch | src/backoffice/hooks/useUsers.tsx:148-151 | The list and then the statistics are fetched, in call order. The later fetch's error is the one kept; both flags are cleared. |
| UseSettings.MergeSettings | src/backoffice/hooks/useSettings.tsx:58 | `{...prev, ...updated}`: updated keys take the new values, the other old keys are kept, and no other key appears. |
| UseSettings.CompleteAnswerReplaces | src/backoffice/hooks/useSettings.tsx:58 | An answer that carries every previous key replaces the settings outright. |
| UseSettings.Hook.constructor | src/backoffice/hooks/useSettings.tsx:10-13 | No settings, no admins, loading, no error. |
| UseSettings.Hook.FetchPlatformSettings | src/backoffice/hooks/useSettings.tsx:15-23 | Success stores the settings. Failure keeps them and sets the settings error. |
| UseSettings.Hook.FetchAdminUsers | src/backoffice/hooks/useSettings.tsx:25-33 | Success stores the admin list. Failure keeps it and sets the admins error. |
| UseSettings.Hook.LoadInitialData | src/backoffice/hooks/useSettings.tsx:35-48 | Both fetches run with the flag set, and the flag is cleared after. Each result is stored on success. The fetches run in call order, so the admins error is the one kept. |
| UseSettings.Hook.UpdatePlatformSettings | src/backoffice/hooks/useSettings.tsx:54-64 | Success merges the answer over the previous settings. Failure sets the update error. |
| UseSettings.Hook.CreateAdminUser | src/backoffice/hooks/useSettings.tsx:66-76 | Success appends the new admin. Failure sets the create error. |
| UseSettings.Hook.UpdateAdminUser | src/backoffice/hooks/useSettings.tsx:78-92 | Success replaces the admin with that id. Failure sets the update error. |
| UseSettings.Hook.DeleteAdminUser | src/backoffice/hooks/useSettings.tsx:94-103 | Success removes the admin with that id. Failure sets the delete error. |
| UseSettings.Hook.ResetAdminUserPassword | src/backoffice/hooks/useSettings.tsx:105-114 | It returns the outcome. Failure sets the reset error; the lists are unchanged. |
| RecordList.MergeFilters | src/backoffice/hooks/useBookings.tsx:49 | `{...prev, ...next}`: the keys of both, with the values of `next` winning. |
| RecordList.MergeIdentityAndIdempotence | src/backoffice/hooks/useBookings.tsx:49 | Merging nothing changes nothing, and merging the same filters twice equals merging them once. |
| BookingsPage.IsViewingDetails | src/backoffice/pages/Bookings.tsx:153 | Details are shown iff the route carries a non-empty id. |
| BookingsPage.FetchBooking | src/backoffice/pages/Bookings.tsx:132-138 | None iff no booking has the id; otherwise the first booking with it. |
| BookingsPage.SetStatusById | src/backoffice/pages/Bookings.tsx:190-192 | Same length. Bookings with the id get the new status; the others are untouched. |
| BookingsPage.FetchAfterSetStatus | src/backoffice/pages/Bookings.tsx:184-203 | After the update, looking the id up finds the old booking with the new status, and other ids find what they found before. |
| BookingsPage.Page.constructor | src/backoffice/pages/Bookings.tsx:155-156 | No bookings and no current booking. |
| BookingsPage.Page.HandleUpdateStatus | src/backoffice/pages/Bookings.tsx:184-203 | Only a `true` answer updates the list, and the current booking when it has that id. A `false` answer or a failure changes nothing. |
| BookingList.ServiceTypes | src/backoffice/components/bookings/BookingList.tsx:58 | Without duplicates, exactly the service types that occur. |
| BookingList.FilterBookings | src/backoffice/components/bookings/BookingList.tsx:61-82 | A booking is kept iff it matches the search, status, service and inclusive date range. The kept bookings keep their order. |
| BookingList.WeakerKeepsMore | src/backoffice/components/bookings/BookingList.tsx:61-82 | Loosening the criteria never drops a booking. |
| BookingList.NoCriteriaKeepsAll | src/backoffice/components/bookings/BookingList.tsx:61-82 | Empty criteria keep the whole list. |
| BookingList.DateRangeInclusive | src/backoffice/components/bookings/BookingList.tsx:77-79 | With both dates set, a booking is kept iff its date lies in the closed range. |
| BookingList.SelectorsExact | src/backoffice/components/bookings/BookingList.tsx:71-74 | A set status or service selector keeps only exact matches. |
| BookingDetails.OfferedTargets | src/backoffice/components/bookings/BookingDetails.tsx:194-244 | Exactly the offered targets; never the current status; `pending` only from `cancelled`. |
| BookingDetails.Buttons | src/backoffice/components/bookings/BookingDetails.tsx:194-244 | One button per offered target, with its label, all disabled while an update runs. |
| BookingDetails.OfferedCounts | src/backoffice/components/bookings/BookingDetails.tsx:194-244 | Three actions from `pending` or `cancelled`, two otherwise. |
| BookingDetails.DurationUnit | src/backoffice/components/bookings/BookingDetails.tsx:108 | "hour" iff the duration is exactly 1, else "hours". |
| BookingDetails.DetailsView.constructor | src/backoffice/components/bookings/BookingDetails.tsx:20 | Not updating, showing the given booking. |
| BookingDetails.DetailsView.HandleStatusUpdate | src/backoffice/components/bookings/BookingDetails.tsx:39-46 | It calls back with the booking's id and the target. The flag is set during the call and cleared after. The outcome is returned. |
| ProvidersPage.IsCreating | src/backoffice/pages/Providers.tsx:178 | Creating iff the route id is `new`. |
| ProvidersPage.IsEditing | src/backoffice/pages/Providers.tsx:177 | Editing iff a route id is present and is not `new`. |
| ProvidersPage.CreatingXorEditing | src/backoffice/pages/Providers.tsx:177-178 | Never both; one of them iff a route id is present. |
| ProvidersPage.FetchProvider | src/backoffice/pages/Providers.tsx:135-141 | None iff no provider has the id; otherwise the first one with it. |
| ProvidersPage.SaveProvider | src/backoffice/pages/Providers.tsx:143-162 | Without an id it creates a provider with the fresh id, today's date and zero counters. With an id it keeps the form values under that id. Name, e-mail and status always come from the form. |
| ProvidersPage.EditedIsFound | src/backoffice/pages/Providers.tsx:220-245 | After an edit, looking the id up finds the saved provider. |
| ProvidersPage.CreatedIsFound | src/backoffice/pages/Providers.tsx:220-245 | After a create with an unused fresh id, looking that id up finds the new provider. |
| ProvidersPage.DeletedIsGone | src/backoffice/pages/Providers.tsx:210-218 | After a delete the id is not found, and the rest stays in order. |
| ProvidersPage.Page.constructor | src/backoffice/pages/Providers.tsx:176-183 | Starts on the route with no providers and not submitting. |
| ProvidersPage.Page.HandleDeleteProvider | src/backoffice/pages/Providers.tsx:210-218 | A success removes the provider; a failure changes nothing. |
| ProvidersPage.Page.HandleSubmit | src/backoffice/pages/Providers.tsx:220-245 | Busy during the save, and the list is updated only on success: appended when creating, replaced by id when editing. Success navigates to the list; failure stays. |
| ProviderList.Categories | src/backoffice/components/providers/ProviderList.tsx:48 | Without duplicates, exactly the categories that occur. |
| ProviderList.FilterProviders | src/backoffice/components/providers/ProviderList.tsx:51-62 | A provider is kept iff it matches the search, category and status. Order is kept. |
| ProviderList.EmptyFilterKeepsAll | src/backoffice/components/providers/ProviderList.tsx:51-62 | Empty criteria keep the whole list. |
| ProviderList.PhoneNotSearched | src/backoffice/components/providers/ProviderList.tsx:53-57 | A term found only in the phone number does not keep the provider. |
| ProviderList.HandleDeleteClick | src/backoffice/components/providers/ProviderList.tsx:70-74 | The delete fires iff the user confirms, and then with that id. |
| ProviderForm.FieldErrors | src/backoffice/components/providers/ProviderForm.tsx:9-20 | Exactly the fields that fail their rule, in schema order. |
| ProviderForm.ValidIffNoErrors | src/backoffice/components/providers/ProviderForm.tsx:9-20 | A form is valid iff it has no field error. |
| ProviderForm.OneBadFieldRejects | src/backoffice/components/providers/ProviderForm.tsx:9-20 | A negative rate, a one-letter name or a nine-digit phone makes the form invalid and reports that field. |
| ProviderForm.OrString | src/backoffice/components/providers/ProviderForm.tsx:47-56 | `x \|\| fallback` on strings. |
| ProviderForm.Defaults | src/backoffice/components/providers/ProviderForm.tsx:47-56 | Blank values with status `pending` without initial data; otherwise the given values with those fallbacks. |
| ProviderForm.DefaultsRoundTrip | src/backoffice/components/providers/ProviderForm.tsx:47-56 | Form values fed back as initial data give the same values, except that an empty status becomes `pending`. |
| ProviderForm.BlankFormInvalid | src/backoffice/components/providers/ProviderForm.tsx:9-20 | The blank create form fails validation on its name. |
| ProviderForm.SubmitLabel | src/backoffice/components/providers/ProviderForm.tsx:267 | "Update Provider" iff the initial data has a non-empty name; "Add Provider" otherwise. |
| UsersPage.FilterUsers | src/backoffice/pages/Users.tsx:152-165 | A user is kept iff they match the search and the status. Order is kept. |
| UsersPage.EmptyFilterKeepsAll | src/backoffice/pages/Users.tsx:152-165 | An empty search and status keep everyone. |
| UsersPage.RowActions | src/backoffice/pages/Users.tsx:488-507 | One action: Block unless already blocked, Unblock iff blocked; never the current status. |
| UsersPage.DetailActions | src/backoffice/pages/Users.tsx:282-311 | Block unless blocked, Unblock iff blocked, Activate iff inactive; never the current status. |
| UsersPage.DetailExtendsRow | src/backoffice/pages/Users.tsx:282-311 | The detail view offers every row target, plus activation for inactive users. |
| UsersPage.SetStatusById | src/backoffice/pages/Users.tsx:174-176 | Same length. Users with the id get the new status; the others are untouched. |
| UsersPage.Page.constructor | src/backoffice/pages/Users.tsx:127-133 | Empty lists and filters, nobody selected. |
| UsersPage.Page.ApplyFilters | src/backoffice/pages/Users.tsx:152-166 | The shown list becomes the filter of the users; nothing else changes. |
| UsersPage.Page.SetSearchTerm | src/backoffice/pages/Users.tsx:152-166 | The search changes and the shown list follows it. |
| UsersPage.Page.SetStatusFilter | src/backoffice/pages/Users.tsx:152-166 | The status filter changes and the shown list follows it. |
| UsersPage.Page.HandleUpdateStatus | src/backoffice/pages/Users.tsx:168-187 | Only a `true` answer updates the list, and the selected user when it is that user; the shown list follows. |
| UsersPage.Page.HandleViewUser | src/backoffice/pages/Users.tsx:189-192 | That user is selected and the details are open. |
| UsersPage.Page.HandleCloseDetails | src/backoffice/pages/Users.tsx:194-197 | Nobody is selected and the details are closed. |
| SettingsPage.ApplyEdit | src/backoffice/pages/Settings.tsx:440-578 | An input's change sets its own setting and leaves every other setting as it was. |
| SettingsPage.SameFieldsSameSettings | src/backoffice/pages/Settings.tsx:440-578 | Settings that agree on every field are equal. |
| SettingsPage.EditLaws | src/backoffice/pages/Settings.tsx:440-578 | Re-entering the current value changes nothing; of two edits to the same field the last wins. |
| SettingsPage.Page.constructor | src/backoffice/pages/Settings.tsx:92-104 | No admins and no settings, not saving, the blank new-admin form hidden. |
| SettingsPage.Page.HandleAddAdminUser | src/backoffice/pages/Settings.tsx:128-148 | Mismatched passwords give the alert and change nothing. Matching passwords add nothing to the list, reset the form and hide it. |
| SettingsPage.Page.HandleSaveSettings | src/backoffice/pages/Settings.tsx:150-168 | Nothing happens without settings. Otherwise it is busy while saving, followed by the success or failure alert. |
| SettingsPage.Page.HandleSettingsChange | src/backoffice/pages/Settings.tsx:440-578 | The loaded settings take the edit; the rest of the page is unchanged. |
| Sidebar.ActiveItems | src/backoffice/components/layout/Sidebar.tsx:70 | Exactly the entries whose path is the current path or a `/`-separated prefix of it, in display order. |
| Sidebar.TargetsDistinct | src/backoffice/components/layout/Sidebar.tsx:42-66 | The entries' paths, used as keys, are distinct. |
| Sidebar.BothActive | src/backoffice/components/layout/Sidebar.tsx:70 | Two highlighted entries are equal or one lies below the other. |
| Sidebar.BelowDashboard | src/backoffice/components/layout/Sidebar.tsx:42-50 | Every other entry lies below the dashboard's `/admin`. |
| Sidebar.SectionsDisjoint | src/backoffice/components/layout/Sidebar.tsx:42-50 | No section lies below another. |
| Sidebar.DashboardUnderSection | src/backoffice/components/layout/Sidebar.tsx:42-70 | Wherever a section is highlighted, the dashboard is highlighted too. |
| Sidebar.ActiveTrail | src/backoffice/components/layout/Sidebar.tsx:42-70 | When a section is highlighted, so is the dashboard, and no other section is. |
| Sidebar.BookingDetailHighlights | src/backoffice/components/layout/Sidebar.tsx:42-70 | On a booking detail path exactly the dashboard and Bookings are highlighted. |
| Sidebar.LookalikeNotActive | src/backoffice/components/layout/Sidebar.tsx:70 | A path that only extends an entry's path without `/` does not highlight it. |
| ExportTools.ExportType | src/backoffice/components/sales/ExportTools.tsx:28 | The part before the first `_` is the data kind. |
| ExportTools.FirstFieldOfJoined | src/backoffice/pages/Sales.tsx:122 | `split(sep)[0]` of `a + sep + b` is `a` when `a` has no separator. |
| ExportTools.ParseExportType | src/backoffice/components/sales/ExportTools.tsx:28 | A parsed type rebuilds the string it came from. |
| ExportTools.ExportTypeRoundTrip | src/backoffice/components/sales/ExportTools.tsx:28 | Every choice of data and format parses back into itself. |
| ExportTools.ExportTypeInjective | src/backoffice/components/sales/ExportTools.tsx:28 | Different choices give different export types. |
| ExportTools.ButtonTextSample | src/backoffice/components/sales/ExportTools.tsx:147 | The button reads "Export Revenue as PDF". |
| ExportTools.ButtonTextDefault | src/backoffice/components/sales/ExportTools.tsx:147 | With the initial choices the button reads "Export Bookings as CSV". |
| ExportTools.ExportAlert | src/backoffice/pages/Sales.tsx:118-127 | A failed export alerts the retry message. |
| ExportTools.AlertNamesButtonData | src/backoffice/pages/Sales.tsx:122 | A successful export's alert names the same data as the button that started it. |
| ExportTools.Panel.constructor | src/backoffice/components/sales/ExportTools.tsx:21-23 | An empty range, CSV, bookings. |
| ExportTools.Panel.SetStart | src/backoffice/components/sales/ExportTools.tsx:49 | Only the start date changes. |
| ExportTools.Panel.SetEnd | src/backoffice/components/sales/ExportTools.tsx:61 | Only the end date changes. |
| ExportTools.Panel.SetFormat | src/backoffice/components/sales/ExportTools.tsx:22 | Only the format changes. |
| ExportTools.Panel.SetData | src/backoffice/components/sales/ExportTools.tsx:23 | Only the data choice changes. |
| ExportTools.Panel.HandleExport | src/backoffice/components/sales/ExportTools.tsx:25-32 | A missing date gives the date-range alert and no export. Otherwise it exports the built type with the range and no alert. |
| BookingStore.Stamp | app/utils/bookingsstore.ts:21-25 | The saved booking is the input with the fresh id and timestamp, and stripping those gives the input back. |
| BookingStore.Store.constructor | app/utils/bookingsstore.ts:35-38 | The store starts with the given window and storage item. |
| BookingStore.Store.GetBookings | app/utils/bookingsstore.ts:35-41 | Empty without a window or a stored item; otherwise the stored list. |
| BookingStore.Store.SaveBooking | app/utils/bookingsstore.ts:16-32 | Without a window it fails and stores nothing. Otherwise it returns the stamped input, and the stored list becomes the previous list with it appended. |
| PublicBookings.ConvertStatus | app/routes/bookings.tsx:197 | The route's status is the stored status upper-cased, and never `PENDING`. |
| PublicBookings.UpperStoredName | app/routes/bookings.tsx:197 | The three stored statuses upper-case to the route's names. |
| PublicBookings.ConvertStored | app/routes/bookings.tsx:194-216 | It keeps the id, date, address and provider, converts the status, names the service, and prices it at 100. |
| PublicBookings.MergeStored | app/routes/bookings.tsx:219 | The server's bookings come first, unchanged, followed by each stored booking converted in order. |
| PublicBookings.FilterBookings | app/routes/bookings.tsx:224-237 | A booking is kept iff it matches the search and the status filter. Order is kept. |
| PublicBookings.EmptyFilterKeepsAll | app/routes/bookings.tsx:224-237 | No search and no status keep everything. |
| PublicBookings.Insert | app/routes/bookings.tsx:240-250 | Inserting into a sorted list keeps it sorted and adds exactly that booking. |
| PublicBookings.SortBookings | app/routes/bookings.tsx:240-250 | A permutation of the input, sorted by the chosen field and direction. |
| PublicBookings.ShownCountBounded | app/routes/bookings.tsx:518-519 | The shown count never exceeds the total. |
| PublicBookings.ToggleSort | app/routes/bookings.tsx:253-260 | The clicked field becomes the sort field. The same field flips its direction, and a new field starts descending. |
| PublicBookings.ToggleTwice | app/routes/bookings.tsx:253-260 | Two clicks on the current field restore its direction; two on a new field end ascending. |
| EmbedChunks.Matches | embed_chunks.py:22 | True iff some pattern matches the path. |
| EmbedChunks.ExclusionWins | embed_chunks.py:34-37 | A path matching an exclusion pattern is never selected. |
| EmbedChunks.GetValidFiles | embed_chunks.py:23-41 | Exactly the walk's files that an empty or matching include list admits and no exclude pattern rejects, in walk order. |
| EmbedChunks.FlattenSnoc | embed_chunks.py:44-55 | Concatenation of pieces distributes over appending a piece. |
| EmbedChunks.FitSnoc | embed_chunks.py:50 | Appending a piece that fits keeps every multi-word piece under the limit. |
| EmbedChunks.OverflowSnoc | embed_chunks.py:50-52 | Appending a piece that starts with the word that overflowed the previous piece keeps every split justified. |
| EmbedChunks.Grow | embed_chunks.py:49-50 | Adding a word that fits keeps the loop invariant. |
| EmbedChunks.Emit | embed_chunks.py:50-52 | Emitting the chunk when the word overflows keeps the loop invariant. |
| EmbedChunks.Finish | embed_chunks.py:53-55 | At the end the invariant, with the last chunk if non-empty, gives a well-formed chunking. |
| EmbedChunks.EmitChunk | embed_chunks.py:51 | The joined chunks stay in step with their word lists. |
| EmbedChunks.ChunkText | embed_chunks.py:44-55 | Each chunk is its words joined by spaces. The words, in order, are exactly the input words. A chunk of two or more words is within the limit. A split happens only where the next word would overflow. Only the first chunk can be empty (when the first word alone overflows), and there are no chunks iff there are no words. |
| Embed.GetFiles | embed.py:21-30 | It fails with `KeyError` iff the filters have no `exclude` list and the walk meets a file. Otherwise it returns exactly the kept files in walk order. |
| Embed.RulesCompared | embed.py:27-28 | This rule agrees with the chunked script's rule except on a present but empty `include` list. |
| Embed.ExclusionFirst | embed.py:27 | A path matching an exclusion pattern is never kept. |
| Embed.EmptyIncludeSelectsNothing | embed.py:28 | A present but empty `include` list keeps no file at all. |

## Left out

- Rendering, styling, loading spinners, routing components and the mock data tables. These are presentation, not behaviour.
- The page-level `loadData` effects on first render. They call the fetchers the hooks and pages model, and add nothing but the effect scheduling.
- Mock delays (`setTimeout`) in the page files. They are timing only.
- The per-resource API modules (`bookings.ts`, `providers.ts` and the others). They are one-line forwards to the client's verbs, which are modelled.
- The CSV and PDF download helpers (`exportBookings`, `exportUsers`). These are browser file I/O.
- JSON text serialization (`JSON.stringify`/`JSON.parse`) of the booking store. The store keeps the list as a value.
- `parseInt` and `parseFloat` of the settings inputs. The edit carries the already-parsed value.
- Console logging, the embedding scripts' printing and CSV log, and the OpenAI and tokenizer calls. These are I/O; the tokenizer is the `countTokens` parameter.
- Reading files from disk and the empty-content skip of the embedding loop. These are file I/O.
- `Path.rglob` is the `walk` parameter, in its order.
- The filter JSON is read as a map from keys to pattern lists. Other JSON shapes are not modelled.
- Concurrency: interleaved asynchronous handlers and React's batching of state updates. Each handler is modelled as atomic.
- JavaScript numbers are integers in `Js.Value`, and fees, rates and durations are `real`. Floating-point rounding is not modelled.
- Upper- and lower-casing is ASCII only. Unicode case mapping is not modelled.
- The exact texts of engine errors are representative constants. These are reading properties of `null` (`UseApi.KeysOfNothing`, `AuthContext.DestructureNull`) and Python's `KeyError` text.
- Object key order is taken to be the order of the entries. JavaScript's move of integer-like keys to the front is not modelled.
- PublicBookings.SortBookings: stability is not stated. The contract says sorted and a permutation, but not that equal keys keep their order.
- A successful call in the resource hooks does not clear an earlier error. This matches the original, and the contracts state `error == old(error)`.
- The outer `catch` of `loadInitialData` cannot be reached, because both inner fetchers catch their own errors, so it is not modelled.
- The hooks' `create` and `delete` operations do not update `total`. This matches the original.
- ProviderForm.Valid: the e-mail pattern is the `isEmail` parameter rather than a regular expression. Minimum lengths count Unicode code points, while zod counts UTF-16 code units, so the two differ for characters outside the Basic Multilingual Plane.
- UseBookings.Hook.Refetch, UseUsers.Hook.Refetch, UseSettings.Hook.LoadInitialData: the source starts the second fetch without awaiting the first (under `Promise.all` in `loadInitialData`), so which error remains depends on which call settles last. The model runs the fetches in call order.
- Id uniqueness is not assumed. By-id updates act on every record with that id, as `map` does.
