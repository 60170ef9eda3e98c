/** The `useSettings` data hook: the platform settings, the admin users, the
    loading flag and the last error. The settings are kept as the JSON
    object's fields, so that a partial answer merges key by key. */
module UseSettings {
  import opened Wrappers
  import opened RecordList
  import Js
  import opened SettingsPage

  function AdminId(u: AdminUser): string { u.id }

  const LoadSettingsError := "Failed to load platform settings"
  const LoadAdminsError := "Failed to load admin users"
  const UpdateSettingsError := "Failed to update platform settings"
  const CreateAdminError := "Failed to create admin user"
  const UpdateAdminError := "Failed to update admin user"
  const DeleteAdminError := "Failed to delete admin user"
  const ResetPasswordError := "Failed to reset admin user password"

  /** `{ ...prev!, ...updated }`: spreading a `null` previous value adds no
      keys, so the answer's fields over the old ones, or the answer alone. */
  function MergeSettings(prev: Option<map<string, Js.Value>>, updated: map<string, Js.Value>): (r: map<string, Js.Value>)
    ensures forall k :: k in updated ==> k in r && r[k] == updated[k]
    ensures prev.Some? ==> forall k :: k in prev.value && k !in updated ==> k in r && r[k] == prev.value[k]
    ensures forall k :: k in r ==> k in updated || (prev.Some? && k in prev.value)
  {
    MergeFilters(if prev.Some? then prev.value else map[], updated)
  }

  class Hook {
    var platformSettings: Option<map<string, Js.Value>>
    var adminUsers: seq<AdminUser>
    var isLoading: bool
    var error: Option<string>

    constructor ()
      ensures platformSettings.None? && adminUsers == [] && isLoading && error.None?
    {
      platformSettings := None;
      adminUsers := [];
      isLoading := true;
      error := None;
    }

    /** `fetchPlatformSettings`: catches its own failure. */
    method FetchPlatformSettings(outcome: Result<map<string, Js.Value>>)
      modifies this
      ensures outcome.Success? ==> platformSettings == Some(outcome.value) && error == old(error)
      ensures outcome.Failure? ==> platformSettings == old(platformSettings) && error == Some(LoadSettingsError)
      ensures adminUsers == old(adminUsers) && isLoading == old(isLoading)
    {
      if outcome.Success? {
        platformSettings := Some(outcome.value);
      } else {
        error := Some(LoadSettingsError);
      }
    }

    /** `fetchAdminUsers`: catches its own failure. */
    method FetchAdminUsers(outcome: Result<seq<AdminUser>>)
      modifies this
      ensures outcome.Success? ==> adminUsers == outcome.value && error == old(error)
      ensures outcome.Failure? ==> adminUsers == old(adminUsers) && error == Some(LoadAdminsError)
      ensures platformSettings == old(platformSettings) && isLoading == old(isLoading)
    {
      if outcome.Success? {
        adminUsers := outcome.value;
      } else {
        error := Some(LoadAdminsError);
      }
    }

    /** `loadInitialData` (also `refetch`): both fetches, with the flag set
        for their duration and cleared in `finally`. Both fetches catch their
        own failures, so the outer handler never runs; a failing admin
        fetch's message is the one left. */
    method LoadInitialData(settingsOutcome: Result<map<string, Js.Value>>, adminsOutcome: Result<seq<AdminUser>>)
        returns (busyDuringLoad: bool)
      modifies this
      ensures busyDuringLoad && !isLoading
      ensures settingsOutcome.Success? ==> platformSettings == Some(settingsOutcome.value)
      ensures settingsOutcome.Failure? ==> platformSettings == old(platformSettings)
      ensures adminsOutcome.Success? ==> adminUsers == adminsOutcome.value
      ensures adminsOutcome.Failure? ==> adminUsers == old(adminUsers)
      ensures error == (if adminsOutcome.Failure? then Some(LoadAdminsError)
                        else if settingsOutcome.Failure? then Some(LoadSettingsError)
                        else old(error))
    {
      isLoading := true;
      busyDuringLoad := isLoading;
      FetchPlatformSettings(settingsOutcome);
      FetchAdminUsers(adminsOutcome);
      isLoading := false;
    }

    /** `updatePlatformSettings(settings)`: the returned fields override the
        previous ones. */
    method UpdatePlatformSettings(outcome: Result<map<string, Js.Value>>) returns (r: Result<map<string, Js.Value>>)
      modifies this
      ensures r == outcome
      ensures outcome.Success? ==> platformSettings == Some(MergeSettings(old(platformSettings), outcome.value)) &&
                                   error == old(error)
      ensures outcome.Failure? ==> platformSettings == old(platformSettings) && error == Some(UpdateSettingsError)
      ensures adminUsers == old(adminUsers) && isLoading == old(isLoading)
    {
      r := outcome;
      if outcome.Success? {
        platformSettings := Some(MergeSettings(platformSettings, outcome.value));
      } else {
        error := Some(UpdateSettingsError);
      }
    }

    /** `createAdminUser(data)`: the created admin is appended. */
    method CreateAdminUser(outcome: Result<AdminUser>) returns (r: Result<AdminUser>)
      modifies this
      ensures r == outcome
      ensures outcome.Success? ==> adminUsers == Append(old(adminUsers), outcome.value) && error == old(error)
      ensures outcome.Failure? ==> adminUsers == old(adminUsers) && error == Some(CreateAdminError)
      ensures platformSettings == old(platformSettings) && isLoading == old(isLoading)
    {
      r := outcome;
      if outcome.Success? {
        adminUsers := Append(adminUsers, outcome.value);
      } else {
        error := Some(CreateAdminError);
      }
    }

    /** `updateAdminUser(id, data)`: the server's admin replaces every admin
        with that id. */
    method UpdateAdminUser(id: string, outcome: Result<AdminUser>) returns (r: Result<AdminUser>)
      modifies this
      ensures r == outcome
      ensures outcome.Success? ==> adminUsers == ReplaceById(old(adminUsers), AdminId, id, outcome.value) &&
                                   error == old(error)
      ensures outcome.Failure? ==> adminUsers == old(adminUsers) && error == Some(UpdateAdminError)
      ensures platformSettings == old(platformSettings) && isLoading == old(isLoading)
    {
      r := outcome;
      if outcome.Success? {
        adminUsers := ReplaceById(adminUsers, AdminId, id, outcome.value);
      } else {
        error := Some(UpdateAdminError);
      }
    }

    /** `deleteAdminUser(id)`: every admin with that id is dropped. */
    method DeleteAdminUser(id: string, outcome: Result<()>) returns (r: Result<()>)
      modifies this
      ensures r == outcome
      ensures outcome.Success? ==> adminUsers == RemoveById(old(adminUsers), AdminId, id) && error == old(error)
      ensures outcome.Failure? ==> adminUsers == old(adminUsers) && error == Some(DeleteAdminError)
      ensures platformSettings == old(platformSettings) && isLoading == old(isLoading)
    {
      r := outcome;
      if outcome.Success? {
        adminUsers := RemoveById(adminUsers, AdminId, id);
      } else {
        error := Some(DeleteAdminError);
      }
    }

    /** `resetAdminUserPassword(id)`: passes the answer on; only the error can
        change. */
    method ResetAdminUserPassword(id: string, outcome: Result<Js.Value>) returns (r: Result<Js.Value>)
      modifies this
      ensures r == outcome
      ensures outcome.Success? ==> error == old(error)
      ensures outcome.Failure? ==> error == Some(ResetPasswordError)
      ensures adminUsers == old(adminUsers) && platformSettings == old(platformSettings) && isLoading == old(isLoading)
    {
      r := outcome;
      if outcome.Failure? {
        error := Some(ResetPasswordError);
      }
    }
  }

  /** Merging a complete answer over complete settings gives the answer. */
  lemma CompleteAnswerReplaces(prev: map<string, Js.Value>, updated: map<string, Js.Value>)
    requires prev.Keys <= updated.Keys
    ensures MergeSettings(Some(prev), updated) == updated
  {
  }
}
