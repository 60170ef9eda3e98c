/** The `useUsers` data hook: the user list, its total, the statistics, two
    loading flags, the last error and the filters. API outcomes are
    parameters; a method that rethrows returns the same failure. The
    statistics and a user's bookings are kept as the JSON the server sent. */
module UseUsers {
  import opened Wrappers
  import opened RecordList
  import Js
  import opened UsersPage

  /** A user as the users API returns it. */
  datatype ApiUser = ApiUser(
    id: string,
    name: string,
    email: string,
    phone: string,
    status: UserStatus,
    joinedDate: string,
    bookingsCount: int,
    lastBookingDate: Option<string>,
    avatarUrl: Option<string>,
    totalSpend: real)

  function ApiUserId(u: ApiUser): string { u.id }

  const LoadUsersError := "Failed to load users"
  const LoadStatsError := "Failed to load user statistics"
  const LoadUserBookingsError := "Failed to load user bookings"
  const UpdateStatusError := "Failed to update user status"
  const CreateError := "Failed to create user"
  const UpdateError := "Failed to update user"

  class Hook {
    var users: seq<ApiUser>
    var total: int
    var userStats: Option<Js.Value>
    var isLoading: bool
    var isStatsLoading: bool
    var error: Option<string>
    var filters: map<string, Js.Value>

    constructor (initialFilters: map<string, Js.Value>)
      ensures users == [] && total == 0 && userStats.None? && isLoading && isStatsLoading
      ensures error.None? && filters == initialFilters
    {
      users := [];
      total := 0;
      userStats := None;
      isLoading := true;
      isStatsLoading := true;
      error := None;
      filters := initialFilters;
    }

    /** `fetchUsers` */
    method FetchUsers(outcome: Result<(seq<ApiUser>, int)>) returns (busyDuringCall: bool)
      modifies this
      ensures busyDuringCall && !isLoading
      ensures outcome.Success? ==> users == outcome.value.0 && total == outcome.value.1 && error == old(error)
      ensures outcome.Failure? ==> users == old(users) && total == old(total) && error == Some(LoadUsersError)
      ensures userStats == old(userStats) && isStatsLoading == old(isStatsLoading) && filters == old(filters)
    {
      isLoading := true;
      busyDuringCall := isLoading;
      if outcome.Success? {
        users := outcome.value.0;
        total := outcome.value.1;
      } else {
        error := Some(LoadUsersError);
      }
      isLoading := false;
    }

    /** `fetchUserStats` */
    method FetchUserStats(outcome: Result<Js.Value>) returns (busyDuringCall: bool)
      modifies this
      ensures busyDuringCall && !isStatsLoading
      ensures outcome.Success? ==> userStats == Some(outcome.value) && error == old(error)
      ensures outcome.Failure? ==> userStats == old(userStats) && error == Some(LoadStatsError)
      ensures users == old(users) && total == old(total) && isLoading == old(isLoading) && filters == old(filters)
    {
      isStatsLoading := true;
      busyDuringCall := isStatsLoading;
      if outcome.Success? {
        userStats := Some(outcome.value);
      } else {
        error := Some(LoadStatsError);
      }
      isStatsLoading := false;
    }

    /** `updateFilters(newFilters)`: a key-wise override. */
    method UpdateFilters(newFilters: map<string, Js.Value>)
      modifies this
      ensures filters == MergeFilters(old(filters), newFilters)
      ensures users == old(users) && total == old(total) && userStats == old(userStats)
      ensures isLoading == old(isLoading) && isStatsLoading == old(isStatsLoading) && error == old(error)
    {
      filters := MergeFilters(filters, newFilters);
    }

    /** `getUserBookings(userId, filters)`: passes the server's answer on and
        touches nothing but the error. */
    method GetUserBookings(userId: string, outcome: Result<Js.Value>) returns (r: Result<Js.Value>)
      modifies this
      ensures r == outcome
      ensures outcome.Success? ==> error == old(error)
      ensures outcome.Failure? ==> error == Some(LoadUserBookingsError)
      ensures users == old(users) && total == old(total) && userStats == old(userStats)
      ensures isLoading == old(isLoading) && isStatsLoading == old(isStatsLoading) && filters == old(filters)
    {
      r := outcome;
      if outcome.Failure? {
        error := Some(LoadUserBookingsError);
      }
    }

    /** `updateUserStatus(userId, status)`: the server's user replaces every
        user with that id, then the statistics are fetched again. */
    method UpdateUserStatus(userId: string, status: UserStatus, outcome: Result<ApiUser>,
                            statsOutcome: Result<Js.Value>) returns (r: Result<ApiUser>)
      modifies this
      ensures r == outcome
      ensures outcome.Success? ==> users == ReplaceById(old(users), ApiUserId, userId, outcome.value) && !isStatsLoading
      ensures outcome.Success? && statsOutcome.Success? ==> userStats == Some(statsOutcome.value) && error == old(error)
      ensures outcome.Success? && statsOutcome.Failure? ==> userStats == old(userStats) && error == Some(LoadStatsError)
      ensures outcome.Failure? ==> users == old(users) && error == Some(UpdateStatusError) &&
                                   userStats == old(userStats) && isStatsLoading == old(isStatsLoading)
      ensures total == old(total) && isLoading == old(isLoading) && filters == old(filters)
    {
      r := outcome;
      if outcome.Failure? {
        error := Some(UpdateStatusError);
        return;
      }
      users := ReplaceById(users, ApiUserId, userId, outcome.value);
      var _ := FetchUserStats(statsOutcome);
    }

    /** `createUser(data)`: the created user is appended, then the statistics
        are fetched again. */
    method CreateUser(outcome: Result<ApiUser>, statsOutcome: Result<Js.Value>) returns (r: Result<ApiUser>)
      modifies this
      ensures r == outcome
      ensures outcome.Success? ==> users == Append(old(users), outcome.value) && !isStatsLoading
      ensures outcome.Success? && statsOutcome.Success? ==> userStats == Some(statsOutcome.value) && error == old(error)
      ensures outcome.Success? && statsOutcome.Failure? ==> userStats == old(userStats) && error == Some(LoadStatsError)
      ensures outcome.Failure? ==> users == old(users) && error == Some(CreateError) &&
                                   userStats == old(userStats) && isStatsLoading == old(isStatsLoading)
      ensures total == old(total) && isLoading == old(isLoading) && filters == old(filters)
    {
      r := outcome;
      if outcome.Failure? {
        error := Some(CreateError);
        return;
      }
      users := Append(users, outcome.value);
      var _ := FetchUserStats(statsOutcome);
    }

    /** `updateUser(id, data)`: the server's user replaces every user with
        that id; the statistics are not refreshed. */
    method UpdateUser(id: string, outcome: Result<ApiUser>) returns (r: Result<ApiUser>)
      modifies this
      ensures r == outcome
      ensures outcome.Success? ==> users == ReplaceById(old(users), ApiUserId, id, outcome.value) && error == old(error)
      ensures outcome.Failure? ==> users == old(users) && error == Some(UpdateError)
      ensures total == old(total) && userStats == old(userStats) && filters == old(filters)
      ensures isLoading == old(isLoading) && isStatsLoading == old(isStatsLoading)
    {
      r := outcome;
      if outcome.Success? {
        users := ReplaceById(users, ApiUserId, id, outcome.value);
      } else {
        error := Some(UpdateError);
      }
    }

    /** `refetch`: the list, then the statistics. */
    method Refetch(listOutcome: Result<(seq<ApiUser>, int)>, statsOutcome: Result<Js.Value>)
      modifies this
      ensures !isLoading && !isStatsLoading
      ensures listOutcome.Success? ==> users == listOutcome.value.0 && total == listOutcome.value.1
      ensures listOutcome.Failure? ==> users == old(users) && total == old(total)
      ensures statsOutcome.Success? ==> userStats == Some(statsOutcome.value)
      ensures statsOutcome.Failure? ==> userStats == old(userStats) && error == Some(LoadStatsError)
      ensures statsOutcome.Success? && listOutcome.Failure? ==> error == Some(LoadUsersError)
      ensures statsOutcome.Success? && listOutcome.Success? ==> error == old(error)
      ensures filters == old(filters)
    {
      var _ := FetchUsers(listOutcome);
      var _ := FetchUserStats(statsOutcome);
    }
  }
}
