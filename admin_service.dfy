/**
 * `AdminService`: listing, inspecting, editing, deleting and (de)activating
 * accounts, and the account counts of the statistics panel. Every admin
 * route reaches it only through `authMiddleware(true)`; `storeFails` says
 * whether the store call raises (a lost connection, an id that is not an
 * ObjectId, a schema validator).
 */
module AdminService {
  import opened Wrappers
  import opened ErrorHandler
  import opened Users
  import opened ServiceErrors

  const FetchUsersError := AppError("Failed to fetch users", 500, "FETCH_ERROR")
  const DeactivateError := AppError("Failed to deactivate user", 500, "UPDATE_ERROR")
  const ActivateError := AppError("Failed to activate user", 500, "UPDATE_ERROR")
  const StatisticsError := AppError("Failed to fetch statistics", 500, "FETCH_ERROR")

  const DefaultPage: int := 1
  const DefaultLimit: int := 10

  /** `getAllUsers(filters)`: a zero `page` or `limit` stands for a missing (falsy) one. */
  datatype Filters = Filters(isActive: Option<bool>, page: int, limit: int)

  datatype Pagination = Pagination(total: nat, page: int, limit: int, pages: int)
  datatype UsersPage = UsersPage(users: seq<UserView>, pagination: Pagination)
  datatype DeleteReceipt = DeleteReceipt(message: string, userId: Id)

  /** The account counts `getStatistics` reports; the mock growth figures are not modelled. */
  datatype Statistics = Statistics(totalUsers: nat, totalAdmins: nat, activeUsers: nat, inactiveUsers: nat)

  /** `filters.page || 1` */
  function PageOf(f: Filters): (p: int)
    ensures p != 0
    ensures f.page != 0 ==> p == f.page
    ensures f.page == 0 ==> p == DefaultPage
  {
    if f.page != 0 then f.page else DefaultPage
  }

  /** `filters.limit || 10` */
  function LimitOf(f: Filters): (l: int)
    ensures l != 0
    ensures f.limit != 0 ==> l == f.limit
    ensures f.limit == 0 ==> l == DefaultLimit
  {
    if f.limit != 0 then f.limit else DefaultLimit
  }

  /** `(page - 1) * limit` */
  function SkipOf(f: Filters): (r: int)
    ensures PageOf(f) == 1 ==> r == 0
    ensures PageOf(f) >= 1 && LimitOf(f) > 0 ==> 0 <= r && r + LimitOf(f) == PageOf(f) * LimitOf(f)
    ensures PageOf(f) < 1 && LimitOf(f) > 0 ==> r < 0
    ensures PageOf(f) > 1 && LimitOf(f) < 0 ==> r < 0
    ensures PageOf(f) < 1 && LimitOf(f) < 0 ==> r > 0
  {
    var p, l := PageOf(f), LimitOf(f);
    assert (p - 1) * l + l == p * l;
    assert l > 0 && p >= 1 ==> 0 <= (p - 1) * l by {
      if l > 0 && p >= 1 {
        MulMonotone(0, p - 1, l);
      }
    }
    assert l > 0 && p < 1 ==> (p - 1) * l < 0 by {
      if l > 0 && p < 1 {
        MulMonotone(p - 1, -1, l);
      }
    }
    assert l < 0 && p > 1 ==> (p - 1) * l < 0 by {
      if l < 0 && p > 1 {
        MulMonotone(l, -1, p - 1);
      }
    }
    assert l < 0 && p < 1 ==> (p - 1) * l > 0 by {
      if l < 0 && p < 1 {
        MulMonotone(l, -1, 1 - p);
        assert (p - 1) * l == -(l * (1 - p));
      }
    }
    (p - 1) * l
  }

  /** `{role: 'user'}`, plus `isActive` when that filter is given. */
  function UsersQuery(f: Filters): Query {
    Query(None, Some(User), f.isActive)
  }

  function Abs(x: int): nat {
    if x < 0 then -x else x
  }

  /**
   * `Math.ceil(total / limit)` for a non-zero integer limit. A negative
   * limit makes the quotient negative, and its ceiling is minus the floor of
   * `total / |limit|`.
   */
  function CeilDiv(total: nat, limit: int): (pages: int)
    requires limit != 0
    ensures limit > 0 ==> pages >= 0 && (pages - 1) * limit < total <= pages * limit
    ensures limit < 0 ==> pages <= 0 && pages * limit <= total < (pages - 1) * limit
  {
    if limit > 0 then
      var q := (total + limit - 1) / limit;
      assert total + limit - 1 == q * limit + (total + limit - 1) % limit;
      assert (q - 1) * limit == q * limit - limit;
      q
    else
      var q := total / -limit;
      assert total == q * -limit + total % -limit;
      assert (-q - 1) * limit == q * -limit - limit;
      -q
  }

  lemma MulMonotone(a: int, b: int, c: int)
    requires a <= b && c > 0
    ensures a * c <= b * c
  {
    assert b * c - a * c == (b - a) * c;
  }

  /**
   * With a positive limit and page, the page requested starts inside the
   * matching records exactly when it is one of the `pages` pages reported.
   */
  lemma PageStartsInsideIff(total: nat, page: int, limit: int)
    requires limit > 0 && page >= 1
    ensures (page - 1) * limit < total <==> page <= CeilDiv(total, limit)
  {
    var pages := CeilDiv(total, limit);
    if page <= pages {
      MulMonotone(page - 1, pages - 1, limit);
    } else {
      MulMonotone(pages, page - 1, limit);
    }
  }

  /** `User.countDocuments({role, isActive?})` */
  function Count(m: map<Id, UserRecord>, role: Role, isActive: Option<bool>): (r: nat)
    ensures r <= |m|
  {
    var matching := MatchingIds(m, Query(None, Some(role), isActive));
    assert m.Keys == matching + (m.Keys - matching) && matching !! (m.Keys - matching);
    |matching|
  }

  /**
   * The statistics add up: active and inactive users are all the users, and
   * users and admins are every account in the store.
   */
  lemma StatisticsAddUp(m: map<Id, UserRecord>)
    ensures Count(m, User, Some(true)) + Count(m, User, Some(false)) == Count(m, User, None)
    ensures Count(m, User, None) + Count(m, Admin, None) == |m|
  {
    var active := MatchingIds(m, Query(None, Some(User), Some(true)));
    var inactive := MatchingIds(m, Query(None, Some(User), Some(false)));
    var users := MatchingIds(m, Query(None, Some(User), None));
    var admins := MatchingIds(m, Query(None, Some(Admin), None));
    assert users == active + inactive && active !! inactive;
    assert m.Keys == users + admins && users !! admins;
  }

  class AdminService {
    const users: UserStore

    constructor(users: UserStore)
      ensures this.users == users
    {
      this.users := users;
    }

    /**
     * `getAllUsers(filters)`: the page of role-'user' accounts matching the
     * filter, newest first, from `skip` on and at most `|limit|` long (the
     * driver reads a negative limit as its absolute value), with the
     * total count of matches and `ceil(total / limit)` pages. A negative
     * skip is refused by the store, and every failure is FETCH_ERROR.
     */
    method GetAllUsers(filters: Filters, storeFails: bool) returns (r: Result<UsersPage, AppError>, ghost ordered: seq<UserView>)
      ensures storeFails || SkipOf(filters) < 0 ==> r == Failure(FetchUsersError)
      ensures !storeFails && SkipOf(filters) >= 0 ==>
        && r.Success?
        && r.value.pagination.total == |MatchingIds(users.records, UsersQuery(filters))|
        && r.value.pagination.page == PageOf(filters)
        && r.value.pagination.limit == LimitOf(filters)
        && r.value.pagination.pages == CeilDiv(r.value.pagination.total, LimitOf(filters))
        && NewestFirst(ordered)
        && (forall v :: v in ordered <==> v.id in MatchingIds(users.records, UsersQuery(filters)) && v == View(v.id, users.records[v.id]))
        && r.value.users == Window(ordered, SkipOf(filters), Abs(LimitOf(filters)))
        && |r.value.users| <= Abs(LimitOf(filters))
        && (forall v :: v in r.value.users ==>
              v.role == User && (filters.isActive.Some? ==> v.isActive == filters.isActive.value))
    {
      var page := PageOf(filters);
      var limit := LimitOf(filters);
      var skip := (page - 1) * limit;
      if storeFails || skip < 0 {
        return Failure(FetchUsersError), [];
      }
      var q := UsersQuery(filters);
      var found;
      found, ordered := users.Find(q, skip, Abs(limit));
      var total := |MatchingIds(users.records, q)|;
      forall v | v in found
        ensures v.role == User && (filters.isActive.Some? ==> v.isActive == filters.isActive.value)
      {
        var k :| 0 <= k < |found| && found[k] == v;
        assert ordered[skip + k] in ordered;
      }
      r := Success(UsersPage(found, Pagination(total, page, limit, CeilDiv(total, limit))));
    }

    /** `getUserById(userId)`: any account, admin or user, without its password. */
    method GetUserById(id: Id, storeFails: bool) returns (r: Result<UserView, AppError>)
      ensures storeFails ==> r == Failure(FetchUserError)
      ensures !storeFails && id !in users.records ==> r == Failure(UserNotFound)
      ensures !storeFails && id in users.records ==> r == Success(View(id, users.records[id]))
    {
      if storeFails {
        return Failure(FetchUserError);
      }
      if id !in users.records {
        return Failure(UserNotFound);
      }
      return Success(View(id, users.records[id]));
    }

    /**
     * `updateUser(userId, updateData)` with an unvalidated body: the patch
     * applies to exactly that record; an email another account holds is
     * refused by the unique index and surfaces as UPDATE_ERROR.
     */
    method UpdateUser(id: Id, patch: Patch, storeFails: bool) returns (r: Result<UserView, AppError>)
      requires users.Valid()
      modifies users
      ensures users.Valid()
      ensures storeFails ==> r == Failure(UpdateUserError) && users.records == old(users.records)
      ensures !storeFails && id !in old(users.records) ==>
        r == Failure(UserNotFound) && users.records == old(users.records)
      ensures !storeFails && id in old(users.records) && patch.email.Some?
              && EmailTakenByOther(old(users.records), id, patch.email.value) ==>
        r == Failure(UpdateUserError) && users.records == old(users.records)
      ensures !storeFails && id in old(users.records)
              && !(patch.email.Some? && EmailTakenByOther(old(users.records), id, patch.email.value)) ==>
        && users.records == old(users.records)[id := Apply(old(users.records)[id], patch)]
        && r == Success(View(id, users.records[id]))
    {
      if storeFails {
        return Failure(UpdateUserError);
      }
      var outcome := users.FindByIdAndUpdate(id, patch);
      match outcome
      case NoSuchId => r := Failure(UserNotFound);
      case DuplicateEmail => r := Failure(UpdateUserError);
      case Updated(rec) => r := Success(View(id, rec));
    }

    /** `deleteUser(userId)`: removes exactly that record and echoes its id. */
    method DeleteUser(id: Id, storeFails: bool) returns (r: Result<DeleteReceipt, AppError>)
      requires users.Valid()
      modifies users
      ensures users.Valid()
      ensures storeFails ==> r == Failure(DeleteUserError) && users.records == old(users.records)
      ensures !storeFails && id !in old(users.records) ==>
        r == Failure(UserNotFound) && users.records == old(users.records)
      ensures !storeFails && id in old(users.records) ==>
        r == Success(DeleteReceipt(DeletedMessage, id)) && users.records == old(users.records) - {id}
    {
      if storeFails {
        return Failure(DeleteUserError);
      }
      var removed := users.FindByIdAndDelete(id);
      if removed.None? {
        return Failure(UserNotFound);
      }
      return Success(DeleteReceipt(DeletedMessage, id));
    }

    /** `findByIdAndUpdate(userId, {isActive: active}, {new: true})` with its error mapping. */
    method SetActive(id: Id, active: bool, storeFails: bool, failure: AppError) returns (r: Result<UserView, AppError>)
      requires users.Valid()
      modifies users
      ensures users.Valid()
      ensures storeFails ==> r == Failure(failure) && users.records == old(users.records)
      ensures !storeFails && id !in old(users.records) ==>
        r == Failure(UserNotFound) && users.records == old(users.records)
      ensures !storeFails && id in old(users.records) ==>
        && users.records == old(users.records)[id := old(users.records)[id].(isActive := active)]
        && r == Success(View(id, users.records[id]))
      ensures id in old(users.records) && old(users.records)[id].isActive == active ==>
        users.records == old(users.records)
    {
      if storeFails {
        return Failure(failure);
      }
      var outcome := users.FindByIdAndUpdate(id, Patch(None, None, None, Some(active)));
      match outcome
      case NoSuchId => r := Failure(UserNotFound);
      case DuplicateEmail => assert false; r := Failure(failure);
      case Updated(rec) => r := Success(View(id, rec));
    }

    /**
     * `deactivateUser(userId)`: clears `isActive` on exactly that record;
     * deactivating an inactive account changes nothing.
     */
    method DeactivateUser(id: Id, storeFails: bool) returns (r: Result<UserView, AppError>)
      requires users.Valid()
      modifies users
      ensures users.Valid()
      ensures storeFails ==> r == Failure(DeactivateError) && users.records == old(users.records)
      ensures !storeFails && id !in old(users.records) ==>
        r == Failure(UserNotFound) && users.records == old(users.records)
      ensures !storeFails && id in old(users.records) ==>
        && users.records == old(users.records)[id := old(users.records)[id].(isActive := false)]
        && r.Success? && r.value == View(id, users.records[id]) && !r.value.isActive
      ensures id in old(users.records) && !old(users.records)[id].isActive ==> users.records == old(users.records)
    {
      r := SetActive(id, false, storeFails, DeactivateError);
    }

    /**
     * `activateUser(userId)`: sets `isActive` on exactly that record;
     * activating an active account changes nothing.
     */
    method ActivateUser(id: Id, storeFails: bool) returns (r: Result<UserView, AppError>)
      requires users.Valid()
      modifies users
      ensures users.Valid()
      ensures storeFails ==> r == Failure(ActivateError) && users.records == old(users.records)
      ensures !storeFails && id !in old(users.records) ==>
        r == Failure(UserNotFound) && users.records == old(users.records)
      ensures !storeFails && id in old(users.records) ==>
        && users.records == old(users.records)[id := old(users.records)[id].(isActive := true)]
        && r.Success? && r.value == View(id, users.records[id]) && r.value.isActive
      ensures id in old(users.records) && old(users.records)[id].isActive ==> users.records == old(users.records)
    {
      r := SetActive(id, true, storeFails, ActivateError);
    }

    /**
     * `getStatistics()`: users, admins, and active and inactive users, as
     * four counts over the store; `StatisticsAddUp` relates them.
     */
    method GetStatistics(storeFails: bool) returns (r: Result<Statistics, AppError>)
      ensures storeFails ==> r == Failure(StatisticsError)
      ensures !storeFails ==> r.Success?
      ensures !storeFails ==>
        && r.value.totalUsers == Count(users.records, User, None)
        && r.value.totalAdmins == Count(users.records, Admin, None)
        && r.value.activeUsers == Count(users.records, User, Some(true))
        && r.value.inactiveUsers == Count(users.records, User, Some(false))
      ensures !storeFails ==>
        r.value.activeUsers + r.value.inactiveUsers == r.value.totalUsers
        && r.value.totalUsers + r.value.totalAdmins == |users.records|
    {
      if storeFails {
        return Failure(StatisticsError);
      }
      var m := users.records;
      StatisticsAddUp(m);
      r := Success(Statistics(Count(m, User, None), Count(m, Admin, None), Count(m, User, Some(true)), Count(m, User, Some(false))));
    }
  }
}
