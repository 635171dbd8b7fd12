/**
 * `UserService`: an account reading, editing and deleting itself. The user
 * routes pass `req.user.id` from `authMiddleware(false)` and, for updates,
 * the body `validate(..., 'updateUser')` returned, so a patch here carries
 * at most a name and an email.
 */
module UserService {
  import opened Wrappers
  import opened ErrorHandler
  import opened Users
  import opened ServiceErrors

  const FetchProfileError := AppError("Failed to fetch profile", 500, "FETCH_ERROR")

  /** `{message: 'User deleted successfully'}` */
  datatype DeleteReply = DeleteReply(message: string)

  /** The fields the `updateUser` schema admits. */
  predicate ProfilePatch(p: Patch) {
    p.role.None? && p.isActive.None?
  }

  class UserService {
    const users: UserStore

    constructor(users: UserStore)
      ensures this.users == users
    {
      this.users := users;
    }

    /** `User.findById(userId)`, answered as `toJSON()` or with the given errors. */
    method FindView(id: Id, storeFails: bool, failure: AppError) returns (r: Result<UserView, AppError>)
      ensures storeFails ==> r == Failure(failure)
      ensures !storeFails && id !in users.records ==> r == Failure(UserNotFound)
      ensures !storeFails && id in users.records ==> r == Success(View(id, users.records[id]))
    {
      if storeFails {
        return Failure(failure);
      }
      if id !in users.records {
        return Failure(UserNotFound);
      }
      return Success(View(id, users.records[id]));
    }

    /** `getUserById(userId)`: the account without its password, or 404 USER_NOT_FOUND. */
    method GetUserById(id: Id, storeFails: bool) returns (r: Result<UserView, AppError>)
      ensures storeFails ==> r == Failure(FetchUserError)
      ensures !storeFails && id !in users.records ==> r == Failure(UserNotFound)
      ensures !storeFails && id in users.records ==> r == Success(View(id, users.records[id]))
    {
      r := FindView(id, storeFails, FetchUserError);
    }

    /** `getUserProfile(userId)`: as `getUserById`, with its own failure message. */
    method GetUserProfile(id: Id, storeFails: bool) returns (r: Result<UserView, AppError>)
      ensures storeFails ==> r == Failure(FetchProfileError)
      ensures !storeFails && id !in users.records ==> r == Failure(UserNotFound)
      ensures !storeFails && id in users.records ==> r == Success(View(id, users.records[id]))
    {
      r := FindView(id, storeFails, FetchProfileError);
    }

    /**
     * `updateUser(userId, updateData)`: applies the validated patch to
     * exactly that record and returns it; an email held by another account
     * is refused by the unique index and surfaces as UPDATE_ERROR.
     */
    method UpdateUser(id: Id, patch: Patch, storeFails: bool) returns (r: Result<UserView, AppError>)
      requires users.Valid() && ProfilePatch(patch)
      modifies users
      ensures users.Valid()
      ensures storeFails ==> r == Failure(UpdateUserError) && users.records == old(users.records)
      ensures !storeFails && id !in old(users.records) ==>
        r == Failure(UserNotFound) && users.records == old(users.records)
      ensures !storeFails && id in old(users.records) && patch.email.Some?
              && EmailTakenByOther(old(users.records), id, patch.email.value) ==>
        r == Failure(UpdateUserError) && users.records == old(users.records)
      ensures !storeFails && id in old(users.records)
              && !(patch.email.Some? && EmailTakenByOther(old(users.records), id, patch.email.value)) ==>
        && users.records == old(users.records)[id := Apply(old(users.records)[id], patch)]
        && r == Success(View(id, users.records[id]))
        && r.value.role == old(users.records)[id].role && r.value.isActive == old(users.records)[id].isActive
    {
      if storeFails {
        return Failure(UpdateUserError);
      }
      var outcome := users.FindByIdAndUpdate(id, patch);
      match outcome
      case NoSuchId => r := Failure(UserNotFound);
      case DuplicateEmail => r := Failure(UpdateUserError);
      case Updated(rec) => r := Success(View(id, rec));
    }

    /** `deleteUser(userId)`: removes exactly that record. */
    method DeleteUser(id: Id, storeFails: bool) returns (r: Result<DeleteReply, AppError>)
      requires users.Valid()
      modifies users
      ensures users.Valid()
      ensures storeFails ==> r == Failure(DeleteUserError) && users.records == old(users.records)
      ensures !storeFails && id !in old(users.records) ==>
        r == Failure(UserNotFound) && users.records == old(users.records)
      ensures !storeFails && id in old(users.records) ==>
        r == Success(DeleteReply(DeletedMessage)) && users.records == old(users.records) - {id}
    {
      if storeFails {
        return Failure(DeleteUserError);
      }
      var removed := users.FindByIdAndDelete(id);
      if removed.None? {
        return Failure(UserNotFound);
      }
      return Success(DeleteReply(DeletedMessage));
    }
  }

  /**
   * A deleted account is gone: once `deleteUser` answers (successfully or
   * with 404), `getUserById` for the same id answers 404 USER_NOT_FOUND.
   */
  method DeleteThenGet(service: UserService, id: Id) returns (deleted: Result<DeleteReply, AppError>, fetched: Result<UserView, AppError>)
    requires service.users.Valid()
    modifies service.users
    ensures service.users.Valid()
    ensures deleted.Success? <==> id in old(service.users.records)
    ensures fetched == Failure(ServiceErrors.UserNotFound)
  {
    deleted := service.DeleteUser(id, false);
    fetched := service.GetUserById(id, false);
  }
}
