/**
 * The errors the admin and user services raise around the store calls they
 * share: a missing id is a 404, a store failure a 500 with a per-operation
 * message.
 */
module ServiceErrors {
  import opened ErrorHandler

  const UserNotFound := AppError("User not found", 404, "USER_NOT_FOUND")
  const FetchUserError := AppError("Failed to fetch user", 500, "FETCH_ERROR")
  const UpdateUserError := AppError("Failed to update user", 500, "UPDATE_ERROR")
  const DeleteUserError := AppError("Failed to delete user", 500, "DELETE_ERROR")
  const DeletedMessage: string := "User deleted successfully"
}
