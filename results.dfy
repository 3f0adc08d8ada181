/** What a controller action answers, reduced to the kinds of result the actions return. */
module ActionResults {

  /** Why a submitted form is shown again instead of being saved. */
  datatype FormError =
    | ModelErrors      // model validation failed
    | UnknownProject   // the task names a project that does not exist
    | UnknownAssignee  // the task names a user that does not exist
    | SaveFailed       // the database refused the task; the error is shown on the form

  datatype Outcome =
    | Ok               // the view, or the redirect that follows a successful save
    | NotFound
    | Unauthorized     // refused for want of a signed-in user or of the right role
    | Invalid(error: FormError)
    | ServerError      // status 500
}
