/** The home page: the combined catalog, the actions each card offers, and the
    confirm-before-delete dialog. */
module Home {
  import opened Types
  import QuizContext

  /** The buttons a quiz card can show. */
  datatype Action = Edit | Delete | TakeTest

  /** `currentUser?.isAdmin`. */
  function IsAdmin(user: Option<User>): (admin: bool)
    ensures user.None? ==> !admin
    ensures user.Some? ==> admin == user.value.isAdmin
  {
    user.Some? && user.value.isAdmin
  }

  /** Admins get Edit and Delete; everyone else, signed in or not, gets Take Test only. */
  function CardActions(user: Option<User>): (actions: set<Action>)
    ensures Edit in actions <==> IsAdmin(user)
    ensures Delete in actions <==> IsAdmin(user)
    ensures TakeTest in actions <==> !IsAdmin(user)
  {
    if IsAdmin(user) then {Edit, Delete} else {TakeTest}
  }

  /** Deleting by id touches only the user list, so a quiz of the seed list stays
      listed at its place and stays the one that lookups by its id find. */
  lemma DeleteKeepsSeedQuizzes(seed: seq<Quiz>, userQuizzes: seq<Quiz>, id: string)
    ensures Find(seed, id).Some? ==>
      LookupQuiz(seed, QuizContext.Without(userQuizzes, id), id) == LookupQuiz(seed, userQuizzes, id)
    ensures Find(seed, id).None? ==> LookupQuiz(seed, QuizContext.Without(userQuizzes, id), id).None?
  {
  }

  /** The dialog's two fields. */
  class DeleteDialog {
    var openDeleteDialog: bool
    var quizToDelete: Option<string>

    constructor ()
      ensures !openDeleteDialog && quizToDelete == None
    {
      openDeleteDialog := false;
      quizToDelete := None;
    }

    method HandleDeleteClick(id: string)
      modifies this
      ensures openDeleteDialog && quizToDelete == Some(id)
    {
      quizToDelete := Some(id);
      openDeleteDialog := true;
    }

    /** Deletes the pending id, unless there is none or it is the empty string
        (which `if (quizToDelete)` treats as none), then closes the dialog. */
    method HandleDeleteConfirm(provider: QuizContext.QuizProvider)
      requires provider.Valid()
      modifies this, provider
      ensures !openDeleteDialog && quizToDelete == None
      ensures provider.Valid() && provider.results == old(provider.results)
      ensures old(quizToDelete).Some? && old(quizToDelete).value != "" ==>
        && provider.quizzes == QuizContext.Without(old(provider.quizzes), old(quizToDelete).value)
        && provider.storage == QuizContext.Save(old(provider.storage), provider.quizzes, provider.results)
      ensures !(old(quizToDelete).Some? && old(quizToDelete).value != "") ==>
        provider.quizzes == old(provider.quizzes) && provider.storage == old(provider.storage)
    {
      if quizToDelete.Some? && quizToDelete.value != "" {
        provider.DeleteQuiz(quizToDelete.value);
      }
      openDeleteDialog := false;
      quizToDelete := None;
    }

    method HandleDeleteCancel()
      modifies this
      ensures !openDeleteDialog && quizToDelete == None
    {
      openDeleteDialog := false;
      quizToDelete := None;
    }
  }
}
