/** The boundary to git. Object ids are content hashes that the model only compares, and every
    operation that asks libgit2 to do something (cherry-pick, checkout, amend, commit) is an
    oracle: a function supplied by the caller whose answer the model takes as given. */
module GitRepo {

  import opened Wrappers

  /** A git object id. Only equality of ids matters to the model. */
  type Oid = nat

  /** The subset of libgit2's error codes the core raises or inspects. */
  datatype ErrorCode = GenericError | NotFound | Ambiguous | Invalid

  /** The subset of libgit2's error classes the core uses (`ErrorClass::None` is `NoClass`). */
  datatype ErrorClass = NoClass | Reference | Tree | InvalidClass

  /** `git2::Error`: a code, a class and a message. */
  datatype GitError = GitError(code: ErrorCode, errorClass: ErrorClass, message: string)

  /** What the repository answers when asked to cherry-pick `cherry` onto `target`:
      the new commit, an index with conflicts, or a failure of libgit2 itself. */
  datatype PickOutcome = Picked(id: Oid) | Conflicted | Failed(failure: GitError)

  /** The cherry-pick oracle: `(target, cherry, sign)` to the repository's answer. */
  type Picker = (Oid, Oid, bool) -> PickOutcome

  /** `git_helper::Error`: the error of one cherry-pick. The list of conflicting index entries
      is not modelled. */
  datatype HelperError =
    | GitFailure(failure: GitError)
    | CherryPickConflict(target: Oid, cherry: Oid)

  /** What `git_helper::checkout` did: it succeeded, or it failed with `failure`. `headMoved`
      says whether HEAD had already been detached onto the commit when it failed: the reset,
      the checkout of the working tree and the index write all come after that step. */
  datatype CheckoutOutcome = CheckedOut | CheckoutFailed(failure: GitError, headMoved: bool)

  /** The repository as the core sees it.
      - `cherryPick(target, cherry, sign)`: `find_commit` of both ids and `git_helper::cherry_pick`;
      - `checkout(id)`: `find_commit(id)` and `git_helper::checkout`;
      - `amend(focus, useIndex)`: capture the working tree or index and amend the focused commit with it;
      - `commit(parent, message, useIndex, sign)`: capture the tree and commit it onto `parent`. */
  datatype Repo = Repo(
    cherryPick: Picker,
    checkout: Oid -> CheckoutOutcome,
    amend: (Oid, bool) -> Result<Oid, GitError>,
    commit: (Oid, string, bool, bool) -> Result<Oid, GitError>
  )
}
