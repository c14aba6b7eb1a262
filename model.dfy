/** The focus state machine (model.rs): the rule book together with the focus, the path that
    is checked out and the commit it was built to. Every move builds the target path, checks
    the result out and, only when both succeed, moves the focus. */
module Model {

  import opened Wrappers
  import opened GitRepo
  import opened GitCache
  import opened Types
  import opened PatchSeries
  import opened Rules
  import opened Paths

  /** `Focus`: the path checked out and the commit it built to. */
  datatype Focus = Focus(path: Path, id: Oid)

  /** `model::Error`. */
  datatype ModelError = Git(failure: GitError) | Rule(rule: RuleError)

  function CannotAmend(): GitError {
    GitError(Invalid, InvalidClass, "Cannot amend unspecified target into series")
  }

  /** What the operations of the model read and write: the focus, the rule book with the
      cache and the rule refs, and the commit HEAD points to. */
  datatype ModelState = ModelState(focus: Option<Focus>, world: World, head: Oid)

  datatype Step = Step(result: Result<(), ModelError>, state: ModelState)

  datatype Checked = Checked(result: Result<Oid, ModelError>, world: World, head: Oid)

  /** `checkout_path`: build the path, then check the result out. HEAD moves to the build
      when the checkout succeeds, and also when it fails after detaching HEAD. */
  function CheckoutSpec(w: World, git: Repo, path: Path, bound: nat, head: Oid): Checked
    requires Grounded(w.book, path.name, bound)
  {
    var b := BuildPathSpec(w, git.cherryPick, path, bound);
    match b.result
    case Err(e) => Checked(Err(ModelError.Rule(e)), b.world, head)
    case Ok(id) =>
      match git.checkout(id)
      case CheckoutFailed(e, moved) => Checked(Err(ModelError.Git(e)), b.world, if moved then id else head)
      case CheckedOut => Checked(Ok(id), b.world, id)
  }

  /** Where `checkout_path` leaves HEAD: unmoved when the build fails or the checkout fails
      before detaching HEAD, and at the build otherwise, which is then also the result on
      success. A build error is reported as a rule-book error. */
  lemma CheckoutHead(w: World, git: Repo, path: Path, bound: nat, head: Oid)
    requires Grounded(w.book, path.name, bound)
    ensures var b := BuildPathSpec(w, git.cherryPick, path, bound);
            var c := CheckoutSpec(w, git, path, bound, head);
            && c.world == b.world
            && (b.result.Err? ==> c.result == Err(ModelError.Rule(b.result.error)) && c.head == head)
            && (b.result.Ok? && git.checkout(b.result.value).CheckedOut? ==> c.result == Ok(b.result.value) && c.head == b.result.value)
            && (b.result.Ok? && git.checkout(b.result.value).CheckoutFailed? ==>
                  && c.result == Err(ModelError.Git(git.checkout(b.result.value).failure))
                  && c.head == (if git.checkout(b.result.value).headMoved then b.result.value else head))
            && (c.result.Ok? ==> b.result.Ok? && c.head == c.result.value)
  {
  }

  /** The common end of `goto_next`, `goto_parent` and `goto_rule`: once the target path is
      known, check it out and focus it. */
  function Goto(st: ModelState, git: Repo, target: Result<Path, GitError>): Step
    requires Acyclic(st.world.book)
  {
    match target
    case Err(e) => Step(Err(ModelError.Git(e)), st)
    case Ok(p) =>
      AcyclicGrounded(st.world.book, p.name);
      var c := CheckoutSpec(st.world, git, p, |st.world.book|, st.head);
      match c.result
      case Err(e) => Step(Err(e), ModelState(st.focus, c.world, c.head))
      case Ok(id) => Step(Ok(()), ModelState(Some(Focus(p, id)), c.world, c.head))
  }

  /** `goto_next`: without a focus there is nothing to move. */
  function GotoNextSpec(st: ModelState, git: Repo): Step
    requires Acyclic(st.world.book)
  {
    match st.focus
    case None => Step(Ok(()), st)
    case Some(f) => Goto(st, git, Next(st.world.book, f.path))
  }

  /** `goto_parent`. */
  function GotoParentSpec(st: ModelState, git: Repo): Step
    requires Acyclic(st.world.book)
  {
    match st.focus
    case None => Step(Ok(()), st)
    case Some(f) => Goto(st, git, Parent(st.world.book, f.path))
  }

  /** `goto_rule`: the top of the named series. */
  function GotoRuleSpec(st: ModelState, git: Repo, name: string): Step
    requires Acyclic(st.world.book)
  {
    Goto(st, git, FromRule(st.world.book, name, Last))
  }

  /** The focused index is a patch of the focused series whenever that series exists. Both
      `set_patch` in `amend_focus` (which indexes the vector at `i`) and `insert_patch` in
      `commit_onto_focus` (which inserts at `i + 1`) panic otherwise. */
  predicate FocusInRange(book: Book, focus: Option<Focus>) {
    focus.Some? && focus.value.path.index.Some? &&
    SeriesOf(book, focus.value.path.name).Ok? ==>
      focus.value.path.index.value < |book[focus.value.path.name].series.patches|
  }

  /** Replacing a series by one with the same parent keeps the shape of the book. */
  lemma EditKeepsShape(book: Book, name: string, s: Series)
    requires name in book && book[name].SeriesRule? && s.parent == book[name].series.parent
    requires Acyclic(book)
    ensures Shape(book[name := SeriesRule(s)]) == Shape(book)
    ensures Acyclic(book[name := SeriesRule(s)])
  {
    ShapeUpdate(book, name, SeriesRule(s));
    AcyclicShape(book, book[name := SeriesRule(s)]);
  }

  /** Replacing the focused series by one with the same parent and checking a path out keeps
      the book acyclic. */
  lemma EditThenCheckout(w: World, git: Repo, name: string, s: Series, path: Path, head: Oid)
    requires name in w.book && w.book[name].SeriesRule? && s.parent == w.book[name].series.parent
    requires Acyclic(w.book)
    ensures var book := w.book[name := SeriesRule(s)];
            && Acyclic(book)
            && Grounded(book, path.name, |book|)
            && Acyclic(CheckoutSpec(w.(book := book), git, path, |book|, head).world.book)
  {
    var book := w.book[name := SeriesRule(s)];
    EditKeepsShape(w.book, name, s);
    AcyclicGrounded(book, path.name);
    BuildPathKeeps(w.(book := book), git.cherryPick, path, |book|);
    AcyclicShape(book, BuildPathSpec(w.(book := book), git.cherryPick, path, |book|).world.book);
  }

  /** `amend_focus`: amend the focused commit with the captured tree, put the result in place
      of the focused patch, and check the focused path out again. The series keeps the new
      patch even when the checkout then fails. */
  function AmendSpec(st: ModelState, git: Repo, useIndex: bool): Step
    requires Acyclic(st.world.book) && FocusInRange(st.world.book, st.focus)
  {
    match st.focus
    case None => Step(Ok(()), st)
    case Some(f) =>
      match f.path.index
      case None => Step(Err(ModelError.Git(CannotAmend())), st)
      case Some(i) =>
        match git.amend(f.id, useIndex)
        case Err(e) => Step(Err(ModelError.Git(e)), st)
        case Ok(amended) =>
          match SeriesOf(st.world.book, f.path.name)
          case Err(e) => Step(Err(ModelError.Git(e)), st)
          case Ok(s) =>
            var book := st.world.book[f.path.name := SeriesRule(s.SetPatch(i, amended))];
            EditKeepsShape(st.world.book, f.path.name, s.SetPatch(i, amended));
            AcyclicGrounded(book, f.path.name);
            var c := CheckoutSpec(st.world.(book := book), git, f.path, |book|, st.head);
            match c.result
            case Err(e) => Step(Err(e), ModelState(st.focus, c.world, c.head))
            case Ok(id) => Step(Ok(()), ModelState(Some(f.(id := id)), c.world, c.head))
  }

  /** Where `commit_onto_focus` puts the new patch: after the focused one, or at the end. */
  function AfterFocus(index: Index): Index {
    match index
    case None => None
    case Some(i) => Some(i + 1)
  }

  /** `commit_onto_focus`: commit the captured tree onto the focused commit, insert it into
      the focused series after the focused patch, and check out the new patch. */
  function CommitSpec(st: ModelState, git: Repo, message: string, useIndex: bool, sign: bool): Step
    requires Acyclic(st.world.book) && FocusInRange(st.world.book, st.focus)
  {
    match st.focus
    case None => Step(Ok(()), st)
    case Some(f) =>
      match git.commit(f.id, message, useIndex, sign)
      case Err(e) => Step(Err(ModelError.Git(e)), st)
      case Ok(id) =>
        match SeriesOf(st.world.book, f.path.name)
        case Err(e) => Step(Err(ModelError.Git(e)), st)
        case Ok(s) =>
          var (s', index) := s.InsertPatch(AfterFocus(f.path.index), id);
          var path := SeriesItem(f.path.name, index);
          var book := st.world.book[f.path.name := SeriesRule(s')];
          EditKeepsShape(st.world.book, f.path.name, s');
          AcyclicGrounded(book, f.path.name);
          var c := CheckoutSpec(st.world.(book := book), git, path, |book|, st.head);
          match c.result
          case Err(e) => Step(Err(e), ModelState(st.focus, c.world, c.head))
          case Ok(built) => Step(Ok(()), ModelState(Some(Focus(path, built)), c.world, c.head))
  }

  /** The focus-invalidation step of `load`: a focus survives only when HEAD still points at
      its commit; HEAD is read only when there is a focus. */
  function LoadFocus(focus: Option<Focus>, head: Result<Oid, GitError>): (r: Result<Option<Focus>, GitError>)
    ensures focus.None? ==> r == Ok(None)
    ensures focus.Some? && head.Err? ==> r == Err(head.error)
    ensures r.Ok? && r.value.Some? ==> r.value == focus && head == Ok(focus.value.id)
    ensures focus.Some? && head.Ok? && head.value != focus.value.id ==> r == Ok(None)
  {
    match focus
    case None => Ok(None)
    case Some(f) =>
      match head
      case Err(e) => Err(e)
      case Ok(h) => if h != f.id then Ok(None) else Ok(focus)
  }

  // ---------------------------------------------------------------------------------------
  // What the moves promise

  /** A move never changes the shape of the rule book; it focuses the target path at the
      commit built for it, which HEAD then points to, and on any error the focus stays. */
  lemma GotoOutcome(st: ModelState, git: Repo, target: Result<Path, GitError>)
    requires Acyclic(st.world.book)
    ensures target.Ok? ==> Grounded(st.world.book, target.value.name, |st.world.book|)
    ensures var s := Goto(st, git, target);
            && Shape(s.state.world.book) == Shape(st.world.book)
            && Acyclic(s.state.world.book)
            && (target.Err? ==> s == Step(Err(ModelError.Git(target.error)), st))
            && (s.result.Err? ==> s.state.focus == st.focus)
            && (s.result.Ok? ==>
                  && target.Ok?
                  && s.state.focus == Some(Focus(target.value, s.state.head))
                  && git.checkout(s.state.head).CheckedOut?
                  && BuildPathSpec(st.world, git.cherryPick, target.value, |st.world.book|).result == Ok(s.state.head))
  {
    if target.Ok? {
      AcyclicGrounded(st.world.book, target.value.name);
      BuildPathKeeps(st.world, git.cherryPick, target.value, |st.world.book|);
      AcyclicShape(st.world.book, Goto(st, git, target).state.world.book);
    }
  }

  /** `goto_next` and `goto_parent` without a focus change nothing; with one they move to
      `next` or `parent` of the focused path. */
  lemma GotoNextParentNoFocus(st: ModelState, git: Repo)
    requires Acyclic(st.world.book) && st.focus.None?
    ensures GotoNextSpec(st, git) == Step(Ok(()), st)
    ensures GotoParentSpec(st, git) == Step(Ok(()), st)
  {
  }

  /** Amending without a focus changes nothing, amending a focus with no index is refused,
      and on any error the focus stays. */
  lemma AmendOutcome(st: ModelState, git: Repo, useIndex: bool)
    requires Acyclic(st.world.book) && FocusInRange(st.world.book, st.focus)
    ensures var s := AmendSpec(st, git, useIndex);
            && Acyclic(s.state.world.book)
            && (st.focus.None? ==> s == Step(Ok(()), st))
            && (st.focus.Some? && st.focus.value.path.index.None? ==> s == Step(Err(ModelError.Git(CannotAmend())), st))
            && (s.result.Err? ==> s.state.focus == st.focus)
  {
    if st.focus.Some? && st.focus.value.path.index.Some? && git.amend(st.focus.value.id, useIndex).Ok? &&
       SeriesOf(st.world.book, st.focus.value.path.name).Ok? {
      var f := st.focus.value;
      var edited := st.world.book[f.path.name].series.SetPatch(f.path.index.value, git.amend(f.id, useIndex).value);
      EditThenCheckout(st.world, git, f.path.name, edited, f.path, st.head);
    }
  }

  /** Position `index` of `edited`, stored under `name` in place of the series there, has been
      built into `world` with result `head`: the stored series keeps its length and every patch
      above `index`, patch `index` is the cherry-pick of the one the edit put there onto the
      patch below it (the parent's build for the bottom patch), and `head` is that new patch. */
  ghost predicate BuiltEdit(w: World, pick: Picker, name: string, edited: Series, index: nat, world: World, head: Oid) {
    var book := w.book[name := SeriesRule(edited)];
    && Grounded(book, name, |book|)
    && var w' := w.(book := book);
    && BuildPathSpec(w', pick, SeriesItem(name, Some(index)), |book|) == Built(Ok(head), world)
    && name in world.book && world.book[name].SeriesRule?
    && var new_ := world.book[name].series;
    && |new_.patches| == |edited.patches| && index < |edited.patches|
    && (forall j :: index < j < |edited.patches| ==> new_.patches[j] == edited.patches[j])
    && head == new_.patches[index]
    && var parent := BuildSpec(w', pick, edited.parent, |book| - 1);
    && parent.result.Ok?
    && Link(world.items, Prev(parent.result.value, new_.patches, 0, index), edited.patches[index], new_.patches[index])
  }

  /** Building position `index` of a series just stored in place of the focused one: when the
      build succeeds, it is a `BuiltEdit`. */
  lemma EditedBuildSuccess(w: World, pick: Picker, name: string, edited: Series, index: nat)
    requires name in w.book && w.book[name].SeriesRule? && edited.parent == w.book[name].series.parent
    requires Acyclic(w.book) && index < |edited.patches|
    ensures var book := w.book[name := SeriesRule(edited)];
            && Grounded(book, name, |book|)
            && var b := BuildPathSpec(w.(book := book), pick, SeriesItem(name, Some(index)), |book|);
            b.result.Ok? ==> BuiltEdit(w, pick, name, edited, index, b.world, b.result.value)
  {
    var book := w.book[name := SeriesRule(edited)];
    EditKeepsShape(w.book, name, edited);
    AcyclicGrounded(book, name);
    var path := SeriesItem(name, Some(index));
    var w' := w.(book := book);
    var b := BuildPathSpec(w', pick, path, |book|);
    if b.result.Ok? {
      BuildPathSuccess(w', pick, path, |book|);
      var parent := BuildSpec(w', pick, edited.parent, |book| - 1);
      var new_ := b.world.book[name].series;
      assert Link(b.world.items, Prev(parent.result.value, new_.patches, 0, index), edited.patches[index], new_.patches[index]);
    }
  }

  /** A successful amend keeps the focused path and the length of the focused series, and
      rebuilds it as a `BuiltEdit` of the series with the amended commit in place of the
      focused patch: every patch above the focused one stays, the focused patch is the
      cherry-pick of the amended commit onto the build below it, and HEAD points at it. */
  lemma AmendSuccess(st: ModelState, git: Repo, useIndex: bool)
    requires Acyclic(st.world.book) && FocusInRange(st.world.book, st.focus)
    ensures var s := AmendSpec(st, git, useIndex);
            s.result.Ok? && st.focus.Some? ==>
              var f := st.focus.value;
              var name := f.path.name;
              var i := f.path.index.value;
              && git.amend(f.id, useIndex).Ok?
              && name in st.world.book && st.world.book[name].SeriesRule?
              && var old_ := st.world.book[name].series;
              && i < |old_.patches|
              && s.state.focus == Some(Focus(f.path, s.state.head))
              && BuiltEdit(st.world, git.cherryPick, name, old_.SetPatch(i, git.amend(f.id, useIndex).value), i,
                           s.state.world, s.state.head)
  {
    var s := AmendSpec(st, git, useIndex);
    if s.result.Ok? && st.focus.Some? {
      var f := st.focus.value;
      var name := f.path.name;
      var i := f.path.index.value;
      var amended := git.amend(f.id, useIndex).value;
      var old_ := st.world.book[name].series;
      var edited := old_.SetPatch(i, amended);
      var book := st.world.book[name := SeriesRule(edited)];
      EditKeepsShape(st.world.book, name, edited);
      AcyclicGrounded(book, name);
      var b := BuildPathSpec(st.world.(book := book), git.cherryPick, f.path, |book|);
      assert s.state.world == b.world;
      EditedBuildSuccess(st.world, git.cherryPick, name, edited, i);
    }
  }

  /** Committing without a focus changes nothing, and on any error the focus stays. */
  lemma CommitOutcome(st: ModelState, git: Repo, message: string, useIndex: bool, sign: bool)
    requires Acyclic(st.world.book) && FocusInRange(st.world.book, st.focus)
    ensures var s := CommitSpec(st, git, message, useIndex, sign);
            && Acyclic(s.state.world.book)
            && (st.focus.None? ==> s == Step(Ok(()), st))
            && (s.result.Err? ==> s.state.focus == st.focus)
  {
    if st.focus.Some? && git.commit(st.focus.value.id, message, useIndex, sign).Ok? &&
       SeriesOf(st.world.book, st.focus.value.path.name).Ok? {
      var f := st.focus.value;
      var id := git.commit(f.id, message, useIndex, sign).value;
      var (edited, index) := st.world.book[f.path.name].series.InsertPatch(AfterFocus(f.path.index), id);
      EditThenCheckout(st.world, git, f.path.name, edited, SeriesItem(f.path.name, index), st.head);
    }
  }

  /** A successful commit inserts one patch into the focused series right after the focused
      position (at the end from no position) and focuses the new patch; the series is rebuilt
      as a `BuiltEdit` of the series with the new commit inserted: the patches above it keep
      their order, the new patch is the cherry-pick of the new commit onto the build below
      it, and HEAD points at it. */
  lemma CommitSuccess(st: ModelState, git: Repo, message: string, useIndex: bool, sign: bool)
    requires Acyclic(st.world.book) && FocusInRange(st.world.book, st.focus)
    ensures var s := CommitSpec(st, git, message, useIndex, sign);
            s.result.Ok? && st.focus.Some? ==>
              var f := st.focus.value;
              var name := f.path.name;
              && git.commit(f.id, message, useIndex, sign).Ok?
              && name in st.world.book && st.world.book[name].SeriesRule?
              && var old_ := st.world.book[name].series;
              && var at := if f.path.index.Some? then f.path.index.value + 1 else |old_.patches|;
              && at <= |old_.patches|
              && s.state.focus == Some(Focus(SeriesItem(name, Some(at)), s.state.head))
              && BuiltEdit(st.world, git.cherryPick, name,
                           old_.InsertPatch(AfterFocus(f.path.index), git.commit(f.id, message, useIndex, sign).value).0,
                           at, s.state.world, s.state.head)
  {
    var s := CommitSpec(st, git, message, useIndex, sign);
    if s.result.Ok? && st.focus.Some? {
      var f := st.focus.value;
      var name := f.path.name;
      var id := git.commit(f.id, message, useIndex, sign).value;
      var old_ := st.world.book[name].series;
      var (edited, index) := old_.InsertPatch(AfterFocus(f.path.index), id);
      var path := SeriesItem(name, index);
      var book := st.world.book[name := SeriesRule(edited)];
      EditKeepsShape(st.world.book, name, edited);
      AcyclicGrounded(book, name);
      var b := BuildPathSpec(st.world.(book := book), git.cherryPick, path, |book|);
      assert s.state.world == b.world;
      EditedBuildSuccess(st.world, git.cherryPick, name, edited, index.value);
    }
  }

  // ---------------------------------------------------------------------------------------
  // The model as the source holds it

  /** `Model`: the rule book it owns and the focus. */
  class Model {
    const rules: RuleBook
    var focus: Option<Focus>

    /** `Model::new`. */
    constructor ()
      ensures fresh(rules) && rules.rules == map[] && focus == None
    {
      rules := new RuleBook();
      focus := None;
    }

    function Current(repo: CachedRepo): ModelState
      reads this, rules, repo, repo.cache
    {
      ModelState(focus, rules.Snapshot(repo), repo.head)
    }

    /** The focus-invalidation step of `load`, given what reading HEAD answered. */
    method InvalidateFocus(head: Result<Oid, GitError>) returns (r: Result<(), ModelError>)
      modifies this
      ensures LoadFocus(old(focus), head).Ok? ==> r == Ok(()) && focus == LoadFocus(old(focus), head).value
      ensures LoadFocus(old(focus), head).Err? ==> r == Err(ModelError.Git(head.error)) && focus == old(focus)
    {
      if focus.Some? {
        if head.Err? {
          return Err(ModelError.Git(head.error));
        }
        if head.value != focus.value.id {
          focus := None;
        }
      }
      r := Ok(());
    }

    /** `new_series`: any rule of that name is replaced by an empty series on `parent`. */
    method NewSeries(name: string, parent: string)
      modifies rules
      ensures rules.rules == WithRule(old(rules.rules), name, SeriesRule(PatchSeries.NewSeries(parent)))
    {
      rules.SetRule(name, SeriesRule(PatchSeries.NewSeries(parent)));
    }

    /** `new_anchor`. */
    method NewAnchor(name: string, id: Oid)
      modifies rules
      ensures rules.rules == WithRule(old(rules.rules), name, Anchor(id))
    {
      rules.SetRule(name, Anchor(id));
    }

    /** `checkout_path`. */
    method CheckoutPath(repo: CachedRepo, path: Path, ghost bound: nat) returns (r: Result<Oid, ModelError>)
      requires Grounded(rules.rules, path.name, bound)
      modifies rules, repo, repo.cache
      ensures Checked(r, rules.Snapshot(repo), repo.head) == CheckoutSpec(old(rules.Snapshot(repo)), repo.repo, path, bound, old(repo.head))
    {
      var built := rules.BuildPath(repo, path, bound);
      if built.Err? {
        return Err(ModelError.Rule(built.error));
      }
      var outcome := repo.repo.checkout(built.value);
      if outcome.CheckoutFailed? {
        if outcome.headMoved {
          repo.head := built.value;
        }
        return Err(ModelError.Git(outcome.failure));
      }
      repo.head := built.value;
      r := Ok(built.value);
    }

    method GotoNext(repo: CachedRepo) returns (r: Result<(), ModelError>)
      requires Acyclic(rules.rules)
      modifies this, rules, repo, repo.cache
      ensures Step(r, Current(repo)) == GotoNextSpec(old(Current(repo)), repo.repo)
    {
      if focus.None? {
        return Ok(());
      }
      var path := Next(rules.rules, focus.value.path);
      if path.Err? {
        return Err(ModelError.Git(path.error));
      }
      AcyclicGrounded(rules.rules, path.value.name);
      var id := CheckoutPath(repo, path.value, |rules.rules|);
      if id.Err? {
        return Err(id.error);
      }
      focus := Some(Focus(path.value, id.value));
      r := Ok(());
    }

    method GotoParent(repo: CachedRepo) returns (r: Result<(), ModelError>)
      requires Acyclic(rules.rules)
      modifies this, rules, repo, repo.cache
      ensures Step(r, Current(repo)) == GotoParentSpec(old(Current(repo)), repo.repo)
    {
      if focus.None? {
        return Ok(());
      }
      var path := Parent(rules.rules, focus.value.path);
      if path.Err? {
        return Err(ModelError.Git(path.error));
      }
      AcyclicGrounded(rules.rules, path.value.name);
      var id := CheckoutPath(repo, path.value, |rules.rules|);
      if id.Err? {
        return Err(id.error);
      }
      focus := Some(Focus(path.value, id.value));
      r := Ok(());
    }

    method GotoRule(repo: CachedRepo, name: string) returns (r: Result<(), ModelError>)
      requires Acyclic(rules.rules)
      modifies this, rules, repo, repo.cache
      ensures Step(r, Current(repo)) == GotoRuleSpec(old(Current(repo)), repo.repo, name)
    {
      var path := FromRule(rules.rules, name, Last);
      if path.Err? {
        return Err(ModelError.Git(path.error));
      }
      AcyclicGrounded(rules.rules, path.value.name);
      var id := CheckoutPath(repo, path.value, |rules.rules|);
      if id.Err? {
        return Err(id.error);
      }
      focus := Some(Focus(path.value, id.value));
      r := Ok(());
    }

    method AmendFocus(repo: CachedRepo, useIndex: bool) returns (r: Result<(), ModelError>)
      requires Acyclic(rules.rules) && FocusInRange(rules.rules, focus)
      modifies this, rules, repo, repo.cache
      ensures Step(r, Current(repo)) == AmendSpec(old(Current(repo)), repo.repo, useIndex)
    {
      if focus.None? {
        return Ok(());
      }
      var f := focus.value;
      if f.path.index.None? {
        return Err(ModelError.Git(CannotAmend()));
      }
      var amended := repo.repo.amend(f.id, useIndex);
      if amended.Err? {
        return Err(ModelError.Git(amended.error));
      }
      var series := SeriesOf(rules.rules, f.path.name);
      if series.Err? {
        return Err(ModelError.Git(series.error));
      }
      var edited := series.value.SetPatch(f.path.index.value, amended.value);
      EditKeepsShape(rules.rules, f.path.name, edited);
      rules.SetRule(f.path.name, SeriesRule(edited));
      AcyclicGrounded(rules.rules, f.path.name);
      var id := CheckoutPath(repo, f.path, |rules.rules|);
      if id.Err? {
        return Err(id.error);
      }
      focus := Some(f.(id := id.value));
      r := Ok(());
    }

    method CommitOntoFocus(repo: CachedRepo, message: string, useIndex: bool, sign: bool)
      returns (r: Result<(), ModelError>)
      requires Acyclic(rules.rules) && FocusInRange(rules.rules, focus)
      modifies this, rules, repo, repo.cache
      ensures Step(r, Current(repo)) == CommitSpec(old(Current(repo)), repo.repo, message, useIndex, sign)
    {
      if focus.None? {
        return Ok(());
      }
      var f := focus.value;
      var id := repo.repo.commit(f.id, message, useIndex, sign);
      if id.Err? {
        return Err(ModelError.Git(id.error));
      }
      var series := SeriesOf(rules.rules, f.path.name);
      if series.Err? {
        return Err(ModelError.Git(series.error));
      }
      var (edited, index) := series.value.InsertPatch(AfterFocus(f.path.index), id.value);
      EditKeepsShape(rules.rules, f.path.name, edited);
      rules.SetRule(f.path.name, SeriesRule(edited));
      var path := SeriesItem(f.path.name, index);
      AcyclicGrounded(rules.rules, path.name);
      var built := CheckoutPath(repo, path, |rules.rules|);
      if built.Err? {
        return Err(built.error);
      }
      focus := Some(Focus(path, built.value));
      r := Ok(());
    }
  }
}
