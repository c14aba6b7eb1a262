/** The rule book (rules.rs): a map from rule name to rule, where a rule is either a series
    of patches on top of a parent rule or an anchor pinning a commit. Building a rule builds
    its parent first, so the build recurses along the parent chain; it terminates when that
    chain ends, which `Grounded` states with an explicit bound on its length. */
module Rules {

  import opened Wrappers
  import opened GitRepo
  import opened GitCache
  import opened Types
  import opened PatchSeries

  /** `Rule`; an anchor (anchor.rs) is just the commit it pins. */
  datatype Rule = SeriesRule(series: Series) | Anchor(id: Oid) {

    /** `Rule::parent`. */
    function Parent(): (p: Option<string>)
      ensures p.Some? <==> SeriesRule?
      ensures SeriesRule? ==> p.value == series.parent
    {
      match this
      case SeriesRule(s) => Some(s.parent)
      case Anchor(_) => None
    }
  }

  type Book = map<string, Rule>

  function RuleNotFound(name: string): GitError {
    GitError(NotFound, Reference, "Could not find rule " + name)
  }

  function NotASeries(name: string): GitError {
    GitError(NotFound, NoClass, "Expected " + name + " to be a series")
  }

  /** `RuleBook::rule` (and `rule_mut`, whose caller then writes the changed rule back). */
  function Lookup(book: Book, name: string): (r: Result<Rule, GitError>)
    ensures r.Ok? <==> name in book
    ensures r.Ok? ==> r.value == book[name]
    ensures r.Err? ==> r.error.code == NotFound && r.error.errorClass == Reference
  {
    if name in book then Ok(book[name]) else Err(RuleNotFound(name))
  }

  /** `RuleBook::series` (and `series_mut`): the rule must exist and be a series. */
  function SeriesOf(book: Book, name: string): (r: Result<Series, GitError>)
    ensures r.Ok? <==> name in book && book[name].SeriesRule?
    ensures r.Ok? ==> book[name] == SeriesRule(r.value)
    ensures name !in book ==> r == Err(RuleNotFound(name))
    ensures name in book && book[name].Anchor? ==> r == Err(NotASeries(name))
  {
    match Lookup(book, name)
    case Err(e) => Err(e)
    case Ok(SeriesRule(s)) => Ok(s)
    case Ok(Anchor(_)) => Err(NotASeries(name))
  }

  /** `RuleBook::set_rule`: afterwards the name looks up the new rule and every other name
      what it did before. */
  function WithRule(book: Book, name: string, rule: Rule): (b: Book)
    ensures Lookup(b, name) == Ok(rule)
    ensures forall n :: n != name ==> Lookup(b, n) == Lookup(book, n)
  {
    book[name := rule]
  }

  /** `RuleBook::find_rule_use`: the series built directly on `name`. The source returns
      them in map order, which it does not specify, so the model returns a set. */
  function Dependents(book: Book, name: string): (ds: set<string>)
    ensures forall n :: n in ds <==> n in book && book[n].SeriesRule? && book[n].series.parent == name
  {
    set n | n in book && book[n].Parent() == Some(name)
  }

  /** `Error::from_series_error`: a series conflict becomes a conflict at a path into the
      named series; a rule-book error from building the parent is passed on unchanged. */
  function FromSeriesError(name: string, e: SeriesError): (r: RuleError)
    ensures e.PatchConflict? ==> r == RuleError.PatchConflict(SeriesItem(name, Some(e.index)), e.base, e.patch)
    ensures e.Git? ==> r == RuleError.Git(e.failure)
    ensures e.Rule? ==> r == e.rule
  {
    match e
    case Git(g) => RuleError.Git(g)
    case Rule(done) => done
    case PatchConflict(index, base, patch) => RuleError.PatchConflict(SeriesItem(name, Some(index)), base, patch)
  }

  // ---------------------------------------------------------------------------------------
  // The parent graph

  function ParentOf(book: Book, name: string): Option<string> {
    if name in book then book[name].Parent() else None
  }

  /** What building never changes about a rule: whether it is an anchor and which commit it
      pins, or whether it is a series and which rule its parent is. */
  datatype RuleShape = SeriesShape(parent: string) | AnchorShape(id: Oid)

  function ShapeOf(r: Rule): RuleShape {
    match r
    case SeriesRule(s) => SeriesShape(s.parent)
    case Anchor(id) => AnchorShape(id)
  }

  ghost function Shape(book: Book): map<string, RuleShape> {
    map n | n in book :: ShapeOf(book[n])
  }

  /** Following parents from `name` reaches a rule that is not a series (an anchor or a
      missing name) in at most `bound` steps. */
  ghost predicate Grounded(book: Book, name: string, bound: nat)
    decreases bound
  {
    match ParentOf(book, name)
    case None => true
    case Some(p) => bound > 0 && Grounded(book, p, bound - 1)
  }

  /** The parent graph has no cycle: every chain ends within as many steps as there are rules. */
  ghost predicate Acyclic(book: Book) {
    forall n :: n in book ==> Grounded(book, n, |book|)
  }

  /** The series met when following parents from `name`, `name` included when it is one. */
  ghost function Chain(book: Book, name: string, bound: nat): set<string>
    requires Grounded(book, name, bound)
    decreases bound
  {
    match ParentOf(book, name)
    case None => {}
    case Some(p) => {name} + Chain(book, p, bound - 1)
  }

  lemma AcyclicGrounded(book: Book, name: string)
    requires Acyclic(book)
    ensures Grounded(book, name, |book|)
  {
  }

  lemma ShapeParentOf(b1: Book, b2: Book, name: string)
    requires Shape(b1) == Shape(b2)
    ensures ParentOf(b1, name) == ParentOf(b2, name)
  {
    assert name in b1 <==> name in Shape(b1);
    assert name in b2 <==> name in Shape(b2);
    if name in b1 {
      assert ShapeOf(b1[name]) == Shape(b1)[name] == Shape(b2)[name] == ShapeOf(b2[name]);
    }
  }

  /** Whether a chain is grounded, and what it meets, depend only on the shape of the book. */
  lemma {:induction false} ShapeGrounded(b1: Book, b2: Book, name: string, bound: nat)
    requires Shape(b1) == Shape(b2)
    ensures Grounded(b1, name, bound) <==> Grounded(b2, name, bound)
    ensures Grounded(b1, name, bound) ==> Chain(b1, name, bound) == Chain(b2, name, bound)
    decreases bound
  {
    ShapeParentOf(b1, b2, name);
    if ParentOf(b1, name).Some? && bound > 0 {
      ShapeGrounded(b1, b2, ParentOf(b1, name).value, bound - 1);
    }
  }

  lemma {:induction false} GroundedMonotone(book: Book, name: string, k: nat, k': nat)
    requires Grounded(book, name, k) && k <= k'
    ensures Grounded(book, name, k')
    ensures Chain(book, name, k) == Chain(book, name, k')
    decreases k
  {
    if ParentOf(book, name).Some? {
      GroundedMonotone(book, ParentOf(book, name).value, k - 1, k' - 1);
    }
  }

  lemma {:induction false} ChainMemberGrounded(book: Book, x: string, k: nat, n: string)
    requires Grounded(book, x, k) && n in Chain(book, x, k)
    ensures Grounded(book, n, k)
    decreases k
  {
    var p := ParentOf(book, x).value;
    if n != x {
      ChainMemberGrounded(book, p, k - 1, n);
      GroundedMonotone(book, n, k - 1, k);
    }
  }

  /** A grounded series never lies on its own parent's chain. */
  lemma {:induction false} NotOnParentChain(book: Book, name: string, k: nat)
    requires Grounded(book, name, k) && ParentOf(book, name).Some?
    ensures name !in Chain(book, ParentOf(book, name).value, k - 1)
    decreases k
  {
    var p := ParentOf(book, name).value;
    if name in Chain(book, p, k - 1) {
      ChainMemberGrounded(book, p, k - 1, name);
      GroundedMonotone(book, p, k - 2, k - 1);
      NotOnParentChain(book, name, k - 1);
    }
  }

  lemma ShapeUpdate(book: Book, name: string, r: Rule)
    requires name in book && ShapeOf(book[name]) == ShapeOf(r)
    ensures Shape(book[name := r]) == Shape(book)
  {
    assert Shape(book[name := r]).Keys == Shape(book).Keys;
  }

  lemma AcyclicShape(b1: Book, b2: Book)
    requires Acyclic(b1) && Shape(b1) == Shape(b2)
    ensures Acyclic(b2)
  {
    assert b1.Keys == Shape(b1).Keys == Shape(b2).Keys == b2.Keys;
    assert |b1| == |b2| by {
      assert |b1.Keys| == |b2.Keys|;
    }
    forall n | n in b2
      ensures Grounded(b2, n, |b2|)
    {
      ShapeGrounded(b1, b2, n, |b1|);
    }
  }

  // ---------------------------------------------------------------------------------------
  // Building, on values

  /** The state a build reads and writes: the rules, the cherry-pick cache and the rule refs. */
  datatype World = World(book: Book, items: Items, refs: map<string, Oid>)

  datatype Built = Built(result: Result<Oid, RuleError>, world: World)

  datatype SeriesBuilt = SeriesBuilt(result: Result<Oid, SeriesError>, series: Series, world: World)

  /** `RuleBook::build`: a missing rule is an error, an anchor builds to its commit, a series
      is built on a clone that is stored back only when its build succeeds; the rule ref of
      the rule built is set to the result. */
  function BuildSpec(w: World, pick: Picker, name: string, bound: nat): Built
    requires Grounded(w.book, name, bound)
    decreases bound, 0
  {
    match Lookup(w.book, name)
    case Err(e) => Built(Err(RuleError.Git(e)), w)
    case Ok(Anchor(id)) => Built(Ok(id), w.(refs := w.refs[name := id]))
    case Ok(SeriesRule(s)) =>
      var sb := BuildSeriesSpec(w, pick, s, |s.patches|, bound - 1);
      match sb.result
      case Err(e) => Built(Err(FromSeriesError(name, e)), sb.world)
      case Ok(id) =>
        var stored := sb.world.(book := sb.world.book[name := SeriesRule(sb.series)]);
        Built(Ok(id), stored.(refs := stored.refs[name := id]))
  }

  /** `Series::build_partial`: build the parent, then run the loop over the first `count`
      patches of the clone. */
  function BuildSeriesSpec(w: World, pick: Picker, s: Series, count: nat, bound: nat): SeriesBuilt
    requires Grounded(w.book, s.parent, bound)
    decreases bound, 1
  {
    var pb := BuildSpec(w, pick, s.parent, bound);
    match pb.result
    case Err(e) => SeriesBuilt(Err(SeriesError.Rule(e)), s, pb.world)
    case Ok(base) =>
      var f := Fold(pick, pb.world.items, s, base, count);
      SeriesBuilt(f.result, s.(patches := f.patches), pb.world.(items := f.items))
  }

  /** `RuleBook::build_path`: build the named series up to the path's position; the series is
      stored back on success, and the rule ref moves only when the position is the top. */
  function BuildPathSpec(w: World, pick: Picker, path: Path, bound: nat): Built
    requires Grounded(w.book, path.name, bound)
  {
    match SeriesOf(w.book, path.name)
    case Err(e) => Built(Err(RuleError.Git(e)), w)
    case Ok(s) =>
      var isTop := s.IsTopPatch(path.index);
      var sb := BuildSeriesSpec(w, pick, s, s.BuildAtCount(path.index), bound - 1);
      match sb.result
      case Err(e) => Built(Err(FromSeriesError(path.name, e)), sb.world)
      case Ok(id) =>
        var stored := sb.world.(book := sb.world.book[path.name := SeriesRule(sb.series)]);
        Built(Ok(id), if isTop then stored.(refs := stored.refs[path.name := id]) else stored)
  }

  // ---------------------------------------------------------------------------------------
  // What a build keeps

  /** Building keeps the shape of the book, changes only the series on the chain it builds,
      and never changes or forgets a cache entry. */
  lemma {:induction false} BuildKeeps(w: World, pick: Picker, name: string, bound: nat)
    requires Grounded(w.book, name, bound)
    ensures var b := BuildSpec(w, pick, name, bound);
            && Shape(b.world.book) == Shape(w.book)
            && (forall n :: n in w.book && n !in Chain(w.book, name, bound) ==> n in b.world.book && b.world.book[n] == w.book[n])
            && (forall a :: a in w.items ==> a in b.world.items && b.world.items[a] == w.items[a])
    decreases bound, 0
  {
    match Lookup(w.book, name)
    case Err(_) =>
    case Ok(Anchor(_)) =>
    case Ok(SeriesRule(s)) =>
      var sb := BuildSeriesSpec(w, pick, s, |s.patches|, bound - 1);
      BuildSeriesKeeps(w, pick, s, |s.patches|, bound - 1);
      if sb.result.Ok? {
        assert name in sb.world.book by {
          assert name in Shape(w.book);
        }
        assert ShapeOf(sb.world.book[name]) == Shape(sb.world.book)[name] == Shape(w.book)[name];
        ShapeUpdate(sb.world.book, name, SeriesRule(sb.series));
      }
  }

  lemma {:induction false} BuildSeriesKeeps(w: World, pick: Picker, s: Series, count: nat, bound: nat)
    requires Grounded(w.book, s.parent, bound)
    ensures var sb := BuildSeriesSpec(w, pick, s, count, bound);
            && sb.series.parent == s.parent && |sb.series.patches| == |s.patches|
            && Shape(sb.world.book) == Shape(w.book)
            && (forall n :: n in w.book && n !in Chain(w.book, s.parent, bound) ==> n in sb.world.book && sb.world.book[n] == w.book[n])
            && (forall a :: a in w.items ==> a in sb.world.items && sb.world.items[a] == w.items[a])
    decreases bound, 1
  {
    var pb := BuildSpec(w, pick, s.parent, bound);
    BuildKeeps(w, pick, s.parent, bound);
    if pb.result.Ok? {
      FoldFrame(pick, pb.world.items, s.patches, pb.result.value, 0, Min(count, |s.patches|));
    }
  }

  /** The parent structure survives a build, so an acyclic book stays acyclic. */
  lemma BuildKeepsAcyclic(w: World, pick: Picker, name: string, bound: nat)
    requires Grounded(w.book, name, bound) && Acyclic(w.book)
    ensures Acyclic(BuildSpec(w, pick, name, bound).world.book)
  {
    BuildKeeps(w, pick, name, bound);
    AcyclicShape(w.book, BuildSpec(w, pick, name, bound).world.book);
  }

  /** `build_path` keeps the shape of the book and never changes or forgets a cache entry. */
  lemma BuildPathKeeps(w: World, pick: Picker, path: Path, bound: nat)
    requires Grounded(w.book, path.name, bound)
    ensures var b := BuildPathSpec(w, pick, path, bound);
            && Shape(b.world.book) == Shape(w.book)
            && (forall a :: a in w.items ==> a in b.world.items && b.world.items[a] == w.items[a])
  {
    match SeriesOf(w.book, path.name)
    case Err(_) =>
    case Ok(s) =>
      var sb := BuildSeriesSpec(w, pick, s, s.BuildAtCount(path.index), bound - 1);
      BuildSeriesKeeps(w, pick, s, s.BuildAtCount(path.index), bound - 1);
      if sb.result.Ok? {
        assert path.name in sb.world.book by {
          assert path.name in Shape(w.book);
        }
        assert ShapeOf(sb.world.book[path.name]) == Shape(sb.world.book)[path.name] == Shape(w.book)[path.name];
        ShapeUpdate(sb.world.book, path.name, SeriesRule(sb.series));
      }
  }

  /** An anchor builds to the commit it pins; the rules and the cache are unchanged and only
      its rule ref is written. */
  lemma BuildAnchor(w: World, pick: Picker, name: string, bound: nat)
    requires name in w.book && w.book[name].Anchor?
    ensures Grounded(w.book, name, bound)
    ensures BuildSpec(w, pick, name, bound)
            == Built(Ok(w.book[name].id), w.(refs := w.refs[name := w.book[name].id]))
  {
  }

  /** A failed build never overwrites the entry of the rule it was asked to build. */
  lemma BuildFailureKeepsEntry(w: World, pick: Picker, name: string, bound: nat)
    requires Grounded(w.book, name, bound)
    requires BuildSpec(w, pick, name, bound).result.Err?
    ensures name in w.book ==> name in BuildSpec(w, pick, name, bound).world.book
                               && BuildSpec(w, pick, name, bound).world.book[name] == w.book[name]
  {
    if name in w.book && w.book[name].SeriesRule? {
      var s := w.book[name].series;
      BuildSeriesKeeps(w, pick, s, |s.patches|, bound - 1);
      NotOnParentChain(w.book, name, bound);
      assert name in Shape(w.book);
    }
  }

  /** A successful build of a series starts from the parent's build, rewrites every patch to
      the cherry-pick of its original onto the commit before it (the cache records each step),
      returns the last of them, stores the rewritten series under its name and sets its ref. */
  lemma BuildSeriesSuccess(w: World, pick: Picker, name: string, bound: nat)
    requires Grounded(w.book, name, bound)
    requires name in w.book && w.book[name].SeriesRule?
    requires BuildSpec(w, pick, name, bound).result.Ok?
    ensures var s := w.book[name].series;
            var b := BuildSpec(w, pick, name, bound);
            var parent := BuildSpec(w, pick, s.parent, bound - 1);
            && parent.result.Ok?
            && name in b.world.book && b.world.book[name].SeriesRule?
            && var s' := b.world.book[name].series;
            && s'.parent == s.parent && |s'.patches| == |s.patches|
            && Linked(b.world.items, parent.result.value, s.patches, s'.patches, 0, |s.patches|)
            && b.result.value == Prev(parent.result.value, s'.patches, 0, |s.patches|)
            && name in b.world.refs && b.world.refs[name] == b.result.value
  {
    var s := w.book[name].series;
    var parent := BuildSpec(w, pick, s.parent, bound - 1);
    var sb := BuildSeriesSpec(w, pick, s, |s.patches|, bound - 1);
    if parent.result.Ok? {
      FoldSuccess(pick, parent.world.items, s.patches, parent.result.value, 0, |s.patches|);
    }
  }

  /** When the parent builds, every conflict a series build reports is its own: at a path
      into that series, naming the original patch and, for the first patch, the parent's
      build. The rule entry itself is left as it was. */
  lemma BuildSeriesConflict(w: World, pick: Picker, name: string, bound: nat)
    requires Grounded(w.book, name, bound)
    requires name in w.book && w.book[name].SeriesRule?
    requires BuildSpec(w, pick, w.book[name].series.parent, bound - 1).result.Ok?
    requires BuildSpec(w, pick, name, bound).result.Err?
    requires BuildSpec(w, pick, name, bound).result.error.PatchConflict?
    ensures var s := w.book[name].series;
            var base := BuildSpec(w, pick, s.parent, bound - 1).result.value;
            var c := BuildSpec(w, pick, name, bound).result.error;
            && c.path.name == name && c.path.index.Some?
            && c.path.index.value < |s.patches|
            && c.patch == s.patches[c.path.index.value]
            && (c.path.index.value == 0 ==> c.base == base)
            && name in BuildSpec(w, pick, name, bound).world.book
            && BuildSpec(w, pick, name, bound).world.book[name] == w.book[name]
  {
    var s := w.book[name].series;
    var parent := BuildSpec(w, pick, s.parent, bound - 1);
    FoldFrame(pick, parent.world.items, s.patches, parent.result.value, 0, |s.patches|);
    FoldConflict(pick, parent.world.items, s.patches, parent.result.value, 0, |s.patches|);
    BuildFailureKeepsEntry(w, pick, name, bound);
  }

  /** A successful `build_path` processes the patches up to and including the path's
      position (all of them for `None`), leaves the later ones as they were, and moves the
      rule ref only when the position is the top of the series. */
  lemma BuildPathSuccess(w: World, pick: Picker, path: Path, bound: nat)
    requires Grounded(w.book, path.name, bound)
    requires BuildPathSpec(w, pick, path, bound).result.Ok?
    ensures path.name in w.book && w.book[path.name].SeriesRule?
    ensures var s := w.book[path.name].series;
            var b := BuildPathSpec(w, pick, path, bound);
            var parent := BuildSpec(w, pick, s.parent, bound - 1);
            var done := Min(s.BuildAtCount(path.index), |s.patches|);
            && parent.result.Ok?
            && path.name in b.world.book && b.world.book[path.name].SeriesRule?
            && var s' := b.world.book[path.name].series;
            && s'.parent == s.parent && |s'.patches| == |s.patches|
            && Linked(b.world.items, parent.result.value, s.patches, s'.patches, 0, done)
            && (forall j :: done <= j < |s.patches| ==> s'.patches[j] == s.patches[j])
            && b.result.value == Prev(parent.result.value, s'.patches, 0, done)
            && (s.IsTopPatch(path.index) ==> path.name in b.world.refs && b.world.refs[path.name] == b.result.value)
            && (!s.IsTopPatch(path.index) ==> b.world.refs == parent.world.refs)
  {
    var s := w.book[path.name].series;
    var parent := BuildSpec(w, pick, s.parent, bound - 1);
    var done := Min(s.BuildAtCount(path.index), |s.patches|);
    FoldFrame(pick, parent.world.items, s.patches, parent.result.value, 0, done);
    FoldSuccess(pick, parent.world.items, s.patches, parent.result.value, 0, done);
  }

  // ---------------------------------------------------------------------------------------
  // The rule book as the source holds it

  /** `update_rule_ref`: point `refs/unstacked/rule/<name>` at `id`. */
  method UpdateRuleRef(repo: CachedRepo, name: string, id: Oid)
    modifies repo
    ensures repo.ruleRefs == old(repo.ruleRefs)[name := id]
    ensures repo.head == old(repo.head)
  {
    repo.ruleRefs := repo.ruleRefs[name := id];
  }

  class RuleBook {
    var rules: Book

    constructor ()
      ensures rules == map[]
    {
      rules := map[];
    }

    function Snapshot(repo: CachedRepo): World
      reads this, repo, repo.cache
    {
      World(rules, repo.cache.items, repo.ruleRefs)
    }

    method SetRule(name: string, rule: Rule)
      modifies this
      ensures rules == WithRule(old(rules), name, rule)
    {
      rules := rules[name := rule];
    }

    method Build(repo: CachedRepo, name: string, ghost bound: nat) returns (r: Result<Oid, RuleError>)
      requires Grounded(rules, name, bound)
      modifies this, repo, repo.cache
      ensures Built(r, Snapshot(repo)) == BuildSpec(old(Snapshot(repo)), repo.repo.cherryPick, name, bound)
      ensures repo.head == old(repo.head)
      decreases bound, 0
    {
      match Lookup(rules, name)
      case Err(e) =>
        r := Err(RuleError.Git(e));
      case Ok(Anchor(id)) =>
        UpdateRuleRef(repo, name, id);
        r := Ok(id);
      case Ok(SeriesRule(s)) =>
        var built, s' := BuildPartial(repo, s, |s.patches|, bound - 1);
        if built.Err? {
          return Err(FromSeriesError(name, built.error));
        }
        rules := rules[name := SeriesRule(s')];
        UpdateRuleRef(repo, name, built.value);
        r := Ok(built.value);
    }

    /** `Series::build_partial` on a clone `s` of a series of this book. */
    method BuildPartial(repo: CachedRepo, s: Series, count: nat, ghost bound: nat)
      returns (r: Result<Oid, SeriesError>, s': Series)
      requires Grounded(rules, s.parent, bound)
      modifies this, repo, repo.cache
      ensures SeriesBuilt(r, s', Snapshot(repo)) == BuildSeriesSpec(old(Snapshot(repo)), repo.repo.cherryPick, s, count, bound)
      ensures repo.head == old(repo.head)
      decreases bound, 1
    {
      var base := Build(repo, s.parent, bound);
      if base.Err? {
        return Err(SeriesError.Rule(base.error)), s;
      }
      r, s' := ApplyPatches(repo, s, base.value, count);
    }

    method BuildPath(repo: CachedRepo, path: Path, ghost bound: nat) returns (r: Result<Oid, RuleError>)
      requires Grounded(rules, path.name, bound)
      modifies this, repo, repo.cache
      ensures Built(r, Snapshot(repo)) == BuildPathSpec(old(Snapshot(repo)), repo.repo.cherryPick, path, bound)
      ensures repo.head == old(repo.head)
    {
      match SeriesOf(rules, path.name)
      case Err(e) =>
        r := Err(RuleError.Git(e));
      case Ok(s) =>
        var isTop := s.IsTopPatch(path.index);
        var built, s' := BuildPartial(repo, s, s.BuildAtCount(path.index), bound - 1);
        if built.Err? {
          return Err(FromSeriesError(path.name, built.error));
        }
        rules := rules[path.name := SeriesRule(s')];
        if isTop {
          UpdateRuleRef(repo, path.name, built.value);
        }
        r := Ok(built.value);
    }

    /** `RuleBook::build_all`: build every rule, in an order the source leaves to the map,
        stopping at the first error. */
    method BuildAll(repo: CachedRepo) returns (r: Result<map<string, Oid>, RuleError>)
      requires Acyclic(rules)
      modifies this, repo, repo.cache
      ensures Shape(rules) == old(Shape(rules)) && Acyclic(rules)
      ensures r.Ok? ==> r.value.Keys == old(rules).Keys
      ensures r.Ok? ==> forall n :: n in old(rules) && old(rules)[n].Anchor? ==> r.value[n] == old(rules)[n].id
      ensures repo.head == old(repo.head)
    {
      ghost var book0 := rules;
      var todo := rules.Keys;
      var built: map<string, Oid> := map[];
      while todo != {}
        invariant Shape(rules) == Shape(book0) && Acyclic(rules)
        invariant todo <= book0.Keys
        invariant built.Keys == book0.Keys - todo
        invariant forall n :: n in built && book0[n].Anchor? ==> built[n] == book0[n].id
        invariant repo.head == old(repo.head)
        decreases todo
      {
        var name :| name in todo;
        ghost var before := Snapshot(repo);
        KeysOfShape(book0, rules);
        AnchorsOfShape(book0, rules);
        AcyclicGrounded(rules, name);
        var id := Build(repo, name, |rules|);
        BuildStep(before, Snapshot(repo), id, repo.repo.cherryPick, name);
        if id.Err? {
          return Err(id.error);
        }
        built := built[name := id.value];
        todo := todo - {name};
      }
      r := Ok(built);
    }
  }

  /** One step of `build_all`, in terms of what a build keeps: from `before`, building
      `name` gave `r` and left `after`. */
  lemma BuildStep(before: World, after: World, r: Result<Oid, RuleError>, pick: Picker, name: string)
    requires Acyclic(before.book)
    requires Grounded(before.book, name, |before.book|)
    requires Built(r, after) == BuildSpec(before, pick, name, |before.book|)
    ensures Shape(after.book) == Shape(before.book) && Acyclic(after.book)
    ensures name in before.book && before.book[name].Anchor? ==> r == Ok(before.book[name].id)
  {
    BuildKeeps(before, pick, name, |before.book|);
    BuildKeepsAcyclic(before, pick, name, |before.book|);
  }

  lemma KeysOfShape(b1: Book, b2: Book)
    requires Shape(b1) == Shape(b2)
    ensures b1.Keys == b2.Keys
  {
    assert b1.Keys == Shape(b1).Keys;
    assert b2.Keys == Shape(b2).Keys;
  }

  lemma AnchorsOfShape(b1: Book, b2: Book)
    requires Shape(b1) == Shape(b2)
    ensures forall n :: n in b1 && b1[n].Anchor? ==> n in b2 && b2[n] == b1[n]
    ensures forall n :: n in b2 && b2[n].Anchor? ==> n in b1 && b1[n] == b2[n]
  {
    forall n | n in b1
      ensures n in b2 && ShapeOf(b2[n]) == ShapeOf(b1[n])
    {
      assert n in Shape(b1);
      assert Shape(b1)[n] == Shape(b2)[n];
    }
    forall n | n in b2
      ensures n in b1 && ShapeOf(b2[n]) == ShapeOf(b1[n])
    {
      assert n in Shape(b2);
      assert Shape(b1)[n] == Shape(b2)[n];
    }
  }
}
