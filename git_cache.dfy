/** The memoised cherry-pick (git_cache.rs): a map from the requested action to the commit
    that answering it produced, consulted before the repository is asked. */
module GitCache {

  import opened Wrappers
  import opened GitRepo

  /** The key of the cache: every field of the request, so requests that differ in signing,
      target or cherry are separate entries. */
  datatype Action = CherryPick(sign: bool, target: Oid, cherry: Oid)

  type Items = map<Action, Oid>

  /** What one call returns, together with the cache afterwards. */
  datatype CacheStep = CacheStep(result: Result<Oid, HelperError>, items: Items)

  /** `GitOpCache::cherry_pick` on the value of the cache: a hit answers from the map,
      a miss asks the repository and records only a success. */
  function CachedPick(items: Items, pick: Picker,
                      target: Oid, cherry: Oid, sign: bool): (s: CacheStep)
    // a hit returns the stored id and leaves the cache as it was
    ensures CherryPick(sign, target, cherry) in items ==>
              s.result == Ok(items[CherryPick(sign, target, cherry)]) && s.items == items
    // a miss answers what the repository answers
    ensures CherryPick(sign, target, cherry) !in items ==>
              match pick(target, cherry, sign)
              case Picked(id) => s.result == Ok(id)
              case Conflicted => s.result == Err(CherryPickConflict(target, cherry))
              case Failed(e) => s.result == Err(GitFailure(e))
    // after a success the action is recorded with the id returned
    ensures s.result.Ok? ==> CherryPick(sign, target, cherry) in s.items
                             && s.items[CherryPick(sign, target, cherry)] == s.result.value
    // an error returns before anything is inserted
    ensures s.result.Err? ==> s.items == items
    // existing entries are never changed, and no other action is added
    ensures forall a :: a in items ==> a in s.items && s.items[a] == items[a]
    ensures forall a :: a in s.items && a != CherryPick(sign, target, cherry) ==> a in items
  {
    var action := CherryPick(sign, target, cherry);
    if action in items then
      CacheStep(Ok(items[action]), items)
    else
      match pick(target, cherry, sign)
      case Picked(id) => CacheStep(Ok(id), items[action := id])
      case Conflicted => CacheStep(Err(CherryPickConflict(target, cherry)), items)
      case Failed(e) => CacheStep(Err(GitFailure(e)), items)
  }

  /** Asking again for a request that succeeded answers the same id from the cache, whatever
      the repository would now say, and changes nothing. */
  lemma CachedPickIdempotent(items: Items, pick: Picker,
                             later: Picker,
                             target: Oid, cherry: Oid, sign: bool)
    requires CachedPick(items, pick, target, cherry, sign).result.Ok?
    ensures var first := CachedPick(items, pick, target, cherry, sign);
            CachedPick(first.items, later, target, cherry, sign) == first
  {
  }

  /** The in-memory cache: `GitOpCache { items }`. */
  class GitOpCache {
    var items: Items

    constructor ()
      ensures items == map[]
    {
      items := map[];
    }

    method CherryPick(repo: Repo, target: Oid, cherry: Oid, sign: bool)
      returns (r: Result<Oid, HelperError>)
      modifies this
      ensures CacheStep(r, items) == CachedPick(old(items), repo.cherryPick, target, cherry, sign)
    {
      var action := Action.CherryPick(sign, target, cherry);
      if action in items {
        return Ok(items[action]);
      }
      match repo.cherryPick(target, cherry, sign)
      case Picked(id) =>
        items := items[action := id];
        r := Ok(id);
      case Conflicted =>
        r := Err(CherryPickConflict(target, cherry));
      case Failed(e) =>
        r := Err(GitFailure(e));
    }
  }

  /** `CachedRepo`: the repository together with its cache. Besides the oracle the model keeps
      the two pieces of repository state the core writes: the `refs/unstacked/rule/<name>` refs
      (`ruleRefs`) and the commit HEAD points to (`head`). */
  class CachedRepo {
    const repo: Repo
    const cache: GitOpCache
    var ruleRefs: map<string, Oid>
    var head: Oid

    constructor (repo: Repo, cache: GitOpCache, ruleRefs: map<string, Oid>, head: Oid)
      ensures this.repo == repo && this.cache == cache
      ensures this.ruleRefs == ruleRefs && this.head == head
    {
      this.repo := repo;
      this.cache := cache;
      this.ruleRefs := ruleRefs;
      this.head := head;
    }

    method CherryPick(target: Oid, cherry: Oid, sign: bool) returns (r: Result<Oid, HelperError>)
      modifies cache
      ensures CacheStep(r, cache.items) == CachedPick(old(cache.items), repo.cherryPick, target, cherry, sign)
    {
      r := cache.CherryPick(repo, target, cherry, sign);
    }
  }
}
