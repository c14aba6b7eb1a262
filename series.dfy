/** A series of patches on top of a parent rule (series.rs): the queries and edits of
    `Series`, and the loop of `build_partial` that cherry-picks the patches one after another
    onto the parent's build through the cache. Calling the parent's build is part of the rule
    book (see module Rules), because it recurses through the rule book. */
module PatchSeries {

  import opened Wrappers
  import opened GitRepo
  import opened GitCache
  import opened Types

  /** `usize::checked_sub`. */
  function CheckedSub(n: nat, k: nat): (r: Option<nat>)
    ensures r.Some? <==> k <= n
    ensures r.Some? ==> r.value + k == n
  {
    if k <= n then Some(n - k) else None
  }

  function Min(a: nat, b: nat): nat {
    if a <= b then a else b
  }

  /** `Series { patches, parent }`. A series is a value: the rule book stores it in its map
      and `build` works on a clone. */
  datatype Series = Series(patches: seq<Oid>, parent: string) {

    function NumPatches(): nat {
      |patches|
    }

    predicate HasPatches()
      ensures HasPatches() <==> NumPatches() > 0
    {
      |patches| != 0
    }

    /** `index` names the last patch, or the end of the series. */
    predicate IsTopPatch(index: Index)
      ensures IsTopPatch(index) <==> index.None? || index.value + 1 == NumPatches()
    {
      index.None? || index == CheckedSub(|patches|, 1)
    }

    /** `set_patch`: the source indexes the vector, so an index out of range panics. */
    function SetPatch(index: nat, id: Oid): (s: Series)
      requires index < |patches|
      ensures s.parent == parent && |s.patches| == |patches|
      ensures s.patches[index] == id
      ensures forall j :: 0 <= j < |patches| && j != index ==> s.patches[j] == patches[j]
    {
      this.(patches := patches[index := id])
    }

    /** `insert_patch`: `None` appends; `Vec::insert` panics on a position past the end.
        Returns the series afterwards and the position the patch now has. */
    function InsertPatch(index: Index, id: Oid): (r: (Series, Index))
      requires index.Some? ==> index.value <= |patches|
      ensures r.1 == Some(if index.Some? then index.value else |patches|)
      ensures r.0.parent == parent && |r.0.patches| == |patches| + 1
      ensures r.0.patches[r.1.value] == id
      ensures forall j :: 0 <= j < r.1.value ==> r.0.patches[j] == patches[j]
      ensures forall j :: r.1.value < j <= |patches| ==> r.0.patches[j] == patches[j - 1]
    {
      var at := if index.Some? then index.value else |patches|;
      (this.(patches := patches[..at] + [id] + patches[at..]), Some(at))
    }

    /** How many patches `build_at(index)` hands to `build_partial`. */
    function BuildAtCount(index: Index): nat {
      match index
      case Some(i) => i + 1
      case None => |patches|
    }
  }

  /** `Series::new`. */
  function NewSeries(parent: string): (s: Series)
    ensures s.parent == parent && !s.HasPatches()
  {
    Series([], parent)
  }

  /** The state of the loop of `build_partial`: what it returns, the patches afterwards
      and the cache afterwards. */
  datatype FoldState = FoldState(result: Result<Oid, SeriesError>, patches: seq<Oid>, items: Items)

  /** The loop of `build_partial` from position `i` on: cherry-pick `patches[i]` onto
      `accum` through the cache, overwrite the patch with the id obtained and carry on with
      that id, until position `upto`; the first failure stops the loop. */
  function FoldFrom(pick: Picker, items: Items, patches: seq<Oid>, accum: Oid, i: nat, upto: nat): FoldState
    requires i <= upto <= |patches|
    decreases upto - i
  {
    if i == upto then
      FoldState(Ok(accum), patches, items)
    else
      var step := CachedPick(items, pick, accum, patches[i], false);
      match step.result
      case Ok(id) => FoldFrom(pick, step.items, patches[i := id], id, i + 1, upto)
      case Err(GitFailure(e)) => FoldState(Err(SeriesError.Git(e)), patches, step.items)
      case Err(CherryPickConflict(target, cherry)) =>
        FoldState(Err(SeriesError.PatchConflict(i, target, cherry)), patches, step.items)
  }

  /** `build_partial` after the parent's build returned `base`: the first `count` patches
      are processed (all of them when there are fewer). */
  function Fold(pick: Picker, items: Items, s: Series, base: Oid, count: nat): FoldState {
    FoldFrom(pick, items, s.patches, base, 0, Min(count, |s.patches|))
  }

  /** The commit patch `j` was cherry-picked onto: the starting id for the first processed
      patch, otherwise the rewritten patch before it. */
  function Prev(accum: Oid, done: seq<Oid>, i: nat, j: nat): Oid
    requires i <= j <= |done|
  {
    if j == i then accum else done[j - 1]
  }

  /** The cache records that cherry-picking `cherry` onto `target` (unsigned) gave `id`. */
  ghost predicate Link(items: Items, target: Oid, cherry: Oid, id: Oid) {
    CherryPick(false, target, cherry) in items && items[CherryPick(false, target, cherry)] == id
  }

  /** Every patch in positions `i..k` was rewritten to the cherry-pick of its original onto
      the commit before it. */
  ghost predicate Linked(items: Items, accum: Oid, orig: seq<Oid>, done: seq<Oid>, i: nat, k: nat)
    requires i <= k <= |orig| == |done|
  {
    forall j :: i <= j < k ==> Link(items, Prev(accum, done, i, j), orig[j], done[j])
  }

  /** The loop rewrites only positions `i..upto`, keeps the number of patches, stops at a
      conflict inside that range leaving the conflicting patch and all after it untouched, and
      never changes or forgets an entry of the cache. */
  lemma {:induction false} FoldFrame(pick: Picker, items: Items, patches: seq<Oid>, accum: Oid, i: nat, upto: nat)
    requires i <= upto <= |patches|
    ensures var f := FoldFrom(pick, items, patches, accum, i, upto);
            && |f.patches| == |patches|
            && (f.result.Err? ==> !f.result.error.Rule?)
            && (forall j :: 0 <= j < i ==> f.patches[j] == patches[j])
            && (forall j :: upto <= j < |patches| ==> f.patches[j] == patches[j])
            && (f.result.Err? && f.result.error.PatchConflict? ==>
                  && i <= f.result.error.index < upto
                  && forall j :: f.result.error.index <= j < |patches| ==> f.patches[j] == patches[j])
            && (forall a :: a in items ==> a in f.items && f.items[a] == items[a])
    decreases upto - i
  {
    if i < upto {
      var step := CachedPick(items, pick, accum, patches[i], false);
      if step.result.Ok? {
        FoldFrame(pick, step.items, patches[i := step.result.value], step.result.value, i + 1, upto);
      }
    }
  }

  /** Extending `Linked` down by one position: patch `i` was rewritten to `id`, the pick of
      its original onto `accum`, and the positions above it are linked from `id` on. */
  lemma LinkedCons(items: Items, accum: Oid, id: Oid, patches: seq<Oid>, done: seq<Oid>, i: nat, k: nat)
    requires i < k <= |patches| == |done|
    requires done[i] == id && Link(items, accum, patches[i], id)
    requires Linked(items, id, patches[i := id], done, i + 1, k)
    ensures Linked(items, accum, patches, done, i, k)
  {
    forall j | i <= j < k
      ensures Link(items, Prev(accum, done, i, j), patches[j], done[j])
    {
      if j > i {
        assert Prev(accum, done, i, j) == Prev(id, done, i + 1, j);
        assert patches[i := id][j] == patches[j];
      }
    }
  }

  /** On success every processed patch is the cherry-pick of its original onto the commit
      before it, as the cache afterwards records, and the result is the last of them (the
      starting id when nothing was processed). */
  lemma {:induction false} FoldSuccess(pick: Picker, items: Items, patches: seq<Oid>, accum: Oid, i: nat, upto: nat)
    requires i <= upto <= |patches|
    requires FoldFrom(pick, items, patches, accum, i, upto).result.Ok?
    ensures var f := FoldFrom(pick, items, patches, accum, i, upto);
            && |f.patches| == |patches|
            && Linked(f.items, accum, patches, f.patches, i, upto)
            && f.result.value == Prev(accum, f.patches, i, upto)
    decreases upto - i
  {
    if i < upto {
      var step := CachedPick(items, pick, accum, patches[i], false);
      var id := step.result.value;
      var rest := patches[i := id];
      FoldFrame(pick, step.items, rest, id, i + 1, upto);
      FoldSuccess(pick, step.items, rest, id, i + 1, upto);
      var f := FoldFrom(pick, step.items, rest, id, i + 1, upto);
      LinkedCons(f.items, accum, id, patches, f.patches, i, upto);
    }
  }

  /** A conflict at patch `j` reports the commit it was picked onto and the original patch,
      and the patches before `j` were rewritten as on success. */
  lemma {:induction false} FoldConflict(pick: Picker, items: Items, patches: seq<Oid>, accum: Oid, i: nat, upto: nat)
    requires i <= upto <= |patches|
    requires FoldFrom(pick, items, patches, accum, i, upto).result.Err?
    requires FoldFrom(pick, items, patches, accum, i, upto).result.error.PatchConflict?
    ensures var f := FoldFrom(pick, items, patches, accum, i, upto);
            var c := f.result.error;
            && |f.patches| == |patches|
            && i <= c.index < upto
            && c.patch == patches[c.index]
            && c.base == Prev(accum, f.patches, i, c.index)
            && Linked(f.items, accum, patches, f.patches, i, c.index)
    decreases upto - i
  {
    var step := CachedPick(items, pick, accum, patches[i], false);
    if step.result.Ok? {
      var id := step.result.value;
      var rest := patches[i := id];
      FoldFrame(pick, step.items, rest, id, i + 1, upto);
      FoldConflict(pick, step.items, rest, id, i + 1, upto);
      var f := FoldFrom(pick, step.items, rest, id, i + 1, upto);
      assert FoldFrom(pick, items, patches, accum, i, upto) == f;
      var c := f.result.error;
      if i + 1 < c.index {
        LinkedCons(f.items, accum, id, patches, f.patches, i, c.index);
      }
      assert Prev(accum, f.patches, i, c.index) == Prev(id, f.patches, i + 1, c.index);
    } else {
      assert step.result == Err(CherryPickConflict(accum, patches[i]));
    }
  }

  /** The loop of `build_partial` (series.rs), run on a clone of the series once the
      parent's build gave `base`. */
  method ApplyPatches(repo: CachedRepo, s: Series, base: Oid, count: nat)
    returns (r: Result<Oid, SeriesError>, s': Series)
    modifies repo.cache
    ensures FoldState(r, s'.patches, repo.cache.items) == Fold(repo.repo.cherryPick, old(repo.cache.items), s, base, count)
    ensures s'.parent == s.parent
  {
    ghost var items0 := repo.cache.items;
    var patches := s.patches;
    var accum := base;
    var upto := Min(count, |patches|);
    var i := 0;
    while i < upto
      invariant i <= upto <= |patches|
      invariant FoldFrom(repo.repo.cherryPick, items0, s.patches, base, 0, upto)
                == FoldFrom(repo.repo.cherryPick, repo.cache.items, patches, accum, i, upto)
    {
      var picked := repo.CherryPick(accum, patches[i], false);
      match picked
      case Err(GitFailure(e)) =>
        return Err(SeriesError.Git(e)), s.(patches := patches);
      case Err(CherryPickConflict(target, cherry)) =>
        return Err(SeriesError.PatchConflict(i, target, cherry)), s.(patches := patches);
      case Ok(id) =>
        patches := patches[i := id];
        accum := id;
      i := i + 1;
    }
    return Ok(accum), s.(patches := patches);
  }
}
