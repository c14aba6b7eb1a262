# unstacked: the rule book, in Dafny

`unstacked` keeps stacks of patches in a git repository. Its central structure is the
**rule book**: a map from rule name to rule. Each rule is one of two kinds:

- a **series**, which is a list of patch commits on top of a parent rule;
- an **anchor**, which pins one commit.

Building a rule builds its parent first. The series' patches are then cherry-picked one after
another onto that build, through a memo cache keyed by the request. Each patch is replaced by
the commit its cherry-pick produced.

A **path** is a cursor into a series:
- `Some(i)` selects patch `i`;
- `None` selects no patch.

The **model** (the focus state machine) remembers which path is checked out and the commit it
was built to. It moves that *focus* along paths, amends the focused patch and commits new
patches onto it.

Two smaller pieces are modelled as well:
- the key/value **store** kept in nested git trees;
- the **diff-line** classifier that colours patches.

Git is an oracle (module `GitRepo`). Cherry-pick, checkout, amend and commit are functions
supplied by the caller, and the model takes their answers as given. Object ids are natural
numbers that are only compared. The store identifies an object with its content.

Building recurses along the parent chain and terminates only when that chain ends. The model
makes this explicit:
- `Rules.Grounded(book, name, bound)` says the chain from `name` ends within `bound` steps;
- `Rules.Acyclic(book)` says every chain ends within `|book|` steps;
- the building methods take a ghost `bound`;
- the operations of the model require `Acyclic` and pass `|book|`.

Modules follow the source files:

| module | file | holds |
|---|---|---|
| `Wrappers` | — | `Option`, `Result` |
| `GitRepo` | — | `Oid`, `git2::Error`, the repository oracle |
| `GitCache` | git_cache.rs | `Action`, the cache `GitOpCache`, `CachedRepo` |
| `Types` | path.rs, series.rs, rules.rs | `Path` and the error types these three files share |
| `PatchSeries` | series.rs | `Series` and the patch loop of `build_partial` |
| `Rules` | rules.rs | lookups, `find_rule_use`, the build as functions on values, and the class `RuleBook` |
| `Paths` | path.rs | `from_rule`, `next`, `parent` |
| `Db` | db.rs | `tree_modify`, `tree_find`, the class `Store` |
| `Diffs` | diffs.rs | `DiffLine::new` and the two `Display` impls |
| `Model` | model.rs | the focus state machine as functions on values, and the class `Model` |

The imperative operations are methods: `GitOpCache.cherry_pick`, `RuleBook.build`,
`build_partial`, `build_path`, `build_all`, `Store.put_oid`, and the methods of `Model`. Each
of these methods except `RuleBook.BuildAll` ties the new state and its result, in its
`ensures`, to a function of the old state:
- `RuleBook.Build` to `BuildSpec`;
- `ApplyPatches` to `Fold`;
- `Model.AmendFocus` to `AmendSpec`;
- and so on for the others.

The lemmas then state what those functions promise. `RuleBook.BuildAll` instead states the
invariants its loop keeps: the book keeps its shape and stays acyclic.

`Series` is a value. The rule book stores it in its map, and `build` works on a clone that it
stores back, so `set_patch` and `insert_patch` are functions that return the changed series.

`update_rule_ref` overwrites refs unconditionally (`force = true`), and the fold of
`build_partial` cherry-picks with `sign = false`.

`git_helper::checkout` detaches HEAD onto the commit before it resets, checks out the working
tree and writes the index, and any of those later steps can fail. The checkout oracle
therefore reports, with a failure, whether HEAD had already moved.

## Model

| member | source | states |
|---|---|---|
| `GitCache.CachedPick` | src/git_cache.rs:40-61 | A hit returns the stored id and leaves the map unchanged. A miss returns the oracle's answer, with its conflict or git error. A success records exactly that action with its id, and an error leaves the map unchanged. No existing entry changes and no other key appears. |
| `GitCache.CachedPickIdempotent` | src/git_cache.rs:46-59 | After a successful call, the same call answers the same id from the cache and changes nothing, whatever the oracle would now answer. |
| `GitCache.GitOpCache.CherryPick` | src/git_cache.rs:33-62 | The method's result and new map are those of `CachedPick` on the old map. |
| `GitCache.CachedRepo.CherryPick` | src/git_cache.rs:96-103 | Delegates to the cache with the repository's oracle. Result and new map as `CachedPick`. |
| `Types.Path.ToRuleRef` | src/path.rs:40-44 | The rule ref of a path is its series name. The path is that name with its index. |
| `PatchSeries.Series.HasPatches` | src/series.rs:77-79 | Holds exactly when the series has at least one patch. |
| `PatchSeries.Series.IsTopPatch` | src/series.rs:85-87 | Holds exactly when the index is `None` or names the last patch. |
| `PatchSeries.Series.SetPatch` | src/series.rs:89-91 | Replaces only position `index`. Length, parent and every other patch are kept. An out-of-range index panics in the source, so it is a precondition. |
| `PatchSeries.Series.InsertPatch` | src/series.rs:93-97 | `None` appends. `Some(i)` inserts at `i`. In both cases the result is `Some(position)`, the length grows by one, the prefix is kept and the suffix shifts up by one. |
| `PatchSeries.NewSeries` | src/series.rs:29-34 | A new series has the given parent and no patches. |
| `PatchSeries.FoldFrame` | src/series.rs:47-59 | The patch loop rewrites only positions below the count and keeps the length. It never raises a rule-book error. A conflict lies inside the processed range and leaves the conflicting patch and all later ones untouched. Cache entries are never changed or lost. |
| `PatchSeries.FoldSuccess` | src/series.rs:46-60 | On success every processed patch has been replaced by the cherry-pick of its original onto the commit before it, as the cache records. The result is the last of them, or the starting commit when nothing was processed. |
| `PatchSeries.FoldConflict` | src/series.rs:47-57 | A conflict at patch `j` reports `j`, the original patch and the commit it was picked onto. The patches before `j` were rewritten as on success. |
| `PatchSeries.ApplyPatches` | src/series.rs:47-60 | The loop over `iter_mut().take(count)` yields the result, patches and cache of `Fold`. The parent is kept. |
| `Rules.Rule.Parent` | src/rules.rs:58-63 | A series has its parent, an anchor has none. |
| `Rules.Lookup` | src/rules.rs:82-102 | `rule`/`rule_mut` succeed exactly for names in the book, with their rule. Otherwise they fail with `NotFound`/`Reference`. |
| `Rules.SeriesOf` | src/rules.rs:104-125 | `series`/`series_mut` succeed exactly for series rules. A missing name gives the not-found error, an anchor gives "Expected … to be a series". |
| `Rules.WithRule` | src/rules.rs:78-80 | After `set_rule` the name looks up the new rule, and every other name looks up what it did before. |
| `Rules.Dependents` | src/rules.rs:182-191 | Exactly the series whose parent is the given name. Anchors are never included. |
| `Rules.FromSeriesError` | src/rules.rs:35-48 | A series conflict at `index` becomes a conflict at path `SeriesItem(name, Some(index))` with the same commits. A git error stays a git error, and a rule-book error passes unchanged. |
| `Rules.BuildKeeps` | src/rules.rs:128-147 | A build keeps the shape of the book, meaning kinds, parents and anchor ids. It changes no rule off the chain it builds, and never changes or loses a cache entry. |
| `Rules.BuildSeriesKeeps` | src/series.rs:40-61 | The same for `build_partial`. The series clone keeps its parent and length. |
| `Rules.BuildKeepsAcyclic` | src/rules.rs:128-147 | An acyclic book stays acyclic after a build. |
| `Rules.BuildAnchor` | src/rules.rs:141 | An anchor builds to its commit. The rules and the cache are unchanged, and only its rule ref is set. |
| `Rules.BuildFailureKeepsEntry` | src/rules.rs:130-138 | A failed build never overwrites the entry of the rule it was asked to build. |
| `Rules.BuildSeriesSuccess` | src/rules.rs:132-138 | A successful series build starts from the parent's build and rewrites every patch to the cherry-pick of its original onto the commit before it. It returns the last of them, stores the rewritten series under its name and sets its ref to the result. |
| `Rules.BuildSeriesConflict` | src/rules.rs:133-136 | When the parent builds, a reported conflict is at a path into this series. It names the original patch and, for patch 0, the parent's build. The rule entry is left as it was. |
| `Rules.BuildPathSuccess` | src/rules.rs:149-166 | A successful `build_path` processes the patches up to and including the path's position, or all of them for `None`. Later patches are left as they were. The rule ref moves only when the position is the top. |
| `Rules.BuildPathKeeps` | src/rules.rs:149-166 | `build_path` keeps the shape of the book and every cache entry. |
| `Rules.BuildStep` | src/rules.rs:175-178 | One step of `build_all` on an acyclic book keeps the shape and acyclicity, and builds an anchor to its commit. |
| `Rules.UpdateRuleRef` | src/rules.rs:14-20 | Points the rule's ref at the id. No other ref changes, and HEAD stays. |
| `Rules.RuleBook.constructor` | src/rules.rs:72-76 | A new rule book is empty. |
| `Rules.RuleBook.SetRule` | src/rules.rs:78-80 | The new map is `WithRule` of the old. |
| `Rules.RuleBook.Build` | src/rules.rs:128-147 | Result, rules, cache and rule refs afterwards are those of `BuildSpec` on the state before. HEAD stays. |
| `Rules.RuleBook.BuildPartial` | src/series.rs:40-61 | Result, rewritten clone and state afterwards are those of `BuildSeriesSpec`: build the parent, then run the patch loop on the clone. |
| `Rules.RuleBook.BuildPath` | src/rules.rs:149-167 | Result and state afterwards are those of `BuildPathSpec`. |
| `Rules.RuleBook.BuildAll` | src/rules.rs:169-180 | Every rule is built in some order, stopping at the first error. The book keeps its shape and stays acyclic. A success maps exactly the book's names, with every anchor mapped to its commit. |
| `Paths.FromRule` | src/path.rs:17-38 | Succeeds exactly for series. `First` gives `Some(0)`, `Last` gives `Some(n-1)`, and an empty series gives `None` for both. An unknown name is the not-found error, and an anchor is "Can't target anchor rule …". |
| `Paths.NextWithin` | src/path.rs:84-89 | Inside a series `next` moves from `Some(i)` to `Some(i+1)`. |
| `Paths.NextAtEnd` | src/path.rs:46-83 | At the end of a series (`None` or the last patch), `next` depends on the number of dependents. With none, the path is returned unchanged. With exactly one, it moves to that series' `First` position. With more than one, it fails with `Ambiguous`. |
| `Paths.NextTarget` | src/path.rs:46-93 | A successful `next` gives one of three paths: the same path, the next patch in the same series, or the first position of a series of the book. |
| `Paths.ParentSteps` | src/path.rs:95-119 | `Some(i>0)` moves to `Some(i-1)`. `Some(0)` moves to the parent rule's `Last`, and is an error when that rule is missing or an anchor. `None` moves to `Some(n-1)`, or to the parent's `Last` when the series is empty. |
| `Paths.ParentAboveBottom` | src/path.rs:113-116 | From `Some(i>0)`, `parent` succeeds without consulting the book. |
| `Paths.ParentOfNext` | src/path.rs:84-89 | For `i+1 < n`, `parent(next(SeriesItem(name, Some(i))))` is that path again. |
| `Paths.NextOfParent` | src/path.rs:111-116 | For `0 < i < n`, `next(parent(SeriesItem(name, Some(i))))` is that path again. |
| `Paths.ParentOfNextAcross` | src/path.rs:50-55 | From the top of a series with exactly one dependent, `next` moves into the dependent and `parent` comes back to the same top. |
| `Paths.TestScenarios` | src/path.rs:195-341 | The results that the unit tests `empty_empty`, `empty_nonempty` and `nonempty_nonempty` assert. |
| `Db.TreeModify` | src/db.rs:9-49 | The empty path yields the leaf in blob mode. Otherwise the result is a tree in tree mode, holding the key, in which every other entry of the old tree is kept and no other entry appears. A blob or absent parent counts as an empty tree. |
| `Db.TreeFind` | src/db.rs:51-67 | The empty path finds the root. Below a blob the lookup fails with the type-mismatch error, and a missing segment fails with "Did not find path element …". Every error is `NotFound`. |
| `Db.BlobAt` | src/db.rs:142-150 | Succeeds exactly when the path finds a blob, with its content. A path naming a tree fails. |
| `Db.FindModified` | src/db.rs:19-47 | Reading back the path just written finds the leaf written. |
| `Db.PrefixIsTree` | src/db.rs:20-44 | Every proper prefix of the path just written names a tree. |
| `Db.FindThrough` | src/db.rs:51-67 | Finding `p + q` is finding `q` from what `p` finds. |
| `Db.FindBelowBlob` | src/db.rs:57-59 | Nothing is found below a blob. |
| `Db.SiblingsKept` | src/db.rs:27-31 | A write leaves every path that parts from the written one resolving as before. |
| `Db.Store.constructor` | src/db.rs:78-85 | A new store holds the empty tree. |
| `Db.Store.Get` | src/db.rs:152-159 | A blob-lookup error is a git error. Otherwise the result is the decoder's value, or its error as a serde error. |
| `Db.Store.PutOid` | src/db.rs:161-181 | The empty path is refused with "Attempt to write Blob …" and leaves the tree as it was. Any other path succeeds and the store holds `TreeModify` of the old tree. |
| `Db.Store.Put` | src/db.rs:183-191 | `put_oid` of the serialised bytes as a blob, with its error wrapped as `state::Error::Git`. |
| `Db.PutThenGet` | src/db.rs:142-191 | `put(path, v)` then `get_blob(path)` gives the bytes written, for every non-empty path. |
| `Db.PutThenGetValue` | src/db.rs:152-191 | On a store, `put(path, v)` then `get(path)` gives the decoder's value of the bytes written, or its error as a serde error, for every non-empty path. |
| `Db.PutBelow` | src/db.rs:19-47 | Writing at `p + q` makes `p` a tree, so `get_blob(p)` fails. `get_blob(p + q)` gives the bytes written. |
| `Db.PutAbove` | src/db.rs:19-47 | Writing a blob at `p` replaces the subtree, so `get_blob(p + q)` fails. `get_blob(p)` gives the bytes written. |
| `Db.PutKeepsSiblings` | src/db.rs:29-31 | A write keeps every blob at a path that parts from the written one. |
| `Db.ReadWriteSimple` | src/db.rs:200-207 | `read_write_simple`, for any key and value: a key written into a new store reads back. |
| `Db.ReadWriteNested` | src/db.rs:209-219 | `read_write_nested`, for any keys: after writing `[k]` and then `[k, s]`, reading `[k]` fails and `[k, s]` gives the second value. |
| `Db.ReadWriteOverrideNested` | src/db.rs:221-231 | `read_write_override_nested`, for any keys: after writing `[k, s]` and then `[k]`, reading `[k, s]` fails and `[k]` gives the value. |
| `Diffs.FindSep` | src/diffs.rs:19 | The first position at or after `from` where `@@` starts: no separator lies between `from` and it. It is absent exactly when there is none from `from` on. |
| `Diffs.SplitOnce` | src/diffs.rs:19 | `split_once("@@")`: on success the text is `before + "@@" + after` and `before` holds no separator. It fails exactly when the text holds no `@@`. |
| `Diffs.New` | src/diffs.rs:13-29 | A leading `+` is an addition and is checked first, then a leading `-` is a deletion. A hunk header reassembles to `"@@" + offset + "@@" + line` with the first `@@` after the prefix, and any other line is `Other` with the whole line. |
| `Diffs.NewHunk` | src/diffs.rs:18-25 | A line is a hunk header exactly when it starts with `@@` and another `@@` follows. |
| `Diffs.Render` | src/diffs.rs:32-43 | Hunk headers open with cyan, deletions with red and additions with green, and a reset follows. No other colour appears. Other lines carry no colour switch at all. |
| `Diffs.RenderNew` | src/diffs.rs:33-42 | With the colours dropped, the rendering of a classified line is the line itself, for every kind of line. |
| `Diffs.RenderPatch` | src/diffs.rs:62-70 | The loop writes every line's rendering in order, each followed by a newline. |
| `Diffs.RenderPatchText` | src/diffs.rs:56-69 | A patch classified from lines of text renders, colours dropped, to those lines each followed by a newline. |
| `Model.LoadFocus` | src/model.rs:59-64 | Without a focus, HEAD is not read. A focus survives only when HEAD is at its commit and is cleared when HEAD differs. A failure to read HEAD is an error. |
| `Model.GotoOutcome` | src/model.rs:111-116 | A move keeps the book's shape and acyclicity, and an error in finding the target changes nothing. On any error the focus stays. On success the focus is the target path at the commit `build_path` produced, which was checked out and which HEAD now names. |
| `Model.GotoNextParentNoFocus` | src/model.rs:106-109 | `goto_next` and `goto_parent` without a focus change nothing. |
| `Model.AmendOutcome` | src/model.rs:170-199 | Without a focus nothing changes, and index `None` fails with "Cannot amend unspecified target into series" and changes nothing. On error the focus stays, and the book stays acyclic. |
| `Model.AmendSuccess` | src/model.rs:180-196 | On success the focus keeps its path at the new build, which HEAD names and `build_path` of the edited book gives. The series keeps its length and every patch above the focused one. The focused patch is the cherry-pick of the amended commit onto the patch below it, or onto the parent's build at the bottom. |
| `Model.CommitOutcome` | src/model.rs:201-236 | Without a focus nothing changes, and on error the focus stays. The book stays acyclic. |
| `Model.CommitSuccess` | src/model.rs:212-233 | On success the series grows by one. The new patch sits at `i+1`, or at the old length from `None`, and is focused, and HEAD names it. The later patches are the old ones shifted up. The new patch is the cherry-pick of the new commit onto the patch below it, or onto the parent's build at the bottom. |
| `Model.Model.constructor` | src/model.rs:30-35 | A new model has an empty rule book and no focus. |
| `Model.Model.InvalidateFocus` | src/model.rs:59-64 | The focus afterwards is `LoadFocus` of the old focus and of what reading HEAD answered. |
| `Model.Model.NewSeries` | src/model.rs:84-89 | The rule of that name becomes an empty series on `parent`, replacing any earlier one. |
| `Model.Model.NewAnchor` | src/model.rs:91-94 | The rule of that name becomes an anchor pinning `id`. |
| `Model.Model.CheckoutPath` | src/model.rs:96-103 | Result and state afterwards are `CheckoutSpec`: build the path, then check the result out. |
| `Model.CheckoutHead` | src/model.rs:96-103 | A failed build leaves HEAD and reports a rule-book error. A successful checkout moves HEAD to the build and returns it. A failed checkout reports the git error, and HEAD has moved to the build exactly when the failure came after detaching HEAD. |
| `Model.Model.GotoNext` | src/model.rs:105-119 | Result and state afterwards are `GotoNextSpec` of the state before. |
| `Model.Model.GotoParent` | src/model.rs:121-135 | Result and state afterwards are `GotoParentSpec` of the state before. |
| `Model.Model.GotoRule` | src/model.rs:137-143 | Result and state afterwards are `GotoRuleSpec`: focus the `Last` position of the named rule. |
| `Model.Model.AmendFocus` | src/model.rs:170-199 | Result and state afterwards are `AmendSpec`. |
| `Model.Model.CommitOntoFocus` | src/model.rs:201-236 | Result and state afterwards are `CommitSpec`. |

## Left out

- Persistence is not modelled. This covers the JSON (de)serialisation and ref I/O of `Model::load`/`save`, `CachedRepo::from_repo`/`save`, and `Store::open`/`from_commit`/`write`. Only the focus check of `load` is modelled.
- A failing ref write in `update_rule_ref` is not modelled: the rule refs are a map that is always updated.
- The oracles are fixed functions of their arguments. The working tree that `amend`/`commit` capture is therefore determined by the focused commit and the index flag. Failures of `find_commit` inside cherry-pick, checkout, amend and commit are part of the oracle's answer.
- libgit2's tree builder refuses some entry names, such as the empty name or names containing `/`. It can also fail to write objects. Neither is modelled: every segment is accepted.
- `Store::get`'s `serde_json` decoding is the parameter `decode`. `Store::put` takes the already-serialised bytes.
- The model ignores `usize` overflow of `i + 1` in `next`, `build_at` and `commit_onto_focus`, because integers are unbounded.
- Panics are preconditions. This covers a `set_patch` index out of range and an `insert_patch` position past the end, which `FocusInRange` states for the two operations of the model that edit a series.
- The build recurses forever on a cyclic parent graph in the source. The model requires the chain to end (`Grounded`/`Acyclic`). `new_series` can create a cycle, after which the moves of the model cannot be called.
- `Rules.RuleBook.BuildAll`: the order of the `HashMap` is left to the verifier's choice. The contract does not relate the ids of series to a specification function, because that order is unspecified.
- `find_rule_use` returns a set, since the source's order is the map's.
- `Series::build` appears inside `BuildSpec` as `build_partial` over all patches, not as a separate member.
- The list of conflicting index entries in a cherry-pick conflict is not modelled.
- The colour escape sequences are tokens. `PrettyPatch::new` (libgit2 patch text and `str::lines`), `PrettyDiff` and `render` are not modelled.
- `log` output is not modelled. `Model::focus`, `focus_rule`, `staged_diff`, and the delegating `Model::build`/`build_all` are not modelled either.
- src/git_helper.rs (cherry-pick, checkout, signing), src/repo.rs, src/commit.rs, src/state.rs and src/main.rs are not part of this model.
