/** Types that path.rs, series.rs and rules.rs share. In the source these three files refer to
    one another (a rule-book error carries a path, a series error carries a rule-book error);
    they are declared together here so that the modules built on them can follow the files. */
module Types {

  import opened Wrappers
  import opened GitRepo

  /** `series::Index`: a position in a series, `None` meaning "after the last patch". */
  type Index = Option<nat>

  /** `path::Path`: a cursor into the rule book. */
  datatype Path = SeriesItem(name: string, index: Index) {

    /** `Path::to_rule_ref`: the name of the rule the cursor is in. */
    function ToRuleRef(): (r: string)
      ensures SeriesItem(r, index) == this
    {
      name
    }
  }

  /** `rules::Error`. */
  datatype RuleError =
    | Git(failure: GitError)
    | PatchConflict(path: Path, base: Oid, patch: Oid)

  /** `series::Error`. */
  datatype SeriesError =
    | Git(failure: GitError)
    | Rule(rule: RuleError)
    | PatchConflict(index: nat, base: Oid, patch: Oid)
}
