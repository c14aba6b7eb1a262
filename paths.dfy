/** Moving a cursor through the rule book (path.rs): a path names a series and a position in
    it, `Some(i)` for patch `i` or `None` for the series with no patch selected. `Next` moves
    towards the top of a series and on to the one series built on it; `Parent` moves towards
    the bottom and on to the top of the parent rule. */
module Paths {

  import opened Wrappers
  import opened GitRepo
  import opened Types
  import opened PatchSeries
  import opened Rules

  datatype Side = First | Last

  function AnchorTarget(name: string): GitError {
    GitError(GenericError, NoClass, "Can't target anchor rule " + name)
  }

  function Ambiguous(name: string): GitError {
    GitError(ErrorCode.Ambiguous, NoClass, "Series " + name + " has multiple potential successors")
  }

  /** The position `side` of a series with `n` patches: the first or the last patch, or
      `None` when there is none. */
  function EndOf(n: nat, side: Side): Index {
    if n == 0 then None else if side == First then Some(0) else Some(n - 1)
  }

  /** `Path::from_rule`: the rule must exist and be a series. */
  function FromRule(book: Book, name: string, side: Side): (r: Result<Path, GitError>)
    ensures r.Ok? <==> name in book && book[name].SeriesRule?
    ensures r.Ok? ==> r.value == SeriesItem(name, EndOf(|book[name].series.patches|, side))
    ensures name !in book ==> r == Err(RuleNotFound(name))
    ensures name in book && book[name].Anchor? ==> r == Err(AnchorTarget(name))
  {
    match Lookup(book, name)
    case Err(e) => Err(e)
    case Ok(Anchor(_)) => Err(AnchorTarget(name))
    case Ok(SeriesRule(s)) =>
      Ok(SeriesItem(name, match side
                          case Last => CheckedSub(s.NumPatches(), 1)
                          case First => if s.HasPatches() then Some(0) else None))
  }

  /** The one element of a set with one element. */
  function Single(ds: set<string>): (d: string)
    requires |ds| == 1
    ensures ds == {d}
  {
    var d :| d in ds;
    assert |ds - {d}| == 0;
    d
  }

  /** `next` at the end of a series: stay when nothing is built on it, move to the first
      position of the one series built on it, and refuse to choose between several. */
  function AtEnd(book: Book, path: Path): Result<Path, GitError> {
    var ds := Dependents(book, path.name);
    if |ds| == 0 then Ok(path)
    else if |ds| == 1 then FromRule(book, Single(ds), First)
    else Err(Ambiguous(path.name))
  }

  /** `Path::next`. */
  function Next(book: Book, path: Path): Result<Path, GitError> {
    match path.index
    case None => AtEnd(book, path)
    case Some(i) =>
      match SeriesOf(book, path.name)
      case Err(e) => Err(e)
      case Ok(s) =>
        if i + 1 >= s.NumPatches() then AtEnd(book, path)
        else Ok(SeriesItem(path.name, Some(i + 1)))
  }

  /** `Path::parent`. From a position above the bottom it moves down without looking at the
      rule book. */
  function Parent(book: Book, path: Path): Result<Path, GitError> {
    match path.index
    case None =>
      (match SeriesOf(book, path.name)
       case Err(e) => Err(e)
       case Ok(s) =>
         if !s.HasPatches() then FromRule(book, s.parent, Last)
         else Ok(SeriesItem(path.name, CheckedSub(s.NumPatches(), 1))))
    case Some(i) =>
      if i == 0 then
        match SeriesOf(book, path.name)
        case Err(e) => Err(e)
        case Ok(s) => FromRule(book, s.parent, Last)
      else
        Ok(SeriesItem(path.name, Some(i - 1)))
  }

  /** A path is at the end of its series when it selects no patch or the last one. */
  predicate IsEnd(book: Book, path: Path) {
    path.index.None? ||
    (path.name in book && book[path.name].SeriesRule? &&
     path.index.value + 1 >= |book[path.name].series.patches|)
  }

  // ---------------------------------------------------------------------------------------
  // Properties of next and parent

  /** Inside a series `next` moves one patch up. */
  lemma NextWithin(book: Book, name: string, i: nat)
    requires name in book && book[name].SeriesRule?
    requires i + 1 < |book[name].series.patches|
    ensures Next(book, SeriesItem(name, Some(i))) == Ok(SeriesItem(name, Some(i + 1)))
  {
  }

  /** At the end of a series `next` stays put when no series is built on it, moves to the
      first position of the only one built on it, and is ambiguous otherwise. An index past
      the end of a series that does not exist is an error. */
  lemma NextAtEnd(book: Book, path: Path)
    requires IsEnd(book, path)
    ensures var ds := Dependents(book, path.name);
            && (|ds| == 0 ==> Next(book, path) == Ok(path))
            && (|ds| == 1 ==> var d := Single(ds);
                  d in book && book[d].SeriesRule? &&
                  Next(book, path) == Ok(SeriesItem(d, EndOf(|book[d].series.patches|, First))))
            && (|ds| > 1 ==> Next(book, path) == Err(Ambiguous(path.name)))
  {
    var ds := Dependents(book, path.name);
    if |ds| == 1 {
      var d := Single(ds);
      assert d in ds;
    }
  }

  /** Every result of `next` names a series of the book or is the path it started from. */
  lemma NextTarget(book: Book, path: Path)
    requires Next(book, path).Ok?
    ensures var p := Next(book, path).value;
            p == path || (p.name in book && book[p.name].SeriesRule? && p.index == EndOf(|book[p.name].series.patches|, First)) ||
            (p.name == path.name && path.index.Some? && p.index == Some(path.index.value + 1))
  {
    var ds := Dependents(book, path.name);
    if |ds| == 1 {
      assert Single(ds) in ds;
    }
  }

  /** Inside a series `parent` moves one patch down, from the bottom patch it moves to the
      top of the parent rule, and from no selected patch to the top patch or, for an empty
      series, to the top of the parent rule. */
  lemma ParentSteps(book: Book, name: string, index: Index)
    requires name in book && book[name].SeriesRule?
    ensures var s := book[name].series;
            var r := Parent(book, SeriesItem(name, index));
            && (index.Some? && index.value > 0 ==> r == Ok(SeriesItem(name, Some(index.value - 1))))
            && (index == Some(0) ==> r == FromRule(book, s.parent, Last))
            && (index.None? && |s.patches| > 0 ==> r == Ok(SeriesItem(name, Some(|s.patches| - 1))))
            && (index.None? && |s.patches| == 0 ==> r == FromRule(book, s.parent, Last))
  {
  }

  /** Moving down from a position above the bottom never fails, even when the named series
      does not exist. */
  lemma ParentAboveBottom(book: Book, name: string, i: nat)
    requires i > 0
    ensures Parent(book, SeriesItem(name, Some(i))) == Ok(SeriesItem(name, Some(i - 1)))
  {
  }

  /** `parent` undoes `next` inside a series. */
  lemma ParentOfNext(book: Book, name: string, i: nat)
    requires name in book && book[name].SeriesRule?
    requires i + 1 < |book[name].series.patches|
    ensures Next(book, SeriesItem(name, Some(i))).Ok?
    ensures Parent(book, Next(book, SeriesItem(name, Some(i))).value) == Ok(SeriesItem(name, Some(i)))
  {
    NextWithin(book, name, i);
  }

  /** `next` undoes `parent` inside a series. */
  lemma NextOfParent(book: Book, name: string, i: nat)
    requires name in book && book[name].SeriesRule?
    requires 0 < i < |book[name].series.patches|
    ensures Parent(book, SeriesItem(name, Some(i))).Ok?
    ensures Next(book, Parent(book, SeriesItem(name, Some(i))).value) == Ok(SeriesItem(name, Some(i)))
  {
    ParentAboveBottom(book, name, i);
    NextWithin(book, name, i - 1);
  }

  /** Across series: from the top of a series with exactly one series built on it, `next`
      moves to that series and `parent` comes back to the top it started from. */
  lemma ParentOfNextAcross(book: Book, name: string)
    requires name in book && book[name].SeriesRule?
    requires |Dependents(book, name)| == 1
    ensures var top := FromRule(book, name, Last).value;
            && Next(book, top).Ok?
            && Parent(book, Next(book, top).value) == Ok(top)
  {
    var top := FromRule(book, name, Last).value;
    var d := Single(Dependents(book, name));
    assert d in Dependents(book, name);
    NextAtEnd(book, top);
  }

  // ---------------------------------------------------------------------------------------
  // The scenarios of the source's unit tests

  function Series1(n: nat): Series
    requires n <= 3
  {
    Series([11, 12, 13][..n], "series2")
  }

  /** Two series, `series1` built on `series2` built on the missing rule `bogus1`, with `n1`
      and `n2` patches. */
  function TwoSeries(n1: nat, n2: nat): Book
    requires n1 <= 3 && n2 <= 3
  {
    map["series1" := SeriesRule(Series1(n1)), "series2" := SeriesRule(Series([21, 22, 23][..n2], "bogus1"))]
  }

  lemma DependentsOfTwoSeries(n1: nat, n2: nat)
    requires n1 <= 3 && n2 <= 3
    ensures Dependents(TwoSeries(n1, n2), "series1") == {}
    ensures Dependents(TwoSeries(n1, n2), "series2") == {"series1"}
  {
    var book := TwoSeries(n1, n2);
    assert "series1" in Dependents(book, "series2");
    assert "series1" != "series2";
  }

  /** `empty_empty`, `empty_nonempty` and `nonempty_nonempty`. */
  lemma TestScenarios()
    ensures var p := SeriesItem("series1", None);
            && Next(TwoSeries(0, 0), p) == Ok(p)
            && Parent(TwoSeries(0, 0), p) == Ok(SeriesItem("series2", None))
    ensures var p := SeriesItem("series1", None);
            var q := SeriesItem("series2", Some(2));
            && Next(TwoSeries(0, 3), p) == Ok(p)
            && Parent(TwoSeries(0, 3), p) == Ok(q)
            && Next(TwoSeries(0, 3), q) == Ok(p)
            && Parent(TwoSeries(0, 3), q) == Ok(SeriesItem("series2", Some(1)))
            && Parent(TwoSeries(0, 3), SeriesItem("series2", Some(0))).Err?
    ensures var p := SeriesItem("series1", Some(2));
            && Next(TwoSeries(3, 3), p) == Ok(p)
            && Parent(TwoSeries(3, 3), p) == Ok(SeriesItem("series1", Some(1)))
            && Next(TwoSeries(3, 3), SeriesItem("series1", Some(0))) == Ok(SeriesItem("series1", Some(1)))
            && Parent(TwoSeries(3, 3), SeriesItem("series1", Some(0))) == Ok(SeriesItem("series2", Some(2)))
            && Next(TwoSeries(3, 3), SeriesItem("series2", Some(2))) == Ok(SeriesItem("series1", Some(0)))
  {
    DependentsOfTwoSeries(0, 0);
    DependentsOfTwoSeries(0, 3);
    DependentsOfTwoSeries(3, 3);
    assert Single({"series1"}) == "series1";
  }
}
