/** The suite runner: selects the tasks, runs them one at a time and summarizes
    the run. */
module Suite {
  import opened Values
  import opened Catalog
  import opened Executor

  const NoTasksMessage: string := "No tasks match the specified criteria"

  /** The run summary. Times are in hundredths of a second; the average is
      exact (no rounding). */
  datatype Summary = Summary(
    totalTasks: nat,
    successful: nat,
    failed: int,
    totalTime: nat,
    avgTime: real)

  datatype Metadata = Metadata(
    timestamp: string,
    tier: string,
    mode: string,
    categoryFilter: Option<string>,
    chairman: Option<string>)

  /** What a suite run returns: the error-shaped result of an empty selection,
      or the complete run. */
  datatype SuiteOutput =
    | NoMatch(error: string)
    | Run(metadata: Metadata, summary: Summary, results: seq<EvalResult>)

  /** The tasks a run selects: an absent or empty list means the whole catalog,
      and an absent or empty category means no filter. */
  function SelectTasks(tasks: Option<seq<Task>>, category: Option<string>): (sel: seq<Task>)
    ensures category.Some? && category.value != "" ==> forall t :: t in sel ==> t.category == category.value
    ensures tasks.Some? && tasks.value != [] ==> forall t :: t in sel ==> t in tasks.value
    ensures (category.None? || category.value == "") && tasks.Some? && tasks.value != [] ==> sel == tasks.value
  {
    var pool := if tasks.None? || tasks.value == [] then EvalTasks else tasks.value;
    if category.Some? && category.value != "" then FilterByCategory(pool, category.value) else pool
  }

  /** The successful records, in order. */
  function Successes(rs: seq<EvalResult>): (s: seq<EvalResult>)
    ensures |s| <= |rs|
    ensures forall r :: r in s <==> r in rs && r.Success()
  {
    if rs == [] then []
    else (if rs[0].Success() then [rs[0]] else []) + Successes(rs[1..])
  }

  /** The failed records, in order. */
  function Failures(rs: seq<EvalResult>): (s: seq<EvalResult>)
    ensures |s| <= |rs|
    ensures forall r :: r in s <==> r in rs && !r.Success()
  {
    if rs == [] then []
    else (if rs[0].Success() then [] else [rs[0]]) + Failures(rs[1..])
  }

  /** The sum of the records' elapsed times. */
  function TotalTime(rs: seq<EvalResult>): (total: nat)
    ensures forall i :: 0 <= i < |rs| ==> rs[i].elapsed <= total
    ensures total == 0 <==> forall i :: 0 <= i < |rs| ==> rs[i].elapsed == 0
  {
    if rs == [] then 0
    else
      assert forall i :: 1 <= i < |rs| ==> rs[i] == rs[1..][i - 1];
      rs[0].elapsed + TotalTime(rs[1..])
  }

  /** The mean time per task, 0 when there are no tasks. */
  function Average(total: nat, count: nat): (avg: real)
    ensures count > 0 ==> avg * count as real == total as real
    ensures count == 0 ==> avg == 0.0
    ensures avg >= 0.0
  {
    if count > 0 then total as real / count as real else 0.0
  }

  /** The summary of `taskCount` tasks whose records are `rs`: for a complete
      run (`taskCount == |rs|`) successes and failures partition the tasks. */
  function Summarize(taskCount: nat, rs: seq<EvalResult>): (s: Summary)
    ensures s.totalTasks == taskCount && s.totalTime == TotalTime(rs)
    ensures s.successful <= |rs| && s.successful + s.failed == taskCount
    ensures s.avgTime == Average(s.totalTime, s.totalTasks)
    ensures taskCount == |rs| ==> s.successful == |Successes(rs)| && s.failed == |Failures(rs)|
  {
    CountsPartition(rs);
    var total := TotalTime(rs);
    var successful := |Successes(rs)|;
    Summary(taskCount, successful, taskCount - successful, total, Average(total, taskCount))
  }

  /** Every record is a success or a failure, never both. */
  lemma {:induction false} CountsPartition(rs: seq<EvalResult>)
    ensures |Successes(rs)| + |Failures(rs)| == |rs|
  {
    if rs != [] {
      CountsPartition(rs[1..]);
    }
  }

  /** The total time counts successes and failures alike. */
  lemma {:induction false} TotalTimePartition(rs: seq<EvalResult>)
    ensures TotalTime(rs) == TotalTime(Successes(rs)) + TotalTime(Failures(rs))
  {
    if rs != [] {
      TotalTimePartition(rs[1..]);
      TotalTimeAppend(if rs[0].Success() then [rs[0]] else [], Successes(rs[1..]));
      TotalTimeAppend(if rs[0].Success() then [] else [rs[0]], Failures(rs[1..]));
    }
  }

  /** The total time of one record is that record's time. */
  lemma TotalTimeSingle(r: EvalResult)
    ensures TotalTime([r]) == r.elapsed
  {
  }

  lemma {:induction false} TotalTimeAppend(a: seq<EvalResult>, b: seq<EvalResult>)
    ensures TotalTime(a + b) == TotalTime(a) + TotalTime(b)
  {
    if a == [] {
      assert a + b == b;
    } else {
      assert (a + b)[0] == a[0];
      assert (a + b)[1..] == a[1..] + b;
      TotalTimeAppend(a[1..], b);
    }
  }

  /** Selecting successes distributes over concatenation: the successful
      records keep their order and their repetitions. */
  lemma {:induction false} SuccessesAppend(a: seq<EvalResult>, b: seq<EvalResult>)
    ensures Successes(a + b) == Successes(a) + Successes(b)
  {
    if a == [] {
      assert a + b == b;
    } else {
      assert (a + b)[0] == a[0];
      assert (a + b)[1..] == a[1..] + b;
      SuccessesAppend(a[1..], b);
    }
  }

  /** Selecting failures distributes over concatenation. */
  lemma {:induction false} FailuresAppend(a: seq<EvalResult>, b: seq<EvalResult>)
    ensures Failures(a + b) == Failures(a) + Failures(b)
  {
    if a == [] {
      assert a + b == b;
    } else {
      assert (a + b)[0] == a[0];
      assert (a + b)[1..] == a[1..] + b;
      FailuresAppend(a[1..], b);
    }
  }

  /** A single record is a success or a failure. */
  lemma SingleRecord(r: EvalResult)
    ensures Successes([r]) == (if r.Success() then [r] else [])
    ensures Failures([r]) == (if r.Success() then [] else [r])
  {
  }

  /** The summary's total time is the time of the successes plus that of the
      failures. */
  lemma SummaryTotalTime(rs: seq<EvalResult>)
    ensures Summarize(|rs|, rs).totalTime == TotalTime(Successes(rs)) + TotalTime(Failures(rs))
  {
    TotalTimePartition(rs);
  }

  /** Records that all succeeded are all counted as successes. */
  lemma {:induction false} AllSucceeded(rs: seq<EvalResult>)
    requires forall i :: 0 <= i < |rs| ==> rs[i].Success()
    ensures |Successes(rs)| == |rs|
  {
    if rs != [] {
      AllSucceeded(rs[1..]);
    }
  }

  /** Records of which exactly one failed give one failure and all the rest
      successes (three tasks with one failing give 2 and 1). */
  lemma {:induction false} OneFailure(rs: seq<EvalResult>, bad: nat)
    requires bad < |rs|
    requires forall i :: 0 <= i < |rs| ==> (rs[i].Success() <==> i != bad)
    ensures Summarize(|rs|, rs).successful == |rs| - 1
    ensures Summarize(|rs|, rs).failed == 1
  {
    if bad == 0 {
      AllSucceeded(rs[1..]);
    } else {
      OneFailure(rs[1..], bad - 1);
    }
  }

  /** An explicit empty task list falls back to the catalog, as an absent one does. */
  lemma EmptyListFallsBack(category: Option<string>)
    ensures SelectTasks(Some([]), category) == SelectTasks(None, category) == SelectTasks(Some(EvalTasks), category)
  {
  }

  /** An empty category string filters nothing, as an absent one does. */
  lemma EmptyCategoryIsNoFilter(tasks: Option<seq<Task>>)
    ensures SelectTasks(tasks, Some("")) == SelectTasks(tasks, None)
  {
  }

  /** With a category given, the selection is exactly the tasks of that category
      from the list (or the catalog), in their original order. */
  lemma SelectionIsCategoryFilter(tasks: Option<seq<Task>>, c: string)
    requires c != ""
    ensures var pool := if tasks.None? || tasks.value == [] then EvalTasks else tasks.value;
      && (forall t :: t in SelectTasks(tasks, Some(c)) <==> t in pool && t.category == c)
      && SelectTasks(tasks, Some(c)) == FilterByCategory(pool, c)
  {
  }

  /** Every catalog task is selected by its own category. */
  lemma OwnCategorySelectsTask(i: nat)
    requires i < 16
    ensures i < |EvalTasks| && EvalTasks[i] in SelectTasks(None, Some(EvalTasks[i].category))
  {
    CatalogColumns();
    var t := EvalTasks[i];
    CatalogWellFormed();
    assert t.category in Categories;
    SelectionIsCategoryFilter(None, t.category);
    OwnCategoryContainsTask(EvalTasks, t);
  }

  /** Filtering the catalog by `math` selects its two math tasks. */
  lemma MathCategorySelectsTwo()
    ensures var sel := SelectTasks(None, Some("math"));
      |sel| == 2 && forall t :: t in sel ==> t.category == "math"
  {
    SelectionIsCategoryFilter(None, "math");
    MathSelection();
    CatalogColumns();
  }

  /** A non-empty category the catalog does not use selects nothing (the empty
      string is no filter at all). */
  lemma UnusedCategorySelectsNone(c: string)
    requires c != "" && c !in Categories
    ensures SelectTasks(None, Some(c)) == []
  {
    SelectionIsCategoryFilter(None, c);
    UnusedCategorySelectsNothing(c);
  }

  /** The command line passes no task list and a category among the nine (or
      none), so a run started from it never takes the empty-selection exit. */
  lemma CommandLineSelectionNonEmpty(category: Option<string>)
    requires category.None? || category.value in Categories
    ensures SelectTasks(None, category) != []
  {
    if category.Some? {
      assert category.value != "";
      SelectionIsCategoryFilter(None, category.value);
      EveryCategoryUsed(category.value);
    } else {
      CatalogColumns();
    }
  }

  /** Runs `selected` one task after another, the `i`-th as the council's
      `i`-th call, appending each record as it completes. `calls` lists the
      requests sent to the council, in order. */
  method RunTasks(selected: seq<Task>, tier: string, mode: string, cfg: Config, council: Council)
    returns (results: seq<EvalResult>, calls: seq<Request>)
    ensures |results| == |selected| && |calls| == |selected|
    ensures forall i :: 0 <= i < |selected| ==> calls[i] == Dispatch(selected[i], tier, mode, cfg)
    ensures forall i :: 0 <= i < |selected| ==>
              results[i] == RunSingleEval(selected[i], tier, mode, cfg, i, council)
  {
    results, calls := [], [];
    for i := 0 to |selected|
      invariant |results| == i && |calls| == i
      invariant forall k :: 0 <= k < i ==> calls[k] == Dispatch(selected[k], tier, mode, cfg)
      invariant forall k :: 0 <= k < i ==> results[k] == RunSingleEval(selected[k], tier, mode, cfg, k, council)
    {
      var request := Dispatch(selected[i], tier, mode, cfg);
      var reply := council(i, request);
      var record := Record(selected[i], tier, mode, reply);
      assert record == RunSingleEval(selected[i], tier, mode, cfg, i, council);
      calls := calls + [request];
      results := results + [record];
    }
  }

  /** Selects the tasks, runs them in order and summarizes the run; an empty
      selection returns the error-shaped output without calling the council.
      `now` is the clock reading for the metadata. */
  method RunEvalSuite(
    tasks: Option<seq<Task>>, tier: string, mode: string, category: Option<string>,
    cfg: Config, council: Council, now: string)
    returns (out: SuiteOutput, calls: seq<Request>)
    ensures out.NoMatch? <==> SelectTasks(tasks, category) == []
    ensures out.NoMatch? ==> out.error == NoTasksMessage && calls == []
    ensures out.Run? ==>
      var sel := SelectTasks(tasks, category);
      && |out.results| == |sel| && |calls| == |sel|
      && (forall i :: 0 <= i < |sel| ==> calls[i] == Dispatch(sel[i], tier, mode, cfg))
      && (forall i :: 0 <= i < |sel| ==> out.results[i] == RunSingleEval(sel[i], tier, mode, cfg, i, council))
      && (forall i :: 0 <= i < |sel| ==>
            out.results[i].taskId == sel[i].id && out.results[i].category == sel[i].category)
      && out.summary == Summarize(|sel|, out.results)
      && out.summary.successful + out.summary.failed == out.summary.totalTasks == |out.results|
      && out.summary.totalTime == TotalTime(out.results)
      && out.metadata == Metadata(now, tier, mode, category, cfg.chairman)
  {
    var selected := SelectTasks(tasks, category);
    if selected == [] {
      return NoMatch(NoTasksMessage), [];
    }
    var results;
    results, calls := RunTasks(selected, tier, mode, cfg, council);
    out := Run(Metadata(now, tier, mode, category, cfg.chairman), Summarize(|selected|, results), results);
  }
}
