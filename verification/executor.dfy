/** The single-task executor: resolves the tier and mode, makes one council
    call and turns its outcome into a tagged evaluation record. */
module Executor {
  import opened Values
  import opened Catalog
  import opened Sanitizer

  type ModelId = string

  /** The configuration collaborator: the three model tiers and the current
      chairman designation. */
  datatype Config = Config(
    premium: seq<ModelId>,
    standard: seq<ModelId>,
    budget: seq<ModelId>,
    chairman: Option<ModelId>)

  /** The three council entry points: stage 1 only, stages 1-2, stages 1-3. */
  datatype CallKind = Quick | Ranked | Full

  /** One council invocation: which entry point, with which question and models. */
  datatype Request = Request(kind: CallKind, question: string, models: seq<ModelId>)

  /** What a council call produced: a complete output, or the text of the
      exception it raised. */
  datatype CallResult = Returned(output: CouncilOutput) | Raised(message: string)

  /** A call's result together with the wall-clock time it took, in hundredths
      of a second (measured up to the exception when one is raised). */
  datatype Reply = Reply(result: CallResult, elapsed: nat)

  /** The external council: the reply to the `n`-th call of a run (counting
      from 0) made with a given request. The ordinal lets two calls with the
      same request get different replies and different timings. */
  type Council = (nat, Request) -> Reply

  /** What a record holds beyond the fields every record has. */
  datatype Outcome =
    | Completed(question: string, expected: string, evalCriteria: string, result: Sanitized)
    | Failed(error: string)

  /** One evaluation record. */
  datatype EvalResult = EvalResult(
    taskId: string,
    category: string,
    difficulty: string,
    tier: string,
    mode: string,
    elapsed: nat,
    outcome: Outcome)
  {
    predicate Success() { outcome.Completed? }
  }

  const CommonKeys: set<string> :=
    {"task_id", "category", "difficulty", "tier", "mode", "success", "elapsed_seconds"}

  /** The keys a record carries when written out as a JSON object. */
  function Keys(r: EvalResult): (k: set<string>)
    ensures CommonKeys <= k
    ensures "result" in k <==> r.Success()
    ensures "error" in k <==> !r.Success()
  {
    CommonKeys
    + match r.outcome
      case Completed(_, _, _, _) => {"question", "expected", "eval_criteria", "result"}
      case Failed(_) => {"error"}
  }

  /** The models for a tier name; a name other than `premium` or `budget`
      means the standard tier. */
  function SelectModels(tier: string, cfg: Config): (models: seq<ModelId>)
    ensures tier == "premium" ==> models == cfg.premium
    ensures tier == "budget" ==> models == cfg.budget
    ensures tier != "premium" && tier != "budget" ==> models == cfg.standard
  {
    if tier == "premium" then cfg.premium
    else if tier == "budget" then cfg.budget
    else cfg.standard
  }

  /** The entry point for a mode; any mode other than `quick` or `ranked`
      gets the full pipeline. */
  function SelectCall(mode: string): (kind: CallKind)
    ensures kind == Quick <==> mode == "quick"
    ensures kind == Ranked <==> mode == "ranked"
    ensures kind == Full <==> mode != "quick" && mode != "ranked"
  {
    if mode == "quick" then Quick
    else if mode == "ranked" then Ranked
    else Full
  }

  /** The one request the executor sends for `task`. */
  function Dispatch(task: Task, tier: string, mode: string, cfg: Config): (req: Request)
    ensures req.question == task.question
    ensures req.kind == SelectCall(mode) && req.models == SelectModels(tier, cfg)
  {
    Request(SelectCall(mode), task.question, SelectModels(tier, cfg))
  }

  /** The record for `task` once the council has replied: a success carries the
      grading hints and the sanitized output, a failure the exception text. */
  function Record(task: Task, tier: string, mode: string, reply: Reply): (r: EvalResult)
    ensures r.taskId == task.id && r.category == task.category && r.difficulty == task.difficulty
    ensures r.tier == tier && r.mode == mode && r.elapsed == reply.elapsed
    ensures r.Success() <==> reply.result.Returned?
    ensures r.Success() ==>
              && r.outcome.question == task.question
              && r.outcome.expected == task.expectedAnswer
              && r.outcome.evalCriteria == task.evalCriteria
              && r.outcome.result == SanitizeResult(reply.result.output, mode)
    ensures !r.Success() ==> r.outcome.error == reply.result.message
  {
    var outcome :=
      match reply.result
      case Returned(output) =>
        Completed(task.question, task.expectedAnswer, task.evalCriteria, SanitizeResult(output, mode))
      case Raised(message) => Failed(message);
    EvalResult(task.id, task.category, task.difficulty, tier, mode, reply.elapsed, outcome)
  }

  /** Runs `task` as the `n`-th council call of a run: one request, one reply,
      one record. */
  function RunSingleEval(task: Task, tier: string, mode: string, cfg: Config, n: nat, council: Council)
    : (r: EvalResult)
    ensures r.taskId == task.id && r.tier == tier && r.mode == mode
    ensures r.Success() <==> council(n, Dispatch(task, tier, mode, cfg)).result.Returned?
    ensures r.elapsed == council(n, Dispatch(task, tier, mode, cfg)).elapsed
  {
    Record(task, tier, mode, council(n, Dispatch(task, tier, mode, cfg)))
  }

  /** The record depends on the council only through its reply to the one
      request the executor makes: two councils that agree on that reply give
      the same record. */
  lemma OneCouncilCall(task: Task, tier: string, mode: string, cfg: Config, n: nat, c1: Council, c2: Council)
    requires c1(n, Dispatch(task, tier, mode, cfg)) == c2(n, Dispatch(task, tier, mode, cfg))
    ensures RunSingleEval(task, tier, mode, cfg, n, c1) == RunSingleEval(task, tier, mode, cfg, n, c2)
  {
  }

  /** Every record has the seven common keys; a success adds the
      question, grading hints and result, a failure adds only `error`. */
  lemma RecordKeys(task: Task, tier: string, mode: string, reply: Reply)
    ensures var r := Record(task, tier, mode, reply);
      && CommonKeys <= Keys(r)
      && (reply.result.Returned? ==>
            Keys(r) == CommonKeys + {"question", "expected", "eval_criteria", "result"})
      && (reply.result.Raised? ==> Keys(r) == CommonKeys + {"error"})
      && ("error" in Keys(r) <==> "result" !in Keys(r))
  {
  }

  /** A failed call leaves no `result`, `question`, `expected` or
      `eval_criteria` key in its record. */
  lemma FailureRecordIsBare(task: Task, tier: string, mode: string, reply: Reply)
    requires reply.result.Raised?
    ensures var r := Record(task, tier, mode, reply);
      && !r.Success()
      && Keys(r) * {"result", "question", "expected", "eval_criteria"} == {}
  {
    RecordKeys(task, tier, mode, reply);
  }

  /** An unknown tier name runs exactly as `standard` does; only the recorded
      tier name differs. */
  lemma UnknownTierIsStandard(task: Task, tier: string, mode: string, cfg: Config, n: nat, council: Council)
    requires tier != "premium" && tier != "budget"
    ensures Dispatch(task, tier, mode, cfg) == Dispatch(task, "standard", mode, cfg)
    ensures RunSingleEval(task, tier, mode, cfg, n, council)
         == RunSingleEval(task, "standard", mode, cfg, n, council).(tier := tier)
  {
  }

  /** An unknown mode calls the full pipeline, yet its record keeps neither the
      rankings nor the synthesis, since the sanitizer sees the unknown name. */
  lemma UnknownModeDropsLaterStages(task: Task, tier: string, mode: string, cfg: Config, n: nat, council: Council)
    requires mode != "quick" && mode != "ranked" && mode != "full"
    ensures Dispatch(task, tier, mode, cfg).kind == Full
    ensures var r := RunSingleEval(task, tier, mode, cfg, n, council);
      r.Success() ==> Sanitizer.Keys(r.outcome.result) * {"rankings", "synthesis", "chairman", "consensus"} == {}
  {
    var r := RunSingleEval(task, tier, mode, cfg, n, council);
    if r.Success() {
      SanitizedKeys(council(n, Dispatch(task, tier, mode, cfg)).result.output, mode);
    }
  }

  /** A quick-mode success stores the stage-1 responses whenever the council
      returned them, and nothing of later stages. */
  lemma QuickModeRecord(task: Task, tier: string, cfg: Config, n: nat, council: Council)
    ensures Dispatch(task, tier, "quick", cfg).kind == Quick
    ensures var r := RunSingleEval(task, tier, "quick", cfg, n, council);
      r.Success() ==>
        && (r.outcome.result.responses.Some? <==> council(n, Dispatch(task, tier, "quick", cfg)).result.output.stage1.Some?)
        && Sanitizer.Keys(r.outcome.result) * {"rankings", "synthesis", "chairman", "consensus"} == {}
  {
    var r := RunSingleEval(task, tier, "quick", cfg, n, council);
    if r.Success() {
      QuickModeKeepsOnlyStageOne(council(n, Dispatch(task, tier, "quick", cfg)).result.output);
    }
  }
}
