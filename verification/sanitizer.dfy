/** The result sanitizer: projects a raw council output onto a bounded summary
    fit for storage. */
module Sanitizer {
  import opened Values

  /** Longest stage-1 response kept, in characters. */
  const ResponseLimit: nat := 2000
  /** Longest synthesis kept, in characters. */
  const SynthesisLimit: nat := 3000

  /** One model's stage-1 answer. */
  datatype Response = Response(model: string, content: string)

  /** Stage 2 (ranking pass): only its `aggregate` entry is read. */
  datatype StageTwo = StageTwo(aggregate: Option<Json>)

  /** Stage 3 (chairman synthesis): only `synthesis` and `chairman` are read. */
  datatype StageThree = StageThree(synthesis: Option<string>, chairman: Option<string>)

  /** The top-level `consensus` entry: only `level` is read. */
  datatype Consensus = Consensus(level: Option<string>)

  /** A raw council output. Every entry may be absent; which stages are present
      depends on the query the council answered. */
  datatype CouncilOutput = CouncilOutput(
    tier: Option<string>,
    stage1: Option<seq<Response>>,
    stage2: Option<StageTwo>,
    stage3: Option<StageThree>,
    consensus: Option<Consensus>)

  /** The three keys the sanitizer writes together from stage 3. */
  datatype SynthesisSummary = SynthesisSummary(
    synthesis: string,
    chairman: Option<string>,
    consensus: Option<string>)

  /** A sanitized result. `None` marks a key that is not written. */
  datatype Sanitized = Sanitized(
    tier: Option<string>,
    modelsQueried: nat,
    responses: Option<seq<Response>>,
    rankings: Option<Json>,
    stage3: Option<SynthesisSummary>)

  /** The keys a sanitized result carries when written out as a JSON object. */
  function Keys(s: Sanitized): (k: set<string>)
    ensures {"tier", "models_queried"} <= k
    ensures k <= {"tier", "models_queried", "responses", "rankings", "synthesis", "chairman", "consensus"}
    ensures "responses" in k <==> s.responses.Some?
    ensures "rankings" in k <==> s.rankings.Some?
    ensures "synthesis" in k <==> s.stage3.Some?
    ensures "chairman" in k <==> s.stage3.Some?
    ensures "consensus" in k <==> s.stage3.Some?
  {
    {"tier", "models_queried"}
    + (if s.responses.Some? then {"responses"} else {})
    + (if s.rankings.Some? then {"rankings"} else {})
    + (if s.stage3.Some? then {"synthesis", "chairman", "consensus"} else {})
  }

  /** The string prefix `s[:n]`: all of `s` when it is short enough. */
  function Truncate(s: string, n: nat): (r: string)
    ensures |r| == Min(|s|, n)
    ensures r <= s
  {
    if |s| <= n then s else s[..n]
  }

  /** `after` is `before` entry by entry, with each content cut to `limit`. */
  ghost predicate TruncatedCopy(before: seq<Response>, after: seq<Response>, limit: nat)
  {
    && |after| == |before|
    && forall i :: 0 <= i < |before| ==>
         && after[i].model == before[i].model
         && after[i].content <= before[i].content
         && |after[i].content| == Min(|before[i].content|, limit)
  }

  function TruncateResponses(rs: seq<Response>): (r: seq<Response>)
    ensures TruncatedCopy(rs, r, ResponseLimit)
  {
    seq(|rs|, i requires 0 <= i < |rs| => Response(rs[i].model, Truncate(rs[i].content, ResponseLimit)))
  }

  predicate RanksInMode(mode: string)
  {
    mode == "ranked" || mode == "full"
  }

  /** Sanitizes the raw output of a council queried in `mode`. Total: an absent
      stage only leaves its keys out. */
  function SanitizeResult(raw: CouncilOutput, mode: string): (r: Sanitized)
    ensures r.tier == raw.tier
    ensures r.modelsQueried == if raw.stage1.Some? then |raw.stage1.value| else 0
    ensures r.responses.Some? <==> raw.stage1.Some?
    ensures raw.stage1.Some? ==> TruncatedCopy(raw.stage1.value, r.responses.value, ResponseLimit)
    ensures r.rankings.Some? <==> RanksInMode(mode) && raw.stage2.Some?
    ensures r.rankings.Some? && raw.stage2.value.aggregate.Some? ==>
              r.rankings.value == raw.stage2.value.aggregate.value
    ensures r.rankings.Some? && raw.stage2.value.aggregate.None? ==>
              r.rankings.value == Object(map[])
    ensures r.stage3.Some? <==> mode == "full" && raw.stage3.Some?
    ensures r.stage3.Some? ==> r.stage3.value.chairman == raw.stage3.value.chairman
    ensures r.stage3.Some? && raw.stage3.value.synthesis.None? ==> r.stage3.value.synthesis == ""
    ensures r.stage3.Some? && raw.stage3.value.synthesis.Some? ==>
              && r.stage3.value.synthesis <= raw.stage3.value.synthesis.value
              && |r.stage3.value.synthesis| == Min(|raw.stage3.value.synthesis.value|, SynthesisLimit)
    ensures r.stage3.Some? ==>
              r.stage3.value.consensus == if raw.consensus.Some? then raw.consensus.value.level else None
  {
    var responses := if raw.stage1.Some? then Some(TruncateResponses(raw.stage1.value)) else None;
    var rankings :=
      if RanksInMode(mode) && raw.stage2.Some? then
        Some(if raw.stage2.value.aggregate.Some? then raw.stage2.value.aggregate.value else Object(map[]))
      else None;
    var stage3 :=
      if mode == "full" && raw.stage3.Some? then
        var synthesis := if raw.stage3.value.synthesis.Some? then raw.stage3.value.synthesis.value else "";
        var level := if raw.consensus.Some? then raw.consensus.value.level else None;
        Some(SynthesisSummary(Truncate(synthesis, SynthesisLimit), raw.stage3.value.chairman, level))
      else None;
    Sanitized(raw.tier, if raw.stage1.Some? then |raw.stage1.value| else 0, responses, rankings, stage3)
  }

  /** Which keys a sanitized result has: `tier` and `models_queried` always;
      `responses` exactly when stage 1 is present; `rankings` exactly when the
      mode ranks and stage 2 is present; the three synthesis keys together,
      exactly in full mode with stage 3 present. */
  lemma SanitizedKeys(raw: CouncilOutput, mode: string)
    ensures var k := Keys(SanitizeResult(raw, mode));
      && "tier" in k && "models_queried" in k
      && ("responses" in k <==> raw.stage1.Some?)
      && ("rankings" in k <==> (mode == "ranked" || mode == "full") && raw.stage2.Some?)
      && ("synthesis" in k <==> mode == "full" && raw.stage3.Some?)
      && ("chairman" in k <==> "synthesis" in k)
      && ("consensus" in k <==> "synthesis" in k)
      && k <= {"tier", "models_queried", "responses", "rankings", "synthesis", "chairman", "consensus"}
  {
  }

  /** A quick-mode result keeps the stage-1 responses and nothing of later stages,
      whatever the raw output holds. */
  lemma QuickModeKeepsOnlyStageOne(raw: CouncilOutput)
    ensures var k := Keys(SanitizeResult(raw, "quick"));
      && ("responses" in k <==> raw.stage1.Some?)
      && k * {"rankings", "synthesis", "chairman", "consensus"} == {}
  {
    SanitizedKeys(raw, "quick");
  }

  /** A raw output holding no later stage yields no ranking or synthesis keys,
      in any mode. */
  lemma StageOneOnlyOmitsLaterStages(raw: CouncilOutput, mode: string)
    requires raw.stage2.None? && raw.stage3.None?
    ensures var k := Keys(SanitizeResult(raw, mode));
      k * {"rankings", "synthesis", "chairman", "consensus"} == {}
  {
    SanitizedKeys(raw, mode);
  }

  /** Truncation is idempotent: a stored response is already within its bound. */
  lemma TruncateIdempotent(s: string, n: nat)
    ensures Truncate(Truncate(s, n), n) == Truncate(s, n)
  {
  }

  /** Truncating a response list twice changes nothing the second time. */
  lemma TruncateResponsesIdempotent(rs: seq<Response>)
    ensures TruncateResponses(TruncateResponses(rs)) == TruncateResponses(rs)
  {
    var once := TruncateResponses(rs);
    var twice := TruncateResponses(once);
    forall i | 0 <= i < |rs| ensures twice[i] == once[i] {
      TruncateIdempotent(rs[i].content, ResponseLimit);
    }
  }
}
