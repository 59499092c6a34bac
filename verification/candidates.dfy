/** Candidate implementations of a feature request in autonomous_game_dev.py:
    generation by up to three backends (`_generate_implementations`),
    selection of the best (`_select_best_implementation`) and the shallow
    validator (`_test_implementation`). The backends are external; what each
    returned (or raised) for the current request is an input. */
module Candidates {
  import opened Wrappers
  import opened Text
  import opened Records
  import opened StableSort

  /** `{"source", "code", "quality", "confidence"}`; Python floats are reals here. */
  datatype Candidate = Candidate(source: string, code: string, quality: real, confidence: real)

  /** A candidate together with its `score` field. */
  datatype Scored = Scored(candidate: Candidate, score: real)

  /** What `autocoder.generate_code` returned: the optional `code`,
      `quality_score` and `confidence` fields. */
  datatype CoderOutput = CoderOutput(code: Option<string>, qualityScore: Option<real>,
                                     confidence: Option<real>)

  /** What `hf_ai.generate_lua_code` returned: the optional `success` and `code` fields. */
  datatype HfOutput = HfOutput(success: Option<bool>, code: Option<string>)

  /** Which backends were importable when the developer was created. */
  datatype Backends = Backends(autocoder: bool, huggingface: bool, llm: bool)

  /** What each backend call did for one request; the raw LLM reply is the
      content of its first choice (a malformed response raises). */
  datatype Replies = Replies(autocoder: Reply<CoderOutput>, huggingface: Reply<HfOutput>,
                             llm: Reply<string>)

  /** The fixed priors of the Hugging Face and raw LLM backends. */
  const HfQuality: real := 0.5
  const HfConfidence: real := 0.6
  const LlmQuality: real := 0.7
  const LlmConfidence: real := 0.8

  /** The position of a backend in the fixed call order. */
  function SourceRank(source: string): nat {
    if source == "autocoder" then 0 else if source == "huggingface" then 1 else 2
  }

  function CandidateRank(c: Candidate): nat {
    SourceRank(c.source)
  }

  predicate HasSource(cands: seq<Candidate>, source: string) {
    exists c :: c in cands && c.source == source
  }

  /** `_generate_implementations`: the backends are tried in the order
      autocoder, huggingface, llm and each adds at most one candidate, so the
      candidates are listed in that order. What each backend contributes is
      stated by `CoderContribution`, `HfContribution` and `LlmContribution`. */
  function GenerateCandidates(b: Backends, r: Replies): (cands: seq<Candidate>)
    ensures |cands| <= 3
    ensures forall i, j :: 0 <= i < j < |cands| ==>
              SourceRank(cands[i].source) < SourceRank(cands[j].source)
    ensures forall c :: c in cands ==> c.source in {"autocoder", "huggingface", "llm"}
  {
    var fromCoder := FromCoder(b, r);
    var fromHf := FromHf(b, r);
    var fromLlm := FromLlm(b, r);
    var cands := fromCoder + fromHf + fromLlm;
    assert forall i, j :: 0 <= i < j < |cands| ==>
             SourceRank(cands[i].source) < SourceRank(cands[j].source) by {
      RanksIncrease(fromCoder, fromHf, fromLlm, CandidateRank);
    }
    assert forall c :: c in cands ==> c in fromCoder || c in fromHf || c in fromLlm;
    cands
  }

  /** The autocoder contributes exactly when it is available and does not
      raise, with its self-reported code and scores (empty code and 0 when a
      field is missing). */
  lemma CoderContribution(b: Backends, r: Replies)
    ensures HasSource(GenerateCandidates(b, r), "autocoder")
            <==> b.autocoder && r.autocoder.Returned?
    ensures forall c :: c in GenerateCandidates(b, r) && c.source == "autocoder" ==>
              && c.code == r.autocoder.value.code.GetOr("")
              && c.quality == r.autocoder.value.qualityScore.GetOr(0.0)
              && c.confidence == r.autocoder.value.confidence.GetOr(0.0)
  {
    var fromCoder, fromHf, fromLlm := FromCoder(b, r), FromHf(b, r), FromLlm(b, r);
    assert GenerateCandidates(b, r) == fromCoder + fromHf + fromLlm;
    assert forall c :: c in GenerateCandidates(b, r) <==>
             c in fromCoder || c in fromHf || c in fromLlm;
  }

  /** The Hugging Face backend contributes exactly when it is available,
      does not raise and reports success, with its code and the fixed priors. */
  lemma HfContribution(b: Backends, r: Replies)
    ensures HasSource(GenerateCandidates(b, r), "huggingface")
            <==> b.huggingface && r.huggingface.Returned?
                 && r.huggingface.value.success.GetOr(false)
    ensures forall c :: c in GenerateCandidates(b, r) && c.source == "huggingface" ==>
              && c.quality == HfQuality && c.confidence == HfConfidence
              && c.code == r.huggingface.value.code.GetOr("")
  {
    var fromCoder, fromHf, fromLlm := FromCoder(b, r), FromHf(b, r), FromLlm(b, r);
    assert GenerateCandidates(b, r) == fromCoder + fromHf + fromLlm;
    assert forall c :: c in GenerateCandidates(b, r) <==>
             c in fromCoder || c in fromHf || c in fromLlm;
  }

  /** The raw LLM contributes exactly when it is available and its call does
      not raise, with the reply text and the fixed priors. */
  lemma LlmContribution(b: Backends, r: Replies)
    ensures HasSource(GenerateCandidates(b, r), "llm") <==> b.llm && r.llm.Returned?
    ensures forall c :: c in GenerateCandidates(b, r) && c.source == "llm" ==>
              && c.quality == LlmQuality && c.confidence == LlmConfidence
              && c.code == r.llm.value
  {
    var fromCoder, fromHf, fromLlm := FromCoder(b, r), FromHf(b, r), FromLlm(b, r);
    assert GenerateCandidates(b, r) == fromCoder + fromHf + fromLlm;
    assert forall c :: c in GenerateCandidates(b, r) <==>
             c in fromCoder || c in fromHf || c in fromLlm;
  }

  /** The autocoder's contribution: its own code and scores, defaulting to
      the empty code and 0. */
  function FromCoder(b: Backends, r: Replies): (cands: seq<Candidate>)
    ensures |cands| <= 1
    ensures cands != [] <==> b.autocoder && r.autocoder.Returned?
    ensures forall c :: c in cands ==>
              && c.source == "autocoder"
              && c.code == r.autocoder.value.code.GetOr("")
              && c.quality == r.autocoder.value.qualityScore.GetOr(0.0)
              && c.confidence == r.autocoder.value.confidence.GetOr(0.0)
  {
    if b.autocoder && r.autocoder.Returned? then
      var out := r.autocoder.value;
      [Candidate("autocoder", out.code.GetOr(""), out.qualityScore.GetOr(0.0),
                 out.confidence.GetOr(0.0))]
    else []
  }

  /** The Hugging Face contribution, only when it reports success. */
  function FromHf(b: Backends, r: Replies): (cands: seq<Candidate>)
    ensures |cands| <= 1
    ensures cands != [] <==> b.huggingface && r.huggingface.Returned?
                             && r.huggingface.value.success.GetOr(false)
    ensures forall c :: c in cands ==>
              && c.source == "huggingface"
              && c.quality == HfQuality && c.confidence == HfConfidence
              && c.code == r.huggingface.value.code.GetOr("")
  {
    if b.huggingface && r.huggingface.Returned? && r.huggingface.value.success.GetOr(false) then
      [Candidate("huggingface", r.huggingface.value.code.GetOr(""), HfQuality, HfConfidence)]
    else []
  }

  /** The raw LLM contribution: the reply text with fixed priors. */
  function FromLlm(b: Backends, r: Replies): (cands: seq<Candidate>)
    ensures |cands| <= 1
    ensures cands != [] <==> b.llm && r.llm.Returned?
    ensures forall c :: c in cands ==>
              && c.source == "llm"
              && c.quality == LlmQuality && c.confidence == LlmConfidence
              && c.code == r.llm.value
  {
    if b.llm && r.llm.Returned? then [Candidate("llm", r.llm.value, LlmQuality, LlmConfidence)]
    else []
  }

  /** `quality * confidence`. */
  function Score(c: Candidate): real {
    c.quality * c.confidence
  }

  function WithScore(c: Candidate): Scored {
    Scored(c, Score(c))
  }

  function ScoreKey(s: Scored): real {
    s.score
  }

  /** `[{**impl, "score": ...} for impl in implementations]`. */
  function ScoreAll(cands: seq<Candidate>): (scored: seq<Scored>)
    ensures |scored| == |cands|
    ensures forall i :: 0 <= i < |cands| ==> scored[i] == WithScore(cands[i])
  {
    seq(|cands|, i requires 0 <= i < |cands| => WithScore(cands[i]))
  }

  /** `_select_best_implementation`: None for no candidates; otherwise the
      head of the candidates stably sorted by descending score, which is a
      candidate of maximal score carrying all its fields and that score. */
  function SelectBest(cands: seq<Candidate>): (best: Option<Scored>)
    ensures best.None? <==> |cands| == 0
    ensures best.Some? ==>
              best.value.candidate in cands && best.value.score == Score(best.value.candidate)
    ensures best.Some? ==> forall c :: c in cands ==> Score(c) <= best.value.score
  {
    if |cands| == 0 then None
    else
      var scored := ScoreAll(cands);
      var sorted := Sort(scored, ScoreKey);
      assert sorted[0] in multiset(scored);
      assert forall c :: c in cands ==> Score(c) <= sorted[0].score by {
        forall c | c in cands
          ensures Score(c) <= sorted[0].score
        {
          var i :| 0 <= i < |cands| && cands[i] == c;
          assert scored[i] in multiset(sorted);
          var m :| 0 <= m < |sorted| && sorted[m] == scored[i];
          assert m == 0 || ScoreKey(sorted[0]) >= ScoreKey(sorted[m]);
        }
      }
      Some(sorted[0])
  }

  /** Ties go to the earliest candidate: Python's sort is stable even with
      `reverse=True`, so the first candidate of maximal score wins. */
  lemma SelectBestIsEarliestArgmax(cands: seq<Candidate>, k: nat)
    requires k < |cands|
    requires forall j :: 0 <= j < |cands| ==> Score(cands[j]) <= Score(cands[k])
    requires forall j :: 0 <= j < k ==> Score(cands[j]) < Score(cands[k])
    ensures SelectBest(cands) == Some(WithScore(cands[k]))
  {
    SortHeadIsEarliestMax(ScoreAll(cands), ScoreKey, k);
  }

  /** The result of `_test_implementation`: the checks passed and the score,
      or the reason for rejection. */
  datatype TestResult = Passed(checks: seq<string>, score: real) | Rejected(error: string)

  const MinCodeLength: nat := 10

  /** The structural checks a selected candidate's code must pass. */
  predicate PlausibleLua(code: string) {
    |code| >= MinCodeLength && (Contains(code, "function") || Contains(code, "local"))
  }

  /** `_test_implementation`: the checks in source order, no implementation,
      then too short (an empty code is shorter than 10), then no Lua marker;
      on success the score is the candidate's quality. (The source's default
      0.5 never applies: a selected candidate always has a quality.) */
  function TestImplementation(impl: Option<Scored>): (r: TestResult)
    ensures r.Passed? <==> impl.Some? && PlausibleLua(impl.value.candidate.code)
    ensures impl.None? ==> r == Rejected("No implementation provided")
    ensures impl.Some? && |impl.value.candidate.code| < MinCodeLength ==>
              r == Rejected("Code too short")
    ensures (impl.Some? && |impl.value.candidate.code| >= MinCodeLength
             && !PlausibleLua(impl.value.candidate.code)) ==> r == Rejected("Not valid Lua code")
    ensures r.Passed? ==> r.score == impl.value.candidate.quality
  {
    match impl
    case None => Rejected("No implementation provided")
    case Some(s) =>
      var code := s.candidate.code;
      if |code| == 0 || |code| < MinCodeLength then Rejected("Code too short")
      else if !(Contains(code, "function") || Contains(code, "local")) then
        Rejected("Not valid Lua code")
      else Passed(["syntax", "structure"], s.candidate.quality)
  }
}
