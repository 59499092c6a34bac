/** `AutonomousGameDeveloper` of autonomous_game_dev.py: task prioritisation,
    the mapping from a task to a feature request, `develop_feature` (generate,
    select, validate, save) and the improvement loop that develops the three
    most severe tasks per iteration.

    The backends, the file writes of a saved implementation and the pattern
    learner are external: for the k-th `develop_feature` call of a run,
    `effects(k)` says what each of them did. */
module Developer {
  import opened Wrappers
  import opened Text
  import opened Records
  import opened StableSort
  import opened QualityAnalyzer
  import opened Candidates

  // ---------------------------------------------------------------- prioritisation

  const SeverityOrder: map<string, int> := map["high" := 3, "medium" := 2, "low" := 1]

  /** `severity_order.get(t.get("severity", "low"), 1)`: a missing or unknown
      severity ranks as low, so every opportunity (which has a `priority`
      but no `severity`) ranks with the low issues. */
  function Rank(t: Dict): (rank: int)
    ensures 1 <= rank <= 3
    ensures Get(t, "severity", "low") == "high" ==> rank == 3
    ensures Get(t, "severity", "low") == "medium" ==> rank == 2
    ensures Get(t, "severity", "low") == "low" ==> rank == 1
    ensures "severity" !in t ==> rank == 1
    ensures "severity" in t && t["severity"] !in SeverityOrder ==> rank == 1
  {
    var severity := Get(t, "severity", "low");
    if severity in SeverityOrder then SeverityOrder[severity] else 1
  }

  function RankKey(t: Dict): real {
    Rank(t) as real
  }

  /** `_prioritize_tasks`: `sorted(tasks, key=rank, reverse=True)`, a
      permutation of the tasks in non-increasing rank. */
  function Prioritize(tasks: seq<Dict>): (sorted: seq<Dict>)
    ensures multiset(sorted) == multiset(tasks)
    ensures |sorted| == |tasks|
    ensures forall i, j :: 0 <= i < j < |sorted| ==> Rank(sorted[i]) >= Rank(sorted[j])
  {
    var sorted := Sort(tasks, RankKey);
    assert forall i, j :: 0 <= i < j < |sorted| ==> RankKey(sorted[i]) >= RankKey(sorted[j]);
    sorted
  }

  /** Among tasks of equal rank, prioritisation keeps the input order. */
  lemma PrioritizeIsStable(tasks: seq<Dict>, rank: int)
    ensures Only(Prioritize(tasks), RankKey, rank as real) == Only(tasks, RankKey, rank as real)
  {
    SortStable(tasks, RankKey, rank as real);
  }

  const Low: Dict := map["severity" := "low"]
  const Medium: Dict := map["severity" := "medium"]
  const High: Dict := map["severity" := "high"]

  lemma SortLowHigh()
    ensures Sort([Low, High], RankKey) == [High, Low]
  {
    assert Rank(Low) == 1 && Rank(High) == 3;
    assert [Low, High][..1] == [Low] && [Low][..0] == [];
    assert Sort([Low], RankKey) == [Low];
  }

  lemma InsertMedium()
    ensures Insert(Medium, [High, Low], RankKey) == [High, Medium, Low]
  {
    assert Rank(Low) == 1 && Rank(High) == 3 && Rank(Medium) == 2;
    assert [High, Low][1..] == [Low];
    assert Insert(Medium, [Low], RankKey) == [Medium, Low];
    assert Insert(Medium, [High, Low], RankKey) == [High] + [Medium, Low];
  }

  /** `[{severity: low}, {severity: high}, {severity: medium}]` is
      prioritised to `[high, medium, low]`. */
  lemma PrioritizeExample()
    ensures Prioritize([Low, High, Medium]) == [High, Medium, Low]
  {
    var s := [Low, High, Medium];
    assert Sort(s, RankKey) == Insert(Medium, Sort([Low, High], RankKey), RankKey) by {
      assert s[..|s| - 1] == [Low, High] && s[|s| - 1] == Medium;
    }
    assert Sort([Low, High], RankKey) == [High, Low] by {
      SortLowHigh();
    }
    assert Insert(Medium, [High, Low], RankKey) == [High, Medium, Low] by {
      InsertMedium();
    }
  }

  // ---------------------------------------------------------------- task to request

  /** `_task_to_feature_request`; `task['file']` and friends raise KeyError
      when the key is missing, `file` being looked up before the second key
      of the f-string. */
  function TaskToRequest(t: Dict): (r: Result<string, Error>)
    ensures WellFormedReport(t) ==> r.Success?
    ensures Lookup(t, "type") == Some("code_smell") && "file" in t && "suggestion" in t ==>
              r == Success("Refactor " + t["file"] + ": " + t["suggestion"])
    ensures Lookup(t, "type") == Some("error_handling") && "file" in t ==>
              r == Success("Add error handling to " + t["file"])
    ensures Lookup(t, "type") == Some("performance") && "file" in t && "description" in t ==>
              r == Success("Optimize " + t["file"] + ": " + t["description"])
    ensures Lookup(t, "type") !in {Some("code_smell"), Some("error_handling"), Some("performance")}
            ==> r == Success(Get(t, "description", "Unknown task"))
    ensures (Lookup(t, "type") in {Some("code_smell"), Some("error_handling"), Some("performance")}
             && "file" !in t) ==> r == Failure(KeyError("file"))
    ensures Lookup(t, "type") == Some("code_smell") && "file" in t && "suggestion" !in t ==>
              r == Failure(KeyError("suggestion"))
    ensures Lookup(t, "type") == Some("performance") && "file" in t && "description" !in t ==>
              r == Failure(KeyError("description"))
    ensures r.Failure? ==> r.error.KeyError? && r.error.key !in t
  {
    var kind := Lookup(t, "type");
    if kind == Some("code_smell") then
      if "file" !in t then Failure(KeyError("file"))
      else if "suggestion" !in t then Failure(KeyError("suggestion"))
      else Success("Refactor " + t["file"] + ": " + t["suggestion"])
    else if kind == Some("error_handling") then
      if "file" !in t then Failure(KeyError("file"))
      else Success("Add error handling to " + t["file"])
    else if kind == Some("performance") then
      if "file" !in t then Failure(KeyError("file"))
      else if "description" !in t then Failure(KeyError("description"))
      else Success("Optimize " + t["file"] + ": " + t["description"])
    else Success(Get(t, "description", "Unknown task"))
  }

  // ---------------------------------------------------------------- develop_feature

  /** What the external collaborators did during one `develop_feature` call:
      the backend replies, whether writing the implementation raised, and
      whether the pattern learner raised. */
  datatype Effects = Effects(replies: Replies, saveError: Option<string>,
                             learnError: Option<string>)

  /** The record `develop_feature` returns, appends to the development log
      and to `features_developed` (the plan and the timestamp left out). */
  datatype DevelopmentResult = DevelopmentResult(
    feature: string,
    success: bool,
    implementations: nat,
    selected: Option<Scored>,
    testResult: TestResult,
    errors: Option<seq<string>>,
    error: Option<string>)

  /** `develop_feature`: generate, select, validate; a validated candidate is
      saved and then learned from. `success` is set once saving returned, so
      a failing save leaves it false and a failing learner does not. The
      `errors` copied from a failed validation are always empty, because the
      validator reports its reason under `error`, not `errors`. */
  function DevelopFeature(request: string, b: Backends, e: Effects): (r: DevelopmentResult)
    ensures r.feature == request
    ensures r.implementations == |GenerateCandidates(b, e.replies)| && r.implementations <= 3
    ensures r.selected == SelectBest(GenerateCandidates(b, e.replies))
    ensures r.selected.Some? <==> r.implementations > 0
    ensures r.selected.Some? ==> r.selected.value.candidate in GenerateCandidates(b, e.replies)
    ensures r.selected.Some? ==> forall c :: c in GenerateCandidates(b, e.replies) ==>
              Score(c) <= r.selected.value.score
    ensures r.testResult == TestImplementation(r.selected)
    ensures r.testResult.Passed? <==> r.selected.Some? && PlausibleLua(r.selected.value.candidate.code)
    ensures r.success <==> r.testResult.Passed? && e.saveError.None?
    ensures r.testResult.Passed? && e.saveError.Some? ==> r.error == e.saveError
    ensures r.success ==> r.error == (if b.autocoder then e.learnError else None)
    ensures r.success ==> r.selected.Some? && PlausibleLua(r.selected.value.candidate.code)
    ensures r.testResult.Rejected? ==> !r.success && r.errors == Some([]) && r.error.None?
    ensures r.error.Some? ==> r.testResult.Passed?
  {
    var cands := GenerateCandidates(b, e.replies);
    var best := SelectBest(cands);
    var test := TestImplementation(best);
    if test.Passed? then
      if e.saveError.Some? then
        DevelopmentResult(request, false, |cands|, best, test, None, e.saveError)
      else if b.autocoder && e.learnError.Some? then
        DevelopmentResult(request, true, |cands|, best, test, None, e.learnError)
      else
        DevelopmentResult(request, true, |cands|, best, test, None, None)
    else
      DevelopmentResult(request, false, |cands|, best, test, Some([]), None)
  }

  /** A stub backend returning `local function f() return 1 end` with
      quality and confidence 0.9 gets its candidate selected, validated and
      saved. */
  lemma DevelopFeatureStubSucceeds(request: string)
    ensures var stub := Replies(Returned(CoderOutput(Some("local function f() return 1 end"),
                                                     Some(0.9), Some(0.9))),
                                Raised("unavailable"), Raised("unavailable"));
            var r := DevelopFeature(request, Backends(true, false, false),
                                    Effects(stub, None, None));
            r.success && r.selected.Some? && r.selected.value.candidate.source == "autocoder"
  {
    var code := "local function f() return 1 end";
    assert OccursAt(code, "local", 0);
  }

  /** The same stub returning empty code is rejected as too short. */
  lemma DevelopFeatureEmptyCodeFails(request: string)
    ensures var stub := Replies(Returned(CoderOutput(Some(""), Some(0.9), Some(0.9))),
                                Raised("unavailable"), Raised("unavailable"));
            var r := DevelopFeature(request, Backends(true, false, false),
                                    Effects(stub, None, None));
            !r.success && r.testResult == Rejected("Code too short")
  {
  }

  // ---------------------------------------------------------------- the improvement loop

  const TasksPerIteration: nat := 3

  /** How a run of the improvement loop ended, with the records developed
      (`features_developed`, one per `develop_feature` call). A crash is an
      exception escaping the loop. */
  datatype LoopOutcome<R> =
    | Finished(developed: seq<R>)
    | Crashed(error: Error, developed: seq<R>)

  /** `tasks[:3]`. */
  function TopTasks(tasks: seq<Dict>): (top: seq<Dict>)
    ensures |top| == if |tasks| < TasksPerIteration then |tasks| else TasksPerIteration
    ensures top == tasks[..|top|]
  {
    if |tasks| < TasksPerIteration then tasks else tasks[..TasksPerIteration]
  }

  /** One iteration's inner loop: maps each task to a request and develops
      it, `develop(request, k)` being the run's k-th call of `develop_feature`
      (this iteration's first call is the `offset`-th). A KeyError from the
      request mapping stops the loop with the records made so far. */
  function DevelopEach<R>(top: seq<Dict>, offset: nat, develop: (string, nat) -> R)
    : (r: (seq<R>, Option<Error>))
    ensures |r.0| <= |top|
    ensures r.1.None? ==> |r.0| == |top|
    ensures r.1.Some? ==> r.1.value.KeyError?
    decreases |top|
  {
    if top == [] then ([], None)
    else
      match TaskToRequest(top[0])
      case Failure(err) => ([], Some(err))
      case Success(request) =>
        var (rest, err) := DevelopEach(top[1..], offset + 1, develop);
        ([develop(request, offset)] + rest, err)
  }

  /** The remaining `remaining` iterations, each developing the same top tasks. */
  function Iterate<R>(remaining: nat, top: seq<Dict>, offset: nat,
                      develop: (string, nat) -> R): (outcome: LoopOutcome<R>)
    ensures outcome.Crashed? ==> outcome.error.KeyError?
    ensures |outcome.developed| <= remaining * |top|
    decreases remaining
  {
    if remaining == 0 then Finished([])
    else
      MulStep(remaining, |top|);
      var (done, err) := DevelopEach(top, offset, develop);
      if err.Some? then Crashed(err.value, done)
      else
        match Iterate(remaining - 1, top, offset + |top|, develop)
        case Finished(rest) => Finished(done + rest)
        case Crashed(e, rest) => Crashed(e, done + rest)
  }

  /** `autonomous_improvement_loop`, for any `develop_feature`. Every
      iteration analyses the source tree afresh; the loop does not change the
      tree (generated features are written outside it), so every iteration
      sees the same `analysis`. An analysis that raised escapes the loop; no
      tasks ends it; otherwise the three highest-ranked tasks are developed.
      Sleeping between iterations is left out. */
  function ImprovementLoop<R>(maxIterations: nat, analysis: Result<Analysis, Error>,
                              develop: (string, nat) -> R): (outcome: LoopOutcome<R>)
    ensures maxIterations == 0 ==> outcome == Finished([])
    ensures maxIterations > 0 && analysis.Failure? ==> outcome == Crashed(analysis.error, [])
    ensures analysis.Success? && outcome.Crashed? ==> outcome.error.KeyError?
    ensures analysis.Success? && analysis.value.issues + analysis.value.opportunities == [] ==>
              outcome == Finished([])
    ensures |outcome.developed| <= maxIterations * TasksPerIteration
  {
    if maxIterations == 0 then Finished([])
    else
      match analysis
      case Failure(err) => Crashed(err, [])
      case Success(a) =>
        var tasks := Prioritize(a.issues + a.opportunities);
        if tasks == [] then Finished([])
        else
          var top := TopTasks(tasks);
          MulMonotone(maxIterations, |top|, TasksPerIteration);
          Iterate(maxIterations, top, 0, develop)
  }

  lemma MulMonotone(n: nat, a: nat, b: nat)
    requires a <= b
    ensures n * a <= n * b
  {
  }

  /** The developer's own loop: `develop_feature` with the configured
      backends, the k-th call seeing `effects(k)`. */
  function RunLoop(maxIterations: nat, analysis: Result<Analysis, Error>, b: Backends,
                   effects: nat -> Effects): (outcome: LoopOutcome<DevelopmentResult>)
    ensures maxIterations > 0 && analysis.Failure? ==> outcome == Crashed(analysis.error, [])
    ensures analysis.Success? && outcome.Crashed? ==> outcome.error.KeyError?
    ensures |outcome.developed| <= maxIterations * TasksPerIteration
  {
    ImprovementLoop(maxIterations, analysis, (request, k) => DevelopFeature(request, b, effects(k)))
  }

  predicate AllConvert(top: seq<Dict>) {
    forall t :: t in top ==> TaskToRequest(t).Success?
  }

  /** The requests of tasks that all map to one. */
  function Requests(top: seq<Dict>): (requests: seq<string>)
    requires AllConvert(top)
    ensures |requests| == |top|
    ensures forall j :: 0 <= j < |top| ==> TaskToRequest(top[j]) == Success(requests[j])
  {
    seq(|top|, j requires 0 <= j < |top| => assert top[j] in top; TaskToRequest(top[j]).value)
  }

  /** One task of an iteration that maps to a request. */
  lemma DevelopEachStep<R>(top: seq<Dict>, offset: nat, develop: (string, nat) -> R)
    requires top != [] && TaskToRequest(top[0]).Success?
    ensures DevelopEach(top, offset, develop)
         == ([develop(TaskToRequest(top[0]).value, offset)]
             + DevelopEach(top[1..], offset + 1, develop).0,
             DevelopEach(top[1..], offset + 1, develop).1)
  {
  }

  lemma {:induction false} DevelopEachAll<R>(top: seq<Dict>, offset: nat,
                                             develop: (string, nat) -> R)
    requires AllConvert(top)
    ensures DevelopEach(top, offset, develop).1 == None
    ensures |DevelopEach(top, offset, develop).0| == |top|
    ensures forall j :: 0 <= j < |top| ==>
              DevelopEach(top, offset, develop).0[j] == develop(Requests(top)[j], offset + j)
    decreases |top|
  {
    if top != [] {
      assert top[0] in top;
      assert AllConvert(top[1..]) by {
        assert forall t :: t in top[1..] ==> t in top;
      }
      DevelopEachAll(top[1..], offset + 1, develop);
      var rest := DevelopEach(top[1..], offset + 1, develop).0;
      var all := DevelopEach(top, offset, develop).0;
      var requests, restRequests := Requests(top), Requests(top[1..]);
      DevelopEachStep(top, offset, develop);
      forall j | 0 <= j < |top|
        ensures all[j] == develop(requests[j], offset + j)
      {
        if j > 0 {
          assert all[j] == rest[j - 1];
          assert top[j] == top[1..][j - 1];
          assert requests[j] == restRequests[j - 1];
        }
      }
    }
  }

  /** The position of the run's k-th attempt within its iteration, when
      every iteration makes `m` attempts: `k % m`, written as repeated
      subtraction. */
  function Slot(k: nat, m: nat): (j: nat)
    requires m > 0
    ensures j < m
    ensures k < m ==> j == k
    decreases k
  {
    if k < m then k else Slot(k - m, m)
  }

  /** How many times `Slot` subtracts `m` from `k`: `k // m`. */
  function Rounds(k: nat, m: nat): nat
    requires m > 0
    decreases k
  {
    if k < m then 0 else 1 + Rounds(k - m, m)
  }

  /** `Slot(k, m)` is the remainder of dividing `k` by `m`: `k` is `Rounds(k, m)`
      whole rounds of `m` plus the slot, and the slot is below `m`. */
  lemma {:induction false} SlotIsRemainder(k: nat, m: nat)
    requires m > 0
    ensures k == Rounds(k, m) * m + Slot(k, m) && Slot(k, m) < m
    decreases k
  {
    if k >= m {
      SlotIsRemainder(k - m, m);
      assert Rounds(k, m) * m == m + Rounds(k - m, m) * m;
    }
  }

  /** One iteration of a run in which nothing raises. */
  lemma IterateStep<R>(remaining: nat, top: seq<Dict>, offset: nat, develop: (string, nat) -> R)
    requires remaining > 0
    requires DevelopEach(top, offset, develop).1 == None
    requires Iterate(remaining - 1, top, offset + |top|, develop).Finished?
    ensures Iterate(remaining, top, offset, develop)
         == Finished(DevelopEach(top, offset, develop).0
                     + Iterate(remaining - 1, top, offset + |top|, develop).developed)
  {
  }

  lemma MulStep(n: nat, m: nat)
    requires n > 0
    ensures n * m == m + (n - 1) * m
  {
  }

  /** The records of one iteration followed by those of the later ones are
      the records of the run from this iteration on. */
  lemma AttemptsAppend<R>(done: seq<R>, rest: seq<R>, requests: seq<string>, offset: nat,
                          develop: (string, nat) -> R)
    requires |requests| > 0 && |done| == |requests|
    requires forall j :: 0 <= j < |done| ==> done[j] == develop(requests[j], offset + j)
    requires forall k :: 0 <= k < |rest| ==>
               rest[k] == develop(requests[Slot(k, |requests|)], offset + |requests| + k)
    ensures forall k :: 0 <= k < |done + rest| ==>
              (done + rest)[k] == develop(requests[Slot(k, |requests|)], offset + k)
  {
    var m := |requests|;
    forall k | 0 <= k < |done + rest|
      ensures (done + rest)[k] == develop(requests[Slot(k, m)], offset + k)
    {
      if k >= m {
        assert (done + rest)[k] == rest[k - m];
        assert Slot(k, m) == Slot(k - m, m);
        assert offset + m + (k - m) == offset + k;
      } else {
        assert (done + rest)[k] == done[k];
      }
    }
  }

  /** `remaining` iterations develop exactly `remaining * |top|` records, the
      k-th of them for task `top[Slot(k, |top|)]` as the run's k-th call. */
  lemma {:induction false} IterateOnePerAttempt<R>(remaining: nat, top: seq<Dict>, offset: nat,
                                                   develop: (string, nat) -> R)
    requires AllConvert(top) && |top| > 0
    ensures Iterate(remaining, top, offset, develop).Finished?
    ensures |Iterate(remaining, top, offset, develop).developed| == remaining * |top|
    ensures forall k :: 0 <= k < |Iterate(remaining, top, offset, develop).developed| ==>
              Iterate(remaining, top, offset, develop).developed[k]
              == develop(Requests(top)[Slot(k, |top|)], offset + k)
    decreases remaining
  {
    if remaining > 0 {
      var m := |top|;
      DevelopEachAll(top, offset, develop);
      IterateOnePerAttempt(remaining - 1, top, offset + m, develop);
      IterateStep(remaining, top, offset, develop);
      MulStep(remaining, m);
      AttemptsAppend(DevelopEach(top, offset, develop).0,
                     Iterate(remaining - 1, top, offset + m, develop).developed,
                     Requests(top), offset, develop);
    }
  }

  /** With a successful analysis that yields tasks all of whose top three
      map to requests, the loop finishes with exactly one record per attempt,
      `maxIterations` times the top (at most three) tasks, record k being
      the development of top task `Slot(k, |top|)` by the run's k-th call. */
  lemma ImprovementLoopOnePerAttempt<R>(maxIterations: nat, a: Analysis,
                                        develop: (string, nat) -> R)
    requires Prioritize(a.issues + a.opportunities) != []
    requires AllConvert(TopTasks(Prioritize(a.issues + a.opportunities)))
    ensures var top := TopTasks(Prioritize(a.issues + a.opportunities));
            var outcome := ImprovementLoop(maxIterations, Success(a), develop);
            && outcome.Finished?
            && |outcome.developed| == maxIterations * |top|
            && forall k :: 0 <= k < |outcome.developed| ==>
                 outcome.developed[k] == develop(Requests(top)[Slot(k, |top|)], k)
  {
    var top := TopTasks(Prioritize(a.issues + a.opportunities));
    if maxIterations > 0 {
      IterateOnePerAttempt(maxIterations, top, 0, develop);
      assert ImprovementLoop(maxIterations, Success(a), develop)
          == Iterate(maxIterations, top, 0, develop);
    }
  }

  /** When every task of an analysis is a well-formed report, the
      developer's loop over it never crashes and develops
      `maxIterations * min(3, number of tasks)` features, the k-th being
      `develop_feature` of the request for top task `Slot(k, |top|)`. */
  lemma WellFormedLoopDevelopsTopTasks(maxIterations: nat, a: Analysis, b: Backends,
                                       effects: nat -> Effects)
    requires a.issues + a.opportunities != []
    requires forall t :: t in a.issues + a.opportunities ==> WellFormedReport(t)
    ensures var tasks := a.issues + a.opportunities;
            var top := TopTasks(Prioritize(tasks));
            var outcome := RunLoop(maxIterations, Success(a), b, effects);
            && outcome.Finished?
            && |outcome.developed|
               == maxIterations * (if |tasks| < TasksPerIteration then |tasks| else TasksPerIteration)
            && forall k :: 0 <= k < |outcome.developed| ==>
                 TaskToRequest(top[Slot(k, |top|)]) == Success(outcome.developed[k].feature)
  {
    var tasks := a.issues + a.opportunities;
    var sorted := Prioritize(tasks);
    var top := TopTasks(sorted);
    forall t | t in top
      ensures TaskToRequest(t).Success?
    {
      assert t in multiset(sorted);
      assert t in tasks;
    }
    var develop := (request, k) => DevelopFeature(request, b, effects(k));
    ImprovementLoopOnePerAttempt(maxIterations, a, develop);
    var outcome := RunLoop(maxIterations, Success(a), b, effects);
    assert outcome == ImprovementLoop(maxIterations, Success(a), develop);
    forall k | 0 <= k < |outcome.developed|
      ensures TaskToRequest(top[Slot(k, |top|)]) == Success(outcome.developed[k].feature)
    {
      var request := Requests(top)[Slot(k, |top|)];
      assert outcome.developed[k] == DevelopFeature(request, b, effects(k));
    }
  }

  /** With the corrected analysis every reported task maps to a request, so
      the loop over a tree that yields tasks never crashes and develops
      `maxIterations * min(3, number of tasks)` features. */
  lemma CorrectedLoopDevelopsTopTasks(maxIterations: nat, files: seq<SourceFile>, b: Backends,
                                      effects: nat -> Effects)
    requires var a := Analyze(files); a.issues + a.opportunities != []
    ensures var a := Analyze(files);
            var tasks := a.issues + a.opportunities;
            var outcome := RunLoop(maxIterations, Success(a), b, effects);
            && outcome.Finished?
            && |outcome.developed|
               == maxIterations * (if |tasks| < TasksPerIteration then |tasks| else TasksPerIteration)
  {
    var a := Analyze(files);
    assert forall t :: t in a.issues + a.opportunities ==> WellFormedReport(t) by {
      forall t | t in a.issues + a.opportunities
        ensures WellFormedReport(t)
      {
        assert t in a.issues || t in a.opportunities;
      }
    }
    WellFormedLoopDevelopsTopTasks(maxIterations, a, b, effects);
  }

  /** As written, the loop over a tree with at least one Lua file raises the
      opportunity scan's TypeError in its first iteration, before developing
      anything. */
  lemma AsWrittenLoopCrashes(maxIterations: nat, files: seq<SourceFile>, b: Backends,
                             effects: nat -> Effects)
    requires maxIterations > 0 && |files| > 0
    ensures RunLoop(maxIterations, AnalyzeAsWritten(files), b, effects)
         == Crashed(TypeError(NotIterable), [])
  {
    AnalyzeAsWrittenRaises(files);
  }

  /** A tree without Lua files yields no tasks: the loop ends at once. */
  lemma EmptyTreeLoopEnds(maxIterations: nat, b: Backends, effects: nat -> Effects)
    ensures RunLoop(maxIterations, Success(Analyze([])), b, effects) == Finished([])
  {
  }
}
