/** The task worker of huggingface_workers/app.py (`RobloxGameWorker`):
    dispatch of a task to its handler, the counters and the status record
    that mirrors them, the in-order processing of one fetched batch with a
    cooperative stop flag, and the module-level start/stop guards and the
    success rate shown by `get_status`.

    The code-generation model is external: whether it was loaded is a flag,
    and what it did for the i-th task of a batch is `replies(i)`. Timestamps,
    uptime, sleeping and the pull-request file write are left out. */
module Worker {
  import opened Wrappers
  import opened Text
  import opened Records
  import QualityAnalyzer

  // ---------------------------------------------------------------- handler outputs

  /** The dictionaries the handlers return. Only `Failed` carries
      `success: False`; `UnknownType` has no `success` key at all. */
  datatype Output =
    | FeatureCode(description: string, code: string)
    | BugFix(file: string, issue: string, fix: string)
    | Optimization(file: string, target: string)
    | Content(contentType: string, context: string, generated: seq<string>)
    | Failed(error: string)
    | UnknownType(error: string)
  {
    /** `output.get("success", False)`. */
    predicate Success() {
      !(Failed? || UnknownType?)
    }
  }

  const ModelNotLoaded: string := "Code generation model not loaded"
  const FixPrefix: string := "-- Added error handling for: "
  const FixBody: string := "\npcall(function() ... end)"

  /** `generate_feature`: fails without the `code_gen` model; otherwise the
      model's text, or the message of the exception it raised. */
  function GenerateFeature(codeGenLoaded: bool, description: string, reply: Reply<string>)
    : (out: Output)
    ensures out.Success() <==> codeGenLoaded && reply.Returned?
    ensures !codeGenLoaded ==> out == Failed(ModelNotLoaded)
    ensures out.Success() ==> out == FeatureCode(description, reply.value)
  {
    if !codeGenLoaded then Failed(ModelNotLoaded)
    else
      match reply
      case Raised(message) => Failed(message)
      case Returned(text) => FeatureCode(description, text)
  }

  /** `fix_bug`: always succeeds; the fix names the issue and wraps the code
      in `pcall`. */
  function FixBug(task: Dict): (out: Output)
    ensures out.BugFix? && out.Success()
    ensures out.file == Get(task, "file", "") && out.issue == Get(task, "issue", "")
    ensures out.fix == FixPrefix + out.issue + FixBody
  {
    var issue := Get(task, "issue", "");
    BugFix(Get(task, "file", ""), issue, FixPrefix + issue + FixBody)
  }

  /** A generated fix uses `pcall`, so the analyser's error-handling rule
      never fires on it. */
  lemma FixHasErrorHandling(task: Dict, filename: string)
    ensures Contains(FixBug(task).fix, "pcall")
    ensures QualityAnalyzer.ErrorHandlingIssues(FixBug(task).fix, filename) == []
  {
    var fix := FixBug(task).fix;
    var at := |fix| - |FixBody| + 1;
    assert FixBody == "\n" + "pcall" + "(function() ... end)";
    assert fix == FixPrefix + FixBug(task).issue + "\n" + "pcall" + "(function() ... end)";
    assert fix[at..at + 5] == "pcall";
    assert OccursAt(fix, "pcall", at);
  }

  /** `optimize_code`: always succeeds. */
  function OptimizeCode(task: Dict): (out: Output)
    ensures out.Optimization? && out.Success()
    ensures out.file == Get(task, "file", "") && out.target == Get(task, "target", "")
  {
    Optimization(Get(task, "file", ""), Get(task, "target", ""))
  }

  const NpcDialogue: seq<string> := [
    "Welcome, brave adventurer! What can I help you with today?",
    "These items will surely aid you on your journey!",
    "Come back anytime you need supplies!"]
  const ItemDescription: seq<string> := [
    "A powerful item that grants special abilities.",
    "Rare and valuable, sought after by many."]
  const DefaultContent: seq<string> := ["Default content"]

  /** `content_templates`. */
  const Templates: map<string, seq<string>> :=
    map["npc_dialogue" := NpcDialogue, "item_description" := ItemDescription]

  /** `generate_content`: always succeeds, with the template lines of the
      content type, or the single default line for any other type. */
  function GenerateContent(task: Dict): (out: Output)
    ensures out.Content? && out.Success()
    ensures out.contentType == Get(task, "content_type", "")
    ensures out.context == Get(task, "context", "")
    ensures |out.generated| >= 1
    ensures out.contentType == "npc_dialogue" ==> out.generated == NpcDialogue
    ensures out.contentType == "item_description" ==> out.generated == ItemDescription
    ensures out.contentType !in {"npc_dialogue", "item_description"} ==>
              out.generated == DefaultContent
  {
    var contentType := Get(task, "content_type", "");
    var generated := if contentType in Templates then Templates[contentType] else DefaultContent;
    Content(contentType, Get(task, "context", ""), generated)
  }

  /** `task.get("type", "feature")`. */
  function TaskType(task: Dict): string {
    Get(task, "type", "feature")
  }

  /** The dispatch of `process_task` on the task type. Every bug fix,
      optimisation and content task succeeds, a feature task (the default
      type) exactly when the model is loaded and answered, and a task of any
      other type never does. */
  function Handle(codeGenLoaded: bool, task: Dict, reply: Reply<string>): (out: Output)
    ensures out.Success()
        <==> TaskType(task) in {"bug_fix", "optimization", "content"}
             || (TaskType(task) == "feature" && codeGenLoaded && reply.Returned?)
    ensures TaskType(task) !in {"feature", "bug_fix", "optimization", "content"} ==>
              out == UnknownType("Unknown task type: " + TaskType(task))
  {
    var kind := TaskType(task);
    if kind == "feature" then GenerateFeature(codeGenLoaded, Get(task, "description", ""), reply)
    else if kind == "bug_fix" then FixBug(task)
    else if kind == "optimization" then OptimizeCode(task)
    else if kind == "content" then GenerateContent(task)
    else UnknownType("Unknown task type: " + kind)
  }

  /** Each known task type goes to its own handler; a feature task, which a
      task without a type is, is built from the task's description. */
  lemma HandleDispatch(codeGenLoaded: bool, task: Dict, reply: Reply<string>)
    ensures TaskType(task) == "feature" ==>
              Handle(codeGenLoaded, task, reply)
              == GenerateFeature(codeGenLoaded, Get(task, "description", ""), reply)
    ensures "type" !in task ==> TaskType(task) == "feature"
    ensures TaskType(task) == "bug_fix" ==> Handle(codeGenLoaded, task, reply) == FixBug(task)
    ensures TaskType(task) == "optimization" ==>
              Handle(codeGenLoaded, task, reply) == OptimizeCode(task)
    ensures TaskType(task) == "content" ==>
              Handle(codeGenLoaded, task, reply) == GenerateContent(task)
  {
  }

  // ---------------------------------------------------------------- worker state

  /** The `status` dictionary (timestamps and uptime left out). */
  datatype Status = Status(mode: string, running: bool, tasksProcessed: nat,
                           tasksSucceeded: nat, tasksFailed: nat)

  /** A `RobloxGameWorker`; `codeGenLoaded` says whether `initialize_models`
      put a `code_gen` model into `models`. */
  datatype WorkerState = WorkerState(mode: string, isRunning: bool, processed: nat,
                                     succeeded: nat, failed: nat, codeGenLoaded: bool,
                                     status: Status)

  /** The worker's invariant: every processed task counted as exactly one
      success or failure, and the status mirroring the fields. */
  predicate Consistent(w: WorkerState) {
    && w.processed == w.succeeded + w.failed
    && w.status == Status(w.mode, w.isRunning, w.processed, w.succeeded, w.failed)
  }

  /** `RobloxGameWorker(worker_mode)` after `initialize_models`. */
  function NewWorker(mode: string, codeGenLoaded: bool): (w: WorkerState)
    ensures Consistent(w)
    ensures w.mode == mode && !w.isRunning && w.processed == 0
  {
    WorkerState(mode, false, 0, 0, 0, codeGenLoaded, Status(mode, false, 0, 0, 0))
  }

  /** The dictionary `process_task` returns (timestamp left out). Its
      `error` field stays None on every path of the model: the handlers
      catch their own exceptions. */
  datatype TaskResult = TaskResult(task: Dict, success: bool, output: Output)

  /** `process_task`: handle the task, count it as one success or one
      failure, count it as processed, and copy the counters into the status. */
  function ProcessTask(w: WorkerState, task: Dict, reply: Reply<string>)
    : (r: (WorkerState, TaskResult))
    ensures r.1.task == task && r.1.output == Handle(w.codeGenLoaded, task, reply)
    ensures r.1.success == r.1.output.Success()
    ensures r.0.processed == w.processed + 1
    ensures r.1.success ==> r.0.succeeded == w.succeeded + 1 && r.0.failed == w.failed
    ensures !r.1.success ==> r.0.succeeded == w.succeeded && r.0.failed == w.failed + 1
    ensures r.0.status.tasksProcessed == r.0.processed
    ensures r.0.status.tasksSucceeded == r.0.succeeded
    ensures r.0.status.tasksFailed == r.0.failed
    ensures Consistent(w) ==> Consistent(r.0)
    ensures r.0.mode == w.mode && r.0.isRunning == w.isRunning
    ensures r.0.codeGenLoaded == w.codeGenLoaded && r.0.status.running == w.status.running
  {
    var output := Handle(w.codeGenLoaded, task, reply);
    var success := output.Success();
    var succeeded := if success then w.succeeded + 1 else w.succeeded;
    var failed := if success then w.failed else w.failed + 1;
    var processed := w.processed + 1;
    var status := w.status.(tasksProcessed := processed, tasksSucceeded := succeeded,
                            tasksFailed := failed);
    (w.(processed := processed, succeeded := succeeded, failed := failed, status := status),
     TaskResult(task, success, output))
  }

  /** `stop`: clears the running flag and its status copy, nothing else. */
  function Stop(w: WorkerState): (r: WorkerState)
    ensures !r.isRunning && !r.status.running
    ensures r.processed == w.processed && r.succeeded == w.succeeded && r.failed == w.failed
    ensures r.mode == w.mode && r.codeGenLoaded == w.codeGenLoaded
    ensures r.status.(running := w.status.running) == w.status
    ensures Consistent(w) ==> Consistent(r)
  {
    w.(isRunning := false, status := w.status.(running := false))
  }

  // ---------------------------------------------------------------- one batch

  /** The number of tasks of a batch that start: all of them, unless `stop`
      runs before the running check of task `k`, which then never starts;
      none if the worker was not running. */
  function Started(running: bool, count: nat, stopBefore: Option<nat>): (n: nat)
    ensures n <= count
  {
    if !running then 0
    else if stopBefore.Some? && stopBefore.value < count then stopBefore.value
    else count
  }

  /** The body of `worker_loop` for one fetched batch: the tasks in list
      order, the running flag checked before each, a pull request for each
      successful result. `stopBefore == Some(k)` means `stop` ran while task
      `k - 1` was being processed (or before the batch, for 0); `replies(i)`
      is what the model did for task i. Returns the worker, the results and
      the indices of the results a pull request was made for. */
  method ProcessBatch(w: WorkerState, tasks: seq<Dict>, replies: nat -> Reply<string>,
                      stopBefore: Option<nat>)
    returns (w': WorkerState, results: seq<TaskResult>, pullRequests: seq<nat>)
    ensures |results| == Started(w.isRunning, |tasks|, stopBefore)
    ensures forall i :: 0 <= i < |results| ==>
              && results[i].task == tasks[i]
              && results[i].output == Handle(w.codeGenLoaded, tasks[i], replies(i))
              && results[i].success == results[i].output.Success()
    ensures forall i :: i in pullRequests <==> 0 <= i < |results| && results[i].success
    ensures forall p, q :: 0 <= p < q < |pullRequests| ==> pullRequests[p] < pullRequests[q]
    ensures w'.processed == w.processed + |results|
    ensures w'.succeeded == w.succeeded + |pullRequests|
    ensures w'.failed == w.failed + (|results| - |pullRequests|)
    ensures Consistent(w) ==> Consistent(w')
    ensures w.isRunning && stopBefore.Some? && stopBefore.value <= |tasks| ==>
              !w'.isRunning && !w'.status.running
    ensures stopBefore.None? || stopBefore.value > |tasks| ==>
              w'.isRunning == w.isRunning && w'.status.running == w.status.running
    ensures w'.mode == w.mode && w'.codeGenLoaded == w.codeGenLoaded
  {
    w' := w;
    results := [];
    pullRequests := [];
    var i := 0;
    while i < |tasks|
      invariant 0 <= i <= |tasks|
      invariant |results| == i
      invariant w.isRunning && (stopBefore.None? || stopBefore.value >= i) ==>
                  w'.isRunning == w.isRunning && w'.status.running == w.status.running
      invariant stopBefore.Some? ==> i <= stopBefore.value
      invariant !w.isRunning ==> i == 0 && w' == w
      invariant forall j :: 0 <= j < i ==>
                  && results[j].task == tasks[j]
                  && results[j].output == Handle(w.codeGenLoaded, tasks[j], replies(j))
                  && results[j].success == results[j].output.Success()
      invariant forall j :: j in pullRequests <==> 0 <= j < i && results[j].success
      invariant forall p, q :: 0 <= p < q < |pullRequests| ==> pullRequests[p] < pullRequests[q]
      invariant forall p :: 0 <= p < |pullRequests| ==> pullRequests[p] < i
      invariant w'.processed == w.processed + i
      invariant w'.succeeded == w.succeeded + |pullRequests|
      invariant w'.failed == w.failed + (i - |pullRequests|)
      invariant Consistent(w) ==> Consistent(w')
      invariant w'.mode == w.mode && w'.codeGenLoaded == w.codeGenLoaded
    {
      if stopBefore == Some(i) {
        w' := Stop(w');
      }
      if !w'.isRunning {
        break;
      }
      var step := ProcessTask(w', tasks[i], replies(i));
      var result := step.1;
      w' := step.0;
      BatchStep(results, result, pullRequests, i);
      results := results + [result];
      if result.success {
        pullRequests := pullRequests + [i];
      }
      i := i + 1;
    }
    if stopBefore == Some(|tasks|) && i == |tasks| {
      w' := Stop(w');
    }
  }

  /** Appending the result of task `i` keeps the earlier results and, when
      it succeeded, adds `i` after every earlier pull request. */
  lemma BatchStep(results: seq<TaskResult>, result: TaskResult, pullRequests: seq<nat>, i: nat)
    requires |results| == i
    requires forall p :: 0 <= p < |pullRequests| ==> pullRequests[p] < i
    ensures (results + [result])[i] == result
    ensures forall j :: 0 <= j < i ==> (results + [result])[j] == results[j]
    ensures forall j :: j in pullRequests + [i] <==> j in pullRequests || j == i
    ensures forall p :: 0 <= p < |pullRequests| ==> (pullRequests + [i])[p] == pullRequests[p]
  {
  }

  // ---------------------------------------------------------------- module-level controls

  const AlreadyRunning: string := "\U{26A0}\U{FE0F} Worker already running"
  const NoWorker: string := "\U{26A0}\U{FE0F} No worker running"
  const Stopped: string := "\U{1F6D1} Worker stopped"

  function StartedMessage(mode: string): string {
    "\U{2705} Worker started in " + mode + " mode"
  }

  /** `start_worker` as evidently intended, on the global `worker`: refuses,
      leaving the worker unchanged, when one is running; otherwise replaces it
      with a fresh worker whose model loading succeeded as `codeGenLoaded`
      says, launches its loop in the background and reports the start. The
      launched loop is `ProcessBatch`; the fresh worker is not running yet
      when the call returns. */
  function StartWorker(current: Option<WorkerState>, mode: string, codeGenLoaded: bool)
    : (r: (Option<WorkerState>, string))
    ensures current.Some? && current.value.isRunning ==> r == (current, AlreadyRunning)
    ensures !(current.Some? && current.value.isRunning) ==>
              && r.0.Some? && Consistent(r.0.value) && r.0.value.mode == mode
              && r.0.value.processed == 0 && r.0.value.codeGenLoaded == codeGenLoaded
              && r.1 == StartedMessage(mode)
  {
    if current.Some? && current.value.isRunning then (current, AlreadyRunning)
    else (Some(NewWorker(mode, codeGenLoaded)), StartedMessage(mode))
  }

  /** The message of `asyncio.run` called while the thread runs an event loop. */
  const RunInsideLoop: string := "asyncio.run() cannot be called from a running event loop"
  /** The message of `asyncio.create_task` called with no event loop running. */
  const NoRunningLoop: string := "no running event loop"

  /** `start_worker` as written. The global worker is replaced before the
      event-loop calls. `asyncio.run` refuses to run inside a running event
      loop (`hostLoopRunning`), before the models are initialised; otherwise
      it runs `initialize_models` to completion and leaves no loop running,
      so `asyncio.create_task` then raises. */
  function StartWorkerAsWritten(current: Option<WorkerState>, mode: string, codeGenLoaded: bool,
                                hostLoopRunning: bool)
    : (r: (Option<WorkerState>, Result<string, Error>))
    ensures current.Some? && current.value.isRunning ==> r == (current, Success(AlreadyRunning))
    ensures !(current.Some? && current.value.isRunning) ==>
              && r.0.Some? && Consistent(r.0.value) && r.0.value.mode == mode
              && !r.0.value.isRunning && r.0.value.processed == 0
              && r.0.value.codeGenLoaded == (codeGenLoaded && !hostLoopRunning)
              && r.1.Failure? && r.1.error.RuntimeError?
  {
    if current.Some? && current.value.isRunning then (current, Success(AlreadyRunning))
    else if hostLoopRunning then (Some(NewWorker(mode, false)), Failure(RuntimeError(RunInsideLoop)))
    else (Some(NewWorker(mode, codeGenLoaded)), Failure(RuntimeError(NoRunningLoop)))
  }

  /** As written, `start_worker` never reports a start and never leaves a
      running worker: it refuses, or raises RuntimeError after replacing the
      global worker with one whose loop was never launched. */
  lemma StartWorkerAsWrittenNeverStarts(current: Option<WorkerState>, mode: string,
                                        codeGenLoaded: bool, hostLoopRunning: bool)
    ensures var r := StartWorkerAsWritten(current, mode, codeGenLoaded, hostLoopRunning);
            && r.1 != Success(StartedMessage(mode))
            && (r.1.Success? <==> current.Some? && current.value.isRunning)
            && (r.0.Some? && r.0.value.isRunning ==> r.0 == current)
  {
    var r := StartWorkerAsWritten(current, mode, codeGenLoaded, hostLoopRunning);
    if r.1.Success? {
      assert r.1.value == AlreadyRunning;
      assert AlreadyRunning[0] != StartedMessage(mode)[0];
    }
  }

  /** `stop_worker`: stops the global worker if there is one. */
  function StopWorker(current: Option<WorkerState>): (r: (Option<WorkerState>, string))
    ensures current.None? ==> r == (None, NoWorker)
    ensures current.Some? ==> r.0.Some? && !r.0.value.isRunning && r.1 == Stopped
    ensures current.Some? ==> r.0.value.processed == current.value.processed
    ensures current.Some? && Consistent(current.value) ==> Consistent(r.0.value)
  {
    match current
    case None => (None, NoWorker)
    case Some(w) => (Some(Stop(w)), Stopped)
  }

  /** Stopping the global worker always lets the next (intended)
      `start_worker` through, with a fresh worker whose counters start again
      from zero. */
  lemma StopThenStartWorker(current: Option<WorkerState>, mode: string, codeGenLoaded: bool)
    ensures var started := StartWorker(StopWorker(current).0, mode, codeGenLoaded);
            && started.1 == StartedMessage(mode)
            && started.0 == Some(NewWorker(mode, codeGenLoaded))
  {
  }

  lemma RatioBounds(x: real, d: real)
    requires d > 0.0
    ensures 0.0 <= x <= d ==> 0.0 <= x / d <= 1.0
  {
    assert x / d * d == x;
  }

  /** The success rate `get_status` prints: succeeded / max(processed, 1) * 100. */
  function SuccessRate(s: Status): (rate: real)
    ensures s.tasksProcessed == 0 ==> rate == 100.0 * s.tasksSucceeded as real
    ensures s.tasksProcessed > 0 ==>
              rate * s.tasksProcessed as real == 100.0 * s.tasksSucceeded as real
    ensures s.tasksSucceeded <= s.tasksProcessed ==> 0.0 <= rate <= 100.0
  {
    var denominator := (if s.tasksProcessed > 1 then s.tasksProcessed else 1) as real;
    var ratio := s.tasksSucceeded as real / denominator;
    RatioBounds(s.tasksSucceeded as real, denominator);
    assert ratio * denominator == s.tasksSucceeded as real;
    ratio * 100.0
  }
}
