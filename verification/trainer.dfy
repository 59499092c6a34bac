/** The pure parts of `RobloxGameTrainer` in train_autocoder.py: the
    first-match-wins file and service classifiers, the training record of
    a Lua file with its line count, the pattern-learning counter, the
    generation test and the early exit of the full pipeline.

    Reading files, the pattern learner and the code generator are external:
    what each did is an input. */
module Trainer {
  import opened Wrappers
  import opened Text
  import opened Records

  // ---------------------------------------------------------------- first match wins

  /** A rule of an `if / elif` chain: it fires when the text contains any of
      its keywords. */
  datatype Rule<T> = Rule(keywords: seq<string>, result: T)

  predicate Fires<T>(rule: Rule<T>, s: string) {
    exists k :: k in rule.keywords && Contains(s, k)
  }

  /** The result of the first rule that fires, or `default` when none does. */
  function FirstMatch<T>(rules: seq<Rule<T>>, s: string, default: T): (r: T)
    ensures (forall i :: 0 <= i < |rules| ==> !Fires(rules[i], s)) ==> r == default
    ensures forall i :: (0 <= i < |rules| && Fires(rules[i], s)
                         && (forall j :: 0 <= j < i ==> !Fires(rules[j], s))) ==> r == rules[i].result
    decreases |rules|
  {
    if rules == [] then default
    else if Fires(rules[0], s) then rules[0].result
    else
      var r := FirstMatch(rules[1..], s, default);
      assert forall i :: 1 <= i < |rules| ==> rules[i] == rules[1..][i - 1];
      r
  }

  // ---------------------------------------------------------------- file category

  datatype Category = ServiceFile | UiFile | ConfigFile | ControllerFile | UtilityFile
  {
    /** The category's name in the training record. */
    function Name(): string {
      match this
      case ServiceFile => "service"
      case UiFile => "ui"
      case ConfigFile => "config"
      case ControllerFile => "controller"
      case UtilityFile => "utility"
    }
  }

  /** A name containing "GUI" contains "UI", so the "GUI" test of the
      category chain never decides anything. */
  lemma GuiMentionsUi(filename: string)
    ensures Contains(filename, "GUI") ==> Contains(filename, "UI")
  {
    if Contains(filename, "GUI") {
      assert OccursAt("GUI", "UI", 1);
      ContainsTransitive(filename, "GUI", "UI");
    }
  }

  /** `_categorize_file`, on the file name. */
  function CategorizeFile(filename: string): (c: Category)
    ensures c == ServiceFile <==> Contains(filename, "Manager") || Contains(filename, "Service")
    ensures c == UiFile <==>
              && !(Contains(filename, "Manager") || Contains(filename, "Service"))
              && Contains(filename, "UI")
    ensures c == ConfigFile <==>
              && !(Contains(filename, "Manager") || Contains(filename, "Service"))
              && !Contains(filename, "UI") && Contains(filename, "Config")
    ensures c == ControllerFile <==>
              && !(Contains(filename, "Manager") || Contains(filename, "Service"))
              && !Contains(filename, "UI") && !Contains(filename, "Config")
              && Contains(filename, "Controller")
  {
    GuiMentionsUi(filename);
    if Contains(filename, "Manager") || Contains(filename, "Service") then ServiceFile
    else if Contains(filename, "UI") || Contains(filename, "GUI") then UiFile
    else if Contains(filename, "Config") then ConfigFile
    else if Contains(filename, "Controller") then ControllerFile
    else UtilityFile
  }

  /** The category chain as a rule list. */
  const CategoryRules: seq<Rule<Category>> := [
    Rule(["Manager", "Service"], ServiceFile),
    Rule(["UI", "GUI"], UiFile),
    Rule(["Config"], ConfigFile),
    Rule(["Controller"], ControllerFile)]

  /** `_categorize_file` is the first-match classifier over its rule list. */
  lemma CategorizeIsFirstMatch(filename: string)
    ensures CategorizeFile(filename) == FirstMatch(CategoryRules, filename, UtilityFile)
  {
    var r := CategoryRules;
    assert Fires(r[0], filename) <==> Contains(filename, "Manager") || Contains(filename, "Service") by {
      assert r[0].keywords == ["Manager", "Service"];
    }
    assert Fires(r[1], filename) <==> Contains(filename, "UI") || Contains(filename, "GUI") by {
      assert r[1].keywords == ["UI", "GUI"];
    }
    assert Fires(r[2], filename) <==> Contains(filename, "Config") by {
      assert r[2].keywords == ["Config"];
    }
    assert Fires(r[3], filename) <==> Contains(filename, "Controller") by {
      assert r[3].keywords == ["Controller"];
    }
  }

  // ---------------------------------------------------------------- service type

  datatype ServiceKind = Server | ClientUi | ClientCharacter | Shared | UnknownService
  {
    /** The service's name in the training record. */
    function Name(): string {
      match this
      case Server => "server"
      case ClientUi => "client_ui"
      case ClientCharacter => "client_character"
      case Shared => "shared"
      case UnknownService => "unknown"
    }
  }

  const ServiceRules: seq<Rule<ServiceKind>> := [
    Rule(["ServerScriptService"], Server),
    Rule(["StarterGui"], ClientUi),
    Rule(["StarterPlayer"], ClientCharacter),
    Rule(["ReplicatedStorage"], Shared)]

  /** `_get_service_type`, on the path relative to the game directory. */
  function ServiceType(path: string): (k: ServiceKind)
    ensures k == Server <==> Contains(path, "ServerScriptService")
    ensures k == ClientUi <==> !Contains(path, "ServerScriptService") && Contains(path, "StarterGui")
    ensures k == ClientCharacter <==>
              && !Contains(path, "ServerScriptService") && !Contains(path, "StarterGui")
              && Contains(path, "StarterPlayer")
    ensures k == Shared <==>
              && !Contains(path, "ServerScriptService") && !Contains(path, "StarterGui")
              && !Contains(path, "StarterPlayer") && Contains(path, "ReplicatedStorage")
  {
    if Contains(path, "ServerScriptService") then Server
    else if Contains(path, "StarterGui") then ClientUi
    else if Contains(path, "StarterPlayer") then ClientCharacter
    else if Contains(path, "ReplicatedStorage") then Shared
    else UnknownService
  }

  /** `_get_service_type` is the first-match classifier over its rule list. */
  lemma ServiceTypeIsFirstMatch(path: string)
    ensures ServiceType(path) == FirstMatch(ServiceRules, path, UnknownService)
  {
    var r := ServiceRules;
    assert Fires(r[0], path) <==> Contains(path, "ServerScriptService") by {
      assert r[0].keywords == ["ServerScriptService"];
    }
    assert Fires(r[1], path) <==> Contains(path, "StarterGui") by {
      assert r[1].keywords == ["StarterGui"];
    }
    assert Fires(r[2], path) <==> Contains(path, "StarterPlayer") by {
      assert r[2].keywords == ["StarterPlayer"];
    }
    assert Fires(r[3], path) <==> Contains(path, "ReplicatedStorage") by {
      assert r[3].keywords == ["ReplicatedStorage"];
    }
  }

  // ---------------------------------------------------------------- training data

  /** `len(code.split('\n'))`: one more than the number of newlines, so an
      empty file has one line. */
  function LineCount(code: string): (n: nat)
    ensures n == multiset(code)['\n'] + 1
    ensures n >= 1
  {
    SplitOnCharCount(code, '\n');
    |Lines(code)|
  }

  /** One Lua file found under the source directory: its path relative to
      the game directory, its name, and what reading it did. */
  datatype SourceRead = SourceRead(relativePath: string, name: string, content: Reply<string>)

  /** `file_info`: the training record of one file. */
  datatype TrainingRecord = TrainingRecord(file: string, code: string, lines: nat,
                                           category: Category, service: ServiceKind)

  /** `file_info` for a file that was read as `code`: its relative path, the
      contents, their line count, and the two classifications. */
  function RecordOf(f: SourceRead, code: string): TrainingRecord {
    TrainingRecord(f.relativePath, code, LineCount(code), CategorizeFile(f.name),
                   ServiceType(f.relativePath))
  }

  /** The loop of `collect_training_data` for any record builder: one
      record per file that could be read, in the order found; a file whose
      read raised is skipped. */
  function CollectWith<R>(files: seq<SourceRead>, make: (SourceRead, string) -> R)
    : (data: seq<R>)
    ensures |data| <= |files|
    ensures data == [] <==> forall f :: f in files ==> f.content.Raised?
    ensures forall d :: d in data ==>
              exists f :: f in files && f.content.Returned? && d == make(f, f.content.value)
  {
    if files == [] then []
    else
      var f := files[0];
      var rest := CollectWith(files[1..], make);
      assert forall g :: g in files <==> g == f || g in files[1..];
      match f.content
      case Raised(_) => rest
      case Returned(code) => [make(f, code)] + rest
  }

  /** The files whose read returned, in the order found. */
  function Readable(files: seq<SourceRead>): (readable: seq<SourceRead>)
    ensures |readable| <= |files|
    ensures forall f :: f in readable <==> f in files && f.content.Returned?
    ensures (forall f :: f in files ==> f.content.Returned?) ==> readable == files
  {
    if files == [] then []
    else
      var rest := Readable(files[1..]);
      assert forall g :: g in files <==> g == files[0] || g in files[1..];
      assert files == [files[0]] + files[1..];
      (if files[0].content.Returned? then [files[0]] else []) + rest
  }

  /** The records are those of the readable files, one each, in order. */
  lemma {:induction false} CollectWithReadable<R>(files: seq<SourceRead>,
                                                  make: (SourceRead, string) -> R)
    ensures |CollectWith(files, make)| == |Readable(files)|
    ensures forall i :: 0 <= i < |Readable(files)| ==>
              Readable(files)[i].content.Returned?
              && CollectWith(files, make)[i]
                 == make(Readable(files)[i], Readable(files)[i].content.value)
  {
    if files != [] {
      var tail := files[1..];
      CollectWithReadable(tail, make);
      var data, rest := CollectWith(files, make), CollectWith(tail, make);
      var readable, restReadable := Readable(files), Readable(tail);
      CollectStep(files, make);
      if files[0].content.Returned? {
        var f := files[0];
        ConsRecords(f, restReadable, make(f, f.content.value), rest, make);
      }
    }
  }

  /** The first file's record, if any, precedes the records of the rest. */
  lemma CollectStep<R>(files: seq<SourceRead>, make: (SourceRead, string) -> R)
    requires files != []
    ensures files[0].content.Returned? ==>
              && CollectWith(files, make)
                 == [make(files[0], files[0].content.value)] + CollectWith(files[1..], make)
              && Readable(files) == [files[0]] + Readable(files[1..])
    ensures files[0].content.Raised? ==>
              && CollectWith(files, make) == CollectWith(files[1..], make)
              && Readable(files) == Readable(files[1..])
  {
  }

  /** Prepending a readable file and its record keeps records and files paired. */
  lemma ConsRecords<R>(f: SourceRead, readable: seq<SourceRead>, d: R, data: seq<R>,
                       make: (SourceRead, string) -> R)
    requires f.content.Returned? && d == make(f, f.content.value)
    requires |data| == |readable|
    requires forall i :: 0 <= i < |readable| ==>
               readable[i].content.Returned? && data[i] == make(readable[i], readable[i].content.value)
    ensures |[d] + data| == |[f] + readable|
    ensures forall i :: 0 <= i < |[f] + readable| ==>
              ([f] + readable)[i].content.Returned?
              && ([d] + data)[i] == make(([f] + readable)[i], ([f] + readable)[i].content.value)
  {
    forall i | 0 <= i < |[f] + readable|
      ensures ([f] + readable)[i].content.Returned?
              && ([d] + data)[i] == make(([f] + readable)[i], ([f] + readable)[i].content.value)
    {
      if i > 0 {
        assert ([f] + readable)[i] == readable[i - 1] && ([d] + data)[i] == data[i - 1];
      }
    }
  }

  /** `collect_training_data`: the training record of every file that could
      be read, in the order found, each built from a file that was read as
      its code. */
  function CollectTrainingData(files: seq<SourceRead>): (data: seq<TrainingRecord>)
    ensures |data| <= |files|
    ensures data == [] <==> forall f :: f in files ==> f.content.Raised?
    ensures forall d :: d in data ==>
              exists f :: f in files && f.content == Returned(d.code) && d == RecordOf(f, d.code)
    ensures |data| == |Readable(files)|
    ensures forall i :: 0 <= i < |data| ==>
              Readable(files)[i].content.Returned?
              && data[i] == RecordOf(Readable(files)[i], Readable(files)[i].content.value)
  {
    CollectWithReadable(files, RecordOf);
    CollectWith(files, RecordOf)
  }

  /** There is exactly one record per readable file, in the order found,
      carrying that file's path, contents and line count; a file whose read
      raised yields none. When every read returns, that is one record per
      file. */
  lemma CollectEveryReadableFile(files: seq<SourceRead>)
    ensures |CollectTrainingData(files)| == |Readable(files)|
    ensures forall i :: 0 <= i < |Readable(files)| ==>
              && Readable(files)[i].content.Returned?
              && CollectTrainingData(files)[i].file == Readable(files)[i].relativePath
              && CollectTrainingData(files)[i].code == Readable(files)[i].content.value
              && CollectTrainingData(files)[i].lines
                 == multiset(Readable(files)[i].content.value)['\n'] + 1
  {
    CollectWithReadable(files, RecordOf);
  }

  // ---------------------------------------------------------------- pattern learning

  /** How many of the first `n` learner calls returned. */
  function LearnedCount(n: nat, learnReturned: nat -> bool): (count: nat)
    ensures count <= n
  {
    if n == 0 then 0
    else LearnedCount(n - 1, learnReturned) + (if learnReturned(n - 1) then 1 else 0)
  }

  /** `train_patterns`: feeds each record to the learner and counts the
      calls that did not raise; `learnReturned(i)` says whether the call for
      record i returned. */
  method TrainPatterns(data: seq<TrainingRecord>, learnReturned: nat -> bool)
    returns (learned: nat)
    ensures learned == LearnedCount(|data|, learnReturned)
    ensures learned <= |data|
    ensures (forall i :: 0 <= i < |data| ==> learnReturned(i)) ==> learned == |data|
    ensures (forall i :: 0 <= i < |data| ==> !learnReturned(i)) ==> learned == 0
  {
    learned := 0;
    var i := 0;
    while i < |data|
      invariant 0 <= i <= |data|
      invariant learned == LearnedCount(i, learnReturned)
      invariant (forall j :: 0 <= j < |data| ==> learnReturned(j)) ==> learned == i
      invariant (forall j :: 0 <= j < |data| ==> !learnReturned(j)) ==> learned == 0
    {
      if learnReturned(i) {
        learned := learned + 1;
      }
      i := i + 1;
    }
  }

  // ---------------------------------------------------------------- generation test

  const TestPrompts: seq<string> := [
    "Create a new object type called Robot worth 15 currency",
    "Add a new upgrade that increases spawn rate",
    "Create a notification system for achievements",
    "Add a leaderboard UI component"]

  /** The `quality_score` and `confidence` fields of a generation result. */
  datatype Generated = Generated(qualityScore: Option<real>, confidence: Option<real>)

  /** One entry of the test results: the scores and the verdict, or the
      error of a generation that raised. */
  datatype GenerationTest =
    | Scored(prompt: string, quality: real, confidence: real, success: bool)
    | Errored(prompt: string, error: string)
  {
    /** `r.get("success", False)`. */
    predicate Succeeded() {
      Scored? && success
    }
  }

  /** The thresholds a generated result must exceed. */
  const MinQuality: real := 0.7
  const MinConfidence: real := 0.6

  /** The test of one prompt; missing scores default to 0. */
  function TestPrompt(prompt: string, reply: Reply<Generated>): (t: GenerationTest)
    ensures t.prompt == prompt
    ensures t.Errored? <==> reply.Raised?
    ensures reply.Raised? ==> t.error == reply.message
    ensures t.Succeeded() <==>
              && reply.Returned?
              && reply.value.qualityScore.GetOr(0.0) > MinQuality
              && reply.value.confidence.GetOr(0.0) > MinConfidence
  {
    match reply
    case Raised(message) => Errored(prompt, message)
    case Returned(g) =>
      var quality := g.qualityScore.GetOr(0.0);
      var confidence := g.confidence.GetOr(0.0);
      Scored(prompt, quality, confidence, quality > MinQuality && confidence > MinConfidence)
  }

  /** `test_generation`: one entry per fixed prompt, in order; `replies(i)`
      is what the generator did for prompt i. */
  function TestGeneration(replies: nat -> Reply<Generated>): (results: seq<GenerationTest>)
    ensures |results| == |TestPrompts|
    ensures forall i :: 0 <= i < |results| ==>
              results[i].prompt == TestPrompts[i]
              && (results[i].Succeeded() <==>
                    && replies(i).Returned?
                    && replies(i).value.qualityScore.GetOr(0.0) > MinQuality
                    && replies(i).value.confidence.GetOr(0.0) > MinConfidence)
              && (replies(i).Raised? ==> results[i] == Errored(TestPrompts[i], replies(i).message))
  {
    var results := seq(|TestPrompts|, i requires 0 <= i < |TestPrompts| =>
                         TestPrompt(TestPrompts[i], replies(i)));
    assert forall i :: 0 <= i < |results| ==> results[i] == TestPrompt(TestPrompts[i], replies(i));
    results
  }

  /** Whether each entry succeeded, in order. */
  function Verdicts(results: seq<GenerationTest>): (verdicts: seq<bool>)
    ensures |verdicts| == |results|
    ensures forall i :: 0 <= i < |results| ==> verdicts[i] == results[i].Succeeded()
  {
    seq(|results|, i requires 0 <= i < |results| => results[i].Succeeded())
  }

  /** `sum(1 for r in results if r.get("success", False))`: the number of
      entries that succeeded. */
  function Successes(results: seq<GenerationTest>): (n: nat)
    ensures n == multiset(Verdicts(results))[true]
    ensures n <= |results|
    ensures n == |results| <==> forall i :: 0 <= i < |results| ==> results[i].Succeeded()
    ensures n == 0 <==> forall i :: 0 <= i < |results| ==> !results[i].Succeeded()
  {
    if results == [] then 0
    else
      var rest := Successes(results[1..]);
      assert forall i :: 1 <= i < |results| ==> results[i] == results[1..][i - 1];
      assert Verdicts(results) == [results[0].Succeeded()] + Verdicts(results[1..]);
      (if results[0].Succeeded() then 1 else 0) + rest
  }

  // ---------------------------------------------------------------- the pipeline

  /** `run_full_training`: stops with False before any training when no file
      could be read; otherwise learns from every record, runs the generation
      test and returns True. Pattern extraction and saving only print, and
      are left out. */
  method RunFullTraining(files: seq<SourceRead>, learnReturned: nat -> bool,
                         replies: nat -> Reply<Generated>)
    returns (ok: bool, learned: nat, tests: seq<GenerationTest>)
    ensures !ok <==> forall f :: f in files ==> f.content.Raised?
    ensures !ok ==> learned == 0 && tests == []
    ensures ok ==> learned <= |CollectTrainingData(files)| && |tests| == |TestPrompts|
  {
    var data := CollectTrainingData(files);
    if data == [] {
      return false, 0, [];
    }
    learned := TrainPatterns(data, learnReturned);
    tests := TestGeneration(replies);
    ok := true;
  }
}
