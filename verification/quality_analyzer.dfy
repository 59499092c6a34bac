/** `GameQualityAnalyzer` of autonomous_game_dev.py: string-scanning rules
    over one Lua file that report issues (long functions, repeated 5-line
    blocks, missing `pcall`) and improvement opportunities (`wait(`, TODOs in
    services, heavy conditional logic), and the scan over a whole source tree.

    Issues and opportunities are Python dicts; issues carry a `severity`,
    opportunities a `priority` instead. */
module QualityAnalyzer {
  import opened Wrappers
  import opened Text
  import opened Records
  import opened StableSort

  /** One `.lua` file of the source tree: its base name and its contents. */
  datatype SourceFile = SourceFile(name: string, code: string)

  /** What a scan of the whole tree reports. */
  datatype Analysis = Analysis(issues: seq<Dict>, opportunities: seq<Dict>)

  /** A function segment with more lines than this is reported. */
  const LongFunctionLimit: nat := 100

  /** The number of lines in a block compared for duplication. */
  const BlockLines: nat := 5

  /** The message of the TypeError raised by `"if" in <int>`. */
  const NotIterable := "argument of type 'int' is not iterable"

  /** A report carries the keys that turning it into a feature request reads. */
  predicate WellFormedReport(t: Dict) {
    && "type" in t && "file" in t && "description" in t
    && (t["type"] == "code_smell" ==> "suggestion" in t)
  }

  predicate IsReport(t: Dict, filename: string) {
    WellFormedReport(t) && t["file"] == filename
  }

  // ---------------------------------------------------------------- long functions

  /** The segments of `code.split("function ")`; every one after the first
      is the text following one occurrence of `"function "`. */
  function Segments(code: string): (segs: seq<string>)
    ensures |segs| >= 1
  {
    Split(code, "function ")
  }

  predicate IsLong(segment: string) {
    |Lines(segment)| > LongFunctionLimit
  }

  /** Segment `number` of the split (1 for the first function) spans `lines` lines. */
  datatype LongFunction = LongFunction(number: nat, lines: nat)

  /** The segment numbers of `found`, in order. */
  function Numbers(found: seq<LongFunction>): seq<nat> {
    if found == [] then [] else [found[0].number] + Numbers(found[1..])
  }

  /** The long segments among `segs[j..]`, in order. */
  function LongFunctionsFrom(segs: seq<string>, j: nat): (found: seq<LongFunction>)
    requires j <= |segs|
    decreases |segs| - j
    ensures forall k :: 0 <= k < |found| ==>
              && j <= found[k].number < |segs|
              && found[k].lines == |Lines(segs[found[k].number])|
              && IsLong(segs[found[k].number])
    ensures forall k, l :: 0 <= k < l < |found| ==> found[k].number < found[l].number
    ensures forall m :: j <= m < |segs| && IsLong(segs[m]) ==> m in Numbers(found)
  {
    if j == |segs| then []
    else
      var rest := LongFunctionsFrom(segs, j + 1);
      var n := |Lines(segs[j])|;
      if IsLong(segs[j]) then
        var found := [LongFunction(j, n)] + rest;
        assert found[1..] == rest;
        assert Numbers(found) == [j] + Numbers(rest);
        found
      else rest
  }

  /** The long-function rule: exactly one finding per segment after the
      first whose `split('\n')` has more than 100 parts, numbered by the
      segment's position (`Function #1` is the first segment after the
      first `"function "`), in increasing order. */
  function FindLongFunctions(code: string): (found: seq<LongFunction>)
    ensures forall k :: 0 <= k < |found| ==>
              && 1 <= found[k].number < |Segments(code)|
              && found[k].lines == |Lines(Segments(code)[found[k].number])|
              && found[k].lines > LongFunctionLimit
    ensures forall k, l :: 0 <= k < l < |found| ==> found[k].number < found[l].number
    ensures forall m :: 1 <= m < |Segments(code)| && IsLong(Segments(code)[m]) ==>
              m in Numbers(found)
  {
    LongFunctionsFrom(Segments(code), 1)
  }

  function LongFunctionIssue(filename: string, f: LongFunction): (t: Dict)
    ensures IsReport(t, filename)
  {
    map["type" := "code_smell", "severity" := "medium", "file" := filename,
        "description" := "Function #" + NatToString(f.number) + " is too long ("
                         + NatToString(f.lines) + " lines)",
        "suggestion" := "Consider breaking into smaller functions"]
  }

  // ---------------------------------------------------------------- duplication

  /** `'\n'.join(lines[i:i+5])`. */
  function Block(lines: seq<string>, i: nat): string
    requires i + BlockLines <= |lines|
  {
    Join(lines[i..i + BlockLines], "\n")
  }

  /** Start index `i` is examined (`i in range(len(lines) - 5)`) and its
      block occurs more than twice in the file (non-overlapping count). */
  predicate Flagged(code: string, lines: seq<string>, i: nat) {
    i + BlockLines < |lines| && Count(code, Block(lines, i)) > 2
  }

  function DuplicateStartsFrom(code: string, lines: seq<string>, i: nat): (starts: seq<nat>)
    decreases |lines| - i
    ensures forall k :: 0 <= k < |starts| ==> i <= starts[k] && Flagged(code, lines, starts[k])
    ensures forall k, l :: 0 <= k < l < |starts| ==> starts[k] < starts[l]
    ensures forall m: nat :: i <= m && Flagged(code, lines, m) ==> m in starts
  {
    if i + BlockLines >= |lines| then []
    else
      var rest := DuplicateStartsFrom(code, lines, i + 1);
      if Count(code, Block(lines, i)) > 2 then [i] + rest else rest
  }

  /** The duplication rule: the flagged start indices, each once, in
      increasing order. Only starts below `len(lines) - 5` are examined, so
      the last full window (starting at `len(lines) - 5`) never is, and a
      file of at most five lines is never flagged. */
  function DuplicateBlockStarts(code: string): (starts: seq<nat>)
    ensures forall k, l :: 0 <= k < l < |starts| ==> starts[k] < starts[l]
    ensures forall m: nat :: m in starts <==> Flagged(code, Lines(code), m)
    ensures forall m :: m in starts ==> m < |Lines(code)| - BlockLines
    ensures |Lines(code)| <= BlockLines ==> starts == []
  {
    DuplicateStartsFrom(code, Lines(code), 0)
  }

  function DuplicationIssue(filename: string): (t: Dict)
    ensures IsReport(t, filename)
  {
    map["type" := "duplication", "severity" := "low", "file" := filename,
        "description" := "Duplicated code block detected",
        "suggestion" := "Extract to reusable function"]
  }

  // ---------------------------------------------------------------- error handling

  /** `"xpcall"` contains `"pcall"`, so the source's `"xpcall" not in code`
      test never decides anything. */
  lemma XpcallMentionsPcall(code: string)
    ensures Contains(code, "xpcall") ==> Contains(code, "pcall")
  {
    if Contains(code, "xpcall") {
      assert OccursAt("xpcall", "pcall", 1);
      ContainsTransitive(code, "xpcall", "pcall");
    }
  }

  function ErrorHandlingIssue(filename: string): (t: Dict)
    ensures IsReport(t, filename)
  {
    map["type" := "error_handling", "severity" := "medium", "file" := filename,
        "description" := "No error handling found",
        "suggestion" := "Add pcall for error handling"]
  }

  /** The error-handling rule: one issue exactly when the file mentions
      `function` but never `pcall`. */
  function ErrorHandlingIssues(code: string, filename: string): (issues: seq<Dict>)
    ensures |issues| <= 1
    ensures |issues| == 1 <==> !Contains(code, "pcall") && Contains(code, "function")
    ensures forall t :: t in issues ==> t == ErrorHandlingIssue(filename)
  {
    XpcallMentionsPcall(code);
    if !Contains(code, "pcall") && !Contains(code, "xpcall") then
      if Contains(code, "function") then [ErrorHandlingIssue(filename)] else []
    else []
  }

  /** An issue report about `filename`: it carries a `severity`, and its
      severity is the one its rule assigns. */
  predicate IsIssue(t: Dict, filename: string) {
    && IsReport(t, filename) && "severity" in t
    && (t["type"] == "code_smell" || t["type"] == "duplication" || t["type"] == "error_handling")
    && t["severity"] == (if t["type"] == "duplication" then "low" else "medium")
  }

  /** The long-function rule's issues, one per finding, in order. */
  function LongFunctionIssues(code: string, filename: string): (issues: seq<Dict>)
    ensures |issues| == |FindLongFunctions(code)|
    ensures forall k :: 0 <= k < |issues| ==>
              issues[k] == LongFunctionIssue(filename, FindLongFunctions(code)[k])
    ensures forall t :: t in issues ==> IsIssue(t, filename) && t["type"] == "code_smell"
  {
    var found := FindLongFunctions(code);
    seq(|found|, k requires 0 <= k < |found| => LongFunctionIssue(filename, found[k]))
  }

  /** The duplication rule's issues: one identical issue per flagged start. */
  function DuplicationIssues(code: string, filename: string): (issues: seq<Dict>)
    ensures |issues| == |DuplicateBlockStarts(code)|
    ensures forall t :: t in issues ==> t == DuplicationIssue(filename)
    ensures forall t :: t in issues ==> IsIssue(t, filename)
  {
    seq(|DuplicateBlockStarts(code)|, _ => DuplicationIssue(filename))
  }

  /** `_check_code_quality`: the long-function issues, then the duplication
      issues, then the error-handling issue; each a well-formed issue about
      this file with its rule's severity. */
  function CheckCodeQuality(code: string, filename: string): (issues: seq<Dict>)
    ensures issues == LongFunctionIssues(code, filename) + DuplicationIssues(code, filename)
                      + ErrorHandlingIssues(code, filename)
    ensures |issues| == |FindLongFunctions(code)| + |DuplicateBlockStarts(code)|
                        + |ErrorHandlingIssues(code, filename)|
    ensures forall t :: t in issues ==> IsIssue(t, filename)
  {
    var long := LongFunctionIssues(code, filename);
    var dups := DuplicationIssues(code, filename);
    var guard := ErrorHandlingIssues(code, filename);
    assert forall t :: t in guard ==> IsIssue(t, filename);
    long + dups + guard
  }

  // ---------------------------------------------------------------- opportunities

  function PerformanceOpportunity(filename: string): (t: Dict)
    ensures IsReport(t, filename) && "severity" !in t && ScanOrder(t) == 0
  {
    map["type" := "performance", "priority" := "low", "file" := filename,
        "description" := "Using wait() - could use task.wait()",
        "benefit" := "Better performance"]
  }

  function TodoOpportunity(filename: string): (t: Dict)
    ensures IsReport(t, filename) && "severity" !in t && ScanOrder(t) == 1
  {
    map["type" := "feature", "priority" := "medium", "file" := filename,
        "description" := "TODO comments found",
        "benefit" := "Complete unfinished features"]
  }

  function RefactorOpportunity(filename: string): (t: Dict)
    ensures IsReport(t, filename) && "severity" !in t && ScanOrder(t) == 2
  {
    map["type" := "refactor", "priority" := "medium", "file" := filename,
        "description" := "Complex conditional logic",
        "benefit" := "Improved readability"]
  }

  /** A Python value on the right of `in`: a string or an int. */
  datatype PyValue = PyStr(s: string) | PyInt(n: int)

  /** Python's `needle in container`: substring test for a string, a
      TypeError for an int. */
  function PyIn(needle: string, container: PyValue): Result<bool, Error>
  {
    match container
    case PyStr(s) => Success(Contains(s, needle))
    case PyInt(_) => Failure(TypeError(NotIterable))
  }

  /** The refactoring condition as written, `"if" in code.count("if") > 10`:
      a chained comparison meaning `("if" in n) and (n > 10)` with
      `n = code.count("if")`, evaluated left to right. */
  function ComplexConditionAsWritten(code: string): Result<bool, Error>
  {
    var n := Count(code, "if");
    match PyIn("if", PyInt(n))
    case Failure(e) => Failure(e)
    case Success(b) => Success(b && n > 10)
  }

  /** `_find_opportunities` as written: the first two rules run, then the
      refactoring condition raises before anything is returned. */
  function FindOpportunitiesAsWritten(code: string, filename: string)
    : (r: Result<seq<Dict>, Error>)
    ensures r.Failure? ==> r.error == TypeError(NotIterable)
    ensures r.Success? ==> r.value == FindOpportunities(code, filename)
  {
    var found :=
      (if Contains(code, "wait(") then [PerformanceOpportunity(filename)] else [])
      + (if Contains(filename, "Service") && Contains(code, "-- TODO")
         then [TodoOpportunity(filename)] else []);
    match ComplexConditionAsWritten(code)
    case Failure(e) => Failure(e)
    case Success(complex) =>
      Success(found + if complex then [RefactorOpportunity(filename)] else [])
  }

  /** Whatever the file, the scan as written raises TypeError. */
  lemma OpportunityScanAlwaysRaises(code: string, filename: string)
    ensures FindOpportunitiesAsWritten(code, filename) == Failure(TypeError(NotIterable))
  {
  }

  /** `_find_opportunities` with the evidently intended condition
      `code.count("if") > 10`: each opportunity is reported exactly when its
      trigger is present, and none carries a `severity`. Nothing else is
      reported, and each at most once; `OpportunitiesInRuleOrder` gives the
      order. */
  function FindOpportunities(code: string, filename: string): (found: seq<Dict>)
    ensures PerformanceOpportunity(filename) in found <==> Contains(code, "wait(")
    ensures TodoOpportunity(filename) in found
            <==> Contains(filename, "Service") && Contains(code, "-- TODO")
    ensures RefactorOpportunity(filename) in found <==> Count(code, "if") > 10
    ensures forall t :: t in found ==>
              t == PerformanceOpportunity(filename) || t == TodoOpportunity(filename)
              || t == RefactorOpportunity(filename)
    ensures |found| == (if Contains(code, "wait(") then 1 else 0)
                       + (if Contains(filename, "Service") && Contains(code, "-- TODO") then 1 else 0)
                       + (if Count(code, "if") > 10 then 1 else 0)
    ensures forall t :: t in found ==> IsReport(t, filename) && "severity" !in t
  {
    Opportunities(filename, Contains(code, "wait("),
                  Contains(filename, "Service") && Contains(code, "-- TODO"),
                  Count(code, "if") > 10)
  }

  /** The opportunities of a file, given which of the three triggers fired. */
  function Opportunities(filename: string, slow: bool, unfinished: bool, complex: bool)
    : (found: seq<Dict>)
    ensures PerformanceOpportunity(filename) in found <==> slow
    ensures TodoOpportunity(filename) in found <==> unfinished
    ensures RefactorOpportunity(filename) in found <==> complex
    ensures forall t :: t in found ==>
              t == PerformanceOpportunity(filename) || t == TodoOpportunity(filename)
              || t == RefactorOpportunity(filename)
    ensures |found| == (if slow then 1 else 0) + (if unfinished then 1 else 0)
                       + (if complex then 1 else 0)
    ensures forall t :: t in found ==> IsReport(t, filename) && "severity" !in t
  {
    var found := InOrder(slow, PerformanceOpportunity(filename), unfinished, TodoOpportunity(filename),
                         complex, RefactorOpportunity(filename), ScanOrder);
    forall t | t in found
      ensures IsReport(t, filename) && "severity" !in t
    {
    }
    found
  }

  /** The opportunities are listed in the order of the rules: performance,
      then the TODO feature, then the refactoring. */
  lemma OpportunitiesInRuleOrder(code: string, filename: string)
    ensures var found := FindOpportunities(code, filename);
            forall i, j :: 0 <= i < j < |found| ==> ScanOrder(found[i]) < ScanOrder(found[j])
  {
  }

  /** The reports of three rules checked in order, each adding its own
      report when it fires. */
  function InOrder<T>(fires0: bool, x0: T, fires1: bool, x1: T, fires2: bool, x2: T,
                      rank: T -> nat): (found: seq<T>)
    requires rank(x0) == 0 && rank(x1) == 1 && rank(x2) == 2
    ensures x0 in found <==> fires0
    ensures x1 in found <==> fires1
    ensures x2 in found <==> fires2
    ensures forall t :: t in found ==> t == x0 || t == x1 || t == x2
    ensures |found| == (if fires0 then 1 else 0) + (if fires1 then 1 else 0)
                       + (if fires2 then 1 else 0)
    ensures forall i, j :: 0 <= i < j < |found| ==> rank(found[i]) < rank(found[j])
  {
    var a := if fires0 then [x0] else [];
    var b := if fires1 then [x1] else [];
    var c := if fires2 then [x2] else [];
    RanksIncrease(a, b, c, rank);
    a + b + c
  }

  /** The position of an opportunity's rule in `_find_opportunities`. */
  function ScanOrder(t: Dict): nat {
    var kind := Get(t, "type", "");
    if kind == "performance" then 0 else if kind == "feature" then 1 else 2
  }

  // ---------------------------------------------------------------- whole tree

  /** `analyze_codebase` as written: per file, the quality check and then the
      opportunity scan, whose exception propagates out of the whole scan. */
  function AnalyzeAsWritten(files: seq<SourceFile>): (r: Result<Analysis, Error>)
    ensures r.Failure? ==> r.error == TypeError(NotIterable)
    ensures r.Success? ==> r.value == Analyze(files)
  {
    if files == [] then Success(Analysis([], []))
    else
      var f := files[0];
      var issues := CheckCodeQuality(f.code, f.name);
      match FindOpportunitiesAsWritten(f.code, f.name)
      case Failure(e) => Failure(e)
      case Success(opportunities) =>
        match AnalyzeAsWritten(files[1..])
        case Failure(e) => Failure(e)
        case Success(rest) =>
          Success(Analysis(issues + rest.issues, opportunities + rest.opportunities))
  }

  /** The scan as written succeeds only on a tree without Lua files. */
  lemma AnalyzeAsWrittenRaises(files: seq<SourceFile>)
    ensures AnalyzeAsWritten(files).Failure? <==> |files| > 0
    ensures |files| > 0 ==> AnalyzeAsWritten(files) == Failure(TypeError(NotIterable))
    ensures |files| == 0 ==> AnalyzeAsWritten(files) == Success(Analysis([], []))
  {
    if |files| > 0 {
      OpportunityScanAlwaysRaises(files[0].code, files[0].name);
    }
  }

  /** The names of the files. */
  function Names(files: seq<SourceFile>): set<string> {
    set f | f in files :: f.name
  }

  /** The reports of one file: the issues of `_check_code_quality` and the
      opportunities of the corrected scan. Every issue carries a severity,
      no opportunity does, and all of them name the file. */
  function AnalyzeFile(f: SourceFile): (a: Analysis)
    ensures a.issues == CheckCodeQuality(f.code, f.name)
    ensures a.opportunities == FindOpportunities(f.code, f.name)
    ensures forall t :: t in a.issues ==> IsReport(t, f.name) && "severity" in t
    ensures forall t :: t in a.opportunities ==> IsReport(t, f.name) && "severity" !in t
  {
    var issues := CheckCodeQuality(f.code, f.name);
    assert forall t :: t in issues ==> IsIssue(t, f.name);
    Analysis(issues, FindOpportunities(f.code, f.name))
  }

  /** The loop of `analyze_codebase` for any per-file scan: the reports of
      the files, concatenated in file order. Every report comes from the scan
      of one of the files. */
  function ScanEach<T>(files: seq<T>, scan: T -> Analysis): (a: Analysis)
    ensures files == [] ==> a == Analysis([], [])
    ensures forall t :: t in a.issues ==> exists f :: f in files && t in scan(f).issues
    ensures forall t :: t in a.opportunities ==>
              exists f :: f in files && t in scan(f).opportunities
    decreases |files|
  {
    if files == [] then Analysis([], [])
    else
      var head := scan(files[0]);
      var rest := ScanEach(files[1..], scan);
      assert files[0] in files;
      assert forall f :: f in files[1..] ==> f in files;
      Analysis(head.issues + rest.issues, head.opportunities + rest.opportunities)
  }

  /** Scanning two lists of files one after the other reports the first
      list's issues followed by the second's, and likewise the opportunities. */
  lemma {:induction false} ScanEachAppend<T>(xs: seq<T>, ys: seq<T>, scan: T -> Analysis)
    ensures ScanEach(xs + ys, scan).issues == ScanEach(xs, scan).issues + ScanEach(ys, scan).issues
    ensures ScanEach(xs + ys, scan).opportunities
         == ScanEach(xs, scan).opportunities + ScanEach(ys, scan).opportunities
    decreases |xs|
  {
    if xs == [] {
      assert xs + ys == ys;
    } else {
      ScanEachAppend(xs[1..], ys, scan);
      assert (xs + ys)[0] == xs[0] && (xs + ys)[1..] == xs[1..] + ys;
    }
  }

  /** `analyze_codebase` with the corrected opportunity scan: all issues and
      all opportunities of all files, file by file. Every report names a
      scanned file and carries the keys a feature request needs; issues
      carry a `severity`, opportunities do not. */
  function Analyze(files: seq<SourceFile>): (a: Analysis)
    ensures forall t :: t in a.issues ==>
              WellFormedReport(t) && "severity" in t && t["file"] in Names(files)
    ensures forall t :: t in a.opportunities ==>
              WellFormedReport(t) && "severity" !in t && t["file"] in Names(files)
    ensures files == [] ==> a == Analysis([], [])
  {
    var a := ScanEach(files, AnalyzeFile);
    forall t | t in a.issues
      ensures WellFormedReport(t) && "severity" in t && t["file"] in Names(files)
    {
      var f :| f in files && t in AnalyzeFile(f).issues;
    }
    forall t | t in a.opportunities
      ensures WellFormedReport(t) && "severity" !in t && t["file"] in Names(files)
    {
      var f :| f in files && t in AnalyzeFile(f).opportunities;
    }
    a
  }

  /** A tree of one file reports that file's issues and opportunities. */
  lemma AnalyzeOneFile(f: SourceFile)
    ensures Analyze([f]) == AnalyzeFile(f)
  {
    assert [f][1..] == [];
  }

  /** Scanning two trees one after the other reports the first tree's issues
      followed by the second's, and likewise the opportunities: with
      `AnalyzeOneFile`, the scan is the per-file concatenation in file order. */
  lemma AnalyzeAppend(xs: seq<SourceFile>, ys: seq<SourceFile>)
    ensures Analyze(xs + ys).issues == Analyze(xs).issues + Analyze(ys).issues
    ensures Analyze(xs + ys).opportunities == Analyze(xs).opportunities + Analyze(ys).opportunities
  {
    ScanEachAppend(xs, ys, AnalyzeFile);
  }
}
