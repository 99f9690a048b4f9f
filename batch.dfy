/**
 * The batch processor (batch_processor.py): run the configured smoothing,
 * baseline and peak steps over every file of a list, keep one result per
 * file that worked and one error per file that did not, and summarise.
 *
 * Reading a file, the three processing functions and the progress
 * callback are parameters: the reader gives a table or its error text,
 * each processing function gives a series (or, for peaks, an optional
 * peak list) or the text of the exception it raised, and the callback
 * gives the text of its exception when it raises. Writing the output
 * files is left out; the model keeps the list of their names.
 */
module Batch {
  import opened Common

  /** A table as the CSV reader delivers it, column by column. */
  datatype Table = Table(columns: seq<seq<real>>)

  /** The processing steps, in the order they run. */
  datatype Step = Smoothing | BaselineCorrection | PeakAnalysis

  /** The name recorded in `processing_steps`. */
  function StepName(s: Step): string
  {
    match s
    case Smoothing => "smoothing"
    case BaselineCorrection => "baseline"
    case PeakAnalysis => "peak_analysis"
  }

  function StepRank(s: Step): nat
  {
    match s
    case Smoothing => 0
    case BaselineCorrection => 1
    case PeakAnalysis => 2
  }

  /** Each step at most once, and in the fixed order. */
  predicate InStepOrder(steps: seq<Step>)
  {
    forall i, j :: 0 <= i < j < |steps| ==> StepRank(steps[i]) < StepRank(steps[j])
  }

  /** A smoothing or baseline function: (x, y, its config section) to a new series. */
  type SeriesFn = (seq<real>, seq<real>, map<string, Json>) -> Result<seq<real>, string>

  /** The peak function: (x, y, its config section) to a peak list, possibly None. */
  type PeakFn = (seq<real>, seq<real>, map<string, Json>) -> Result<Option<seq<Json>>, string>

  /** The `processing_functions` dictionary: each entry may be missing. */
  datatype Functions = Functions(smooth: Option<SeriesFn>, baseline: Option<SeriesFn>, peaks: Option<PeakFn>)

  /** Why one file failed; the batch records it with the file's path. */
  datatype FileFailure =
    | ReadFailed(message: string)
    | TooFewColumns(count: nat)
    | SectionNotObject(key: string)
    | StepFailed(step: Step, message: string)
    | SeriesLengthsDiffer
    | CallbackFailed(message: string)

  datatype FileError = FileError(file: string, failure: FileFailure)

  /** One entry of `results`; `peaksFound` is present exactly when the peak step ran. */
  datatype FileResult = FileResult(
    inputFile: string,
    fileName: string,
    dataPoints: nat,
    steps: seq<Step>,
    outputFiles: seq<string>,
    peaksFound: Option<nat>)

  /** What the peak step produced: it did not run, or it ran and returned this. */
  datatype PeakOutcome = NotRun | Ran(peaks: Option<seq<Json>>)

  // ---------------------------------------------------------------- paths

  /** `os.path.basename` with POSIX rules (posixpath): what follows the last '/'. */
  function Basename(p: string): (b: string)
    ensures '/' !in b
    ensures |b| <= |p| && b == p[|p| - |b|..]
    ensures |b| < |p| ==> p[|p| - |b| - 1] == '/'
  {
    if p == [] then []
    else if p[|p| - 1] == '/' then []
    else Basename(p[..|p| - 1]) + [p[|p| - 1]]
  }

  predicate AllDots(s: string)
  {
    forall i :: 0 <= i < |s| ==> s[i] == '.'
  }

  /** Index of the last '.' in `s`, if any. */
  function LastDot(s: string): (k: Option<nat>)
    ensures k.None? <==> '.' !in s
    ensures k.Some? ==> k.value < |s| && s[k.value] == '.' && '.' !in s[k.value + 1..]
  {
    if s == [] then None
    else if s[|s| - 1] == '.' then Some(|s| - 1)
    else
      var k := LastDot(s[..|s| - 1]);
      assert s[..|s| - 1] + [s[|s| - 1]] == s;
      k
  }

  /**
   * `os.path.splitext(name)[0]` with POSIX rules: the name without its extension. The
   * extension starts at the last '.', unless only dots come before it
   * (".bashrc" has none).
   */
  function Stem(name: string): (s: string)
    ensures |s| <= |name| && s == name[..|s|]
    ensures s != name ==> name[|s|] == '.' && '.' !in name[|s| + 1..] && !AllDots(s)
  {
    match LastDot(name)
    case None => name
    case Some(k) => if AllDots(name[..k]) then name else name[..k]
  }

  /** `os.path.join(dir, name)` with POSIX rules, for a name without '/'. */
  function Join(dir: string, name: string): string
  {
    if dir == [] || dir[|dir| - 1] == '/' then dir + name else dir + "/" + name
  }

  // ---------------------------------------------------------------- one file

  /** `config.get(key)` where the value must be a dictionary to be read further. */
  function Section(config: map<string, Json>, key: string): Result<Option<map<string, Json>>, FileFailure>
  {
    if key !in config then Ok(None)
    else if config[key].JObj? then Ok(Some(config[key].members))
    else Err(SectionNotObject(key))
  }

  /** The section `key` is a dictionary whose `method` is truthy. */
  predicate Requested(config: map<string, Json>, key: string)
  {
    key in config && config[key].JObj? && Truthy(Get(config[key].members, "method"))
  }

  /** The series the baseline step reads: the smoothed one only when asked for and present. */
  function BaselineInput(section: map<string, Json>, y: seq<real>, smoothed: Option<seq<real>>): (r: seq<real>)
    ensures r == y || (Get(section, "data_source") == JStr("smoothed") && smoothed == Some(r))
    ensures Get(section, "data_source") == JStr("smoothed") && smoothed.Some? ==> r == smoothed.value
  {
    if Get(section, "data_source") == JStr("smoothed") && smoothed.Some? then smoothed.value else y
  }

  /**
   * The series the peak step reads: corrected when asked for and present,
   * else smoothed when asked for and present, else the raw y. A missing
   * `data_source` means "original".
   */
  function PeakInput(section: map<string, Json>, y: seq<real>, smoothed: Option<seq<real>>,
                     corrected: Option<seq<real>>): (r: seq<real>)
    ensures var source := if "data_source" in section then section["data_source"] else JStr("original");
      && (source == JStr("corrected") && corrected.Some? ==> r == corrected.value)
      && (source == JStr("smoothed") && smoothed.Some? ==> r == smoothed.value)
      && (r == y || (source == JStr("corrected") && corrected == Some(r))
                 || (source == JStr("smoothed") && smoothed == Some(r)))
  {
    var source := if "data_source" in section then section["data_source"] else JStr("original");
    if source == JStr("corrected") && corrected.Some? then corrected.value
    else if source == JStr("smoothed") && smoothed.Some? then smoothed.value
    else y
  }

  /** Step 1: runs when the section has a truthy `method` and a smoothing function exists. */
  function SmoothStage(config: map<string, Json>, fns: Functions, x: seq<real>, y: seq<real>)
    : (r: Result<Option<seq<real>>, FileFailure>)
    ensures r.Ok? ==> (r.value.Some? <==> Requested(config, "smoothing") && fns.smooth.Some?)
    ensures "smoothing" in config && !config["smoothing"].JObj? ==> r.Err?
  {
    var section := Section(config, "smoothing");
    if section.Err? then Err(section.error)
    else if section.value.None? || !Truthy(Get(section.value.value, "method")) || fns.smooth.None? then Ok(None)
    else
      var out := fns.smooth.value(x, y, section.value.value);
      if out.Err? then Err(StepFailed(Smoothing, out.error)) else Ok(Some(out.value))
  }

  /** Step 2: runs when the section has a truthy `method` and a baseline function exists. */
  function BaselineStage(config: map<string, Json>, fns: Functions, x: seq<real>, y: seq<real>,
                         smoothed: Option<seq<real>>): (r: Result<Option<seq<real>>, FileFailure>)
    ensures r.Ok? ==> (r.value.Some? <==> Requested(config, "baseline") && fns.baseline.Some?)
    ensures "baseline" in config && !config["baseline"].JObj? ==> r.Err?
  {
    var section := Section(config, "baseline");
    if section.Err? then Err(section.error)
    else if section.value.None? || !Truthy(Get(section.value.value, "method")) || fns.baseline.None? then Ok(None)
    else
      var m := section.value.value;
      var out := fns.baseline.value(x, BaselineInput(m, y, smoothed), m);
      if out.Err? then Err(StepFailed(BaselineCorrection, out.error)) else Ok(Some(out.value))
  }

  /** Step 3: runs whenever the section and a peak function exist; the section is read only then. */
  function PeakStage(config: map<string, Json>, fns: Functions, x: seq<real>, y: seq<real>,
                     smoothed: Option<seq<real>>, corrected: Option<seq<real>>): (r: Result<PeakOutcome, FileFailure>)
    ensures r.Ok? ==> (r.value.Ran? <==> "peak_analysis" in config && fns.peaks.Some?)
    ensures "peak_analysis" in config && fns.peaks.Some? && !config["peak_analysis"].JObj? ==> r.Err?
  {
    if "peak_analysis" !in config || fns.peaks.None? then Ok(NotRun)
    else
      var section := Section(config, "peak_analysis");
      if section.Err? then Err(section.error)
      else
        var m := section.value.value;
        var out := fns.peaks.value(x, PeakInput(m, y, smoothed, corrected), m);
        if out.Err? then Err(StepFailed(PeakAnalysis, out.error)) else Ok(Ran(out.value))
  }

  /** `peaks_found`: the number of peaks, 0 when the step returned None. */
  function PeaksFound(p: PeakOutcome): (n: Option<nat>)
    ensures n.Some? <==> p.Ran?
  {
    match p
    case NotRun => None
    case Ran(peaks) => Some(if peaks.Some? then |peaks.value| else 0)
  }

  /** The steps that ran, in their fixed order. */
  function StepsRun(smoothed: Option<seq<real>>, corrected: Option<seq<real>>, p: PeakOutcome): (steps: seq<Step>)
    ensures InStepOrder(steps)
    ensures Smoothing in steps <==> smoothed.Some?
    ensures BaselineCorrection in steps <==> corrected.Some?
    ensures PeakAnalysis in steps <==> p.Ran?
  {
    (if smoothed.Some? then [Smoothing] else [])
    + (if corrected.Some? then [BaselineCorrection] else [])
    + (if p.Ran? then [PeakAnalysis] else [])
  }

  /** `_save_results`: the processed-data file, then the peaks file when there are peaks. */
  function OutputFiles(dir: string, stem: string, p: PeakOutcome): (files: seq<string>)
  {
    [Join(dir, stem + "_processed.csv")]
    + (if p.Ran? && p.peaks.Some? && |p.peaks.value| > 0 then [Join(dir, stem + "_peaks.csv")] else [])
  }

  /** The columns written to the processed-data file all have the length of x. */
  predicate SameLengths(x: seq<real>, y: seq<real>, smoothed: Option<seq<real>>, corrected: Option<seq<real>>)
  {
    && |y| == |x|
    && (smoothed.Some? ==> |smoothed.value| == |x|)
    && (corrected.Some? ==> |corrected.value| == |x|)
  }

  /** `_process_single_file`, as a value: the result record, or why the file failed. */
  function Run(path: string, dir: string, table: Result<Table, string>,
               config: map<string, Json>, fns: Functions): Result<FileResult, FileFailure>
  {
    if table.Err? then Err(ReadFailed(table.error))
    else if |table.value.columns| < 2 then Err(TooFewColumns(|table.value.columns|))
    else
      var x, y := table.value.columns[0], table.value.columns[1];
      var smoothed := SmoothStage(config, fns, x, y);
      if smoothed.Err? then Err(smoothed.error)
      else
        var corrected := BaselineStage(config, fns, x, y, smoothed.value);
        if corrected.Err? then Err(corrected.error)
        else
          var peaks := PeakStage(config, fns, x, y, smoothed.value, corrected.value);
          if peaks.Err? then Err(peaks.error)
          else if !SameLengths(x, y, smoothed.value, corrected.value) then Err(SeriesLengthsDiffer)
          else Ok(Record(path, dir, |x|, smoothed.value, corrected.value, peaks.value))
  }

  /** The result record of a file whose steps all ran through. */
  function Record(path: string, dir: string, dataPoints: nat, smoothed: Option<seq<real>>,
                  corrected: Option<seq<real>>, p: PeakOutcome): FileResult
  {
    var name := Basename(path);
    FileResult(path, name, dataPoints, StepsRun(smoothed, corrected, p),
               OutputFiles(dir, Stem(name), p), PeaksFound(p))
  }

  /** A table with fewer than two columns is a failure of that file. */
  lemma NarrowTableFails(path: string, dir: string, t: Table, config: map<string, Json>, fns: Functions)
    requires |t.columns| < 2
    ensures Run(path, dir, Ok(t), config, fns) == Err(TooFewColumns(|t.columns|))
  {
  }

  /**
   * The recorded steps keep the fixed order, and each one is there exactly
   * when its config section asks for it and its function exists.
   */
  lemma RunSteps(path: string, dir: string, table: Result<Table, string>,
                 config: map<string, Json>, fns: Functions)
    requires Run(path, dir, table, config, fns).Ok?
    ensures var steps := Run(path, dir, table, config, fns).value.steps;
      && InStepOrder(steps)
      && (Smoothing in steps <==> Requested(config, "smoothing") && fns.smooth.Some?)
      && (BaselineCorrection in steps <==> Requested(config, "baseline") && fns.baseline.Some?)
      && (PeakAnalysis in steps <==> "peak_analysis" in config && fns.peaks.Some?)
  {
    var t := table.value;
    var x, y := t.columns[0], t.columns[1];
    var s := SmoothStage(config, fns, x, y).value;
    var c := BaselineStage(config, fns, x, y, s).value;
    var p := PeakStage(config, fns, x, y, s, c).value;
    assert Run(path, dir, table, config, fns) == Ok(Record(path, dir, |x|, s, c, p));
  }

  /**
   * `peaks_found` is present exactly when the peak step ran; the output
   * list starts with the processed file and has a second, peaks file
   * exactly when at least one peak was found.
   */
  lemma RunOutputs(path: string, dir: string, table: Result<Table, string>,
                   config: map<string, Json>, fns: Functions)
    requires Run(path, dir, table, config, fns).Ok?
    ensures var r := Run(path, dir, table, config, fns).value;
      && r.inputFile == path && r.fileName == Basename(path)
      && r.dataPoints == |table.value.columns[0]|
      && (r.peaksFound.Some? <==> PeakAnalysis in r.steps)
      && 1 <= |r.outputFiles| <= 2
      && r.outputFiles[0] == Join(dir, Stem(Basename(path)) + "_processed.csv")
      && (|r.outputFiles| == 2 <==> r.peaksFound.Some? && r.peaksFound.value > 0)
  {
    var t := table.value;
    var x, y := t.columns[0], t.columns[1];
    var s := SmoothStage(config, fns, x, y).value;
    var c := BaselineStage(config, fns, x, y, s).value;
    var p := PeakStage(config, fns, x, y, s, c).value;
    assert Run(path, dir, table, config, fns) == Ok(Record(path, dir, |x|, s, c, p));
  }

  // ---------------------------------------------------------------- the batch

  /** The progress callback: the text of its exception when it raises. */
  type Progress = (nat, nat, string) -> Option<string>

  /** File `i` of `total`: the callback first, then the file itself, inside one `try`. */
  function Attempt(i: nat, total: nat, path: string, dir: string, read: string -> Result<Table, string>,
                   progress: Option<Progress>, config: map<string, Json>, fns: Functions)
    : Result<FileResult, FileError>
  {
    var raised := if progress.Some? then progress.value(i + 1, total, Basename(path)) else None;
    if raised.Some? then Err(FileError(path, CallbackFailed(raised.value)))
    else
      var out := Run(path, dir, read(path), config, fns);
      if out.Err? then Err(FileError(path, out.error)) else Ok(out.value)
  }

  /** The outcome of every file, in input order. */
  function Attempts(paths: seq<string>, dir: string, read: string -> Result<Table, string>,
                    progress: Option<Progress>, config: map<string, Json>, fns: Functions)
    : (outs: seq<Result<FileResult, FileError>>)
    ensures |outs| == |paths|
  {
    seq(|paths|, i requires 0 <= i < |paths| => Attempt(i, |paths|, paths[i], dir, read, progress, config, fns))
  }

  /** The files that worked, in order. */
  function Successes(outs: seq<Result<FileResult, FileError>>): seq<FileResult>
  {
    if outs == [] then []
    else
      var last := outs[|outs| - 1];
      Successes(outs[..|outs| - 1]) + (if last.Ok? then [last.value] else [])
  }

  /** The files that failed, in order. */
  function Failures(outs: seq<Result<FileResult, FileError>>): seq<FileError>
  {
    if outs == [] then []
    else
      var last := outs[|outs| - 1];
      Failures(outs[..|outs| - 1]) + (if last.Err? then [last.error] else [])
  }

  lemma TakeOneMore<T>(s: seq<T>, i: nat)
    requires i < |s|
    ensures s[..i + 1] == s[..i] + [s[i]]
  {
  }

  lemma TakeAll<T>(s: seq<T>)
    ensures s[..|s|] == s
  {
  }

  /** One more outcome extends exactly one of the two lists. */
  lemma OutcomeSnoc(outs: seq<Result<FileResult, FileError>>, o: Result<FileResult, FileError>)
    ensures Successes(outs + [o]) == Successes(outs) + (if o.Ok? then [o.value] else [])
    ensures Failures(outs + [o]) == Failures(outs) + (if o.Err? then [o.error] else [])
  {
    assert (outs + [o])[..|outs|] == outs;
  }

  /** Every file lands in exactly one of the two lists. */
  lemma {:induction false} PartitionCount(outs: seq<Result<FileResult, FileError>>)
    ensures |Successes(outs)| + |Failures(outs)| == |outs|
  {
    if outs != [] {
      PartitionCount(outs[..|outs| - 1]);
    }
  }

  /** A file without a callback failure succeeds exactly when it succeeds on its own. */
  lemma FileOnItsOwn(paths: seq<string>, i: nat, dir: string, read: string -> Result<Table, string>,
                     config: map<string, Json>, fns: Functions)
    requires i < |paths|
    ensures var out := Attempts(paths, dir, read, None, config, fns)[i];
      var alone := Run(paths[i], dir, read(paths[i]), config, fns);
      && (out.Ok? <==> alone.Ok?)
      && (out.Ok? ==> alone == Ok(out.value))
      && (out.Err? ==> out.error == FileError(paths[i], alone.error))
  {
  }

  /** The dictionary `_generate_summary` returns; the timestamp is a parameter. */
  datatype Summary = Summary(
    totalFiles: nat,
    successful: nat,
    failed: nat,
    timestamp: string,
    results: seq<FileResult>,
    errors: seq<FileError>)

  class BatchProcessor {
    const config: map<string, Json>
    const functions: Functions
    var results: seq<FileResult>
    var errors: seq<FileError>

    constructor (config: map<string, Json>, functions: Functions)
      ensures this.config == config && this.functions == functions
      ensures results == [] && errors == []
    {
      this.config := config;
      this.functions := functions;
      results, errors := [], [];
    }

    /** `_save_results`: the list of files written, built by appends. */
    method SaveResults(dir: string, stem: string, peaks: PeakOutcome) returns (files: seq<string>)
      ensures files == OutputFiles(dir, stem, peaks)
      ensures |files| >= 1 && files[0] == Join(dir, stem + "_processed.csv")
    {
      files := [];
      files := files + [Join(dir, stem + "_processed.csv")];
      if peaks.Ran? && peaks.peaks.Some? && |peaks.peaks.value| > 0 {
        files := files + [Join(dir, stem + "_peaks.csv")];
      }
    }

    /**
     * The record of a file whose steps all ran through: each step that ran
     * appends its name, in order, and the saved files are listed.
     */
    method BuildResult(path: string, dir: string, dataPoints: nat, smoothed: Option<seq<real>>,
                       corrected: Option<seq<real>>, peaks: PeakOutcome) returns (r: FileResult)
      ensures r == Record(path, dir, dataPoints, smoothed, corrected, peaks)
    {
      var steps := AppendSteps(smoothed, corrected, peaks);
      var name := Basename(path);
      var files := SaveResults(dir, Stem(name), peaks);
      return FileResult(path, name, dataPoints, steps, files, PeaksFound(peaks));
    }

    /** Each step that ran appends its name to `processing_steps`, in order. */
    method AppendSteps(smoothed: Option<seq<real>>, corrected: Option<seq<real>>, peaks: PeakOutcome)
      returns (steps: seq<Step>)
      ensures steps == StepsRun(smoothed, corrected, peaks)
    {
      steps := [];
      if smoothed.Some? {
        steps := steps + [Smoothing];
      }
      if corrected.Some? {
        steps := steps + [BaselineCorrection];
      }
      if peaks.Ran? {
        steps := steps + [PeakAnalysis];
      }
    }

    /** `_process_single_file`: read, check the columns, run the steps in order. */
    method ProcessSingleFile(path: string, dir: string, table: Result<Table, string>)
      returns (r: Result<FileResult, FileFailure>)
      ensures r == Run(path, dir, table, config, functions)
    {
      if table.Err? {
        return Err(ReadFailed(table.error));
      }
      if |table.value.columns| < 2 {
        return Err(TooFewColumns(|table.value.columns|));
      }
      var x, y := table.value.columns[0], table.value.columns[1];
      var smoothed := SmoothStage(config, functions, x, y);
      if smoothed.Err? {
        return Err(smoothed.error);
      }
      var corrected := BaselineStage(config, functions, x, y, smoothed.value);
      if corrected.Err? {
        return Err(corrected.error);
      }
      var peaks := PeakStage(config, functions, x, y, smoothed.value, corrected.value);
      if peaks.Err? {
        return Err(peaks.error);
      }
      if !SameLengths(x, y, smoothed.value, corrected.value) {
        return Err(SeriesLengthsDiffer);
      }
      var result := BuildResult(path, dir, |x|, smoothed.value, corrected.value, peaks.value);
      return Ok(result);
    }

    /** The body of the `try` for file `i`: report progress, then process the file. */
    method TryFile(paths: seq<string>, i: nat, dir: string, read: string -> Result<Table, string>,
                   progress: Option<Progress>) returns (out: Result<FileResult, FileError>)
      requires i < |paths|
      ensures out == Attempts(paths, dir, read, progress, config, functions)[i]
    {
      var path, total := paths[i], |paths|;
      var raised := if progress.Some? then progress.value(i + 1, total, Basename(path)) else None;
      if raised.Some? {
        return Err(FileError(path, CallbackFailed(raised.value)));
      }
      var processed := ProcessSingleFile(path, dir, read(path));
      if processed.Err? {
        return Err(FileError(path, processed.error));
      }
      return Ok(processed.value);
    }

    /** The `results.append` / `errors.append` that ends each file's turn. */
    method Keep(out: Result<FileResult, FileError>)
      modifies this
      ensures results == old(results) + (if out.Ok? then [out.value] else [])
      ensures errors == old(errors) + (if out.Err? then [out.error] else [])
    {
      if out.Err? {
        errors := errors + [out.error];
      } else {
        results := results + [out.value];
      }
    }

    /** One turn of the loop of `process_files`: file i lands in the list it belongs to. */
    method Visit(paths: seq<string>, i: nat, dir: string, read: string -> Result<Table, string>,
                 progress: Option<Progress>, ghost outs: seq<Result<FileResult, FileError>>)
      requires i < |paths| && outs == Attempts(paths, dir, read, progress, config, functions)
      requires results == Successes(outs[..i]) && errors == Failures(outs[..i])
      modifies this
      ensures results == Successes(outs[..i + 1]) && errors == Failures(outs[..i + 1])
    {
      var out := TryFile(paths, i, dir, read, progress);
      Keep(out);
      TakeOneMore(outs, i);
      OutcomeSnoc(outs[..i], out);
    }

    /** `_generate_summary` */
    function GenerateSummary(timestamp: string): (s: Summary)
      reads this
      ensures s.totalFiles == s.successful + s.failed
      ensures s.successful == |results| && s.failed == |errors|
      ensures s.results == results && s.errors == errors && s.timestamp == timestamp
    {
      Summary(|results| + |errors|, |results|, |errors|, timestamp, results, errors)
    }

    /**
     * `process_files`: both lists start empty, and every file lands in
     * exactly one of them, in input order.
     */
    method ProcessFiles(paths: seq<string>, dir: string, read: string -> Result<Table, string>,
                        progress: Option<Progress>, timestamp: string)
      returns (summary: Summary)
      modifies this
      ensures var outs := Attempts(paths, dir, read, progress, config, functions);
        results == Successes(outs) && errors == Failures(outs)
      ensures summary == GenerateSummary(timestamp)
      ensures summary.totalFiles == |paths|
    {
      results, errors := [], [];
      ghost var outs := Attempts(paths, dir, read, progress, config, functions);
      var i := 0;
      while i < |paths|
        invariant 0 <= i <= |paths|
        invariant results == Successes(outs[..i])
        invariant errors == Failures(outs[..i])
      {
        Visit(paths, i, dir, read, progress, outs);
        i := i + 1;
      }
      TakeAll(outs);
      PartitionCount(outs);
      summary := GenerateSummary(timestamp);
    }
  }
}
