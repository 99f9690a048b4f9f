/**
 * Configuration files and the processing pipeline (config_manager.py).
 *
 * `save_config` wraps the settings in an envelope carrying a version tag
 * and a creation time; `load_config` unwraps an envelope, and returns
 * a file without a version tag as it is, for files written by older
 * versions. Reading and writing the file are left to the caller: saving
 * yields the JSON value to write, loading receives the decoded value or
 * None when the file could not be opened or decoded. The creation time
 * is a parameter.
 *
 * `ProcessingPipeline` derives the list of steps from a configuration.
 */
module Config {
  import opened Common

  /** The version tag `save_config` writes. */
  const ConfigVersion := "1.0"

  /** `save_config`: the object written to the file. */
  function Envelope(config: map<string, Json>, createdAt: string): (j: Json)
    ensures j.JObj? && "version" in j.members && "config" in j.members
  {
    JObj(map["version" := JStr(ConfigVersion), "created_at" := JStr(createdAt), "config" := JObj(config)])
  }

  /** Why `load_config` raised. */
  datatype LoadFailure =
    | Unreadable         // the file could not be opened or decoded
    | NotIterable        // `"version" in value` on a number, a boolean or null
    | NotSubscriptable   // `value["config"]` on a list or a string
    | NoConfigMember     // a "version" member without a "config" member

  predicate OccursAt(s: string, t: string, i: int)
  {
    0 <= i && i + |t| <= |s| && s[i..i + |t|] == t
  }

  /** `t` occurs in `s` (Python's `t in s` on strings). */
  predicate ContainsText(s: string, t: string)
  {
    exists i | 0 <= i <= |s| - |t| :: OccursAt(s, t, i)
  }

  /**
   * `load_config`: the "config" member when a "version" member is
   * present, the whole value otherwise. `"version" in value` also accepts
   * lists and strings, whose subscript by "config" then fails.
   */
  function LoadConfig(file: Option<Json>): (r: Result<Json, LoadFailure>)
    ensures file.None? ==> r == Err(Unreadable)
    ensures file.Some? && file.value.JObj? ==>
      var m := file.value.members;
      && ("version" !in m ==> r == Ok(file.value))
      && ("version" in m && "config" in m ==> r == Ok(m["config"]))
      && ("version" in m && "config" !in m ==> r == Err(NoConfigMember))
    ensures r.Ok? ==> file.Some? && (r.value == file.value || (file.value.JObj? && r.value in file.value.members.Values))
  {
    match file
    case None => Err(Unreadable)
    case Some(full) =>
      match full
      case JObj(m) =>
        if "version" in m then
          if "config" in m then Ok(m["config"]) else Err(NoConfigMember)
        else Ok(full)
      case JArr(items) => if JStr("version") in items then Err(NotSubscriptable) else Ok(full)
      case JStr(s) => if ContainsText(s, "version") then Err(NotSubscriptable) else Ok(full)
      case JNum(_) => Err(NotIterable)
      case JBool(_) => Err(NotIterable)
      case JNull => Err(NotIterable)
  }

  /** Loading what was saved gives back the saved settings, whatever they hold. */
  lemma SaveThenLoad(config: map<string, Json>, createdAt: string)
    ensures LoadConfig(Some(Envelope(config, createdAt))) == Ok(JObj(config))
  {
  }

  /** A file written without the envelope is taken as the settings themselves. */
  lemma LegacyFileLoads(m: map<string, Json>)
    requires "version" !in m
    ensures LoadConfig(Some(JObj(m))) == Ok(JObj(m))
  {
  }

  /**
   * A saved file is loaded once: settings that themselves hold "version"
   * and "config" members would be unwrapped again if the loaded value
   * were loaded a second time.
   */
  lemma LoadedSettingsAreNotReloaded(config: map<string, Json>, createdAt: string)
    requires "version" in config && "config" in config
    ensures LoadConfig(Some(Envelope(config, createdAt))) == Ok(JObj(config))
    ensures LoadConfig(Some(JObj(config))) == Ok(config["config"])
  {
  }

  // ---------------------------------------------------------------- pipeline

  const StepNames: seq<string> := ["smoothing", "baseline", "peak_analysis"]

  /** Why `_build_pipeline` raised: a present section that is not a dictionary has no `.get`. */
  datatype PipelineError = SectionNotObject(key: string)

  /** `config.get(key, {}).get(field)` is truthy. */
  function Wants(config: map<string, Json>, key: string, field: string): (r: Result<bool, PipelineError>)
    ensures r.Err? <==> key in config && !config[key].JObj?
    ensures r == Ok(true) <==> key in config && config[key].JObj? && Truthy(Get(config[key].members, field))
  {
    if key !in config then Ok(false)
    else if config[key].JObj? then Ok(Truthy(Get(config[key].members, field)))
    else Err(SectionNotObject(key))
  }

  /** The steps `_build_pipeline` appends, or why it raised. */
  function PipelineSteps(config: map<string, Json>): Result<seq<string>, PipelineError>
  {
    var smoothing := Wants(config, "smoothing", "method");
    if smoothing.Err? then Err(smoothing.error)
    else
      var baseline := Wants(config, "baseline", "method");
      if baseline.Err? then Err(baseline.error)
      else
        var peaks := Wants(config, "peak_analysis", "threshold");
        if peaks.Err? then Err(peaks.error)
        else Ok((if smoothing.value then ["smoothing"] else [])
                + (if baseline.value then ["baseline"] else [])
                + (if peaks.value then ["peak_analysis"] else []))
  }

  /** `steps` keeps the order of `StepNames`, each name at most once. */
  predicate InNameOrder(steps: seq<string>)
  {
    && (forall i :: 0 <= i < |steps| ==> steps[i] in StepNames)
    && (forall i, j :: 0 <= i < j < |steps| ==> NameRank(steps[i]) < NameRank(steps[j]))
  }

  function NameRank(name: string): nat
  {
    if name == "smoothing" then 0 else if name == "baseline" then 1 else 2
  }

  /**
   * The pipeline is a sub-list of smoothing, baseline, peak_analysis in
   * that order, each step present exactly when its setting is truthy;
   * it fails exactly when one of the three sections is present but not
   * a dictionary.
   */
  lemma PipelineStepsSpec(config: map<string, Json>)
    ensures PipelineSteps(config).Err? <==>
      exists key :: key in StepNames && key in config && !config[key].JObj?
    ensures PipelineSteps(config).Ok? ==>
      var steps := PipelineSteps(config).value;
      && InNameOrder(steps)
      && ("smoothing" in steps <==> Wants(config, "smoothing", "method") == Ok(true))
      && ("baseline" in steps <==> Wants(config, "baseline", "method") == Ok(true))
      && ("peak_analysis" in steps <==> Wants(config, "peak_analysis", "threshold") == Ok(true))
  {
    if PipelineSteps(config).Err? {
      var k := PipelineSteps(config).error.key;
      assert k in StepNames && k in config && !config[k].JObj?;
    } else {
      forall key | key in StepNames
        ensures !(key in config && !config[key].JObj?)
      {
        assert key == StepNames[0] || key == StepNames[1] || key == StepNames[2];
      }
      var s, b, p := Wants(config, "smoothing", "method").value, Wants(config, "baseline", "method").value,
                     Wants(config, "peak_analysis", "threshold").value;
      var steps := PipelineSteps(config).value;
      assert "smoothing" != "baseline" && "smoothing" != "peak_analysis" && "baseline" != "peak_analysis";
    }
  }

  /** `ProcessingPipeline`: a configuration and the steps derived from it. */
  class ProcessingPipeline {
    const config: map<string, Json>
    var steps: seq<string>

    ghost predicate Valid()
      reads this
    {
      PipelineSteps(config) == Ok(steps)
    }

    /** `__init__` runs `_build_pipeline`; it raises for the configurations `PipelineSteps` rejects. */
    constructor (config: map<string, Json>)
      requires PipelineSteps(config).Ok?
      ensures this.config == config
      ensures Valid()
    {
      this.config := config;
      steps := [];
      new;
      BuildPipeline();
      ghost var built := PipelineSteps(config);
      assert steps == [] + built.value == built.value;
      assert built == Ok(steps);
    }

    /** `_build_pipeline`: append each wanted step, in the fixed order. */
    method BuildPipeline()
      requires PipelineSteps(config).Ok?
      modifies this
      ensures steps == old(steps) + PipelineSteps(config).value
    {
      var appended: seq<string> := [];
      if Wants(config, "smoothing", "method") == Ok(true) {
        steps := steps + ["smoothing"];
        appended := appended + ["smoothing"];
      }
      if Wants(config, "baseline", "method") == Ok(true) {
        steps := steps + ["baseline"];
        appended := appended + ["baseline"];
      }
      if Wants(config, "peak_analysis", "threshold") == Ok(true) {
        steps := steps + ["peak_analysis"];
        appended := appended + ["peak_analysis"];
      }
      assert appended == PipelineSteps(config).value;
    }

    /** `get_steps`: the steps the configuration asks for. */
    function GetSteps(): (s: seq<string>)
      reads this
      requires Valid()
      ensures PipelineSteps(config) == Ok(s)
    {
      steps
    }

    /** `get_config`: the configuration the pipeline was built from, which rebuilds the same steps. */
    function GetConfig(): (c: map<string, Json>)
      reads this
      requires Valid()
      ensures c == config
      ensures PipelineSteps(c) == Ok(steps)
    {
      config
    }
  }
}
