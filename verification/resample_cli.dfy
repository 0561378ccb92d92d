/**
 * The parameter shaping of the `resample` command: copying the YAML
 * configuration into `params` with every value passed through `eval`, then
 * splitting the optional `array` section into the raw-file attributes and
 * the HDF5 dataset name, and collecting the reader's arguments.
 *
 * Loading the YAML file, validating it against the schema (a failure is
 * only printed) and running the reader and writer are not modelled. `eval`
 * is an opaque partial function: `None` stands for any exception it raises.
 */
module ResampleCli {
  import opened Wrappers

  /** The value stored for `value`: its evaluation, or the value itself when
      evaluating it raises. */
  function EvalOrKeep<V>(eval: V -> Option<V>, value: V): V
  {
    match eval(value)
    case Some(evaluated) => evaluated
    case None => value
  }

  /** The params loop: every section and every key of the loaded YAML, with
      each value replaced by its evaluation where that succeeds. */
  method CopyParams<V>(raw: map<string, map<string, V>>, eval: V -> Option<V>)
    returns (params: map<string, map<string, V>>)
    ensures params.Keys == raw.Keys
    ensures forall key :: key in raw ==> params[key].Keys == raw[key].Keys
    ensures forall key, subKey :: key in raw && subKey in raw[key] ==>
      params[key][subKey] == EvalOrKeep(eval, raw[key][subKey])
  {
    params := map[];
    var keys := raw.Keys;
    while keys != {}
      invariant keys <= raw.Keys
      invariant params.Keys == raw.Keys - keys
      invariant forall key :: key in params ==> params[key].Keys == raw[key].Keys
      invariant forall key, subKey :: key in params && subKey in raw[key] ==>
        params[key][subKey] == EvalOrKeep(eval, raw[key][subKey])
      decreases keys
    {
      var key :| key in keys;
      var section := raw[key];
      var copied: map<string, V> := map[];
      var subKeys := section.Keys;
      while subKeys != {}
        invariant subKeys <= section.Keys
        invariant copied.Keys == section.Keys - subKeys
        invariant forall subKey :: subKey in copied ==> copied[subKey] == EvalOrKeep(eval, section[subKey])
        decreases subKeys
      {
        var subKey :| subKey in subKeys;
        copied := copied[subKey := EvalOrKeep(eval, section[subKey])];
        subKeys := subKeys - {subKey};
      }
      params := params[key := copied];
      keys := keys - {key};
    }
  }

  /** A Python name after the `array` branch: never assigned, or bound to a
      value (`None` is Python's `None`). */
  datatype Binding<V> = Unbound | Bound(value: Option<V>)

  /** The `array` split: with an `array` section, `raw_attrs` holds all its
      entries but `dataset_name`, and `dataset_name` is bound only when the
      section has that entry; without one, both are `None`. */
  method SplitArraySection<V>(params: map<string, map<string, V>>)
    returns (rawAttrs: Option<map<string, V>>, datasetName: Binding<V>)
    ensures "array" !in params ==> rawAttrs == None && datasetName == Bound(None)
    ensures "array" in params ==> rawAttrs.Some?
    ensures "array" in params ==> var section := params["array"];
      && rawAttrs.value.Keys == section.Keys - {"dataset_name"}
      && (forall key :: key in rawAttrs.value ==> rawAttrs.value[key] == section[key])
      && ("dataset_name" in section ==> datasetName == Bound(Some(section["dataset_name"])))
      && ("dataset_name" !in section ==> datasetName == Unbound)
    ensures "array" in params ==> var section := params["array"];
      && ("dataset_name" in section ==> rawAttrs.value["dataset_name" := section["dataset_name"]] == section)
      && ("dataset_name" !in section ==> rawAttrs.value == section)
  {
    if "array" in params {
      var section := params["array"];
      var attrs: map<string, V> := map[];
      datasetName := Unbound;
      var keys := section.Keys;
      while keys != {}
        invariant keys <= section.Keys
        invariant attrs.Keys == section.Keys - keys - {"dataset_name"}
        invariant forall key :: key in attrs ==> attrs[key] == section[key]
        invariant "dataset_name" in section - keys ==> datasetName == Bound(Some(section["dataset_name"]))
        invariant "dataset_name" !in section - keys ==> datasetName == Unbound
        decreases keys
      {
        var key :| key in keys;
        if key == "dataset_name" {
          datasetName := Bound(Some(section[key]));
        } else {
          attrs := attrs[key := section[key]];
        }
        keys := keys - {key};
      }
      rawAttrs := Some(attrs);
    } else {
      rawAttrs := None;
      datasetName := Bound(None);
    }
  }

  /** The arguments `main` passes to the image reader. */
  datatype ReaderArgs<V> = ReaderArgs(targetSize: V, resampleZ: V, rawImageAttrs: Option<map<string, V>>, hdf5DatasetName: Option<V>)

  /** The exceptions raised while the reader's arguments are evaluated: a
      missing key (`KeyError`) or an unbound `dataset_name` (`NameError`). */
  datatype CliError = MissingKey(path: seq<string>) | UnboundDatasetName

  /** `main` from the loaded YAML to the reader's arguments, evaluated left
      to right as Python evaluates keyword arguments. */
  method ReaderArguments<V>(raw: map<string, map<string, V>>, eval: V -> Option<V>)
    returns (r: Result<ReaderArgs<V>, CliError>)
    ensures "resample" !in raw ==> r == Failure(MissingKey(["resample"]))
    ensures "resample" in raw && "target_size" !in raw["resample"] ==> r == Failure(MissingKey(["resample", "target_size"]))
    ensures "resample" in raw && "target_size" in raw["resample"] && "resample_z" !in raw["resample"] ==>
      r == Failure(MissingKey(["resample", "resample_z"]))
    ensures ("resample" in raw && "target_size" in raw["resample"] && "resample_z" in raw["resample"]
             && "array" in raw && "dataset_name" !in raw["array"]) ==> r == Failure(UnboundDatasetName)
    ensures r.Success? <==>
      && "resample" in raw && "target_size" in raw["resample"] && "resample_z" in raw["resample"]
      && ("array" in raw ==> "dataset_name" in raw["array"])
    ensures r.Success? ==>
      && r.value.targetSize == EvalOrKeep(eval, raw["resample"]["target_size"])
      && r.value.resampleZ == EvalOrKeep(eval, raw["resample"]["resample_z"])
      && ("array" !in raw ==> r.value.rawImageAttrs == None && r.value.hdf5DatasetName == None)
      && ("array" in raw ==>
            && r.value.rawImageAttrs.Some?
            && r.value.rawImageAttrs.value.Keys == raw["array"].Keys - {"dataset_name"}
            && (forall key :: key in r.value.rawImageAttrs.value ==>
                  r.value.rawImageAttrs.value[key] == EvalOrKeep(eval, raw["array"][key]))
            && r.value.hdf5DatasetName == Some(EvalOrKeep(eval, raw["array"]["dataset_name"])))
  {
    var params := CopyParams(raw, eval);
    var rawAttrs, datasetName := SplitArraySection(params);
    if "resample" !in params {
      return Failure(MissingKey(["resample"]));
    }
    if "target_size" !in params["resample"] {
      return Failure(MissingKey(["resample", "target_size"]));
    }
    var targetSize := params["resample"]["target_size"];
    if "resample_z" !in params["resample"] {
      return Failure(MissingKey(["resample", "resample_z"]));
    }
    var resampleZ := params["resample"]["resample_z"];
    if datasetName.Unbound? {
      return Failure(UnboundDatasetName);
    }
    r := Success(ReaderArgs(targetSize, resampleZ, rawAttrs, datasetName.value));
  }

  /** `main` with `dataset_name = None` bound before the `array` loop: an
      `array` section without `dataset_name` (a raw file) then reads with no
      HDF5 dataset name instead of raising. */
  method ReaderArgumentsCorrected<V>(raw: map<string, map<string, V>>, eval: V -> Option<V>)
    returns (r: Result<ReaderArgs<V>, CliError>)
    ensures "resample" !in raw ==> r == Failure(MissingKey(["resample"]))
    ensures "resample" in raw && "target_size" !in raw["resample"] ==> r == Failure(MissingKey(["resample", "target_size"]))
    ensures "resample" in raw && "target_size" in raw["resample"] && "resample_z" !in raw["resample"] ==>
      r == Failure(MissingKey(["resample", "resample_z"]))
    ensures r.Success? <==> "resample" in raw && "target_size" in raw["resample"] && "resample_z" in raw["resample"]
    ensures r.Success? ==>
      && r.value.targetSize == EvalOrKeep(eval, raw["resample"]["target_size"])
      && r.value.resampleZ == EvalOrKeep(eval, raw["resample"]["resample_z"])
      && ("array" !in raw ==> r.value.rawImageAttrs == None)
      && ("array" in raw ==>
            && r.value.rawImageAttrs.Some?
            && r.value.rawImageAttrs.value.Keys == raw["array"].Keys - {"dataset_name"}
            && (forall key :: key in r.value.rawImageAttrs.value ==>
                  r.value.rawImageAttrs.value[key] == EvalOrKeep(eval, raw["array"][key])))
      && (if "array" in raw && "dataset_name" in raw["array"]
          then r.value.hdf5DatasetName == Some(EvalOrKeep(eval, raw["array"]["dataset_name"]))
          else r.value.hdf5DatasetName == None)
  {
    var params := CopyParams(raw, eval);
    var rawAttrs, datasetName := SplitArraySection(params);
    if datasetName.Unbound? {
      datasetName := Bound(None);
    }
    if "resample" !in params {
      return Failure(MissingKey(["resample"]));
    }
    if "target_size" !in params["resample"] {
      return Failure(MissingKey(["resample", "target_size"]));
    }
    var targetSize := params["resample"]["target_size"];
    if "resample_z" !in params["resample"] {
      return Failure(MissingKey(["resample", "resample_z"]));
    }
    var resampleZ := params["resample"]["resample_z"];
    r := Success(ReaderArgs(targetSize, resampleZ, rawAttrs, datasetName.value));
  }

  /** The configuration the command-line test writes for a raw file: its
      `array` section describes the raw layout and has no `dataset_name`. */
  const RawTestConfig: map<string, map<string, string>> := map[
    "array" := map["shape" := "(5, 10, 6)", "is_fortran" := "False", "is_big_endian" := "False", "typecode" := "float64"],
    "resample" := map["target_size" := "100", "resample_z" := "False"],
    "output" := map["file_name" := "test_raw_out.hdf5", "format" := "hdf5"]
  ]

  /** `main` as written raises `NameError` on the raw test configuration,
      whatever `eval` makes of its values. */
  method RawTestConfigAsWritten(eval: string -> Option<string>) returns (r: Result<ReaderArgs<string>, CliError>)
    ensures r == Failure(UnboundDatasetName)
  {
    r := ReaderArguments(RawTestConfig, eval);
  }

  /** With `dataset_name` bound to `None` first, the raw test configuration
      yields the four raw attributes and no HDF5 dataset name. */
  method RawTestConfigCorrected(eval: string -> Option<string>) returns (r: Result<ReaderArgs<string>, CliError>)
    ensures r.Success?
    ensures r.value.hdf5DatasetName == None
    ensures r.value.rawImageAttrs.Some?
    ensures r.value.rawImageAttrs.value.Keys == {"shape", "is_fortran", "is_big_endian", "typecode"}
  {
    r := ReaderArgumentsCorrected(RawTestConfig, eval);
  }
}
