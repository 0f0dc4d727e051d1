/** The one-shot TensorFlow initialisation of `initialize_tensorflow`: the
    recorded parameters that make every later call a no-op, the thread counts,
    and the choice of visible GPUs. The TensorFlow configuration calls themselves
    are recorded as the choice they would make, not performed. */
module TfInit {
  import opened PyValues
  import opened Strings

  /** The `gpus` argument: None, an int, a comma-separated string or a list of ints. */
  datatype GpuArg = GpusNone | GpusInt(i: int) | GpusStr(s: string) | GpusList(ids: seq<int>)

  /** What the Horovod handle reports about this host. */
  datatype Horovod = Horovod(localSize: int, localRank: nat)

  /** The tuple `(gpus, gpu_memory_limit, allow_parallel_threads, use_horovod)`. */
  datatype InitParams = InitParams(gpus: GpuArg, memoryLimit: Option<int>, allowParallelThreads: bool, useHorovod: bool)

  /** What the GPU configuration does: hide every GPU, or turn on memory growth
      (with the memory limit, if any) on every physical GPU and, when `visible` is
      given, restrict the visible GPUs to those physical indices, in order. */
  datatype DeviceChoice = HideAllGpus | ConfigureGpus(memoryLimit: Option<int>, visible: Option<seq<nat>>)

  /** The warnings a call can emit. */
  datatype Warning = AlreadyInitialized | HorovodDisablesGpus

  /** The thread count passed to both TensorFlow parallelism settings: 0 lets
      TensorFlow choose, 1 makes runs reproducible. */
  function ThreadCount(allowParallelThreads: bool): (n: nat)
    ensures n == 0 <==> allowParallelThreads
    ensures n <= 1
  {
    if allowParallelThreads then 0 else 1
  }

  /** The Horovod step: with Horovod and no `gpus`, this worker takes the GPU of
      its local rank, or none at all (`[-1]`) when there are GPUs but fewer than
      workers on the host. */
  function HorovodGpus(gpus: GpuArg, horovod: Option<Horovod>, deviceCount: nat): (r: GpuArg)
    ensures r != gpus ==> horovod.Some? && gpus.GpusNone?
    ensures horovod.Some? && gpus.GpusNone? ==> r == GpusList([-1]) || r == GpusList([horovod.value.localRank])
  {
    if horovod.Some? && gpus.GpusNone? then
      if 0 < deviceCount < horovod.value.localSize then GpusList([-1]) else GpusList([horovod.value.localRank])
    else gpus
  }

  /** `[int(g) for g in pieces]`; None is the ValueError of a piece that is not an integer. */
  function ParseAll(pieces: seq<string>): (r: Option<seq<int>>)
    ensures r.Some? <==> forall k :: 0 <= k < |pieces| ==> ParseInt(pieces[k]).Some?
    ensures r.Some? ==> |r.value| == |pieces| && forall k :: 0 <= k < |pieces| ==> r.value[k] == ParseInt(pieces[k]).value
  {
    if pieces == [] then Some([])
    else
      var head := ParseInt(pieces[0]);
      var tail := ParseAll(pieces[1..]);
      var r := if head.None? || tail.None? then None else Some([head.value] + tail.value);
      ParsedConsStep(pieces, tail, r);
      r
  }

  /** `r` is the parse of every piece, or None when some piece is not an integer. */
  predicate ParsedAll(pieces: seq<string>, r: Option<seq<int>>) {
    && (r.Some? <==> forall k :: 0 <= k < |pieces| ==> ParseInt(pieces[k]).Some?)
    && (r.Some? ==> |r.value| == |pieces| && forall k :: 0 <= k < |pieces| ==> r.value[k] == ParseInt(pieces[k]).value)
  }

  lemma {:induction false} ParsedConsStep(pieces: seq<string>, tail: Option<seq<int>>, r: Option<seq<int>>)
    requires pieces != [] && ParsedAll(pieces[1..], tail)
    requires var head := ParseInt(pieces[0]);
      r == if head.None? || tail.None? then None else Some([head.value] + tail.value)
    ensures ParsedAll(pieces, r)
  {
    var head := ParseInt(pieces[0]);
    var rest := pieces[1..];
    if head.None? {
      assert !ParseInt(pieces[0]).Some?;
    } else if tail.None? {
      var k :| 0 <= k < |rest| && !ParseInt(rest[k]).Some?;
      assert rest[k] == pieces[k + 1];
    } else {
      forall k | 0 <= k < |pieces|
        ensures ParseInt(pieces[k]).Some? && r.value[k] == ParseInt(pieces[k]).value
      {
        if k > 0 {
          assert pieces[k] == rest[k - 1];
          assert r.value[k] == tail.value[k - 1];
        }
      }
    }
  }

  /** The list of GPU ids a `gpus` argument stands for, after the Horovod step:
      an int is a one-id list, a string is stripped, split on commas and each
      piece parsed; None stays None. A piece that is not an integer is a ValueError. */
  function NormalizedGpus(gpus: GpuArg): (r: Result<Option<seq<int>>>)
    ensures gpus.GpusNone? ==> r == Ok(None)
    ensures gpus.GpusInt? ==> r == Ok(Some([gpus.i]))
    ensures gpus.GpusList? ==> r == Ok(Some(gpus.ids))
    ensures r.Err? ==> r.error == ValueError && gpus.GpusStr?
  {
    match gpus
    case GpusNone => Ok(None)
    case GpusInt(i) => Ok(Some([i]))
    case GpusList(ids) => Ok(Some(ids))
    case GpusStr(s) =>
      var parsed := ParseAll(Split(Strip(s), ","));
      if parsed.None? then Err(ValueError) else Ok(Some(parsed.value))
  }

  /** The comma-separated text of a list of ids. */
  function IdsText(ids: seq<int>): string {
    Join(seq(|ids|, k requires 0 <= k < |ids| => IntToString(ids[k])), ",")
  }

  /** A non-empty list of ids written as `"0,1,2"` is read back as that list. */
  lemma {:induction false} NormalizedGpusOfText(ids: seq<int>)
    requires |ids| > 0
    ensures NormalizedGpus(GpusStr(IdsText(ids))) == Ok(Some(ids))
  {
    var texts := seq(|ids|, k requires 0 <= k < |ids| => IntToString(ids[k]));
    TextSplits(texts);
    ParseAllOfTexts(ids, texts);
  }

  lemma {:induction false} TextSplits(texts: seq<string>)
    requires |texts| > 0
    requires forall k :: 0 <= k < |texts| ==> NoSpace(texts[k]) && ',' !in texts[k]
    ensures Split(Strip(Join(texts, ",")), ",") == texts
  {
    TextHasNoSpace(texts);
    StripOfNoSpace(Join(texts, ","));
    SplitJoin(texts, ',');
  }

  lemma {:induction false} ParseAllOfTexts(ids: seq<int>, texts: seq<string>)
    requires texts == seq(|ids|, k requires 0 <= k < |ids| => IntToString(ids[k]))
    ensures ParseAll(texts) == Some(ids)
  {
    forall k | 0 <= k < |ids| ensures ParseInt(texts[k]) == Some(ids[k]) {
      ParseIntOfIntToString(ids[k]);
    }
    assert ParseAll(texts).Some?;
    assert ParseAll(texts).value == ids;
  }

  /** Joining texts without whitespace gives a text without whitespace. */
  lemma {:induction false} TextHasNoSpace(texts: seq<string>)
    requires forall k :: 0 <= k < |texts| ==> NoSpace(texts[k])
    ensures NoSpace(Join(texts, ","))
    decreases |texts|
  {
    if |texts| > 1 {
      TextHasNoSpace(texts[1..]);
      assert forall k :: 1 <= k < |texts| ==> texts[1..][k - 1] == texts[k];
    }
  }

  /** An empty or blank string names no GPU: `int("")` raises. */
  lemma {:induction false} NormalizedGpusOfBlank(s: string)
    requires !HasNonSpace(s)
    ensures NormalizedGpus(GpusStr(s)) == Err(ValueError)
  {
    var pieces := Split(Strip(s), ",");
    assert Strip(s) == [];
    assert pieces == [[]];
  }

  /** `gpu_devices[g]` with Python's indexing: a negative index counts from the end. */
  function DeviceIndex(g: int, deviceCount: nat): (r: Option<nat>)
    ensures r.Some? <==> -(deviceCount as int) <= g < deviceCount
    ensures r.Some? ==> r.value < deviceCount && (r.value == g || r.value == g + deviceCount)
  {
    if 0 <= g < deviceCount then Some(g)
    else if -(deviceCount as int) <= g < 0 then Some(g + deviceCount)
    else None
  }

  /** `[gpu_devices[g] for g in gpus]`; None is the IndexError of an id out of range. */
  function SelectDevices(ids: seq<int>, deviceCount: nat): (r: Option<seq<nat>>)
    ensures r.Some? <==> forall k :: 0 <= k < |ids| ==> DeviceIndex(ids[k], deviceCount).Some?
    ensures r.Some? ==> |r.value| == |ids| && forall k :: 0 <= k < |ids| ==> r.value[k] == DeviceIndex(ids[k], deviceCount).value
  {
    if ids == [] then Some([])
    else
      var head := DeviceIndex(ids[0], deviceCount);
      var tail := SelectDevices(ids[1..], deviceCount);
      assert forall k :: 1 <= k < |ids| ==> ids[1..][k - 1] == ids[k];
      if head.None? || tail.None? then None else Some([head.value] + tail.value)
  }

  /** The GPU configuration for normalised ids: exactly `[-1]` hides every GPU;
      otherwise memory growth is set on every GPU, and a non-empty id list on a
      host with GPUs selects the visible ones. */
  function ChooseDevices(gpus: Option<seq<int>>, memoryLimit: Option<int>, deviceCount: nat): (r: Result<DeviceChoice>)
    ensures r == Ok(HideAllGpus) <==> gpus == Some([-1])
    ensures r.Err? <==>
      && gpus.Some? && gpus.value != [-1] && |gpus.value| > 0 && deviceCount > 0
      && exists k :: 0 <= k < |gpus.value| && DeviceIndex(gpus.value[k], deviceCount).None?
    ensures r.Err? ==> r.error == IndexError
    ensures r.Ok? && r.value.ConfigureGpus? ==> r.value.memoryLimit == memoryLimit
    ensures r.Ok? && r.value.ConfigureGpus? ==>
      (r.value.visible.Some? <==> gpus.Some? && |gpus.value| > 0 && deviceCount > 0)
    ensures r.Ok? && r.value.ConfigureGpus? && r.value.visible.Some? ==>
      && gpus.Some? && |r.value.visible.value| == |gpus.value|
      && forall k :: 0 <= k < |gpus.value| ==> r.value.visible.value[k] == DeviceIndex(gpus.value[k], deviceCount).value
  {
    if gpus.Some? && |gpus.value| == 1 && gpus.value[0] == -1 then
      assert gpus.value == [-1];
      Ok(HideAllGpus)
    else if gpus.Some? && |gpus.value| > 0 && deviceCount > 0 then
      var selected := SelectDevices(gpus.value, deviceCount);
      if selected.None? then Err(IndexError) else Ok(ConfigureGpus(memoryLimit, Some(selected.value)))
    else Ok(ConfigureGpus(memoryLimit, None))
  }

  /** The state `initialize_tensorflow` works on: the recorded parameters, the
      thread count set on TensorFlow and the GPU configuration made, if any. */
  datatype TfState = TfState(initParams: Option<InitParams>, threads: Option<nat>, devices: Option<DeviceChoice>)

  /** One call of `initialize_tensorflow` on a host with `deviceCount` GPUs: the
      new state, the warnings emitted and whether it raised. An id out of range
      raises only after memory growth, and the memory limit, are set on every GPU. */
  function Initialize(st: TfState, gpus: GpuArg, memoryLimit: Option<int>, allowParallelThreads: bool,
                      horovod: Option<Horovod>, deviceCount: nat): (out: (TfState, seq<Warning>, Result<()>))
    ensures out.2.Err? ==> out.0.initParams == st.initParams && (out.2.error == ValueError || out.2.error == IndexError)
    ensures out.2.Ok? ==> out.0.initParams.Some?
    ensures st.initParams.None? ==> out.0.threads == Some(ThreadCount(allowParallelThreads))
    ensures out.2 == Err(IndexError) ==> out.0.devices == Some(ConfigureGpus(memoryLimit, None))
  {
    var params := InitParams(gpus, memoryLimit, allowParallelThreads, horovod.Some?);
    if st.initParams.Some? then
      (st, if st.initParams.value != params then [AlreadyInitialized] else [], Ok(()))
    else
      var threaded := st.(threads := Some(ThreadCount(allowParallelThreads)));
      var disables := horovod.Some? && gpus.GpusNone? && 0 < deviceCount < horovod.value.localSize;
      var warnings := if disables then [HorovodDisablesGpus] else [];
      var ids := NormalizedGpus(HorovodGpus(gpus, horovod, deviceCount));
      if ids.Err? then (threaded, warnings, Err(ids.error))
      else
        var choice := ChooseDevices(ids.value, memoryLimit, deviceCount);
        if choice.Err? then (threaded.(devices := Some(ConfigureGpus(memoryLimit, None))), warnings, Err(choice.error))
        else (TfState(Some(params), threaded.threads, Some(choice.value)), warnings, Ok(()))
  }

  /** Once parameters are recorded, a call changes nothing and raises nothing,
      and it warns exactly when its parameters differ from the recorded ones. */
  lemma {:induction false} InitializeIsWriteOnce(st: TfState, gpus: GpuArg, memoryLimit: Option<int>, allowParallelThreads: bool,
                              horovod: Option<Horovod>, deviceCount: nat)
    requires st.initParams.Some?
    ensures var out := Initialize(st, gpus, memoryLimit, allowParallelThreads, horovod, deviceCount);
      && out.0 == st && out.2.Ok?
      && (out.1 != [] <==> st.initParams.value != InitParams(gpus, memoryLimit, allowParallelThreads, horovod.Some?))
  {
  }

  /** A first call that returns records its parameters as passed (the `gpus`
      argument before normalisation), sets both thread counts, and makes every
      later call a no-op; one that raises records nothing. */
  lemma {:induction false} FirstInitializeRecords(st: TfState, gpus: GpuArg, memoryLimit: Option<int>, allowParallelThreads: bool,
                               horovod: Option<Horovod>, deviceCount: nat,
                               gpus2: GpuArg, memoryLimit2: Option<int>, allowParallelThreads2: bool,
                               horovod2: Option<Horovod>, deviceCount2: nat)
    requires st.initParams.None?
    ensures var out := Initialize(st, gpus, memoryLimit, allowParallelThreads, horovod, deviceCount);
      && out.0.threads == Some(ThreadCount(allowParallelThreads))
      && (out.2.Ok? ==> out.0.initParams == Some(InitParams(gpus, memoryLimit, allowParallelThreads, horovod.Some?)))
      && (out.2.Err? ==> out.0.initParams.None?)
      && (out.2.Ok? ==> Initialize(out.0, gpus2, memoryLimit2, allowParallelThreads2, horovod2, deviceCount2).0 == out.0)
  {
    var out := Initialize(st, gpus, memoryLimit, allowParallelThreads, horovod, deviceCount);
    var ids := NormalizedGpus(HorovodGpus(gpus, horovod, deviceCount));
    if ids.Ok? && ChooseDevices(ids.value, memoryLimit, deviceCount).Ok? {
      assert out.2.Ok? && out.0.initParams.Some?;
      InitializeIsWriteOnce(out.0, gpus2, memoryLimit2, allowParallelThreads2, horovod2, deviceCount2);
    } else {
      assert out.2.Err? && out.0.initParams.None?;
    }
  }

  /** The devices a first call selects: `[-1]` (given, or chosen for Horovod)
      hides every GPU, and otherwise the normalised ids pick the visible GPUs. */
  lemma {:induction false} FirstInitializeDevices(gpus: GpuArg, memoryLimit: Option<int>, allowParallelThreads: bool,
                               horovod: Option<Horovod>, deviceCount: nat)
    ensures var out := Initialize(TfState(None, None, None), gpus, memoryLimit, allowParallelThreads, horovod, deviceCount);
      var ids := NormalizedGpus(HorovodGpus(gpus, horovod, deviceCount));
      && (out.2.Ok? ==> ids.Ok? && out.0.devices == Some(ChooseDevices(ids.value, memoryLimit, deviceCount).value))
      && (out.2.Ok? ==> (out.0.devices == Some(HideAllGpus) <==> ids.value == Some([-1])))
      && (out.1 == [HorovodDisablesGpus] ==> out.2.Ok? && out.0.devices == Some(HideAllGpus))
  {
  }

  /** With Horovod and no `gpus`, a first call warns that it disables the GPUs
      exactly when the Horovod step chose `[-1]`, and it emits no other warning. */
  lemma {:induction false} HorovodWarnsExactlyWhenHidden(st: TfState, gpus: GpuArg, memoryLimit: Option<int>, allowParallelThreads: bool,
                                      horovod: Option<Horovod>, deviceCount: nat)
    requires st.initParams.None?
    ensures var out := Initialize(st, gpus, memoryLimit, allowParallelThreads, horovod, deviceCount);
      && (out.1 == [] || out.1 == [HorovodDisablesGpus])
      && (out.1 == [HorovodDisablesGpus] <==>
          horovod.Some? && gpus.GpusNone? && HorovodGpus(gpus, horovod, deviceCount) == GpusList([-1]))
  {
  }

  /** The module global `_TF_INIT_PARAMS` and the TensorFlow settings the process has made. */
  class TfRuntime {
    var initParams: Option<InitParams>
    var threads: Option<nat>
    var devices: Option<DeviceChoice>

    constructor ()
      ensures initParams.None? && threads.None? && devices.None?
    {
      initParams := None;
      threads := None;
      devices := None;
    }

    function State(): TfState
      reads this
    {
      TfState(initParams, threads, devices)
    }

    /** `initialize_tensorflow(gpus, gpu_memory_limit, allow_parallel_threads,
        horovod)` on a host with `deviceCount` GPUs; `gpus` is reassigned step by
        step as in the source. */
    method InitializeTensorflow(gpus: GpuArg, memoryLimit: Option<int>, allowParallelThreads: bool,
                                horovod: Option<Horovod>, deviceCount: nat)
      returns (warnings: seq<Warning>, r: Result<()>)
      modifies this
      ensures (State(), warnings, r) == Initialize(old(State()), gpus, memoryLimit, allowParallelThreads, horovod, deviceCount)
    {
      var params := InitParams(gpus, memoryLimit, allowParallelThreads, horovod.Some?);
      warnings := [];
      if initParams.Some? {
        if initParams.value != params {
          warnings := [AlreadyInitialized];
        }
        return warnings, Ok(());
      }
      threads := Some(ThreadCount(allowParallelThreads));
      var current := gpus;
      if horovod.Some? && current.GpusNone? {
        if 0 < deviceCount < horovod.value.localSize {
          warnings := [HorovodDisablesGpus];
          current := GpusList([-1]);
        } else {
          current := GpusList([horovod.value.localRank]);
        }
      }
      var ids: Option<seq<int>>;
      match current {
        case GpusInt(i) =>
          ids := Some([i]);
        case GpusStr(s) =>
          var stripped := Strip(s);
          var parsed := ParseAll(Split(stripped, ","));
          if parsed.None? {
            return warnings, Err(ValueError);
          }
          ids := Some(parsed.value);
        case GpusList(l) =>
          ids := Some(l);
        case GpusNone =>
          ids := None;
      }
      assert Ok(ids) == NormalizedGpus(HorovodGpus(gpus, horovod, deviceCount));
      var choice := ChooseDevices(ids, memoryLimit, deviceCount);
      if choice.Err? {
        devices := Some(ConfigureGpus(memoryLimit, None));
        return warnings, Err(choice.error);
      }
      devices := Some(choice.value);
      SetTfInitParams(params);
      assert State() == TfState(Some(params), Some(ThreadCount(allowParallelThreads)), Some(choice.value));
      return warnings, Ok(());
    }

    /** `_set_tf_init_params(params)`. */
    method SetTfInitParams(params: InitParams)
      modifies this
      ensures initParams == Some(params) && threads == old(threads) && devices == old(devices)
    {
      initParams := Some(params);
    }
  }

  // ---------------------------------------------------------------------------
  // get_available_gpus_cuda_string

  /** The id of a device: the text after the last colon of its name. */
  function DeviceId(name: string): (id: string)
    ensures ':' !in id
    ensures ':' !in name ==> id == name
    ensures ':' in name ==> exists k :: 0 <= k < |name| && name[k] == ':' && id == name[k + 1..]
  {
    LastPiece(name, ':')
  }

  /** `get_available_gpus_cuda_string()` for the GPUs named `deviceNames`: None
      when there are none, otherwise their ids joined by commas. */
  function GetAvailableGpusCudaString(deviceNames: seq<string>): (r: Option<string>)
    ensures r.None? <==> deviceNames == []
  {
    if |deviceNames| == 0 then None
    else Some(Join(seq(|deviceNames|, k requires 0 <= k < |deviceNames| => DeviceId(deviceNames[k])), ","))
  }

  /** Splitting the string on commas gives back each device's id, in order, as
      long as no id holds a comma. */
  lemma {:induction false} CudaStringSplits(deviceNames: seq<string>)
    requires deviceNames != []
    requires forall k :: 0 <= k < |deviceNames| ==> ',' !in DeviceId(deviceNames[k])
    ensures var parts := Split(GetAvailableGpusCudaString(deviceNames).value, ",");
      |parts| == |deviceNames| && forall k :: 0 <= k < |parts| ==> parts[k] == DeviceId(deviceNames[k])
  {
    var ids := seq(|deviceNames|, k requires 0 <= k < |deviceNames| => DeviceId(deviceNames[k]));
    SplitJoin(ids, ',');
  }
}
