/**
 * The hardware rules of the system monitor: what the GPU figures say about
 * the machine (`checkGPURequirements`) and which projects it is recommended
 * for (`getRecommendedProjects`). Reading the figures from the host is
 * outside the model; the figures are the input here.
 */
module Monitor {
  import opened Wrappers
  import opened Builtins

  /** A graphics controller: its vendor string and its video memory, rounded as the monitor stores it (absent when unknown). */
  datatype Controller = Controller(vendor: Option<string>, vram: Option<int>)

  datatype GpuInfo = GpuInfo(available: bool, controllers: seq<Controller>)

  /**
   * The figures the recommendations read: total memory in GB, the core count
   * and the GPU section. Each is absent until the first reading of the host
   * completes (the monitor starts from an empty object).
   */
  datatype SystemInfo = SystemInfo(memoryTotal: Option<int>, cpuCores: Option<int>, gpu: Option<GpuInfo>)

  /** The empty object the monitor holds before its first reading. */
  const EmptyInfo := SystemInfo(None, None, None)

  /** `Math.max(...list)`: negative infinity for an empty list, otherwise the largest element. */
  datatype Maximum = MinusInfinity | Finite(n: int)

  /** `total >= k` for a maximum: negative infinity is below every number. */
  predicate AtLeast(total: Maximum, k: int) {
    total.Finite? && total.n >= k
  }

  /** The message of the TypeError thrown when the GPU section is missing. */
  const MissingGpuError := "Cannot read properties of undefined (reading 'available')"

  /** The video memory thresholds, compared with the stored figures as they are (see README). */
  const AiVram := 6000
  const LargeVram := 12000

  /** `g.vendor?.toLowerCase().includes(brand)` */
  predicate MadeBy(c: Controller, brand: string) {
    c.vendor.Some? && Contains(ToLower(c.vendor.value), brand)
  }

  /** `g.vram && g.vram >= k` (a zero figure is falsy and fails the test either way) */
  predicate HasVram(c: Controller, k: int) {
    c.vram.Some? && c.vram.value != 0 && c.vram.value >= k
  }

  /** `g.vram || 0` */
  function VramOrZero(c: Controller): int {
    if c.vram.Some? && c.vram.value != 0 then c.vram.value else 0
  }

  /** `controllers.some(p)` */
  function Any(cs: seq<Controller>, p: Controller -> bool): (b: bool)
    ensures b <==> exists i :: 0 <= i < |cs| && p(cs[i])
  {
    if cs == [] then false
    else if p(cs[0]) then true
    else
      var b := Any(cs[1..], p);
      assert forall i :: 1 <= i < |cs| ==> cs[i] == cs[1..][i - 1];
      b
  }

  /** `Math.max(...controllers.map(g => g.vram || 0))` */
  function MaxVram(cs: seq<Controller>): (m: Maximum)
    ensures m.MinusInfinity? <==> cs == []
    ensures m.Finite? ==> forall i :: 0 <= i < |cs| ==> VramOrZero(cs[i]) <= m.n
    ensures m.Finite? ==> exists i :: 0 <= i < |cs| && VramOrZero(cs[i]) == m.n
  {
    if cs == [] then MinusInfinity
    else
      var rest := MaxVram(cs[1..]);
      assert forall i :: 1 <= i < |cs| ==> cs[i] == cs[1..][i - 1];
      if rest.MinusInfinity? then Finite(VramOrZero(cs[0]))
      else Finite(Max(VramOrZero(cs[0]), rest.n))
  }

  /** The result of `checkGPURequirements`. */
  datatype GpuReport = GpuReport(
    hasGPU: bool,
    hasNVIDIA: bool,
    hasAMD: bool,
    hasVRAM: bool,
    totalVRAM: Maximum,
    suitableForAI: bool)

  /**
   * `checkGPURequirements()`: a missing GPU section throws; otherwise each
   * flag says whether some controller passes its test, and a machine is
   * suitable for AI when a single controller is both NVIDIA and large enough.
   */
  function GpuRequirements(gpu: Option<GpuInfo>): (r: Result<GpuReport, string>)
    ensures r.Err? <==> gpu.None?
    ensures r.Err? ==> r.error == MissingGpuError
    ensures r.Ok? ==>
      var cs := gpu.value.controllers;
      && r.value.hasGPU == gpu.value.available
      && (r.value.hasNVIDIA <==> exists i :: 0 <= i < |cs| && MadeBy(cs[i], "nvidia"))
      && (r.value.hasAMD <==> exists i :: 0 <= i < |cs| && MadeBy(cs[i], "amd"))
      && (r.value.hasVRAM <==> exists i :: 0 <= i < |cs| && HasVram(cs[i], AiVram))
      && (r.value.suitableForAI <==> exists i :: 0 <= i < |cs| && HasVram(cs[i], AiVram) && MadeBy(cs[i], "nvidia"))
      && (r.value.suitableForAI ==> r.value.hasNVIDIA && r.value.hasVRAM)
      && (r.value.totalVRAM.MinusInfinity? <==> cs == [])
      && (r.value.totalVRAM.Finite? ==>
            && (forall i :: 0 <= i < |cs| ==> VramOrZero(cs[i]) <= r.value.totalVRAM.n)
            && (exists i :: 0 <= i < |cs| && VramOrZero(cs[i]) == r.value.totalVRAM.n))
  {
    match gpu
    case None => Err(MissingGpuError)
    case Some(g) =>
      var cs := g.controllers;
      Ok(GpuReport(
        hasGPU := g.available,
        hasNVIDIA := Any(cs, c => MadeBy(c, "nvidia")),
        hasAMD := Any(cs, c => MadeBy(c, "amd")),
        hasVRAM := Any(cs, c => HasVram(c, AiVram)),
        totalVRAM := MaxVram(cs),
        suitableForAI := Any(cs, c => HasVram(c, AiVram) && MadeBy(c, "nvidia"))))
  }

  /**
   * For a positive threshold, the largest figure reaches it exactly when some
   * controller's figure does: `hasVRAM` and `totalVRAM >= 6000` agree.
   */
  lemma MaxVramAtLeast(cs: seq<Controller>, k: int)
    requires k > 0
    ensures AtLeast(MaxVram(cs), k) <==> exists i :: 0 <= i < |cs| && HasVram(cs[i], k)
  {
    var m := MaxVram(cs);
    if AtLeast(m, k) {
      var i :| 0 <= i < |cs| && VramOrZero(cs[i]) == m.n;
      assert HasVram(cs[i], k);
    }
    if i :| 0 <= i < |cs| && HasVram(cs[i], k) {
      assert VramOrZero(cs[i]) <= m.n;
    }
  }

  /** The four recommendation lists. */
  datatype Recommendations = Recommendations(
    lowGPU: seq<string>,
    configurableGPU: seq<string>,
    highGPU: seq<string>,
    notSuitable: seq<string>)

  const LowGpuProjects: seq<string> := ["video-text-editor", "penpot", "open-cut", "sisgec"]
  const ConfigurableGpuProjects: seq<string> := ["biniou"]
  const AssistantProjects: seq<string> := ["fauxpilot"]
  const LargeModelProjects: seq<string> := ["vace", "profitpilot"]
  const NotSuitableProjects: seq<string> := ["vace", "fauxpilot"]

  /** `this.currentInfo.memory?.total || 0` */
  function MemoryGB(info: SystemInfo): int {
    if info.memoryTotal.Some? && info.memoryTotal.value != 0 then info.memoryTotal.value else 0
  }

  /** `this.currentInfo.cpu?.cores || 1` */
  function CoreCount(info: SystemInfo): int {
    if info.cpuCores.Some? && info.cpuCores.value != 0 then info.cpuCores.value else 1
  }

  /** Whether the machine is good enough for the projects that need no GPU. */
  predicate EverydayMachine(info: SystemInfo) {
    MemoryGB(info) >= 8 && CoreCount(info) >= 4
  }

  /** Whether the machine is too small for the GPU projects. */
  predicate SmallMachine(info: SystemInfo) {
    MemoryGB(info) < 8 || CoreCount(info) < 2
  }

  /**
   * What `getRecommendedProjects` answers, list by list: each list is its
   * tier's projects when the machine meets the tier's rule, and empty
   * otherwise; the GPU tier holds the assistant and then the large models.
   */
  function Recommend(info: SystemInfo): (r: Result<Recommendations, string>)
    ensures r.Err? <==> info.gpu.None?
    ensures r.Err? ==> r.error == MissingGpuError
  {
    match GpuRequirements(info.gpu)
    case Err(e) => Err(e)
    case Ok(report) =>
      Ok(Recommendations(
        lowGPU := if EverydayMachine(info) then LowGpuProjects else [],
        configurableGPU := if EverydayMachine(info) then ConfigurableGpuProjects else [],
        highGPU :=
          (if report.hasNVIDIA && AtLeast(report.totalVRAM, AiVram) then AssistantProjects else [])
          + (if AtLeast(report.totalVRAM, LargeVram) && MemoryGB(info) >= 32 then LargeModelProjects else []),
        notSuitable := if SmallMachine(info) then NotSuitableProjects else []))
  }

  /**
   * The recommendations in terms of the controllers: the assistant is
   * recommended when some controller is NVIDIA and some controller (not
   * necessarily the same) has 6000 or more; the large models when some
   * controller has 12000 or more and there are 32 GB; the everyday projects
   * when there are 8 GB and 4 cores; and the warning when there are fewer
   * than 8 GB or 2 cores.
   */
  lemma RecommendByController(info: SystemInfo)
    requires info.gpu.Some?
    ensures var cs := info.gpu.value.controllers;
      var rec := Recommend(info).value;
      && ("fauxpilot" in rec.highGPU <==>
            (exists i :: 0 <= i < |cs| && MadeBy(cs[i], "nvidia")) && (exists i :: 0 <= i < |cs| && HasVram(cs[i], AiVram)))
      && ("profitpilot" in rec.highGPU <==> (exists i :: 0 <= i < |cs| && HasVram(cs[i], LargeVram)) && MemoryGB(info) >= 32)
      && ("vace" in rec.highGPU <==> "profitpilot" in rec.highGPU)
      && (rec.lowGPU != [] <==> MemoryGB(info) >= 8 && CoreCount(info) >= 4)
      && (rec.configurableGPU != [] <==> rec.lowGPU != [])
      && (rec.notSuitable != [] <==> MemoryGB(info) < 8 || CoreCount(info) < 2)
  {
    var cs := info.gpu.value.controllers;
    MaxVramAtLeast(cs, AiVram);
    MaxVramAtLeast(cs, LargeVram);
  }

  /**
   * The tiers are consistent: a machine warned against the GPU projects gets
   * no everyday recommendation, and the GPU tier lists the assistant before
   * the large models, each at most once.
   */
  lemma RecommendTiersConsistent(info: SystemInfo)
    requires info.gpu.Some?
    ensures var rec := Recommend(info).value;
      && (rec.notSuitable != [] ==> rec.lowGPU == [] && rec.configurableGPU == [])
      && (rec.lowGPU != [] ==> rec.notSuitable == [])
      && |rec.highGPU| <= 3
      && (|rec.highGPU| == 3 ==> rec.highGPU == ["fauxpilot", "vace", "profitpilot"])
  {
  }

  /**
   * The assistant is recommended on a machine that is not suitable for AI:
   * an NVIDIA card with little memory next to another vendor's large card.
   */
  lemma AssistantWithoutSuitableGpu()
    ensures var gpu := GpuInfo(true, [Controller(Some("NVIDIA"), Some(2)), Controller(Some("AMD"), Some(8000))]);
      var info := SystemInfo(Some(16), Some(8), Some(gpu));
      && !GpuRequirements(info.gpu).value.suitableForAI
      && Recommend(info).value.highGPU == ["fauxpilot"]
  {
    var cs := [Controller(Some("NVIDIA"), Some(2)), Controller(Some("AMD"), Some(8000))];
    var nvidia := ToLower("NVIDIA");
    assert nvidia == "nvidia";
    assert OccursAt(nvidia, "nvidia", 0);
    assert MadeBy(cs[0], "nvidia");
    assert HasVram(cs[1], AiVram);
    assert !MadeBy(cs[1], "nvidia") by {
      var amd := ToLower("AMD");
      assert amd == "amd";
      assert |amd| < |"nvidia"|;
    }
    MaxVramAtLeast(cs, LargeVram);
  }

  /**
   * A machine can be told both to use the assistant and that it is not
   * suitable for it: the warning looks at memory and cores, the GPU tier at
   * the card.
   */
  lemma AssistantAndWarningTogether()
    ensures var info := SystemInfo(Some(4), Some(8), Some(GpuInfo(true, [Controller(Some("nvidia"), Some(8000))])));
      var rec := Recommend(info).value;
      "fauxpilot" in rec.highGPU && "fauxpilot" in rec.notSuitable
  {
    var c := Controller(Some("nvidia"), Some(8000));
    assert ToLower("nvidia") == "nvidia";
    assert OccursAt("nvidia", "nvidia", 0);
    assert MadeBy(c, "nvidia");
    MaxVramAtLeast([c], AiVram);
    assert HasVram([c][0], AiVram);
  }

  /**
   * The monitor of the machine: the figures of its last reading, from which
   * it answers the GPU checks and the recommendations.
   */
  class SystemMonitor {
    var currentInfo: SystemInfo

    /** `constructor()`: the figures start empty; the first reading is `InitializeMonitoring`. */
    constructor()
      ensures currentInfo == EmptyInfo
    {
      currentInfo := EmptyInfo;
    }

    /**
     * `initializeMonitoring()`: a successful reading replaces the figures; a
     * failed one keeps the figures held so far.
     */
    method InitializeMonitoring(reading: Result<SystemInfo, string>)
      modifies this
      ensures reading.Ok? ==> currentInfo == reading.value
      ensures reading.Err? ==> currentInfo == old(currentInfo)
    {
      if reading.Ok? {
        currentInfo := reading.value;
      }
    }

    /**
     * `getRecommendedProjects()`: the four lists built by pushing each tier's
     * projects when its rule holds, or the error of the GPU check.
     */
    method GetRecommendedProjects() returns (r: Result<Recommendations, string>)
      ensures r == Recommend(currentInfo)
    {
      var gpuInfo := GpuRequirements(currentInfo.gpu);
      if gpuInfo.Err? {
        return Err(gpuInfo.error);
      }
      var report := gpuInfo.value;
      var memGB := MemoryGB(currentInfo);
      var cpuCores := CoreCount(currentInfo);
      var lowGPU: seq<string> := [];
      var configurableGPU: seq<string> := [];
      var highGPU: seq<string> := [];
      var notSuitable: seq<string> := [];
      if memGB >= 8 && cpuCores >= 4 {
        lowGPU := lowGPU + ["video-text-editor", "penpot", "open-cut", "sisgec"];
        configurableGPU := configurableGPU + ["biniou"];
      }
      if report.hasNVIDIA && AtLeast(report.totalVRAM, 6000) {
        highGPU := highGPU + ["fauxpilot"];
      }
      if AtLeast(report.totalVRAM, 12000) && memGB >= 32 {
        highGPU := highGPU + ["vace", "profitpilot"];
      }
      if memGB < 8 || cpuCores < 2 {
        notSuitable := notSuitable + ["vace", "fauxpilot"];
      }
      var rec := Recommend(currentInfo).value;
      assert rec.lowGPU == lowGPU;
      assert rec.configurableGPU == configurableGPU;
      assert rec.highGPU == highGPU;
      assert rec.notSuitable == notSuitable;
      return Ok(Recommendations(lowGPU, configurableGPU, highGPU, notSuitable));
    }
  }
}
