/** The device optimizer: a configuration chosen from the device's memory,
    its GPU flag and the quality preference, a closed-form performance
    estimate for it, and advisory recommendations. */
module Optimizer {
  import opened Wrappers

  // ---------------------------------------------------------------------------
  // Data model
  // ---------------------------------------------------------------------------

  datatype Precision = Float32 | Int8

  datatype EnhancementLevel = Low | Medium | High

  datatype Acceleration = Cpu | Gpu

  datatype TargetSize = TargetSize(width: nat, height: nat)

  /** The optimized configuration the service returns. */
  datatype Config = Config(
    modelPrecision: Precision,
    batchSize: nat,
    targetSize: TargetSize,
    enhancementLevel: EnhancementLevel,
    cacheEnabled: bool,
    acceleration: Acceleration)

  /** The fields of the device description the optimizer reads and uses
      (memory in GB and the GPU flag); either may be missing. */
  datatype DeviceInfo = DeviceInfo(memory: Option<real>, gpu: Option<bool>)

  /** Memory in GB, 4 when the device does not say. */
  function MemoryGb(device: DeviceInfo): real {
    device.memory.GetOr(4.0)
  }

  /** The GPU flag, false when the device does not say. */
  function HasGpu(device: DeviceInfo): bool {
    device.gpu.GetOr(false)
  }

  datatype Performance = Performance(
    expectedFps: real,
    expectedLatency: real,
    expectedAccuracy: real,
    memoryUsageMb: real)

  datatype Recommendation = CloseOtherApplications | ImageQualityReduced | GpuWouldHelp

  datatype Optimization = Optimization(
    config: Config,
    performance: Performance,
    recommendations: seq<Recommendation>)

  // ---------------------------------------------------------------------------
  // The decision table
  // ---------------------------------------------------------------------------

  /** Side lengths the optimizer can choose. */
  const SupportedSizes: set<nat> := {320, 416, 640, 832, 1024}

  /** Reference definition of the optimized configuration, field by field. */
  function Profile(device: DeviceInfo, quality: string): (c: Config)
    ensures c.targetSize.width in SupportedSizes && c.targetSize.height == c.targetSize.width
    ensures c.batchSize in {1, 2} && c.cacheEnabled
  {
    var memory := MemoryGb(device);
    var side :=
      if quality == "fast" then 320
      else if quality == "accurate" then 1024
      else if memory < 2.0 then 416
      else if memory >= 8.0 then 832
      else 640;
    var precision :=
      if quality == "fast" then Int8
      else if quality == "accurate" then Float32
      else if memory < 2.0 then Int8
      else Float32;
    var enhancement :=
      if quality == "fast" then Low
      else if quality == "accurate" then High
      else if memory < 2.0 then Low
      else if memory >= 8.0 then High
      else Medium;
    Config(
      precision,
      if memory >= 8.0 then 2 else 1,
      TargetSize(side, side),
      enhancement,
      true,
      if HasGpu(device) then Gpu else Cpu)
  }

  /** `fast` always gives 320 pixels at int8, whatever the device; the batch
      size still follows memory. */
  lemma FastProfile(device: DeviceInfo)
    ensures var c := Profile(device, "fast");
      && c.targetSize == TargetSize(320, 320) && c.modelPrecision == Int8 && c.enhancementLevel == Low
      && c.batchSize == if MemoryGb(device) >= 8.0 then 2 else 1
  {
  }

  /** `accurate` always gives 1024 pixels at float32, whatever the device; the
      batch size still follows memory. */
  lemma AccurateProfile(device: DeviceInfo)
    ensures var c := Profile(device, "accurate");
      && c.targetSize == TargetSize(1024, 1024) && c.modelPrecision == Float32 && c.enhancementLevel == High
      && c.batchSize == if MemoryGb(device) >= 8.0 then 2 else 1
  {
  }

  /** Any other preference follows the memory tier alone. */
  lemma BalancedProfile(device: DeviceInfo, quality: string)
    requires quality != "fast" && quality != "accurate"
    ensures var c := Profile(device, quality);
      && (MemoryGb(device) < 2.0 ==>
            && c.targetSize == TargetSize(416, 416) && c.modelPrecision == Int8
            && c.batchSize == 1 && c.enhancementLevel == Low)
      && (MemoryGb(device) >= 8.0 ==>
            && c.targetSize == TargetSize(832, 832) && c.modelPrecision == Float32
            && c.batchSize == 2 && c.enhancementLevel == High)
      && (2.0 <= MemoryGb(device) < 8.0 ==>
            && c.targetSize == TargetSize(640, 640) && c.modelPrecision == Float32
            && c.batchSize == 1 && c.enhancementLevel == Medium)
  {
  }

  /** A device that reports neither memory nor a GPU is treated as 4 GB without
      a GPU: under `balanced` it gets the default configuration on the CPU. */
  lemma MissingFieldsDefault(quality: string)
    requires quality != "fast" && quality != "accurate"
    ensures Profile(DeviceInfo(None, None), quality) == Config(Float32, 1, TargetSize(640, 640), Medium, true, Cpu)
    ensures Advice(Profile(DeviceInfo(None, None), quality), MemoryGb(DeviceInfo(None, None))) == [GpuWouldHelp]
  {
    AdviceUnfolded(Profile(DeviceInfo(None, None), quality), 4.0);
  }

  /** Acceleration is the GPU exactly when the device reports one. */
  lemma AccelerationFollowsGpu(device: DeviceInfo, quality: string)
    ensures Profile(device, quality).acceleration == Gpu <==> device.gpu == Some(true)
  {
  }

  /** More memory never gives a smaller image. */
  lemma SizeGrowsWithMemory(weaker: DeviceInfo, stronger: DeviceInfo, quality: string)
    requires MemoryGb(weaker) <= MemoryGb(stronger)
    ensures Profile(weaker, quality).targetSize.width <= Profile(stronger, quality).targetSize.width
  {
  }

  /** `optimize_for_device`: adjusts a default configuration for the memory
      tier, then the GPU flag, then the quality preference. */
  method OptimizeForDevice(device: DeviceInfo, quality: string) returns (result: Optimization)
    ensures result.config == Profile(device, quality)
    ensures result.performance == PredictPerformance(result.config)
    ensures result.recommendations == Advice(result.config, MemoryGb(device))
  {
    var memoryGb := MemoryGb(device);
    var gpuAvailable := HasGpu(device);

    var config := Config(Float32, 1, TargetSize(640, 640), Medium, true, Cpu);

    if memoryGb < 2.0 {
      config := config.(modelPrecision := Int8, targetSize := TargetSize(416, 416),
                        enhancementLevel := Low, batchSize := 1);
    } else if memoryGb >= 8.0 {
      config := config.(targetSize := TargetSize(832, 832), enhancementLevel := High, batchSize := 2);
    }

    if gpuAvailable {
      config := config.(acceleration := Gpu);
    } else {
      config := config.(acceleration := Cpu);
    }

    if quality == "fast" {
      config := config.(targetSize := TargetSize(320, 320), enhancementLevel := Low, modelPrecision := Int8);
    } else if quality == "accurate" {
      config := config.(targetSize := TargetSize(1024, 1024), enhancementLevel := High, modelPrecision := Float32);
    }

    var expectedPerformance := PredictPerformance(config);
    var recommendations := GenerateRecommendations(config, device);
    result := Optimization(config, expectedPerformance, recommendations);
  }

  // ---------------------------------------------------------------------------
  // Performance estimate
  // ---------------------------------------------------------------------------

  /** Pixel count relative to a 640-pixel-wide image. */
  function SizeFactor(width: nat): real {
    (width as real / 640.0) * (width as real / 640.0)
  }

  /** `predict_performance`: base figures scaled by the image size, then by
      int8 precision and by GPU acceleration. */
  function PredictPerformance(config: Config): (p: Performance)
    requires config.targetSize.width > 0
    ensures p.expectedFps > 0.0 && p.expectedLatency > 0.0 && p.memoryUsageMb > 0.0
    ensures 0.0 < p.expectedAccuracy <= 0.85
  {
    var sizeFactor := SizeFactor(config.targetSize.width);
    var fps := 15.0 / sizeFactor;
    var latency := 200.0 * sizeFactor;
    var int8 := config.modelPrecision == Int8;
    var gpu := config.acceleration == Gpu;
    var fps' := if int8 then fps * 1.5 else fps;
    var latency' := if int8 then latency * 0.7 else latency;
    var accuracy := if int8 then 0.85 * 0.95 else 0.85;
    Performance(
      if gpu then fps' * 2.0 else fps',
      if gpu then latency' * 0.5 else latency',
      accuracy,
      sizeFactor * 150.0)
  }

  lemma SizeFactorMonotone(w1: nat, w2: nat)
    requires 0 < w1 <= w2
    ensures 0.0 < SizeFactor(w1) <= SizeFactor(w2)
  {
    var a, b := w1 as real / 640.0, w2 as real / 640.0;
    assert 0.0 < a <= b;
    assert a * a <= a * b <= b * b;
  }

  /** For fixed precision and acceleration, a larger image never lowers the
      predicted latency or memory and never raises the predicted frame rate. */
  lemma PerformanceMonotoneInSize(c1: Config, c2: Config)
    requires c1.modelPrecision == c2.modelPrecision && c1.acceleration == c2.acceleration
    requires 0 < c1.targetSize.width <= c2.targetSize.width
    ensures PredictPerformance(c1).expectedLatency <= PredictPerformance(c2).expectedLatency
    ensures PredictPerformance(c1).memoryUsageMb <= PredictPerformance(c2).memoryUsageMb
    ensures PredictPerformance(c1).expectedFps >= PredictPerformance(c2).expectedFps
  {
    var s1, s2 := SizeFactor(c1.targetSize.width), SizeFactor(c2.targetSize.width);
    SizeFactorMonotone(c1.targetSize.width, c2.targetSize.width);
    assert 15.0 / s2 <= 15.0 / s1 by {
      assert (15.0 / s2) * s1 <= (15.0 / s2) * s2;
    }
  }

  /** Int8 precision cuts the predicted latency to 70 per cent and the
      accuracy to 95 per cent, and raises the frame rate by half. */
  lemma Int8Speedup(c: Config)
    requires c.targetSize.width > 0 && c.modelPrecision == Float32
    ensures var p, q := PredictPerformance(c), PredictPerformance(c.(modelPrecision := Int8));
      && q.expectedLatency == 0.7 * p.expectedLatency < p.expectedLatency
      && q.expectedFps == 1.5 * p.expectedFps
      && q.expectedAccuracy == 0.95 * p.expectedAccuracy
  {
  }

  /** The GPU halves the predicted latency and doubles the frame rate. */
  lemma GpuSpeedup(c: Config)
    requires c.targetSize.width > 0 && c.acceleration == Cpu
    ensures var p, q := PredictPerformance(c), PredictPerformance(c.(acceleration := Gpu));
      && q.expectedLatency == 0.5 * p.expectedLatency < p.expectedLatency
      && q.expectedFps == 2.0 * p.expectedFps
      && q.expectedAccuracy == p.expectedAccuracy
  {
  }

  /** The reference point: 640 pixels at float32 on the CPU is 15 fps, 200 ms,
      0.85 accuracy and 150 MB. */
  lemma ReferencePerformance(c: Config)
    requires c.targetSize.width == 640 && c.modelPrecision == Float32 && c.acceleration == Cpu
    ensures PredictPerformance(c) == Performance(15.0, 200.0, 0.85, 150.0)
  {
  }

  /** On the code's decision table more memory means a larger image, so the
      predicted latency grows (or stays equal) with memory. */
  lemma LatencyGrowsWithMemory(weaker: DeviceInfo, stronger: DeviceInfo, quality: string)
    requires MemoryGb(weaker) <= MemoryGb(stronger) && HasGpu(weaker) == HasGpu(stronger)
    ensures PredictPerformance(Profile(weaker, quality)).expectedLatency
         <= PredictPerformance(Profile(stronger, quality)).expectedLatency
  {
    var c1, c2 := Profile(weaker, quality), Profile(stronger, quality);
    if c1.modelPrecision == c2.modelPrecision {
      PerformanceMonotoneInSize(c1, c2);
    } else {
      // Only the low-memory tier of a balanced request runs at int8: 416 pixels
      // at 70 per cent stays below 640 or 832 pixels at full latency.
      assert c1.targetSize.width == 416 && c1.modelPrecision == Int8;
      SizeFactorMonotone(640, c2.targetSize.width);
      assert SizeFactor(416) * 0.7 < SizeFactor(640);
    }
  }

  // ---------------------------------------------------------------------------
  // Recommendations
  // ---------------------------------------------------------------------------

  /** The order in which recommendations are emitted. */
  const AdviceOrder: seq<Recommendation> := [CloseOtherApplications, ImageQualityReduced, GpuWouldHelp]

  /** The condition under which each recommendation is given. */
  predicate Applies(r: Recommendation, config: Config, memoryGb: real) {
    match r
    case CloseOtherApplications => memoryGb < 2.0
    case ImageQualityReduced => config.targetSize.width < 640
    case GpuWouldHelp => config.acceleration == Cpu
  }

  function SelectAdvice(rs: seq<Recommendation>, config: Config, memoryGb: real): seq<Recommendation> {
    if rs == [] then []
    else (if Applies(rs[0], config, memoryGb) then [rs[0]] else []) + SelectAdvice(rs[1..], config, memoryGb)
  }

  /** Reference definition of the recommendations: those that apply, in emission order. */
  function Advice(config: Config, memoryGb: real): seq<Recommendation> {
    SelectAdvice(AdviceOrder, config, memoryGb)
  }

  /** The three conditions tested one after the other. */
  lemma AdviceUnfolded(config: Config, memoryGb: real)
    ensures Advice(config, memoryGb) ==
      (if memoryGb < 2.0 then [CloseOtherApplications] else []) +
      (if config.targetSize.width < 640 then [ImageQualityReduced] else []) +
      (if config.acceleration == Cpu then [GpuWouldHelp] else [])
  {
    var b, c := ImageQualityReduced, GpuWouldHelp;
    assert AdviceOrder[1..] == [b, c] && [b, c][1..] == [c] && [c][1..] == [];
    assert SelectAdvice([c], config, memoryGb) == (if Applies(c, config, memoryGb) then [c] else []);
    assert SelectAdvice([b, c], config, memoryGb) ==
      (if Applies(b, config, memoryGb) then [b] else []) + SelectAdvice([c], config, memoryGb);
  }

  /** Each recommendation is given exactly when its condition holds, at most once. */
  lemma AdviceExactly(config: Config, memoryGb: real)
    ensures forall r :: r in Advice(config, memoryGb) <==> Applies(r, config, memoryGb)
    ensures |Advice(config, memoryGb)| <= 3
    ensures forall i, j :: 0 <= i < j < |Advice(config, memoryGb)| ==>
      Advice(config, memoryGb)[i] != Advice(config, memoryGb)[j]
  {
    AdviceUnfolded(config, memoryGb);
  }

  /** `generate_recommendations`: appends each advisory note whose condition holds. */
  method GenerateRecommendations(config: Config, device: DeviceInfo) returns (recommendations: seq<Recommendation>)
    ensures recommendations == Advice(config, MemoryGb(device))
  {
    recommendations := [];
    if MemoryGb(device) < 2.0 {
      recommendations := recommendations + [CloseOtherApplications];
    }
    if config.targetSize.width < 640 {
      recommendations := recommendations + [ImageQualityReduced];
    }
    if config.acceleration == Cpu {
      recommendations := recommendations + [GpuWouldHelp];
    }
    AdviceUnfolded(config, MemoryGb(device));
  }

  /** For an optimized configuration: the "quality reduced" note appears
      exactly for `fast`, or for a low-memory device not asking for `accurate`;
      the GPU note exactly when the device has no GPU. */
  lemma OptimizedAdvice(device: DeviceInfo, quality: string)
    ensures var advice := Advice(Profile(device, quality), MemoryGb(device));
      && (ImageQualityReduced in advice <==>
            quality == "fast" || (quality != "accurate" && MemoryGb(device) < 2.0))
      && (GpuWouldHelp in advice <==> !HasGpu(device))
      && (CloseOtherApplications in advice <==> MemoryGb(device) < 2.0)
  {
    AdviceExactly(Profile(device, quality), MemoryGb(device));
  }

  /** A device with 1 GB and no GPU flag, asking for `balanced`: 416 pixels at
      int8 on the CPU, with all three notes. */
  lemma LowEndScenario()
    ensures var device := DeviceInfo(Some(1.0), None);
      var c := Profile(device, "balanced");
      && c == Config(Int8, 1, TargetSize(416, 416), Low, true, Cpu)
      && Advice(c, MemoryGb(device)) == AdviceOrder
  {
  }
}
