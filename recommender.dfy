/**
 * The recommendation engine `recommend_settings`: from a hardware dictionary
 * and a model-profile dictionary to the twelve LM Studio settings.
 */
module Recommender {
  import opened Wrappers
  import opened Strings
  import opened Values
  import opened GoalRules

  /** What Python's `int(...)` makes of the `gpu_memory_mb` entry: a number, or a `ValueError` or `TypeError` it raised. */
  datatype GpuMemory = Num(n: int) | NonNumeric

  /** The hardware dictionary; a `None` field is a key the dictionary lacks. */
  datatype HardwareInfo = HardwareInfo(
    ramGb: Option<real>,
    logicalCores: Option<int>,
    gpu: Option<string>,
    gpuMemoryMb: Option<GpuMemory>)

  /** The model-profile dictionary, of which the engine reads two keys. */
  datatype UsageInfo = UsageInfo(modelSize: Option<string>, goal: Option<string>)

  /** The returned configuration, field by field in the order of its keys. */
  datatype Config = Config(
    contextLength: int,
    gpuOffload: int,
    cpuThreads: int,
    batchSize: int,
    temperature: real,
    topP: real,
    topK: int,
    repeatPenalty: real,
    maxTokens: int,
    keepModelInMemory: bool,
    flashAttention: bool,
    tryMmap: bool)

  const DefaultRamGb: real := 8.0
  const DefaultLogicalCores: int := 4
  const DefaultGpuName: string := "None"
  const DefaultGoal: string := "Balanced/general purpose"
  const DefaultModelSize: string := "Other"

  /** The marker substring of Apple's unified-memory chips. */
  const AppleFamily: string := "Apple M"
  const CapableGpuMemoryMb: int := 4096
  const FlashAttentionMemoryMb: int := 8192
  /** The layer count that asks LM Studio to offload every layer. */
  const OffloadAll: int := 999
  const MaxCpuThreads: int := 8
  const KeepInMemoryRamGb: real := 24.0
  const RepeatPenalty: real := 1.1
  const MaxTokens: int := 1024

  const SizeContext: map<string, int> := map[
    "Under 2 GB" := 1024,
    "2-4 GB" := 2048,
    "4-8 GB" := 4096,
    "8-13 GB" := 8192,
    "More than 13 GB" := 16384,
    "Other" := 2048]

  const SizeBatch: map<string, int> := map[
    "Under 2 GB" := 16,
    "2-4 GB" := 8,
    "4-8 GB" := 4,
    "8-13 GB" := 2,
    "More than 13 GB" := 1,
    "Other" := 1]

  /** The size buckets from smallest to largest model. */
  const BucketOrder: seq<string> := ["Under 2 GB", "2-4 GB", "4-8 GB", "8-13 GB", "More than 13 GB"]

  /** The `if`/`elif` branches of the goal chain, in order. */
  const EngineRules: seq<Rule> := [
    Rule("Creativity", Sampling(1.0, 0.95, 100)),
    Rule("Accuracy", Sampling(0.3, 0.85, 50)),
    Rule("Natural Dialogue", Sampling(0.7, 0.9, 40)),
    Rule("Factual Recall", Sampling(0.4, 0.8, 30))]

  /** The `else` branch (balanced / general purpose). */
  const EngineFallback: Sampling := Sampling(0.7, 0.9, 60)

  // The keys read from the input dictionaries, with their defaults.

  function RamGb(hw: HardwareInfo): real { hw.ramGb.GetOr(DefaultRamGb) }

  function LogicalCores(hw: HardwareInfo): int { hw.logicalCores.GetOr(DefaultLogicalCores) }

  function GpuName(hw: HardwareInfo): string { hw.gpu.GetOr(DefaultGpuName) }

  /** `int(...)` of the entry, 0 when the key is missing, and 0 when the conversion raises. */
  function GpuMemoryMb(hw: HardwareInfo): (mb: int)
    ensures hw.gpuMemoryMb.Some? && hw.gpuMemoryMb.value.Num? ==> mb == hw.gpuMemoryMb.value.n
    ensures hw.gpuMemoryMb.Some? && hw.gpuMemoryMb.value.NonNumeric? ==> mb == 0
    ensures hw.gpuMemoryMb.None? ==> mb == 0
  {
    match hw.gpuMemoryMb
    case None => 0
    case Some(Num(n)) => n
    case Some(NonNumeric) => 0
  }

  function Goal(usage: UsageInfo): string { usage.goal.GetOr(DefaultGoal) }

  function ModelSize(usage: UsageInfo): string { usage.modelSize.GetOr(DefaultModelSize) }

  // The individual decisions.

  /** The context length chosen from RAM alone, before the size bucket is looked at. */
  function RamContextLength(ramGb: real): (r: int)
    ensures r == 2048 || r == 4096 || r == 8192
  {
    if ramGb >= 32.0 then 8192
    else if ramGb >= 16.0 then 4096
    else 2048
  }

  /** The size-bucket table, overriding the RAM-based length for a listed bucket. */
  function ContextLength(ramGb: real, modelSize: string): (r: int)
    ensures r > 0
  {
    Get(SizeContext, modelSize, RamContextLength(ramGb))
  }

  /** The size-bucket table for the evaluation batch size, 1 for an unlisted bucket. */
  function BatchSize(modelSize: string): (r: int)
    ensures 1 <= r <= 16
  {
    Get(SizeBatch, modelSize, 1)
  }

  /** An Apple M chip, or any GPU with at least 4096 MB. */
  predicate IsCapableGpu(gpuName: string, gpuMemoryMb: int) {
    if Contains(gpuName, AppleFamily) then true
    else gpuMemoryMb >= CapableGpuMemoryMb
  }

  function GpuOffload(gpuName: string, gpuMemoryMb: int): (layers: int)
    ensures layers == 0 || layers == OffloadAll
  {
    if IsCapableGpu(gpuName, gpuMemoryMb) then OffloadAll else 0
  }

  /** An Apple M chip, or any GPU with at least 8192 MB. */
  function FlashAttention(gpuName: string, gpuMemoryMb: int): (on: bool)
    ensures on ==> GpuOffload(gpuName, gpuMemoryMb) == OffloadAll
  {
    if Contains(gpuName, AppleFamily) then true
    else gpuMemoryMb >= FlashAttentionMemoryMb
  }

  /** `min(logical_cores, 8)`. */
  function CpuThreads(logicalCores: int): (threads: int)
    ensures threads <= MaxCpuThreads && threads <= logicalCores
    ensures threads == logicalCores || threads == MaxCpuThreads
    ensures logicalCores >= 1 ==> threads >= 1
  {
    if logicalCores <= MaxCpuThreads then logicalCores else MaxCpuThreads
  }

  /** The goal chain: the first of four keywords found in the goal, else the balanced row. */
  function GoalSampling(goal: string): (s: Sampling)
    ensures s.temperature > 0.0 && 0.0 <= s.topP <= 1.0 && s.topK > 0
  {
    if Contains(goal, "Creativity") then Sampling(1.0, 0.95, 100)
    else if Contains(goal, "Accuracy") then Sampling(0.3, 0.85, 50)
    else if Contains(goal, "Natural Dialogue") then Sampling(0.7, 0.9, 40)
    else if Contains(goal, "Factual Recall") then Sampling(0.4, 0.8, 30)
    else Sampling(0.7, 0.9, 60)
  }

  /** `recommend_settings`: assemble the configuration from the decisions above. */
  function Recommend(hw: HardwareInfo, usage: UsageInfo): (c: Config)
    ensures c.contextLength > 0 && c.batchSize >= 1
    ensures c.temperature > 0.0 && 0.0 <= c.topP <= 1.0
    ensures c.cpuThreads <= MaxCpuThreads && c.cpuThreads <= LogicalCores(hw)
    ensures LogicalCores(hw) >= 1 ==> c.cpuThreads >= 1
    ensures c.gpuOffload == 0 || c.gpuOffload == OffloadAll
    ensures c.flashAttention ==> c.gpuOffload == OffloadAll
    ensures c.repeatPenalty == 1.1 && c.maxTokens == 1024 && c.tryMmap
    ensures c.keepModelInMemory <==> RamGb(hw) >= 24.0
  {
    var ram := RamGb(hw);
    var name := GpuName(hw);
    var mem := GpuMemoryMb(hw);
    var size := ModelSize(usage);
    var s := GoalSampling(Goal(usage));
    Config(
      contextLength := ContextLength(ram, size),
      gpuOffload := GpuOffload(name, mem),
      cpuThreads := CpuThreads(LogicalCores(hw)),
      batchSize := BatchSize(size),
      temperature := s.temperature,
      topP := s.topP,
      topK := s.topK,
      repeatPenalty := RepeatPenalty,
      maxTokens := MaxTokens,
      keepModelInMemory := ram >= KeepInMemoryRamGb,
      flashAttention := FlashAttention(name, mem),
      tryMmap := true)
  }

  // The returned dictionary.

  const ConfigKeys: seq<string> := [
    "context_length", "gpu_offload", "cpu_threads", "batch_size",
    "temperature", "top_p", "top_k", "repeat_penalty", "max_tokens",
    "keep_model_in_memory", "flash_attention", "try_mmap"]

  /** The configuration as the dictionary the function returns, keys in insertion order. */
  function ConfigDict(c: Config): (d: Dict)
    ensures d.keys == ConfigKeys
  {
    Dict(ConfigKeys, map[
      "context_length" := IntV(c.contextLength),
      "gpu_offload" := IntV(c.gpuOffload),
      "cpu_threads" := IntV(c.cpuThreads),
      "batch_size" := IntV(c.batchSize),
      "temperature" := RealV(c.temperature),
      "top_p" := RealV(c.topP),
      "top_k" := IntV(c.topK),
      "repeat_penalty" := RealV(c.repeatPenalty),
      "max_tokens" := IntV(c.maxTokens),
      "keep_model_in_memory" := BoolV(c.keepModelInMemory),
      "flash_attention" := BoolV(c.flashAttention),
      "try_mmap" := BoolV(c.tryMmap)])
  }

  /** Reads a configuration back from a dictionary; None when a key is missing or ill-typed. */
  function ConfigFromDict(d: Dict): Option<Config> {
    var contextLength := LookupInt(d, "context_length");
    var gpuOffload := LookupInt(d, "gpu_offload");
    var cpuThreads := LookupInt(d, "cpu_threads");
    var batchSize := LookupInt(d, "batch_size");
    var temperature := LookupReal(d, "temperature");
    var topP := LookupReal(d, "top_p");
    var topK := LookupInt(d, "top_k");
    var repeatPenalty := LookupReal(d, "repeat_penalty");
    var maxTokens := LookupInt(d, "max_tokens");
    var keep := LookupBool(d, "keep_model_in_memory");
    var flash := LookupBool(d, "flash_attention");
    var mmap := LookupBool(d, "try_mmap");
    if contextLength.Some? && gpuOffload.Some? && cpuThreads.Some? && batchSize.Some? &&
       temperature.Some? && topP.Some? && topK.Some? && repeatPenalty.Some? &&
       maxTokens.Some? && keep.Some? && flash.Some? && mmap.Some?
    then
      Some(Config(contextLength.value, gpuOffload.value, cpuThreads.value, batchSize.value,
                  temperature.value, topP.value, topK.value, repeatPenalty.value,
                  maxTokens.value, keep.value, flash.value, mmap.value))
    else None
  }

  // Lemmas about the engine.

  /** The twelve key names are pairwise different. */
  lemma ConfigKeysDistinct()
    ensures forall i, j :: 0 <= i < j < |ConfigKeys| ==> ConfigKeys[i] != ConfigKeys[j]
  {
  }

  /** The returned dictionary has each of the twelve keys once, and no other key. */
  lemma ConfigDictWellFormed(c: Config)
    ensures WellFormed(ConfigDict(c))
  {
    ConfigKeysDistinct();
    assert ConfigDict(c).values.Keys == set k | k in ConfigKeys;
  }

  /** Every field of the configuration is recoverable from its key in the dictionary. */
  lemma ConfigDictRoundTrip(c: Config)
    ensures ConfigFromDict(ConfigDict(c)) == Some(c)
  {
    ConfigDictIntEntries(c);
    ConfigDictRealEntries(c);
    ConfigDictBoolEntries(c);
  }

  /** The six integer entries read back as the fields they came from. */
  lemma ConfigDictIntEntries(c: Config)
    ensures var d := ConfigDict(c);
      LookupInt(d, "context_length") == Some(c.contextLength) &&
      LookupInt(d, "gpu_offload") == Some(c.gpuOffload) &&
      LookupInt(d, "cpu_threads") == Some(c.cpuThreads) &&
      LookupInt(d, "batch_size") == Some(c.batchSize) &&
      LookupInt(d, "top_k") == Some(c.topK) &&
      LookupInt(d, "max_tokens") == Some(c.maxTokens)
  {
  }

  /** The three real entries read back as the fields they came from. */
  lemma ConfigDictRealEntries(c: Config)
    ensures var d := ConfigDict(c);
      LookupReal(d, "temperature") == Some(c.temperature) &&
      LookupReal(d, "top_p") == Some(c.topP) &&
      LookupReal(d, "repeat_penalty") == Some(c.repeatPenalty)
  {
  }

  /** The three boolean entries read back as the fields they came from. */
  lemma ConfigDictBoolEntries(c: Config)
    ensures var d := ConfigDict(c);
      LookupBool(d, "keep_model_in_memory") == Some(c.keepModelInMemory) &&
      LookupBool(d, "flash_attention") == Some(c.flashAttention) &&
      LookupBool(d, "try_mmap") == Some(c.tryMmap)
  {
  }

  /** Context length and batch size follow the two tables; an unlisted bucket uses the RAM rule and batch 1. */
  lemma SizingTable(hw: HardwareInfo, usage: UsageInfo)
    ensures var c, b := Recommend(hw, usage), ModelSize(usage);
      (b == "Under 2 GB" ==> c.contextLength == 1024 && c.batchSize == 16) &&
      (b == "2-4 GB" ==> c.contextLength == 2048 && c.batchSize == 8) &&
      (b == "4-8 GB" ==> c.contextLength == 4096 && c.batchSize == 4) &&
      (b == "8-13 GB" ==> c.contextLength == 8192 && c.batchSize == 2) &&
      (b == "More than 13 GB" ==> c.contextLength == 16384 && c.batchSize == 1) &&
      (b == "Other" ==> c.contextLength == 2048 && c.batchSize == 1)
    ensures var c, b, ram := Recommend(hw, usage), ModelSize(usage), RamGb(hw);
      b != "Under 2 GB" && b != "2-4 GB" && b != "4-8 GB" && b != "8-13 GB" &&
      b != "More than 13 GB" && b != "Other" ==>
        c.batchSize == 1 &&
        c.contextLength == (if ram >= 32.0 then 8192 else if ram >= 16.0 then 4096 else 2048)
  {
  }

  /** A profile without a `model_size` key is sized as the "Other" bucket. */
  lemma MissingModelSizeIsOther(hw: HardwareInfo, usage: UsageInfo)
    requires usage.modelSize.None?
    ensures Recommend(hw, usage).contextLength == 2048 && Recommend(hw, usage).batchSize == 1
  {
  }

  /** A hardware report without `ram_gb` is treated as 8 GB. */
  lemma MissingRamIsEightGb(hw: HardwareInfo, usage: UsageInfo)
    requires hw.ramGb.None?
    ensures RamGb(hw) == 8.0
    ensures !Recommend(hw, usage).keepModelInMemory
    ensures ModelSize(usage) !in SizeContext ==> Recommend(hw, usage).contextLength == 2048
  {
  }

  /** Along the bucket order, batch size never grows and context length never shrinks. */
  lemma SizingMonotone(ramGb: real, i: int, j: int)
    requires 0 <= i <= j < |BucketOrder|
    ensures BatchSize(BucketOrder[j]) <= BatchSize(BucketOrder[i])
    ensures ContextLength(ramGb, BucketOrder[i]) <= ContextLength(ramGb, BucketOrder[j])
  {
  }

  /** GPU offload is all layers exactly for an Apple M chip or at least 4096 MB, none otherwise. */
  lemma GpuGating(hw: HardwareInfo, usage: UsageInfo)
    ensures var c := Recommend(hw, usage);
      c.gpuOffload == OffloadAll <==> Contains(GpuName(hw), "Apple M") || GpuMemoryMb(hw) >= 4096
    ensures var c := Recommend(hw, usage);
      c.gpuOffload == 0 <==> !Contains(GpuName(hw), "Apple M") && GpuMemoryMb(hw) < 4096
  {
  }

  /** Flash attention is on exactly for an Apple M chip or at least 8192 MB. */
  lemma FlashAttentionGating(hw: HardwareInfo, usage: UsageInfo)
    ensures Recommend(hw, usage).flashAttention <==>
      Contains(GpuName(hw), "Apple M") || GpuMemoryMb(hw) >= 8192
  {
  }

  /** Full offload does not imply flash attention: a 6144 MB NVIDIA card gets the one and not the other. */
  lemma OffloadWithoutFlashAttention(usage: UsageInfo)
    ensures var c := Recommend(HardwareInfo(Some(16.0), Some(12), Some("NVIDIA RTX 3060"), Some(Num(6144))), usage);
      c.gpuOffload == OffloadAll && !c.flashAttention
  {
    AbsentCharRulesOut("NVIDIA RTX 3060", AppleFamily, 'p');
  }

  /** A memory entry that `int()` rejects, such as "6144 MB", counts as 0 MB: CPU only unless Apple M. */
  lemma NonNumericMemoryIsCpuOnly(hw: HardwareInfo, usage: UsageInfo)
    requires hw.gpuMemoryMb == Some(NonNumeric)
    requires !Contains(GpuName(hw), AppleFamily)
    ensures Recommend(hw, usage).gpuOffload == 0 && !Recommend(hw, usage).flashAttention
  {
  }

  /** With no `gpu` key the name is "None", which is not an Apple M chip. */
  lemma MissingGpuNameIsNotApple(hw: HardwareInfo)
    requires hw.gpu.None?
    ensures !Contains(GpuName(hw), AppleFamily)
  {
    AbsentCharRulesOut(DefaultGpuName, AppleFamily, 'A');
  }

  /** Threads are the logical core count capped at 8; a missing count means 4 threads. */
  lemma ThreadPolicy(hw: HardwareInfo, usage: UsageInfo)
    ensures var t := Recommend(hw, usage).cpuThreads;
      (LogicalCores(hw) <= 8 ==> t == LogicalCores(hw)) && (LogicalCores(hw) >= 8 ==> t == 8)
    ensures hw.logicalCores.None? ==> Recommend(hw, usage).cpuThreads == 4
  {
  }

  /** The goal chain is the first-match choice over the four keyword rules, with the balanced row otherwise. */
  lemma GoalSamplingIsFirstMatch(goal: string)
    ensures GoalSampling(goal) == FirstMatch(EngineRules, goal).GetOr(EngineFallback)
  {
    var rules := EngineRules;
    assert rules[1..][1..] == rules[2..] && rules[2..][1..] == rules[3..] && rules[3..][1..] == [];
    assert FirstMatch(rules, goal) ==
      if Contains(goal, "Creativity") then Some(rules[0].sampling) else FirstMatch(rules[1..], goal);
    assert FirstMatch(rules[1..], goal) ==
      if Contains(goal, "Accuracy") then Some(rules[1].sampling) else FirstMatch(rules[2..], goal);
    assert FirstMatch(rules[2..], goal) ==
      if Contains(goal, "Natural Dialogue") then Some(rules[2].sampling) else FirstMatch(rules[3..], goal);
    assert FirstMatch(rules[3..], goal) ==
      if Contains(goal, "Factual Recall") then Some(rules[3].sampling) else FirstMatch([], goal);
  }

  /** The sampling fields of the configuration are the goal chain's, row by row in priority order. */
  lemma SamplingTable(hw: HardwareInfo, usage: UsageInfo)
    ensures var c, g := Recommend(hw, usage), Goal(usage);
      if Contains(g, "Creativity") then c.temperature == 1.0 && c.topP == 0.95 && c.topK == 100
      else if Contains(g, "Accuracy") then c.temperature == 0.3 && c.topP == 0.85 && c.topK == 50
      else if Contains(g, "Natural Dialogue") then c.temperature == 0.7 && c.topP == 0.9 && c.topK == 40
      else if Contains(g, "Factual Recall") then c.temperature == 0.4 && c.topP == 0.8 && c.topK == 30
      else c.temperature == 0.7 && c.topP == 0.9 && c.topK == 60
  {
  }

  /** Letters the default goal text lacks. */
  lemma DefaultGoalLetters()
    ensures 'y' !in DefaultGoal && 'N' !in DefaultGoal && 'F' !in DefaultGoal
  {
  }

  /** The default goal text contains none of the four keywords. */
  lemma DefaultGoalMatchesNoKeyword()
    ensures !Contains(DefaultGoal, "Creativity") && !Contains(DefaultGoal, "Accuracy")
    ensures !Contains(DefaultGoal, "Natural Dialogue") && !Contains(DefaultGoal, "Factual Recall")
    ensures GoalSampling(DefaultGoal) == EngineFallback
  {
    DefaultGoalLetters();
    AbsentCharRulesOut(DefaultGoal, "Creativity", 'y');
    AbsentCharRulesOut(DefaultGoal, "Accuracy", 'y');
    AbsentCharRulesOut(DefaultGoal, "Natural Dialogue", 'N');
    AbsentCharRulesOut(DefaultGoal, "Factual Recall", 'F');
  }

  /** A profile without a `goal` key gets the balanced row (0.7, 0.9, 60). */
  lemma MissingGoalIsBalanced(hw: HardwareInfo, usage: UsageInfo)
    requires usage.goal.None?
    ensures var c := Recommend(hw, usage);
      c.temperature == 0.7 && c.topP == 0.9 && c.topK == 60
  {
    DefaultGoalMatchesNoKeyword();
  }

  /** The fixed fields and the RAM rule for keeping the model in memory, whatever the inputs. */
  lemma FixedFields(hw1: HardwareInfo, usage1: UsageInfo, hw2: HardwareInfo, usage2: UsageInfo)
    ensures var c1, c2 := Recommend(hw1, usage1), Recommend(hw2, usage2);
      c1.repeatPenalty == c2.repeatPenalty == 1.1 &&
      c1.maxTokens == c2.maxTokens == 1024 &&
      c1.tryMmap && c2.tryMmap
    ensures Recommend(hw1, usage1).keepModelInMemory <==> RamGb(hw1) >= 24.0
  {
  }

  /** Apple M3 Max, 64 GB, 16 cores, an 8-13 GB model and the Accuracy goal. */
  lemma ScenarioAppleAccuracy()
    ensures Recommend(HardwareInfo(Some(64.0), Some(16), Some("Apple M3 Max"), Some(Num(0))),
                      UsageInfo(Some("8-13 GB"), Some("Accuracy")))
      == Config(8192, 999, 8, 2, 0.3, 0.85, 50, 1.1, 1024, true, true, true)
  {
    OccursShowsContains("Apple M3 Max", AppleFamily, 0);
    AbsentCharRulesOut("Accuracy", "Creativity", 'v');
    OccursShowsContains("Accuracy", "Accuracy", 0);
  }

  /** No GPU, 8 GB, 4 cores, a model under 2 GB and the Creativity goal. */
  lemma ScenarioCpuCreativity()
    ensures Recommend(HardwareInfo(Some(8.0), Some(4), Some("None"), Some(Num(0))),
                      UsageInfo(Some("Under 2 GB"), Some("Creativity")))
      == Config(1024, 0, 4, 16, 1.0, 0.95, 100, 1.1, 1024, false, false, true)
  {
    AbsentCharRulesOut("None", AppleFamily, 'A');
    OccursShowsContains("Creativity", "Creativity", 0);
  }

  /** A 6144 MB NVIDIA card, 16 GB, 12 cores, a model over 13 GB and the balanced goal. */
  lemma ScenarioNvidiaBalanced()
    ensures Recommend(HardwareInfo(Some(16.0), Some(12), Some("NVIDIA RTX 3060"), Some(Num(6144))),
                      UsageInfo(Some("More than 13 GB"), Some("Balanced/general purpose")))
      == Config(16384, 999, 8, 1, 0.7, 0.9, 60, 1.1, 1024, false, false, true)
  {
    AbsentCharRulesOut("NVIDIA RTX 3060", AppleFamily, 'p');
    assert GpuOffload("NVIDIA RTX 3060", 6144) == 999;
    assert !FlashAttention("NVIDIA RTX 3060", 6144);
    DefaultGoalMatchesNoKeyword();
  }
}
