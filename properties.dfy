/**
 The Spark properties the engine tracks, the Python values it stores in its
 reports, the gigabyte-to-megabyte normalisation of memory settings, and the
 per-property policy: which value each property should have and when its
 current value is reported as needing a change.
 */
module Properties {
  import opened Decimal
  import opened Sizing

  /** A value stored in a report dictionary: the source stores both Python ints and strs. */
  datatype Value = Int(i: int) | Str(s: string)

  /** Python's `str(v)`. */
  function Show(v: Value): string {
    match v
    case Int(i) => IntToString(i)
    case Str(s) => s
  }

  /** The thirteen Spark properties the engine reads and may recommend. */
  datatype Prop =
    | ExecutorCores | DriverCores | ExecutorInstances
    | ExecutorMemory | DriverMemory | ExecutorMemoryOverhead
    | DefaultParallelism | SqlShufflePartitions
    | ShuffleSpillCompress | CheckpointCompress | IoCompressionCodec
    | DynamicAllocationEnabled | ShuffleServiceEnabled

  const AllProps: set<Prop> := {
    ExecutorCores, DriverCores, ExecutorInstances, ExecutorMemory, DriverMemory, ExecutorMemoryOverhead,
    DefaultParallelism, SqlShufflePartitions, ShuffleSpillCompress, CheckpointCompress, IoCompressionCodec,
    DynamicAllocationEnabled, ShuffleServiceEnabled
  }

  /** Every property is one of the thirteen. */
  lemma TrackedProp(p: Prop)
    ensures p in AllProps
  {
    match p
    case ExecutorCores =>
    case DriverCores =>
    case ExecutorInstances =>
    case ExecutorMemory =>
    case DriverMemory =>
    case ExecutorMemoryOverhead =>
    case DefaultParallelism =>
    case SqlShufflePartitions =>
    case ShuffleSpillCompress =>
    case CheckpointCompress =>
    case IoCompressionCodec =>
    case DynamicAllocationEnabled =>
    case ShuffleServiceEnabled =>
  }

  /** The Spark name of a property, as `current_configuration` is keyed. */
  function Name(p: Prop): string {
    match p
    case ExecutorCores => "spark.executor.cores"
    case DriverCores => "spark.driver.cores"
    case ExecutorInstances => "spark.executor.instances"
    case ExecutorMemory => "spark.executor.memory"
    case DriverMemory => "spark.driver.memory"
    case ExecutorMemoryOverhead => "spark.executor.memoryOverhead"
    case DefaultParallelism => "spark.default.parallelism"
    case SqlShufflePartitions => "spark.sql.shuffle.partitions"
    case ShuffleSpillCompress => "spark.shuffle.spill.compress"
    case CheckpointCompress => "spark.checkpoint.compress"
    case IoCompressionCodec => "spark.io.compression.codec"
    case DynamicAllocationEnabled => "spark.dynamicAllocation.enabled"
    case ShuffleServiceEnabled => "spark.shuffle.service.enabled"
  }

  /** Cluster property keys carry the prefix of the file they belong to; these all live in `spark-defaults`. */
  const Prefix := "spark:"

  /** The key of a property in the cluster's property map and in `recommendations`: the prefixed name. */
  function Key(p: Prop): (k: string)
    ensures |k| > |Prefix| && k[..|Prefix|] == Prefix
  {
    Prefix + Name(p)
  }

  /** Distinct properties have distinct names, and so distinct keys. */
  lemma KeysDistinct(p: Prop, q: Prop)
    requires p != q
    ensures Name(p) != Name(q) && Key(p) != Key(q)
  {
  }

  /** The properties whose current value is normalised from gigabytes to megabytes before comparison. */
  predicate IsMemory(p: Prop) {
    p == ExecutorMemory || p == DriverMemory || p == ExecutorMemoryOverhead
  }

  /** The advice given for an unset compression codec. */
  const CodecHint := "snappy (if splittable files), lz4 (otherwise)"

  /** The advice given for an unset shuffle service or dynamic allocation flag. */
  const SharingHint := "true (if multiple spark apps on cluster), false (otherwise)"

  /** A memory setting in megabytes, as the source writes it: `str(mb) + "m"`. */
  function MemoryString(mb: int): (r: string)
    ensures 'g' !in r
  {
    IntToString(mb) + "m"
  }

  /** A memory string reads back as its number of megabytes followed by the unit `m`. */
  lemma MemoryStringParses(mb: int)
    ensures var r := MemoryString(mb);
            |r| >= 2 && r[|r| - 1] == 'm' && IsIntLiteral(r[..|r| - 1]) && ParseInt(r[..|r| - 1]) == mb
  {
    var r := MemoryString(mb);
    assert r[..|r| - 1] == IntToString(mb);
    ParseIntToString(mb);
  }

  /** What `gb_to_mb_property` needs of its argument: an integer literal followed by one unit letter. */
  predicate GbShaped(p: string) {
    |p| > 0 && IsIntLiteral(p[..|p| - 1])
  }

  /**
   `gb_to_mb_property`: drops the unit letter and writes 1024 times the
   number, with the megabyte unit.
   */
  function GbToMb(p: string): (r: string)
    requires GbShaped(p)
    ensures 'g' !in r
  {
    MemoryString(ParseInt(p[..|p| - 1]) * 1024)
  }

  /** The megabyte figure `gb_to_mb_property` writes is 1024 times the gigabyte figure it reads. */
  lemma GbToMbScales(p: string)
    requires GbShaped(p)
    ensures var r := GbToMb(p);
            |r| >= 2 && r[|r| - 1] == 'm' && IsIntLiteral(r[..|r| - 1])
            && ParseInt(r[..|r| - 1]) == 1024 * ParseInt(p[..|p| - 1])
  {
    MemoryStringParses(ParseInt(p[..|p| - 1]) * 1024);
  }

  /** What the normalisation needs: a value that contains `g` must be a gigabyte figure. */
  predicate Normalizable(p: string) {
    'g' in p ==> GbShaped(p)
  }

  /** The guarded normalisation the engine applies to each memory setting. */
  function Normalize(p: string): (r: string)
    requires Normalizable(p)
    ensures 'g' !in r && Normalizable(r)
    ensures 'g' !in p ==> r == p
  {
    if 'g' in p then GbToMb(p) else p
  }

  /** A value that contains `g` and is a gigabyte figure ends with `g`: the letter dropped is the unit. */
  lemma GbUnitIsLast(p: string)
    requires 'g' in p && GbShaped(p)
    ensures p[|p| - 1] == 'g'
  {
    var k :| 0 <= k < |p| && p[k] == 'g';
    if k < |p| - 1 {
      assert false;
    }
  }

  /** Normalising twice is normalising once. */
  lemma NormalizeIdempotent(p: string)
    requires Normalizable(p)
    ensures Normalize(Normalize(p)) == Normalize(p)
  {
  }

  /** "4g" becomes "4096m"; a megabyte value is left alone. */
  lemma NormalizeExamples()
    ensures GbShaped("4g") && GbToMb("4g") == "4096m"
    ensures Normalize("4g") == "4096m" && Normalize("4096m") == "4096m"
  {
    assert "4g"[..1] == "4";
    assert ParseInt("4") == 4;
    assert NatToString(4) == "4";
    assert NatToString(40) == "40";
    assert NatToString(409) == "409";
    assert NatToString(4096) == "4096";
  }

  /** The policy for one property. */
  datatype Rule =
    | MustEqual(want: Value)   // the property should hold exactly this value
    | MustBeSet(hint: string)  // the property should not be empty; the hint says how to choose

  /** The values derived from the cluster's shape that the rules recommend. */
  datatype Targets = Targets(executorInstances: int, executorMemory: string, executorMemoryOverhead: string, defaultParallelism: int)

  /** The derived values for a shape: memory figures in the megabyte notation, counts as integers. */
  function TargetsFor(s: Shape): Targets {
    Targets(
      RecommendedInstances(s),
      MemoryString(ExecutorMemoryMb(s)),
      MemoryString(ExecutorMemoryOverheadMb(s)),
      RecommendedParallelism(s))
  }

  /** For three 16-core nodes with 64 GiB each the recommended texts are "19353m" heap and "2151m" overhead. */
  lemma ExampleSixteenCoresTargets()
    ensures TargetsFor(Shape(3, 16, 65536)) == Targets(8, "19353m", "2151m", 80)
  {
    ExampleSixteenCores();
    assert NatToString(19353) == "19353" by {
      assert NatToString(1) == "1";
      assert NatToString(19) == "19";
      assert NatToString(193) == "193";
      assert NatToString(1935) == "1935";
    }
    assert NatToString(2151) == "2151" by {
      assert NatToString(2) == "2";
      assert NatToString(21) == "21";
      assert NatToString(215) == "215";
    }
  }

  /** The policy table, with the derived values `t`. */
  function RuleFor(p: Prop, t: Targets): Rule {
    match p
    case ExecutorCores | DriverCores => MustEqual(Int(5))
    case ShuffleSpillCompress | CheckpointCompress => MustEqual(Str("true"))
    case IoCompressionCodec => MustBeSet(CodecHint)
    case ShuffleServiceEnabled | DynamicAllocationEnabled => MustBeSet(SharingHint)
    case ExecutorInstances => MustEqual(Int(t.executorInstances))
    case ExecutorMemory | DriverMemory => MustEqual(Str(t.executorMemory))
    case ExecutorMemoryOverhead => MustEqual(Str(t.executorMemoryOverhead))
    case DefaultParallelism | SqlShufflePartitions => MustEqual(Int(t.defaultParallelism))
  }

  /** The value recommended under a rule. */
  function Recommended(r: Rule): Value {
    match r
    case MustEqual(v) => v
    case MustBeSet(h) => Str(h)
  }

  /**
   Whether the engine as written flags the current string: the current value
   is a Python `str`, compared with `!=` against the wanted value, and a `str`
   is never equal to an `int`.
   */
  predicate Flags(r: Rule, current: string) {
    match r
    case MustEqual(v) => Str(current) != v
    case MustBeSet(_) => current == ""
  }

  /** Whether the current string fails the rule when it is compared with the wanted value's text. */
  predicate IntendedFlags(r: Rule, current: string) {
    match r
    case MustEqual(v) => current != Show(v)
    case MustBeSet(_) => current == ""
  }

  /** Under the comparison as written, an `int`-valued rule flags every current string. */
  lemma IntRulesAlwaysFlag(i: int, current: string)
    ensures Flags(MustEqual(Int(i)), current)
    ensures IntendedFlags(MustEqual(Int(i)), current) <==> current != IntToString(i)
  {
  }

  /** For `str`-valued and non-empty rules the two comparisons agree. */
  lemma StrRulesAgree(r: Rule, current: string)
    requires !(r.MustEqual? && r.want.Int?)
    ensures Flags(r, current) <==> IntendedFlags(r, current)
  {
  }
}
