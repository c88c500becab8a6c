/**
 The Spark recommendation engine: given one cluster and the machine-type
 record of its workers, it reports the cluster's current Spark settings and
 the settings it should change.

 The machine-type lookup is a parameter: a function from a machine-type
 name to the records a Compute API query by that name would return. The
 report is the two dictionaries the engine builds, before their JSON text
 is written; their keys are `Prop` and `Field` values, and `Key`, `Name`
 and `FieldName` are the strings the dictionaries use for them.
 */
module Engine {
  import opened Decimal
  import opened Sizing
  import opened Properties

  /** The fields of a Compute API machine-type record that the engine reads. */
  datatype MachineTypeInfo = MachineTypeInfo(name: string, memoryMb: int, guestCpus: int)

  /** The fields of a Dataproc cluster description that the engine reads. */
  datatype Cluster = Cluster(
    clusterName: string,
    machineTypeUri: string,         // worker_config.machine_type_uri
    numInstances: int,              // worker_config.num_instances
    properties: map<string, string> // software_config.properties
  )

  /** The keys of `current_configuration`. */
  datatype Field = ClusterName | MachineType | Nodes | Vcores | RamPerNode | Setting(p: Prop)

  function FieldName(f: Field): string {
    match f
    case ClusterName => "cluster_name"
    case MachineType => "machine_type"
    case Nodes => "nodes"
    case Vcores => "vcores"
    case RamPerNode => "ram_per_node"
    case Setting(p) => Name(p)
  }

  /** Distinct fields have distinct names, so keying the dictionary by `Field` loses no entry. */
  lemma FieldNamesDistinct(f: Field, g: Field)
    requires f != g
    ensures FieldName(f) != FieldName(g)
  {
    if f.Setting? && g.Setting? {
      KeysDistinct(f.p, g.p);
    }
  }

  /** The report: `current_configuration` and `recommendations`. */
  datatype Report = Report(currentConfiguration: map<Field, Value>, recommendations: map<Prop, Value>)

  /** The last `/`-separated segment of a machine-type URI, as `uri.split("/")[-1]` gives it. */
  function MachineTypeName(uri: string): string {
    if uri == [] || uri[|uri| - 1] == '/' then []
    else MachineTypeName(uri[..|uri| - 1]) + [uri[|uri| - 1]]
  }

  /** The name is a suffix of the URI without `/`, and it is either the whole URI or preceded by `/`. */
  lemma {:induction false} MachineTypeNameIsLastSegment(uri: string)
    ensures var r := MachineTypeName(uri);
            && '/' !in r
            && |r| <= |uri| && r == uri[|uri| - |r|..]
            && (|r| < |uri| ==> uri[|uri| - |r| - 1] == '/')
  {
    if uri != [] && uri[|uri| - 1] != '/' {
      var u := uri[..|uri| - 1];
      MachineTypeNameIsLastSegment(u);
      var r := MachineTypeName(u);
      assert MachineTypeName(uri) == r + [uri[|uri| - 1]];
      assert u[|u| - |r|..] + [uri[|uri| - 1]] == uri[|uri| - |r| - 1..];
    }
  }

  /** Whatever precedes the last `/`, the name after it is what is looked up. */
  lemma MachineTypeNameOfPath(path: string, name: string)
    requires '/' !in name
    ensures MachineTypeName(path + "/" + name) == name
  {
    var u := path + "/" + name;
    var r := MachineTypeName(u);
    MachineTypeNameIsLastSegment(u);
    assert u[|path|] == '/';
    assert u[|path| + 1..] == name;
    assert |r| == |name|;
  }

  /** The hardware shape the formulas use: the worker count and the looked-up cores and memory. */
  function ShapeOf(c: Cluster, info: MachineTypeInfo): Shape {
    Shape(c.numInstances, info.guestCpus, info.memoryMb)
  }

  /**
   What the engine needs of the property map: every tracked key is present
   (a missing one raises `KeyError`), and a memory setting that contains `g`
   is a gigabyte figure (otherwise `int()` raises `ValueError`).
   */
  predicate ValidProperties(props: map<string, string>) {
    && (forall p :: Key(p) in props)
    && Normalizable(props[Key(ExecutorMemory)])
    && Normalizable(props[Key(DriverMemory)])
    && Normalizable(props[Key(ExecutorMemoryOverhead)])
  }

  /** The current value of a tracked property as the engine compares it: memory settings normalised to megabytes. */
  function Current(props: map<string, string>, p: Prop): string
    requires ValidProperties(props)
  {
    if IsMemory(p) then Normalize(props[Key(p)]) else props[Key(p)]
  }

  /** The thirteen settings the engine reads from the property map, after the memory ones are normalised. */
  datatype Settings = Settings(
    executorCores: string, driverCores: string, executorInstances: string,
    executorMemory: string, driverMemory: string, executorMemoryOverhead: string,
    defaultParallelism: string, sqlShufflePartitions: string,
    shuffleSpillCompress: string, checkpointCompress: string, ioCompressionCodec: string,
    dynamicAllocationEnabled: string, shuffleServiceEnabled: string)

  /** The setting held for a property. */
  function Get(st: Settings, p: Prop): string {
    match p
    case ExecutorCores => st.executorCores
    case DriverCores => st.driverCores
    case ExecutorInstances => st.executorInstances
    case ExecutorMemory => st.executorMemory
    case DriverMemory => st.driverMemory
    case ExecutorMemoryOverhead => st.executorMemoryOverhead
    case DefaultParallelism => st.defaultParallelism
    case SqlShufflePartitions => st.sqlShufflePartitions
    case ShuffleSpillCompress => st.shuffleSpillCompress
    case CheckpointCompress => st.checkpointCompress
    case IoCompressionCodec => st.ioCompressionCodec
    case DynamicAllocationEnabled => st.dynamicAllocationEnabled
    case ShuffleServiceEnabled => st.shuffleServiceEnabled
  }

  /** The settings as the engine holds them once it has read the map and normalised the memory values. */
  function ReadSettings(props: map<string, string>): Settings
    requires ValidProperties(props)
  {
    Settings(
      props[Key(ExecutorCores)], props[Key(DriverCores)], props[Key(ExecutorInstances)],
      Normalize(props[Key(ExecutorMemory)]), Normalize(props[Key(DriverMemory)]),
      Normalize(props[Key(ExecutorMemoryOverhead)]),
      props[Key(DefaultParallelism)], props[Key(SqlShufflePartitions)],
      props[Key(ShuffleSpillCompress)], props[Key(CheckpointCompress)], props[Key(IoCompressionCodec)],
      props[Key(DynamicAllocationEnabled)], props[Key(ShuffleServiceEnabled)])
  }

  /** Each setting read is the property's current value. */
  lemma ReadSettingsCurrent(props: map<string, string>, p: Prop)
    requires ValidProperties(props)
    ensures Get(ReadSettings(props), p) == Current(props, p)
  {
  }

  /** The `n`-th property the engine considers, in the order of its checks. */
  function At(n: nat): Prop {
    if n == 0 then ExecutorCores
    else if n == 1 then DriverCores
    else if n == 2 then ShuffleSpillCompress
    else if n == 3 then CheckpointCompress
    else if n == 4 then IoCompressionCodec
    else if n == 5 then ShuffleServiceEnabled
    else if n == 6 then DynamicAllocationEnabled
    else if n == 7 then ExecutorInstances
    else if n == 8 then ExecutorMemory
    else if n == 9 then DriverMemory
    else if n == 10 then ExecutorMemoryOverhead
    else if n == 11 then DefaultParallelism
    else SqlShufflePartitions
  }

  /** The number of checks. */
  const Checks := 13

  /** Whether `p` is among the first `n` properties considered. */
  predicate ConsideredAmong(p: Prop, n: nat) {
    n > 0 && (At(n - 1) == p || ConsideredAmong(p, n - 1))
  }

  /** The entries the first `n` checks contribute: each flagged property with its recommended value. */
  function FlagFirst(t: Targets, st: Settings, n: nat): map<Prop, Value> {
    if n == 0 then map[]
    else
      var before, p := FlagFirst(t, st, n - 1), At(n - 1);
      if Flags(RuleFor(p, t), Get(st, p)) then before[p := Recommended(RuleFor(p, t))] else before
  }

  /** `recommendations`: the entries of all checks, for the settings read from the map. */
  function Recommendations(s: Shape, props: map<string, string>): map<Prop, Value>
    requires ValidProperties(props)
  {
    FlagFirst(TargetsFor(s), ReadSettings(props), Checks)
  }

  /**
   A property has an entry after the first `n` checks exactly when it is
   among the properties they consider and its rule flags it; the entry is
   the rule's recommendation.
   */
  lemma {:induction false} FlagFirstContents(t: Targets, st: Settings, n: nat, p: Prop)
    ensures p in FlagFirst(t, st, n) <==> ConsideredAmong(p, n) && Flags(RuleFor(p, t), Get(st, p))
    ensures p in FlagFirst(t, st, n) ==> FlagFirst(t, st, n)[p] == Recommended(RuleFor(p, t))
  {
    if n > 0 {
      FlagFirstContents(t, st, n - 1, p);
    }
  }

  /** The check for one more property adds its entry exactly when its rule flags it. */
  lemma FlagFirstStep(t: Targets, st: Settings, n: nat, p: Prop, flagged: bool, v: Value)
    requires At(n) == p
    requires flagged == Flags(RuleFor(p, t), Get(st, p))
    requires v == Recommended(RuleFor(p, t))
    ensures FlagFirst(t, st, n + 1) == if flagged then FlagFirst(t, st, n)[p := v] else FlagFirst(t, st, n)
  {
  }

  /** The checks consider every tracked property. */
  lemma ChecksCoverAll(p: Prop)
    ensures ConsideredAmong(p, Checks)
  {
  }

  /** The meaning of `recommendations`: exactly the flagged properties, each with its recommended value. */
  lemma RecommendationsContents(s: Shape, props: map<string, string>, p: Prop)
    requires ValidProperties(props)
    ensures p in Recommendations(s, props) <==> Flags(RuleFor(p, TargetsFor(s)), Current(props, p))
    ensures p in Recommendations(s, props) ==> Recommendations(s, props)[p] == Recommended(RuleFor(p, TargetsFor(s)))
  {
    FlagFirstContents(TargetsFor(s), ReadSettings(props), Checks, p);
    ReadSettingsCurrent(props, p);
    ChecksCoverAll(p);
  }

  /**
   Five keys are always recommended, whatever the current settings: the
   current value is a string and the recommended one an integer, so the
   source's `!=` never finds them equal.
   */
  lemma IntegerKeysAlwaysRecommended(s: Shape, props: map<string, string>)
    requires ValidProperties(props)
    ensures var r := Recommendations(s, props);
            && ExecutorCores in r && r[ExecutorCores] == Int(5)
            && DriverCores in r && r[DriverCores] == Int(5)
            && ExecutorInstances in r && r[ExecutorInstances] == Int(RecommendedInstances(s))
            && DefaultParallelism in r && r[DefaultParallelism] == Int(RecommendedParallelism(s))
            && SqlShufflePartitions in r && r[SqlShufflePartitions] == Int(RecommendedParallelism(s))
  {
    RecommendationsContents(s, props, ExecutorCores);
    RecommendationsContents(s, props, DriverCores);
    RecommendationsContents(s, props, ExecutorInstances);
    RecommendationsContents(s, props, DefaultParallelism);
    RecommendationsContents(s, props, SqlShufflePartitions);
  }

  /**
   The compression flags and the three memory settings are recommended
   exactly when the current (normalised) string differs from the
   recommended string, and the entry is that string.
   */
  lemma StringKeysRecommendedOnMismatch(s: Shape, props: map<string, string>)
    requires ValidProperties(props)
    ensures var r, heap, overhead := Recommendations(s, props), MemoryString(ExecutorMemoryMb(s)), MemoryString(ExecutorMemoryOverheadMb(s));
            && (ShuffleSpillCompress in r <==> props[Key(ShuffleSpillCompress)] != "true")
            && (CheckpointCompress in r <==> props[Key(CheckpointCompress)] != "true")
            && (ExecutorMemory in r <==> Normalize(props[Key(ExecutorMemory)]) != heap)
            && (DriverMemory in r <==> Normalize(props[Key(DriverMemory)]) != heap)
            && (ExecutorMemoryOverhead in r <==> Normalize(props[Key(ExecutorMemoryOverhead)]) != overhead)
            && (ShuffleSpillCompress in r ==> r[ShuffleSpillCompress] == Str("true"))
            && (CheckpointCompress in r ==> r[CheckpointCompress] == Str("true"))
            && (ExecutorMemory in r ==> r[ExecutorMemory] == Str(heap))
            && (DriverMemory in r ==> r[DriverMemory] == Str(heap))
            && (ExecutorMemoryOverhead in r ==> r[ExecutorMemoryOverhead] == Str(overhead))
  {
    RecommendationsContents(s, props, ShuffleSpillCompress);
    RecommendationsContents(s, props, CheckpointCompress);
    RecommendationsContents(s, props, ExecutorMemory);
    RecommendationsContents(s, props, DriverMemory);
    RecommendationsContents(s, props, ExecutorMemoryOverhead);
  }

  /** The codec and the two sharing flags are recommended exactly when they are empty, with the advice text as value. */
  lemma HintKeysRecommendedWhenEmpty(s: Shape, props: map<string, string>)
    requires ValidProperties(props)
    ensures var r := Recommendations(s, props);
            && (IoCompressionCodec in r <==> props[Key(IoCompressionCodec)] == "")
            && (ShuffleServiceEnabled in r <==> props[Key(ShuffleServiceEnabled)] == "")
            && (DynamicAllocationEnabled in r <==> props[Key(DynamicAllocationEnabled)] == "")
            && (IoCompressionCodec in r ==> r[IoCompressionCodec] == Str(CodecHint))
            && (ShuffleServiceEnabled in r ==> r[ShuffleServiceEnabled] == Str(SharingHint))
            && (DynamicAllocationEnabled in r ==> r[DynamicAllocationEnabled] == Str(SharingHint))
  {
    RecommendationsContents(s, props, IoCompressionCodec);
    RecommendationsContents(s, props, ShuffleServiceEnabled);
    RecommendationsContents(s, props, DynamicAllocationEnabled);
  }

  /**
   Every key of `recommendations` is one of the thirteen tracked properties,
   written with the `spark:` prefix. Both facts hold of any map keyed by
   `Prop`: the guarantee comes from the key type, and `KeysDistinct` makes
   the thirteen string keys distinct.
   */
  lemma RecommendationKeysTracked(s: Shape, props: map<string, string>)
    requires ValidProperties(props)
    ensures Recommendations(s, props).Keys <= AllProps
    ensures forall p :: p in Recommendations(s, props) ==> Key(p)[..|Prefix|] == Prefix
  {
    forall p | p in Recommendations(s, props)
      ensures p in AllProps
    {
      TrackedProp(p);
    }
  }

  /** `current_configuration` for a cluster whose settings read `st`: its name, its shape, and twelve of the thirteen settings. */
  function Configuration(c: Cluster, info: MachineTypeInfo, st: Settings): map<Field, Value> {
    map[
      ClusterName := Str(c.clusterName),
      MachineType := Str(info.name),
      Nodes := Int(c.numInstances),
      Vcores := Int(info.guestCpus),
      RamPerNode := Int(info.memoryMb),
      Setting(ExecutorCores) := Str(st.executorCores),
      Setting(DriverCores) := Str(st.driverCores),
      Setting(ExecutorInstances) := Str(st.executorInstances),
      Setting(ExecutorMemory) := Str(st.executorMemory),
      Setting(DriverMemory) := Str(st.driverMemory),
      Setting(ExecutorMemoryOverhead) := Str(st.executorMemoryOverhead),
      Setting(DefaultParallelism) := Str(st.defaultParallelism),
      Setting(SqlShufflePartitions) := Str(st.sqlShufflePartitions),
      Setting(ShuffleSpillCompress) := Str(st.shuffleSpillCompress),
      Setting(IoCompressionCodec) := Str(st.ioCompressionCodec),
      Setting(DynamicAllocationEnabled) := Str(st.dynamicAllocationEnabled),
      Setting(ShuffleServiceEnabled) := Str(st.shuffleServiceEnabled)
    ]
  }

  /** The current configuration of a cluster, from its normalised settings. */
  function CurrentConfiguration(c: Cluster, info: MachineTypeInfo): map<Field, Value>
    requires ValidProperties(c.properties)
  {
    Configuration(c, info, ReadSettings(c.properties))
  }

  /** The keys of the configuration: the shape fields and every tracked property but `spark.checkpoint.compress`. */
  lemma ConfigurationKeys(c: Cluster, info: MachineTypeInfo, st: Settings)
    ensures Configuration(c, info, st).Keys
            == {ClusterName, MachineType, Nodes, Vcores, RamPerNode} + (set p | p in AllProps - {CheckpointCompress} :: Setting(p))
  {
    var cc := Configuration(c, info, st);
    var fixed := {ClusterName, MachineType, Nodes, Vcores, RamPerNode};
    var tracked := set p | p in AllProps - {CheckpointCompress} :: Setting(p);
    forall f | f in cc.Keys
      ensures f in fixed + tracked
    {
      if f.Setting? {
        assert f.p in AllProps - {CheckpointCompress};
      }
    }
  }

  /** Each tracked property but `spark.checkpoint.compress` is stored under its own field, with the value read. */
  lemma ConfigurationValue(c: Cluster, info: MachineTypeInfo, st: Settings, p: Prop)
    requires p != CheckpointCompress
    ensures Setting(p) in Configuration(c, info, st) && Configuration(c, info, st)[Setting(p)] == Str(Get(st, p))
  {
  }

  /** The shape fields of the configuration: the cluster's name and size and its machine type's name and capacity. */
  lemma ConfigurationShape(c: Cluster, info: MachineTypeInfo, st: Settings)
    ensures var cc := Configuration(c, info, st);
            && ClusterName in cc && cc[ClusterName] == Str(c.clusterName)
            && MachineType in cc && cc[MachineType] == Str(info.name)
            && Nodes in cc && cc[Nodes] == Int(c.numInstances)
            && Vcores in cc && cc[Vcores] == Int(info.guestCpus)
            && RamPerNode in cc && cc[RamPerNode] == Int(info.memoryMb)
  {
  }

  /**
   `current_configuration` stores every tracked property except
   `spark.checkpoint.compress`, each with its current value: the memory
   settings normalised, the others as read.
   */
  lemma CurrentConfigurationSettings(c: Cluster, info: MachineTypeInfo, p: Prop)
    requires ValidProperties(c.properties)
    ensures Setting(p) in CurrentConfiguration(c, info) <==> p != CheckpointCompress
    ensures p != CheckpointCompress ==> CurrentConfiguration(c, info)[Setting(p)] == Str(Current(c.properties, p))
  {
    var st := ReadSettings(c.properties);
    ConfigurationKeys(c, info, st);
    TrackedProp(p);
    if p != CheckpointCompress {
      ConfigurationValue(c, info, st, p);
      ReadSettingsCurrent(c.properties, p);
    }
  }

  /** The report for a cluster whose workers have the given machine type. */
  function Evaluate(c: Cluster, info: MachineTypeInfo): Report
    requires ValidProperties(c.properties)
  {
    Report(CurrentConfiguration(c, info), Recommendations(ShapeOf(c, info), c.properties))
  }

  /**
   The checks of the fixed best-practice values (the first seven checks):
   each inserts its entry into `recommendations` when its rule flags the
   current setting.
   */
  method CheckFixedPolicies(settings: Settings, ghost targets: Targets) returns (recommendations: map<Prop, Value>)
    ensures recommendations == FlagFirst(targets, settings, 7)
  {
    recommendations := map[];
    if Str(settings.executorCores) != Int(5) {
      recommendations := recommendations[ExecutorCores := Int(5)];
    }
    FlagFirstStep(targets, settings, 0, ExecutorCores, Str(settings.executorCores) != Int(5), Int(5));
    assert recommendations == FlagFirst(targets, settings, 1);
    if Str(settings.driverCores) != Int(5) {
      recommendations := recommendations[DriverCores := Int(5)];
    }
    FlagFirstStep(targets, settings, 1, DriverCores, Str(settings.driverCores) != Int(5), Int(5));
    assert recommendations == FlagFirst(targets, settings, 2);
    if settings.shuffleSpillCompress != "true" {
      recommendations := recommendations[ShuffleSpillCompress := Str("true")];
    }
    FlagFirstStep(targets, settings, 2, ShuffleSpillCompress, settings.shuffleSpillCompress != "true", Str("true"));
    assert recommendations == FlagFirst(targets, settings, 3);
    if settings.checkpointCompress != "true" {
      recommendations := recommendations[CheckpointCompress := Str("true")];
    }
    FlagFirstStep(targets, settings, 3, CheckpointCompress, settings.checkpointCompress != "true", Str("true"));
    assert recommendations == FlagFirst(targets, settings, 4);
    if settings.ioCompressionCodec == "" {
      recommendations := recommendations[IoCompressionCodec := Str(CodecHint)];
    }
    FlagFirstStep(targets, settings, 4, IoCompressionCodec, settings.ioCompressionCodec == "", Str(CodecHint));
    assert recommendations == FlagFirst(targets, settings, 5);
    if settings.shuffleServiceEnabled == "" {
      recommendations := recommendations[ShuffleServiceEnabled := Str(SharingHint)];
    }
    FlagFirstStep(targets, settings, 5, ShuffleServiceEnabled, settings.shuffleServiceEnabled == "", Str(SharingHint));
    assert recommendations == FlagFirst(targets, settings, 6);
    if settings.dynamicAllocationEnabled == "" {
      recommendations := recommendations[DynamicAllocationEnabled := Str(SharingHint)];
    }
    FlagFirstStep(targets, settings, 6, DynamicAllocationEnabled, settings.dynamicAllocationEnabled == "", Str(SharingHint));
  }

  /**
   The checks of the values derived from the cluster's shape (the last six
   checks), continuing the `recommendations` of the first seven.
   */
  method CheckDerivedValues(recommendations0: map<Prop, Value>, settings: Settings, targets: Targets)
      returns (recommendations: map<Prop, Value>)
    requires recommendations0 == FlagFirst(targets, settings, 7)
    ensures recommendations == FlagFirst(targets, settings, Checks)
  {
    recommendations := recommendations0;
    var recExecutorInstances := targets.executorInstances;
    var recExecutorMemory := targets.executorMemory;
    var recDriverMemory := recExecutorMemory;
    var recExecutorMemoryOverhead := targets.executorMemoryOverhead;
    var recDefaultParallelism := targets.defaultParallelism;
    var recSqlShufflePartitions := recDefaultParallelism;
    if Str(settings.executorInstances) != Int(recExecutorInstances) {
      recommendations := recommendations[ExecutorInstances := Int(recExecutorInstances)];
    }
    FlagFirstStep(targets, settings, 7, ExecutorInstances, Str(settings.executorInstances) != Int(recExecutorInstances), Int(recExecutorInstances));
    assert recommendations == FlagFirst(targets, settings, 8);
    if settings.executorMemory != recExecutorMemory {
      recommendations := recommendations[ExecutorMemory := Str(recExecutorMemory)];
    }
    FlagFirstStep(targets, settings, 8, ExecutorMemory, settings.executorMemory != recExecutorMemory, Str(recExecutorMemory));
    assert recommendations == FlagFirst(targets, settings, 9);
    if settings.driverMemory != recDriverMemory {
      recommendations := recommendations[DriverMemory := Str(recDriverMemory)];
    }
    FlagFirstStep(targets, settings, 9, DriverMemory, settings.driverMemory != recDriverMemory, Str(recDriverMemory));
    assert recommendations == FlagFirst(targets, settings, 10);
    if settings.executorMemoryOverhead != recExecutorMemoryOverhead {
      recommendations := recommendations[ExecutorMemoryOverhead := Str(recExecutorMemoryOverhead)];
    }
    FlagFirstStep(targets, settings, 10, ExecutorMemoryOverhead, settings.executorMemoryOverhead != recExecutorMemoryOverhead, Str(recExecutorMemoryOverhead));
    assert recommendations == FlagFirst(targets, settings, 11);
    if Str(settings.defaultParallelism) != Int(recDefaultParallelism) {
      recommendations := recommendations[DefaultParallelism := Int(recDefaultParallelism)];
    }
    FlagFirstStep(targets, settings, 11, DefaultParallelism, Str(settings.defaultParallelism) != Int(recDefaultParallelism), Int(recDefaultParallelism));
    assert recommendations == FlagFirst(targets, settings, 12);
    if Str(settings.sqlShufflePartitions) != Int(recSqlShufflePartitions) {
      recommendations := recommendations[SqlShufflePartitions := Int(recSqlShufflePartitions)];
    }
    FlagFirstStep(targets, settings, 12, SqlShufflePartitions, Str(settings.sqlShufflePartitions) != Int(recSqlShufflePartitions), Int(recSqlShufflePartitions));
  }

  /**
   `evaluate_spark_properties`: reads the settings, normalises the memory
   ones, derives the recommended values, runs the checks in order and fills
   `current_configuration`.
   */
  method EvaluateSparkProperties(cluster: Cluster, lookup: string -> seq<MachineTypeInfo>) returns (report: Report)
    requires |lookup(MachineTypeName(cluster.machineTypeUri))| > 0
    requires ValidProperties(cluster.properties)
    ensures report == Evaluate(cluster, lookup(MachineTypeName(cluster.machineTypeUri))[0])
  {
    var propertyMap := cluster.properties;
    var machineTypeStr := MachineTypeName(cluster.machineTypeUri);
    var machineTypeInfo := lookup(machineTypeStr)[0];

    var machineType := machineTypeInfo.name;
    var nodes := cluster.numInstances;
    var ramPerNode := machineTypeInfo.memoryMb;
    var vcores := machineTypeInfo.guestCpus;

    var executorCores := propertyMap[Key(ExecutorCores)];
    var driverCores := propertyMap[Key(DriverCores)];
    var executorInstances := propertyMap[Key(ExecutorInstances)];
    var executorMemory := propertyMap[Key(ExecutorMemory)];
    var driverMemory := propertyMap[Key(DriverMemory)];
    var executorMemoryOverhead := propertyMap[Key(ExecutorMemoryOverhead)];
    var defaultParallelism := propertyMap[Key(DefaultParallelism)];
    var sqlShufflePartitions := propertyMap[Key(SqlShufflePartitions)];
    var shuffleSpillCompress := propertyMap[Key(ShuffleSpillCompress)];
    var checkpointCompress := propertyMap[Key(CheckpointCompress)];
    var ioCompressionCodec := propertyMap[Key(IoCompressionCodec)];
    var dynamicAllocationEnabled := propertyMap[Key(DynamicAllocationEnabled)];
    var shuffleServiceEnabled := propertyMap[Key(ShuffleServiceEnabled)];

    executorMemory := Normalize(executorMemory);
    driverMemory := Normalize(driverMemory);
    executorMemoryOverhead := Normalize(executorMemoryOverhead);
    var settings := Settings(
      executorCores, driverCores, executorInstances, executorMemory, driverMemory, executorMemoryOverhead,
      defaultParallelism, sqlShufflePartitions, shuffleSpillCompress, checkpointCompress, ioCompressionCodec,
      dynamicAllocationEnabled, shuffleServiceEnabled);

    var shape := Shape(nodes, vcores, ramPerNode);
    var recExecutorInstances := RecommendedInstances(shape);
    var recExecutorMemory := MemoryString(ExecutorMemoryMb(shape));
    var recExecutorMemoryOverhead := MemoryString(ExecutorMemoryOverheadMb(shape));
    var recDefaultParallelism := RecommendedParallelism(shape);
    var targets := Targets(recExecutorInstances, recExecutorMemory, recExecutorMemoryOverhead, recDefaultParallelism);

    var recommendations := CheckFixedPolicies(settings, targets);
    recommendations := CheckDerivedValues(recommendations, settings, targets);

    var currentConfig: map<Field, Value> := map[];
    currentConfig := currentConfig[ClusterName := Str(cluster.clusterName)];
    currentConfig := currentConfig[MachineType := Str(machineType)];
    currentConfig := currentConfig[Nodes := Int(nodes)];
    currentConfig := currentConfig[Vcores := Int(vcores)];
    currentConfig := currentConfig[RamPerNode := Int(ramPerNode)];
    currentConfig := currentConfig[Setting(ExecutorCores) := Str(executorCores)];
    currentConfig := currentConfig[Setting(DriverCores) := Str(driverCores)];
    currentConfig := currentConfig[Setting(ExecutorInstances) := Str(executorInstances)];
    currentConfig := currentConfig[Setting(ExecutorMemory) := Str(executorMemory)];
    currentConfig := currentConfig[Setting(DriverMemory) := Str(driverMemory)];
    currentConfig := currentConfig[Setting(ExecutorMemoryOverhead) := Str(executorMemoryOverhead)];
    currentConfig := currentConfig[Setting(DefaultParallelism) := Str(defaultParallelism)];
    currentConfig := currentConfig[Setting(SqlShufflePartitions) := Str(sqlShufflePartitions)];
    currentConfig := currentConfig[Setting(ShuffleSpillCompress) := Str(shuffleSpillCompress)];
    currentConfig := currentConfig[Setting(IoCompressionCodec) := Str(ioCompressionCodec)];
    currentConfig := currentConfig[Setting(DynamicAllocationEnabled) := Str(dynamicAllocationEnabled)];
    currentConfig := currentConfig[Setting(ShuffleServiceEnabled) := Str(shuffleServiceEnabled)];

    report := Report(currentConfig, recommendations);
  }
}
