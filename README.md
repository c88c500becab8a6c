# Spark property recommendations for Dataproc clusters

A Dafny model of the engine that looks at one Dataproc cluster and writes
a report on its Spark settings.

The engine first takes the worker hardware:
- the node count;
- the vCPUs and memory per node, from the worker machine type.

From that shape it derives:
- how many executors fit on a node;
- how many executor instances the cluster should run;
- how much heap and overhead memory each executor gets;
- how many tasks a stage should be split into.

It reads thirteen `spark:`-prefixed properties from the cluster's property
map. Before comparing, it rewrites any gigabyte-valued memory setting in
megabytes. The report it returns has two dictionaries:
- `recommendations` holds each property whose current value fails its rule, with the value it should have.
- `current_configuration` echoes the shape and the settings read.

The model is in five modules:

- `Decimal`: Python's `str(int)` and `int(str)` for plain decimal literals. They round-trip.
- `Sizing`: the sizing formulas, with Python's half-even `round`. The memory figures are exact floors and ceilings.
- `Properties`:
  - the `int`-or-`str` values the dictionaries hold;
  - the thirteen properties and their keys;
  - `gb_to_mb_property` and the guarded normalisation;
  - the policy table: which value each property should have, and when it is flagged.
- `Engine`:
  - `Recommendations` and `CurrentConfiguration` are functions specifying the two dictionaries.
  - `EvaluateSparkProperties` is a method that builds them step by step, as the source does. It is proved to produce exactly the specified report.
  - Lemmas state which keys each dictionary holds, and with what values.
- `Intended`: the comparison the engine evidently means (see Findings). It settles: after its recommendations are applied, nothing more is recommended. The engine as written does not settle.

The `str` versus `int` comparisons are kept as written: `Str(s) != Int(i)` always holds.

## Model

| member | source | states |
|---|---|---|
| Decimal.ParseIntToString | src/main.py:154 | `int(str(i)) == i` for every integer, negative ones included |
| Decimal.IntToStringInjective | src/main.py:80-82 | distinct integers give distinct `str` texts, so comparing the texts compares the numbers |
| Decimal.IntToString | src/main.py:80-82 | Python's `str(i)`: an optional `-` and then the decimal digits; `ParseIntToString` shows it reads back as `i` |
| Decimal.ParseInt | src/main.py:154 | Python's `int(s)` on a decimal literal; `ParseIntToString` shows it inverts `IntToString` |
| Sizing.RoundHalfEvenIsNearest | src/main.py:77 | `round(n / d)` is within half of `d` of `n`; on a tie it is even |
| Sizing.RoundHalfEven | src/main.py:77 | Python's `round(n / d)` on the exact quotient; `RoundHalfEvenIsNearest` gives its meaning |
| Sizing.ExecutorsPerNodeClosedForm | src/main.py:77 | `(vcores - 1) / 5` is never exactly halfway, so executors per node is `max(1, (vcores + 1) div 5)` |
| Sizing.ExecutorsPerNodeSmallNodes | src/main.py:77 | up to 8 cores give one executor per node; from 9 cores it is `(vcores + 1) div 5`, which is at least 2 |
| Sizing.ExecutorsPerNode | src/main.py:77 | executors per node is at least one |
| Sizing.RecommendedInstances | src/main.py:79 | recommended `executor.instances` is at least one |
| Sizing.Slots | src/main.py:79 | `executor_per_node * nodes`, the executor slots of the cluster |
| Sizing.ExecutorMemoryIsFloor | src/main.py:80 | heap MB is the floor of `0.9 * (ram - 1024) / epn`; `epn` is executors per node |
| Sizing.ExecutorMemoryMb | src/main.py:80 | the heap figure in MB before the `m` is appended; `ExecutorMemoryIsFloor` gives its meaning |
| Sizing.OverheadIsCeiling | src/main.py:82 | overhead MB is the ceiling of `0.1 * (ram - 1024) / epn` |
| Sizing.ExecutorMemoryOverheadMb | src/main.py:82 | the overhead figure in MB before the `m` is appended; `OverheadIsCeiling` gives its meaning |
| Sizing.RecommendedParallelism | src/main.py:83-84 | `(slots - 1) * 10`, used for both `default.parallelism` and `sql.shuffle.partitions`; `ParallelismVersusInstances` relates it to the instance count |
| Sizing.ParallelismVersusInstances | src/main.py:79-84 | parallelism is ten times the instances when there are at least two slots; with one slot the instances are floored at 1 but parallelism is 0; parallelism is non-negative when there is a node |
| Sizing.MemorySplitCoversUsable | src/main.py:80-82 | heap plus overhead, times `epn`, is within `epn` MB of a node's usable memory |
| Sizing.ExampleSixteenCores | src/main.py:77-84 | 3 nodes, 16 cores, 65536 MB give 3 per node, 8 instances, 19353 MB heap, 2151 MB overhead and parallelism 80 |
| Properties.ExampleSixteenCoresTargets | src/main.py:79-84 | for that shape the recommended values are 8 instances, `"19353m"` heap, `"2151m"` overhead and parallelism 80 |
| Properties.KeysDistinct | src/main.py:56-68 | the thirteen property names, and so their `spark:` keys, are pairwise distinct |
| Properties.Key | src/main.py:56-68 | every property key starts with `spark:` |
| Properties.MemoryStringParses | src/main.py:80-82 | a recommended memory string is a decimal numeral followed by `m`, and it reads back as the number of MB |
| Properties.MemoryString | src/main.py:80-82 | `str(mb) + "m"`, which contains no `g`; `MemoryStringParses` shows it reads back as `mb` |
| Properties.TargetsFor | src/main.py:79-84 | the four derived recommendations of a shape, memory figures written with `MemoryString` |
| Properties.GbToMbScales | src/main.py:153-155 | `gb_to_mb_property` writes a numeral followed by `m` whose value is 1024 times the numeral before the unit letter |
| Properties.GbToMb | src/main.py:153-155 | the output of `gb_to_mb_property` contains no `g` |
| Properties.GbUnitIsLast | src/main.py:154 | in a gigabyte value the letter dropped is the `g` itself |
| Properties.Normalize | src/main.py:70-75 | after normalisation a value has no `g`; a value without `g` is left unchanged |
| Properties.NormalizeIdempotent | src/main.py:70-75 | normalising twice is normalising once |
| Properties.NormalizeExamples | src/main.py:153-155 | `"4g"` becomes `"4096m"`; `"4096m"` is left alone |
| Properties.IntRulesAlwaysFlag | src/main.py:88-92 | a `str` compared with `!=` against an `int` always flags; the text comparison flags only a different numeral |
| Properties.StrRulesAgree | src/main.py:94-118 | for `str`-valued rules and emptiness rules the two comparisons agree |
| Properties.RuleFor | src/main.py:86-124 | the policy of each property: the value it must equal, or the advice given when it is empty; it is what `RecommendationsContents` refers to |
| Properties.Flags | src/main.py:88-124 | the test each `if` applies: `!=` between Python values (a `str` never equals an `int`) or `== ''`; `IntRulesAlwaysFlag` and `StrRulesAgree` give its meaning |
| Properties.IntendedFlags | src/main.py:88-124 | the comparison against the recommended value's text that the Findings section argues for |
| Engine.MachineTypeNameIsLastSegment | src/main.py:48 | the machine-type name has no `/`; it is a suffix of the URI; when shorter than the URI, a `/` comes right before it |
| Engine.MachineTypeNameOfPath | src/main.py:48 | for `path + "/" + name` with `name` free of `/`, the name is `name` |
| Engine.MachineTypeName | src/main.py:48 | `uri.split("/")[-1]`; `MachineTypeNameIsLastSegment` gives its meaning |
| Engine.ShapeOf | src/main.py:51-54 | the node count, vCPUs and memory per node that the formulas read |
| Engine.Current | src/main.py:56-75 | the value the engine compares for a property: the memory settings normalised, the others as read |
| Engine.ReadSettings | src/main.py:56-75 | the thirteen reads and the three guarded normalisations; `ReadSettingsCurrent` relates it to `Current` |
| Engine.ReadSettingsCurrent | src/main.py:56-75 | each setting read is the property's value, normalised for the three memory settings |
| Engine.At | src/main.py:88-124 | the order of the thirteen checks in the source |
| Engine.FlagFirst | src/main.py:86-124 | the `recommendations` map after the first `n` checks; `FlagFirstContents` gives its meaning |
| Engine.Recommendations | src/main.py:86-124 | the `recommendations` map after all thirteen checks; `RecommendationsContents` gives its meaning |
| Engine.FlagFirstContents | src/main.py:86-124 | after the first `n` checks in source order, a property is recommended iff it was among those checks and fails its rule; its value is the rule's |
| Engine.RecommendationsContents | src/main.py:86-124 | a property is in `recommendations` iff its current value fails its rule; its value is the rule's recommendation |
| Engine.IntegerKeysAlwaysRecommended | src/main.py:86-124 | `executor.cores` and `driver.cores` (5), `executor.instances`, `default.parallelism` and `sql.shuffle.partitions` are recommended whatever the current settings |
| Engine.StringKeysRecommendedOnMismatch | src/main.py:94-118 | the two compression flags are recommended iff not `"true"`; the three memory settings iff their normalised value differs from the recommended string; each with the recommended value |
| Engine.HintKeysRecommendedWhenEmpty | src/main.py:100-107 | the codec, shuffle service and dynamic allocation are recommended iff empty, with the fixed advice text |
| Engine.RecommendationKeysTracked | src/main.py:86-124 | every recommended key is one of the thirteen tracked properties, written with the `spark:` prefix; this holds because the map is keyed by `Prop`, and `KeysDistinct` keeps the thirteen string keys apart |
| Engine.FieldNamesDistinct | src/main.py:127-143 | the seventeen `current_configuration` keys are pairwise distinct strings |
| Engine.FieldName | src/main.py:127-143 | the string key of each `current_configuration` entry |
| Engine.Configuration | src/main.py:126-143 | the seventeen entries of `current_configuration` for given settings; `ConfigurationKeys`, `ConfigurationShape` and `ConfigurationValue` give its meaning |
| Engine.CurrentConfiguration | src/main.py:126-143 | `current_configuration` for the settings read from the cluster; `CurrentConfigurationSettings` gives its meaning |
| Engine.ConfigurationKeys | src/main.py:126-143 | `current_configuration` holds exactly the five shape fields and the twelve tracked properties other than `checkpoint.compress` |
| Engine.ConfigurationShape | src/main.py:127-131 | the shape fields hold the cluster name, the machine-type name, the node count, the vCPUs and the memory |
| Engine.ConfigurationValue | src/main.py:132-143 | each echoed property holds the setting read for it |
| Engine.CurrentConfigurationSettings | src/main.py:132-143 | a property is echoed iff it is not `checkpoint.compress`; memory settings are echoed normalised, the rest as read |
| Engine.CheckFixedPolicies | src/main.py:86-107 | the seven fixed-value and emptiness checks build the map the first seven checks specify |
| Engine.CheckDerivedValues | src/main.py:109-124 | the six checks against derived values extend that map to the full `recommendations` |
| Engine.EvaluateSparkProperties | src/main.py:45-147 | for a machine type the lookup finds, the report is exactly the specified current configuration and recommendations |
| Engine.Evaluate | src/main.py:45-147 | the report: `current_configuration` and `recommendations` for the cluster and its machine type record |
| Intended.IntendedSettles | src/main.py:86-124 | under the intended comparison, writing back the recommendations and evaluating again recommends nothing |
| Intended.IntendedRecommendations | src/main.py:86-124 | the corrected `recommendations`: each property whose current text fails its rule under `IntendedFlags` |
| Intended.AsWrittenNeverSettles | src/main.py:88-92 | as written, after writing back the recommendations, `executor.cores` (5) is recommended again |
| Intended.ExecutorCoresFiveFlagged | src/main.py:88-89 | a cluster already at `executor.cores = "5"` is told to set 5; the intended comparison is not |
| Intended.IntendedWithinAsWritten | src/main.py:86-124 | the intended recommendations are a sub-map of the engine's |
| Intended.AgreeOnStringRules | src/main.py:94-118 | apart from the five `int`-valued properties, the two comparisons recommend the same properties |
| Intended.AppliedIsValid | src/main.py:70-75 | writing back recommended memory strings leaves a property map the engine reads without error |

## Left out

- `load_dataproc_machine_type_info` (a Compute API query with paging and credentials) is a function parameter of `EvaluateSparkProperties`. The `[0]` on its result is the precondition that the result is non-empty.
- `upload_blob`, `evaluate_dataproc_clusters` and the cloud-event entry point `execute` are left out: they are cloud client I/O.
- The environment-variable constants and the empty `evaluate_persistent_disk` stub are left out.
- `json.dumps` is left out. The report is the two dictionaries before serialisation.
- The dictionaries are keyed by `Prop` and `Field` values, not strings. `Key`, `Name` and `FieldName` give the strings, and `KeysDistinct` and `FieldNamesDistinct` show no two keys collide.
- Floating point is not modelled: heap, overhead and executors per node are computed on exact rationals. Float rounding touches three places:
  - the `math.floor` of `(ram - 1024) / epn * 0.9` at line 80, which can come out one lower when the exact value is an integer and the float lands just below it;
  - the `math.ceil` of `(ram - 1024) / epn * 0.1` at line 82, which can come out one higher when the exact value is an integer and the float lands just above it;
  - the float division `(vcores - 1) / 5` inside `round` at line 77, whose exact value is always at least 0.1 away from a tie, so a float error that small cannot change the rounding.
- A missing property key raises `KeyError` in the code. Here it is the precondition `ValidProperties` that all thirteen keys are present. An absent key is not read as an empty value: the code raises, and the model follows the code.
- A memory value that contains `g` without being a number followed by one unit letter raises `ValueError` in `gb_to_mb_property`. That is also part of `ValidProperties`.
- `int()` in this model accepts only an optional `-` followed by ASCII digits. Python also accepts surrounding whitespace, `+` and `_` separators.
- Property values are taken to be strings already, so the `str(...)` around each read is the identity. `num_instances` is taken to be an integer, so `int(num_instances)` is the identity.
- Engine.EvaluateSparkProperties splits the recommendation checks into `CheckFixedPolicies` and `CheckDerivedValues`, which the method calls in order. The checks, their order and their conditions are the source's.

## Findings

| source | as written | input that shows it | evidently intended | confidence | as-written member | corrected member |
|---|---|---|---|---|---|---|
| src/main.py:88-124 | `spark_executor_cores != 5` and the like (lines 88, 91, 109, 120, 123) compare a `str` with an `int`, which is never equal in Python | `spark:spark.executor.cores = "5"`: `executor.cores` is still recommended as 5. Writing every recommendation back and evaluating again recommends these five keys again | compare the current text with `str()` of the recommended integer, so that a cluster configured as recommended gets no recommendations | not executed; likely unintended, since the check can never pass | Intended.AsWrittenNeverSettles | Intended.IntendedSettles |

`Engine.EvaluateSparkProperties` and `Engine.Recommendations` model the engine as written. `Intended.IntendedRecommendations` is the corrected definition:
- `Intended.IntendedWithinAsWritten` relates the two.
- `Intended.ExecutorCoresFiveFlagged` shows on a concrete value where they differ.
