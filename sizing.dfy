/**
 The sizing formulas of the Spark recommendation engine: how many executors
 fit on a worker node, how many the cluster should run, how much heap and
 off-heap memory each gets and how many tasks a stage should be split into.

 The source computes the memory figures in floating point
 (`(ram - 1024) / executors * 0.9` and `* 0.1`); here they are the exact
 floor and ceiling of the rational values 9u/10e and u/10e.
 */
module Sizing {

  /** The hardware shape of a cluster's workers. */
  datatype Shape = Shape(nodes: int, vcores: int, ramPerNode: int)

  /** Memory reserved on every node for the operating system and the node daemons, in MB. */
  const ReservedMb := 1024

  function Abs(x: int): nat {
    if x < 0 then -x else x
  }

  /**
   Python's `round(n / d)`: the integer nearest to the exact quotient,
   a tie going to the even neighbour.
   */
  function RoundHalfEven(n: int, d: int): int
    requires d > 0
  {
    var q, m := n / d, n % d;
    if 2 * m < d then q
    else if 2 * m > d then q + 1
    else if q % 2 == 0 then q
    else q + 1
  }

  /** `RoundHalfEven` picks an integer nearest to n / d, and the even one of two equally near. */
  lemma RoundHalfEvenIsNearest(n: int, d: int)
    requires d > 0
    ensures var r := RoundHalfEven(n, d);
            && 2 * Abs(n - d * r) <= d
            && (2 * Abs(n - d * r) == d ==> r % 2 == 0)
  {
    var q, m := n / d, n % d;
    assert n - d * q == m;
    assert n - d * (q + 1) == m - d;
  }

  /** Executors per node: one core per node is left to the system, the rest go in groups of five; at least one. */
  function ExecutorsPerNode(vcores: int): (e: int)
    ensures e >= 1
  {
    var k := RoundHalfEven(vcores - 1, 5);
    if k > 0 then k else 1
  }

  /** Executor slots in the whole cluster. */
  function Slots(s: Shape): int {
    ExecutorsPerNode(s.vcores) * s.nodes
  }

  /** Recommended `spark.executor.instances`: one slot is given up for the driver, but never fewer than one executor. */
  function RecommendedInstances(s: Shape): (r: int)
    ensures r >= 1
  {
    if Slots(s) - 1 > 0 then Slots(s) - 1 else 1
  }

  /** Memory per node that executors may use, in MB. */
  function UsableMb(s: Shape): int {
    s.ramPerNode - ReservedMb
  }

  /** Recommended executor heap, in MB: 90 % of one executor's share of the usable memory, rounded down. */
  function ExecutorMemoryMb(s: Shape): int {
    (9 * UsableMb(s)) / (10 * ExecutorsPerNode(s.vcores))
  }

  /** The heap figure is the floor of 0.9 * u / e, for u the usable memory and e the executors per node. */
  lemma ExecutorMemoryIsFloor(s: Shape)
    ensures var e, r := ExecutorsPerNode(s.vcores), ExecutorMemoryMb(s);
            10 * e * r <= 9 * UsableMb(s) < 10 * e * (r + 1)
  {
    var e, r := ExecutorsPerNode(s.vcores), ExecutorMemoryMb(s);
    assert 9 * UsableMb(s) == (10 * e) * r + (9 * UsableMb(s)) % (10 * e);
  }

  /** Recommended executor memory overhead, in MB: 10 % of one executor's share of the usable memory, rounded up. */
  function ExecutorMemoryOverheadMb(s: Shape): int {
    -((-UsableMb(s)) / (10 * ExecutorsPerNode(s.vcores)))
  }

  /** The overhead figure is the ceiling of 0.1 * u / e, for u the usable memory and e the executors per node. */
  lemma OverheadIsCeiling(s: Shape)
    ensures var e, r := ExecutorsPerNode(s.vcores), ExecutorMemoryOverheadMb(s);
            10 * e * (r - 1) < UsableMb(s) <= 10 * e * r
  {
    var e := ExecutorsPerNode(s.vcores);
    var q := (-UsableMb(s)) / (10 * e);
    assert -UsableMb(s) == (10 * e) * q + (-UsableMb(s)) % (10 * e);
  }

  /** Recommended `spark.default.parallelism`: ten tasks per executor slot after the driver's, with no lower bound. */
  function RecommendedParallelism(s: Shape): int {
    (Slots(s) - 1) * 10
  }

  /** The rounding in `ExecutorsPerNode` never meets a tie: it is the floor of (vcores + 1) / 5, at least one. */
  lemma ExecutorsPerNodeClosedForm(vcores: int)
    ensures 2 * ((vcores - 1) % 5) != 5
    ensures ExecutorsPerNode(vcores) == if (vcores + 1) / 5 > 0 then (vcores + 1) / 5 else 1
  {
    var n := vcores - 1;
    var q, m := n / 5, n % 5;
    assert n == 5 * q + m;
    if m <= 2 {
      assert (vcores + 1) / 5 == q;
    } else {
      assert vcores + 1 == 5 * (q + 1) + (m - 3);
      assert (vcores + 1) / 5 == q + 1;
    }
  }

  /** A node with up to eight cores runs one executor; from nine cores on, every five more cores add one. */
  lemma ExecutorsPerNodeSmallNodes(vcores: int)
    ensures vcores <= 8 ==> ExecutorsPerNode(vcores) == 1
    ensures vcores >= 9 ==> ExecutorsPerNode(vcores) == (vcores + 1) / 5 >= 2
  {
    ExecutorsPerNodeClosedForm(vcores);
  }

  /**
   `spark.default.parallelism` is ten per recommended executor, except on a
   single-slot cluster, where the instance count is floored at one but the
   parallelism is not: it drops to zero.
   */
  lemma ParallelismVersusInstances(s: Shape)
    ensures Slots(s) >= 2 ==> RecommendedParallelism(s) == 10 * RecommendedInstances(s)
    ensures Slots(s) == 1 ==> RecommendedInstances(s) == 1 && RecommendedParallelism(s) == 0
    ensures s.nodes >= 1 ==> RecommendedParallelism(s) >= 0
  {
    var e := ExecutorsPerNode(s.vcores);
    if s.nodes >= 1 {
      assert e * s.nodes >= s.nodes;
    }
  }

  /**
   The heap and the overhead together cover one executor's share of the
   usable memory within rounding: e * (heap + overhead) is within e MB of
   the usable memory of a node.
   */
  lemma MemorySplitCoversUsable(s: Shape)
    ensures var e, h, o := ExecutorsPerNode(s.vcores), ExecutorMemoryMb(s), ExecutorMemoryOverheadMb(s);
            e * (h + o) - e < UsableMb(s) < e * (h + o) + e
  {
    var e, h, o := ExecutorsPerNode(s.vcores), ExecutorMemoryMb(s), ExecutorMemoryOverheadMb(s);
    var u := UsableMb(s);
    ExecutorMemoryIsFloor(s);
    OverheadIsCeiling(s);
    assert 10 * e * h <= 9 * u < 10 * e * (h + 1);
    assert 10 * e * (o - 1) < u <= 10 * e * o;
    assert 10 * (e * (h + o) - e) < 10 * u < 10 * (e * (h + o) + e);
  }

  /** Three 16-core nodes with 64 GiB each: three executors per node, eight in all. */
  lemma ExampleSixteenCores()
    ensures var s := Shape(3, 16, 65536);
            && ExecutorsPerNode(16) == 3
            && RecommendedInstances(s) == 8
            && ExecutorMemoryMb(s) == 19353
            && ExecutorMemoryOverheadMb(s) == 2151
            && RecommendedParallelism(s) == 80
  {
    ExecutorsPerNodeClosedForm(16);
  }
}
