/**
 The comparison the engine evidently means, and what it buys: a cluster
 reconfigured with the recommendations receives no further ones.

 The engine as written compares the `str` read from the property map with
 the `int` it recommends for five properties, so those five are recommended
 on every cluster, even one already configured that way. The intended
 comparison is with the recommended value's text.
 */
module Intended {
  import opened Decimal
  import opened Sizing
  import opened Properties
  import opened Engine

  /** The recommendations under the intended comparison: each tracked property whose current text fails its rule. */
  function IntendedRecommendations(s: Shape, props: map<string, string>): map<Prop, Value>
    requires ValidProperties(props)
  {
    map p | p in AllProps && IntendedFlags(RuleFor(p, TargetsFor(s)), Current(props, p)) :: Recommended(RuleFor(p, TargetsFor(s)))
  }

  /**
   `updated` is the property map `props` after the recommendations `recs`
   are written into it as `str(value)`; the tracked properties not
   recommended keep their value.
   */
  predicate Applies(props: map<string, string>, recs: map<Prop, Value>, updated: map<string, string>)
    requires forall p :: Key(p) in props
  {
    forall p :: Key(p) in updated && updated[Key(p)] == if p in recs then Show(recs[p]) else props[Key(p)]
  }

  /** The memory rules ask for a megabyte string, which contains no `g`. */
  lemma MemoryRuleIsMegabytes(s: Shape, p: Prop)
    requires IsMemory(p)
    ensures RuleFor(p, TargetsFor(s)).MustEqual? && RuleFor(p, TargetsFor(s)).want.Str?
    ensures 'g' !in Show(Recommended(RuleFor(p, TargetsFor(s))))
  {
  }

  /** Writing back recommendations of the memory rules keeps a property map the engine can read. */
  lemma AppliedIsValid(s: Shape, props: map<string, string>, recs: map<Prop, Value>, updated: map<string, string>)
    requires ValidProperties(props)
    requires forall p :: p in recs ==> recs[p] == Recommended(RuleFor(p, TargetsFor(s)))
    requires Applies(props, recs, updated)
    ensures ValidProperties(updated)
  {
    forall p | IsMemory(p)
      ensures Normalizable(updated[Key(p)])
    {
      MemoryRuleIsMegabytes(s, p);
    }
  }

  /** Every rule is met by the text of its own recommended value. */
  lemma RecommendedPasses(s: Shape, p: Prop)
    ensures !IntendedFlags(RuleFor(p, TargetsFor(s)), Show(Recommended(RuleFor(p, TargetsFor(s)))))
  {
  }

  /** After writing back its own recommendation, a property passes its rule under the intended comparison. */
  lemma SettledAfterApply(s: Shape, props: map<string, string>, updated: map<string, string>, p: Prop)
    requires ValidProperties(props) && ValidProperties(updated)
    requires Applies(props, IntendedRecommendations(s, props), updated)
    ensures !IntendedFlags(RuleFor(p, TargetsFor(s)), Current(updated, p))
    ensures p !in IntendedRecommendations(s, updated)
  {
    var recs := IntendedRecommendations(s, props);
    var rule := RuleFor(p, TargetsFor(s));
    TrackedProp(p);
    if p in recs {
      var text := Show(Recommended(rule));
      assert updated[Key(p)] == text;
      if IsMemory(p) {
        MemoryRuleIsMegabytes(s, p);
        assert Normalize(text) == text;
      }
      assert Current(updated, p) == text;
      RecommendedPasses(s, p);
    } else {
      assert updated[Key(p)] == props[Key(p)];
      assert Current(updated, p) == Current(props, p);
    }
  }

  /**
   The intended recommendations settle: write them into the property map
   and evaluate again, and no property is recommended.
   */
  lemma IntendedSettles(s: Shape, props: map<string, string>, updated: map<string, string>)
    requires ValidProperties(props)
    requires Applies(props, IntendedRecommendations(s, props), updated)
    ensures ValidProperties(updated)
    ensures forall p :: p !in IntendedRecommendations(s, updated)
  {
    AppliedIsValid(s, props, IntendedRecommendations(s, props), updated);
    forall p
      ensures p !in IntendedRecommendations(s, updated)
    {
      SettledAfterApply(s, props, updated, p);
    }
  }

  /**
   The engine as written never settles: whatever was written back,
   `spark.executor.cores` (and the other `int`-valued properties) are
   recommended again.
   */
  lemma AsWrittenNeverSettles(s: Shape, props: map<string, string>, updated: map<string, string>)
    requires ValidProperties(props)
    requires Applies(props, Recommendations(s, props), updated)
    ensures ValidProperties(updated) && Recommendations(s, updated) != map[]
    ensures ExecutorCores in Recommendations(s, updated) && Recommendations(s, updated)[ExecutorCores] == Int(5)
  {
    forall p | p in Recommendations(s, props)
      ensures Recommendations(s, props)[p] == Recommended(RuleFor(p, TargetsFor(s)))
    {
      RecommendationsContents(s, props, p);
    }
    AppliedIsValid(s, props, Recommendations(s, props), updated);
    IntegerKeysAlwaysRecommended(s, updated);
  }

  /** A cluster already at five executor cores is told to use five executor cores, which the intended comparison does not do. */
  lemma ExecutorCoresFiveFlagged(s: Shape, props: map<string, string>)
    requires ValidProperties(props) && props[Key(ExecutorCores)] == "5"
    ensures ExecutorCores in Recommendations(s, props)
    ensures ExecutorCores !in IntendedRecommendations(s, props)
  {
    RecommendationsContents(s, props, ExecutorCores);
    assert IntToString(5) == "5";
  }

  /** The intended recommendations are a part of the engine's: the same values, on a subset of the properties. */
  lemma IntendedWithinAsWritten(s: Shape, props: map<string, string>)
    requires ValidProperties(props)
    ensures forall p :: p in IntendedRecommendations(s, props) ==>
              p in Recommendations(s, props) && Recommendations(s, props)[p] == IntendedRecommendations(s, props)[p]
  {
    forall p | p in IntendedRecommendations(s, props)
      ensures p in Recommendations(s, props) && Recommendations(s, props)[p] == IntendedRecommendations(s, props)[p]
    {
      RecommendationsContents(s, props, p);
    }
  }

  /** The two comparisons differ only on the five `int`-valued properties. */
  lemma AgreeOnStringRules(s: Shape, props: map<string, string>, p: Prop)
    requires ValidProperties(props)
    requires !(p in {ExecutorCores, DriverCores, ExecutorInstances, DefaultParallelism, SqlShufflePartitions})
    ensures p in IntendedRecommendations(s, props) <==> p in Recommendations(s, props)
  {
    RecommendationsContents(s, props, p);
    TrackedProp(p);
    StrRulesAgree(RuleFor(p, TargetsFor(s)), Current(props, p));
  }
}
