/**
 * What the factory's lifecycle guarantees, stated over single calls and over
 * whole sequences of calls.
 */
module LifecycleProperties {
  import opened Wrappers
  import opened Components
  import opened Lifecycle

  /** No call of the sequence is `destroy()`. */
  predicate NoDestroy(ops: seq<Op>)
  {
    forall i :: 0 <= i < |ops| ==> !ops[i].Destroy?
  }

  /** No call of the sequence is one of the seven single-valued setters. */
  predicate NoStrategySetter(ops: seq<Op>)
  {
    forall i :: 0 <= i < |ops| ==> !IsStrategySetter(ops[i])
  }

  predicate IsStrategySetter(op: Op)
  {
    || op.SetGroupExtractor? || op.SetModelFactory? || op.SetHashBuilder? || op.SetCacheStrategy?
    || op.SetUriLocatorFactory? || op.SetProcessorsFactory? || op.SetNamingStrategy?
  }

  /** All seven single-valued slots are set. */
  predicate StrategiesSet(f: Factory)
  {
    && f.groupExtractor.Some? && f.modelFactory.Some? && f.cacheStrategy.Some? && f.hashStrategy.Some?
    && f.uriLocatorFactory.Some? && f.processorsFactory.Some? && f.namingStrategy.Some?
  }

  /** The seven single-valued slots of `f` and `g` agree. */
  predicate SameStrategySlots(f: Factory, g: Factory)
  {
    && f.groupExtractor == g.groupExtractor && f.modelFactory == g.modelFactory
    && f.cacheStrategy == g.cacheStrategy && f.hashStrategy == g.hashStrategy
    && f.uriLocatorFactory == g.uriLocatorFactory && f.processorsFactory == g.processorsFactory
    && f.namingStrategy == g.namingStrategy
  }

  /**
   * `n` is the manager `m`, seen later: the same instance with the same
   * strategies, whose transformer list has at most grown at its end.
   */
  predicate Evolves(m: Manager, n: Manager)
  {
    && n.generation == m.generation
    && n.groupExtractor == m.groupExtractor && n.cacheStrategy == m.cacheStrategy
    && n.hashStrategy == m.hashStrategy && n.uriLocatorFactory == m.uriLocatorFactory
    && n.processorsFactory == m.processorsFactory && n.namingStrategy == m.namingStrategy
    && n.modelFactory == m.modelFactory
    && m.modelTransformers <= n.modelTransformers
  }

  /** The transformers the sequence adds through `addModelTransformer`, in order. */
  function Added(ops: seq<Op>): seq<Component>
  {
    if ops == [] then []
    else AddedBy(ops[0]) + Added(ops[1..])
  }

  /** How many times the log records a cache being cleared. */
  function Clears(effects: seq<Effect>): nat
  {
    if effects == [] then 0
    else Clears(effects[..|effects| - 1]) + (if effects[|effects| - 1].CacheCleared? then 1 else 0)
  }

  // ---------------------------------------------------------------------------
  // The build

  /**
   * After `create()` on a factory that has not built yet, no slot is null and
   * the returned manager holds exactly the slots' values; the build is the
   * first of a new generation.
   */
  lemma CreateResolvesEverySlot(f: Factory)
    requires Valid(f) && f.cell.None?
    ensures var (g, m) := Get(f);
      && StrategiesSet(g) && TransformerItems(g).Some?
      && UsesSlots(m, g) && TransformerItems(g) == Some(m.modelTransformers)
      && g.cell == Some(m) && m.generation == f.builds && g.builds == f.builds + 1
  {
  }

  /**
   * A slot set before the build reaches the manager unchanged and no default is
   * made for it; a null slot gets the default of this build, stored back.
   */
  lemma SetSlotsArePassedUnchanged(f: Factory)
    requires Valid(f) && f.cell.None?
    ensures var (g, m) := Get(f);
      && (f.groupExtractor.Some? ==> m.groupExtractor == f.groupExtractor.value)
      && (f.groupExtractor.None? ==> g.groupExtractor == Some(NewGroupExtractor(f.builds)))
      && (f.modelFactory.Some? ==> m.modelFactory == f.modelFactory.value)
      && (f.modelFactory.None? ==> g.modelFactory == Some(NewModelFactory(f.smartFactoryAvailable, f.builds)))
      && (f.cacheStrategy.Some? ==> m.cacheStrategy == f.cacheStrategy.value)
      && (f.cacheStrategy.None? ==> g.cacheStrategy == Some(NewCacheStrategy(f.builds)))
      && (f.hashStrategy.Some? ==> m.hashStrategy == f.hashStrategy.value)
      && (f.hashStrategy.None? ==> g.hashStrategy == Some(NewHashStrategy(f.builds)))
      && (f.uriLocatorFactory.Some? ==> m.uriLocatorFactory == f.uriLocatorFactory.value)
      && (f.uriLocatorFactory.None? ==> g.uriLocatorFactory == Some(NewUriLocatorFactory(f.builds)))
      && (f.processorsFactory.Some? ==> m.processorsFactory == f.processorsFactory.value)
      && (f.processorsFactory.None? ==> g.processorsFactory == Some(NewProcessorsFactory(f.builds)))
      && (f.namingStrategy.Some? ==> m.namingStrategy == f.namingStrategy.value)
      && (f.namingStrategy.None? ==> g.namingStrategy == Some(NewNamingStrategy(f.builds)))
  {
  }

  /**
   * The default transformer list is exactly one wildcard expander, and it is
   * used only when the field is null at build time: a list set or started by
   * `addModelTransformer` before the build is used as it is.
   */
  lemma DefaultTransformersOnlyWhenNull(f: Factory)
    requires Valid(f) && f.cell.None?
    ensures f.modelTransformers.Null? ==> Get(f).1.modelTransformers == [WildcardExpander(f.builds)]
    ensures !f.modelTransformers.Null? ==> Get(f).1.modelTransformers == TransformerItems(f).value
  {
  }

  /**
   * The default model factory is the smart factory exactly when it is
   * available, the XML factory otherwise; either way the build succeeds.
   */
  lemma DefaultModelFactoryPrefersSmart(f: Factory)
    requires Valid(f) && f.cell.None? && f.modelFactory.None?
    ensures Get(f).1.modelFactory.Made?
    ensures Get(f).1.modelFactory.kind == SmartWroModelFactory <==> f.smartFactoryAvailable
    ensures Get(f).1.modelFactory.kind == XmlModelFactory <==> !f.smartFactoryAvailable
  {
  }

  // ---------------------------------------------------------------------------
  // The transformer list

  /**
   * `addModelTransformer` touches only the list: no strategy slot, no build and
   * no log entry changes, and a built manager stays the same instance; when the
   * list is the built manager's, the manager sees the addition at its end.
   */
  lemma AddModelTransformerAppends(f: Factory, t: Component)
    requires Valid(f)
    ensures var g := Apply(f, AddModelTransformer(t));
      && SameStrategySlots(f, g) && g.builds == f.builds && g.effects == f.effects
      && (f.cell.Some? <==> g.cell.Some?)
      && (f.cell.Some? ==> Evolves(f.cell.value, g.cell.value))
      && (f.modelTransformers.SharedWithManager? ==>
            g.cell.value.modelTransformers == f.cell.value.modelTransformers + [t])
  {
    if f.modelTransformers.SharedWithManager? {
      var g := Apply(f, AddModelTransformer(t));
      assert g.cell.value.modelTransformers == f.cell.value.modelTransformers + [t];
    }
  }

  /** The transformers one call adds through `addModelTransformer`. */
  function AddedBy(op: Op): seq<Component>
  {
    if op.AddModelTransformer? then [op.t] else []
  }

  /**
   * One call other than `setModelTransformers` changes an existing list only by
   * what it adds.
   */
  lemma StepKeepsTransformers(f: Factory, op: Op)
    requires Valid(f) && Allowed(f, op) && TransformerItems(f).Some? && !op.SetModelTransformers?
    ensures TransformerItems(Apply(f, op)) == Some(TransformerItems(f).value + AddedBy(op))
  {
    if !op.AddModelTransformer? {
      assert TransformerItems(f).value + AddedBy(op) == TransformerItems(f).value;
    }
  }

  /**
   * Without `setModelTransformers`, the list only changes by the transformers
   * added, appended in call order: building, destroying and notifying never put
   * a wildcard expander into a list that already exists.
   */
  lemma {:induction false} TransformersGrowOnlyByAdds(f: Factory, ops: seq<Op>)
    requires Valid(f) && Feasible(f, ops) && TransformerItems(f).Some?
    requires forall i :: 0 <= i < |ops| ==> !ops[i].SetModelTransformers?
    ensures TransformerItems(Run(f, ops)) == Some(TransformerItems(f).value + Added(ops))
    decreases |ops|
  {
    var items := TransformerItems(f).value;
    if ops == [] {
      assert items + Added(ops) == items;
    } else {
      var g := Apply(f, ops[0]);
      var rest := ops[1..];
      StepKeepsTransformers(f, ops[0]);
      TransformersGrowOnlyByAdds(g, rest);
      assert Added(ops) == AddedBy(ops[0]) + Added(rest);
      assert (items + AddedBy(ops[0])) + Added(rest) == items + Added(ops);
      assert Run(f, ops) == Run(g, rest);
    }
  }

  // ---------------------------------------------------------------------------
  // The build-once cell

  /** A second `create()` returns the same manager and changes nothing. */
  lemma CreateIsMemoised(f: Factory)
    requires Valid(f)
    ensures Get(Get(f).0) == Get(f)
  {
  }

  /**
   * One call that is not `destroy()`: a built manager stays built, the same
   * instance with the same strategies (setters are inert for it), and at most
   * one build happens.
   */
  lemma StepKeepsManager(f: Factory, op: Op)
    requires Valid(f) && Allowed(f, op) && !op.Destroy?
    ensures var g := Apply(f, op);
      && (f.cell.Some? ==> g.cell.Some? && g.builds == f.builds && Evolves(f.cell.value, g.cell.value))
      && (f.cell.None? ==> (g.cell.None? && g.builds == f.builds) || (g.cell.Some? && g.builds == f.builds + 1))
  {
  }

  /**
   * In any sequence of calls without `destroy()` the build runs at most once;
   * once a manager is built, every later `create()` returns that same manager,
   * whatever setters are called in between.
   */
  lemma {:induction false} BuildRunsAtMostOnce(f: Factory, ops: seq<Op>)
    requires Valid(f) && Feasible(f, ops) && NoDestroy(ops)
    ensures Run(f, ops).builds <= f.builds + 1
    ensures f.cell.Some? ==>
              && Run(f, ops).builds == f.builds && Run(f, ops).cell.Some?
              && Evolves(f.cell.value, Run(f, ops).cell.value)
    decreases |ops|
  {
    if ops != [] {
      var g := Apply(f, ops[0]);
      StepKeepsManager(f, ops[0]);
      assert NoDestroy(ops[1..]) by {
        forall i | 0 <= i < |ops[1..]| ensures !ops[1..][i].Destroy? {
          assert ops[1..][i] == ops[i + 1];
        }
      }
      BuildRunsAtMostOnce(g, ops[1..]);
    }
  }

  /**
   * `destroy()` then `create()` builds a new manager (a later generation than
   * the one destroyed) from the factory's current fields; the list the old
   * manager held is handed to the new one.
   */
  lemma DestroyThenCreateRebuilds(f: Factory)
    requires Valid(f) && f.cell.Some?
    ensures var (g, m) := Get(Apply(f, Destroy));
      && m.generation == f.builds && m.generation != f.cell.value.generation
      && g.builds == f.builds + 1
      && m.modelTransformers ==
           (if TransformerItems(f).Some? then TransformerItems(f).value else [WildcardExpander(f.builds)])
      && (StrategiesSet(f) ==> UsesSlots(m, f))
  {
  }

  /** One call that is not a strategy setter keeps resolved slots, and the manager in the cell holds them. */
  lemma StepKeepsStrategies(f: Factory, op: Op)
    requires Valid(f) && Allowed(f, op) && StrategiesSet(f) && !IsStrategySetter(op)
    requires f.cell.Some? ==> UsesSlots(f.cell.value, f)
    ensures SameStrategySlots(Apply(f, op), f)
    ensures Apply(f, op).cell.Some? ==> UsesSlots(Apply(f, op).cell.value, f)
  {
  }

  /**
   * Once every strategy slot is resolved, and as long as no strategy setter is
   * called, the slots keep their values through any number of rebuilds: the
   * defaults made by an earlier build are reused, and every manager in the
   * cell holds exactly these strategies.
   */
  lemma {:induction false} ResolvedStrategiesPersist(f: Factory, ops: seq<Op>)
    requires Valid(f) && Feasible(f, ops) && StrategiesSet(f) && NoStrategySetter(ops)
    requires f.cell.Some? ==> UsesSlots(f.cell.value, f)
    ensures SameStrategySlots(Run(f, ops), f)
    ensures Run(f, ops).cell.Some? ==> UsesSlots(Run(f, ops).cell.value, f)
    decreases |ops|
  {
    if ops != [] {
      var g := Apply(f, ops[0]);
      assert !IsStrategySetter(ops[0]);
      StepKeepsStrategies(f, ops[0]);
      assert NoStrategySetter(ops[1..]) by {
        forall i | 0 <= i < |ops[1..]| ensures !IsStrategySetter(ops[1..][i]) {
          assert ops[1..][i] == ops[i + 1];
        }
      }
      ResolvedStrategiesPersist(g, ops[1..]);
      assert Run(f, ops) == Run(g, ops[1..]);
    }
  }

  // ---------------------------------------------------------------------------
  // Notifications

  lemma {:induction false} ClearsAppend(a: seq<Effect>, b: seq<Effect>)
    ensures Clears(a + b) == Clears(a) + Clears(b)
    decreases |b|
  {
    if b != [] {
      var last := b[|b| - 1];
      assert (a + b)[..|a + b| - 1] == a + b[..|b| - 1];
      ClearsAppend(a, b[..|b| - 1]);
    } else {
      assert a + b == a;
    }
  }

  /**
   * `onModelPeriodChanged` builds the manager when none is built (the one a
   * `create()` would return), and never fails: with a context it notifies that
   * manager and clears its cache strategy exactly once; without one it clears
   * nothing and records nothing.
   */
  lemma ModelPeriodChangeClearsCacheOnce(f: Factory, period: int, contextAvailable: bool)
    requires Valid(f)
    ensures var g := Apply(f, OnModelPeriodChanged(period, contextAvailable));
      && g.cell == Get(f).0.cell && g.builds == Get(f).0.builds
      && Clears(g.effects) == Clears(f.effects) + (if contextAvailable then 1 else 0)
      && (contextAvailable ==> g.effects[|g.effects| - 1] == CacheCleared(g.cell.value.cacheStrategy))
  {
    var g := Apply(f, OnModelPeriodChanged(period, contextAvailable));
    var m := Get(f).1;
    if contextAvailable {
      var tail := [ModelPeriodNotified(m.generation, period), CacheCleared(m.cacheStrategy)];
      ClearsAppend(f.effects, tail);
      assert Clears(tail) == 1 by {
        var head := [ModelPeriodNotified(m.generation, period)];
        assert tail[..|tail| - 1] == head;
        assert head[..|head| - 1] == [];
        assert Clears(head) == 0;
      }
    }
  }

  /**
   * `onCachePeriodChanged` builds the manager when none is built and never
   * fails; the factory itself never clears a cache here (what the manager does
   * with the notification is not modelled).
   */
  lemma CachePeriodChangeNeverClears(f: Factory, period: int, contextAvailable: bool)
    requires Valid(f)
    ensures var g := Apply(f, OnCachePeriodChanged(period, contextAvailable));
      && g.cell == Get(f).0.cell && g.builds == Get(f).0.builds
      && Clears(g.effects) == Clears(f.effects)
  {
    var g := Apply(f, OnCachePeriodChanged(period, contextAvailable));
    if contextAvailable {
      var m := Get(f).1;
      ClearsAppend(f.effects, [CachePeriodNotified(m.generation, period)]);
      assert [CachePeriodNotified(m.generation, period)][..0] == [];
    }
  }
}
