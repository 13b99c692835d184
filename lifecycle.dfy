/**
 * The factory's lifecycle as a state machine over values.
 *
 * A `Factory` is everything the factory object and the objects it reaches hold:
 * the eight strategy slots, the lazily built manager (the "cell"), the number of
 * builds so far and a log of what the notifications delivered. `Apply` is the
 * effect of one public call; `Run` the effect of a sequence of calls. The class
 * `ManagerFactory.BaseWroManagerFactory` is proved to follow `Apply` call by call.
 */
module Lifecycle {
  import opened Wrappers
  import opened Components

  /**
   * What the model-transformer field refers to. The built manager receives the
   * factory's list object itself, not a copy, so the field can be null, a list
   * the manager in the cell does not hold, or the very list that manager holds.
   * A manager released by `destroy()` is not tracked here: it may still hold
   * the `Detached` list.
   */
  datatype ListSlot =
    | Null
    | Detached(items: seq<Component>)
    | SharedWithManager

  /** The assembled manager: every strategy resolved, and its transformer list. */
  datatype Manager = Manager(
    generation: nat,
    groupExtractor: Component,
    cacheStrategy: Component,
    hashStrategy: Component,
    uriLocatorFactory: Component,
    processorsFactory: Component,
    namingStrategy: Component,
    modelFactory: Component,
    modelTransformers: seq<Component>)

  /** What the factory has told a manager, or asked of its cache, so far. */
  datatype Effect =
    | CachePeriodNotified(generation: nat, period: int)
    | ModelPeriodNotified(generation: nat, period: int)
    | CacheCleared(cache: Component)

  datatype Factory = Factory(
    smartFactoryAvailable: bool,
    groupExtractor: Option<Component>,
    modelFactory: Option<Component>,
    cacheStrategy: Option<Component>,
    hashStrategy: Option<Component>,
    modelTransformers: ListSlot,
    uriLocatorFactory: Option<Component>,
    processorsFactory: Option<Component>,
    namingStrategy: Option<Component>,
    cell: Option<Manager>,
    builds: nat,
    effects: seq<Effect>)

  /** The public calls on the factory. A setter's `None` is the source's null. */
  datatype Op =
    | SetGroupExtractor(c: Option<Component>)
    | SetModelFactory(c: Option<Component>)
    | SetHashBuilder(c: Option<Component>)
    | SetModelTransformers(list: ListSlot)
    | AddModelTransformer(t: Component)
    | SetCacheStrategy(c: Option<Component>)
    | SetUriLocatorFactory(c: Option<Component>)
    | SetProcessorsFactory(c: Option<Component>)
    | SetNamingStrategy(c: Option<Component>)
    | Create
    | OnCachePeriodChanged(period: int, contextAvailable: bool)
    | OnModelPeriodChanged(period: int, contextAvailable: bool)
    | Destroy

  /**
   * A shared list needs a built manager, and a built manager is older than the
   * build counter.
   */
  predicate Valid(f: Factory)
  {
    && (f.modelTransformers.SharedWithManager? ==> f.cell.Some?)
    && (f.cell.Some? ==> f.cell.value.generation < f.builds)
  }

  /** A new factory: every slot null, nothing built. */
  function Initial(smartFactoryAvailable: bool): (f: Factory)
    ensures Valid(f) && f.cell.None? && f.builds == 0 && f.effects == []
    ensures f.smartFactoryAvailable == smartFactoryAvailable
    ensures && f.groupExtractor.None? && f.modelFactory.None? && f.cacheStrategy.None? && f.hashStrategy.None?
            && f.modelTransformers.Null? && f.uriLocatorFactory.None? && f.processorsFactory.None?
            && f.namingStrategy.None?
  {
    Factory(smartFactoryAvailable, None, None, None, None, Null, None, None, None, None, 0, [])
  }

  /** The contents of the list the transformer field refers to, `None` for null. */
  function TransformerItems(f: Factory): Option<seq<Component>>
    requires Valid(f)
  {
    match f.modelTransformers
    case Null => None
    case Detached(items) => Some(items)
    case SharedWithManager => Some(f.cell.value.modelTransformers)
  }

  /** The seven single-valued slots hold exactly the manager's strategies. */
  predicate UsesSlots(m: Manager, f: Factory)
  {
    && f.groupExtractor == Some(m.groupExtractor)
    && f.modelFactory == Some(m.modelFactory)
    && f.cacheStrategy == Some(m.cacheStrategy)
    && f.hashStrategy == Some(m.hashStrategy)
    && f.uriLocatorFactory == Some(m.uriLocatorFactory)
    && f.processorsFactory == Some(m.processorsFactory)
    && f.namingStrategy == Some(m.namingStrategy)
  }

  /** Every slot field holds exactly what the manager holds, the list included. */
  predicate Holds(m: Manager, f: Factory)
  {
    UsesSlots(m, f) && f.modelTransformers == SharedWithManager
  }

  /** `chosen` is the slot's value when the slot is set, and `fallback` when it is null. */
  predicate Picks(slot: Option<Component>, fallback: Component, chosen: Component)
  {
    chosen == if slot.Some? then slot.value else fallback
  }

  /**
   * The build: every null slot is replaced by a new default and written back,
   * every set slot is used as it is, and the manager receives the eight values
   * and the factory's own transformer list.
   */
  function Build(f: Factory): (r: (Factory, Manager))
    requires Valid(f) && f.cell.None?
    ensures Valid(r.0) && r.0.cell == Some(r.1) && Holds(r.1, r.0)
    ensures r.1.generation == f.builds && r.0.builds == f.builds + 1
    ensures Picks(f.groupExtractor, NewGroupExtractor(f.builds), r.1.groupExtractor)
    ensures Picks(f.modelFactory, NewModelFactory(f.smartFactoryAvailable, f.builds), r.1.modelFactory)
    ensures Picks(f.cacheStrategy, NewCacheStrategy(f.builds), r.1.cacheStrategy)
    ensures Picks(f.hashStrategy, NewHashStrategy(f.builds), r.1.hashStrategy)
    ensures Picks(f.uriLocatorFactory, NewUriLocatorFactory(f.builds), r.1.uriLocatorFactory)
    ensures Picks(f.processorsFactory, NewProcessorsFactory(f.builds), r.1.processorsFactory)
    ensures Picks(f.namingStrategy, NewNamingStrategy(f.builds), r.1.namingStrategy)
    ensures r.1.modelTransformers ==
              if f.modelTransformers.Null? then [WildcardExpander(f.builds)] else f.modelTransformers.items
    ensures r.0.smartFactoryAvailable == f.smartFactoryAvailable && r.0.effects == f.effects
  {
    var build := f.builds;
    var modelFactory := if f.modelFactory.Some? then f.modelFactory.value
                        else NewModelFactory(f.smartFactoryAvailable, build);
    var groupExtractor := if f.groupExtractor.Some? then f.groupExtractor.value else NewGroupExtractor(build);
    var cacheStrategy := if f.cacheStrategy.Some? then f.cacheStrategy.value else NewCacheStrategy(build);
    var hashStrategy := if f.hashStrategy.Some? then f.hashStrategy.value else NewHashStrategy(build);
    var transformers := if f.modelTransformers.Detached? then f.modelTransformers.items
                        else [WildcardExpander(build)];
    var processorsFactory := if f.processorsFactory.Some? then f.processorsFactory.value
                             else NewProcessorsFactory(build);
    var uriLocatorFactory := if f.uriLocatorFactory.Some? then f.uriLocatorFactory.value
                             else NewUriLocatorFactory(build);
    var namingStrategy := if f.namingStrategy.Some? then f.namingStrategy.value else NewNamingStrategy(build);
    var m := Manager(build, groupExtractor, cacheStrategy, hashStrategy, uriLocatorFactory,
                     processorsFactory, namingStrategy, modelFactory, transformers);
    var g := Factory(f.smartFactoryAvailable, Some(groupExtractor), Some(modelFactory), Some(cacheStrategy),
                     Some(hashStrategy), SharedWithManager, Some(uriLocatorFactory), Some(processorsFactory),
                     Some(namingStrategy), Some(m), build + 1, f.effects);
    (g, m)
  }

  /** `create()`: the memoised manager, built first when the cell is empty. */
  function Get(f: Factory): (r: (Factory, Manager))
    requires Valid(f)
    ensures Valid(r.0) && r.0.cell == Some(r.1) && r.0.effects == f.effects
    ensures f.cell.Some? ==> r == (f, f.cell.value)
    ensures f.cell.None? ==> r == Build(f)
  {
    if f.cell.Some? then (f, f.cell.value) else Build(f)
  }

  /**
   * `addModelTransformer`: a null field first gets a new empty list; the
   * transformer is then appended to the list the field refers to, which is the
   * manager's own list when the two are shared.
   */
  function AddTransformer(f: Factory, t: Component): (g: Factory)
    requires Valid(f)
    ensures Valid(g)
    ensures TransformerItems(g) == Some(if f.modelTransformers.Null? then [t] else TransformerItems(f).value + [t])
    ensures g.modelTransformers.SharedWithManager? == f.modelTransformers.SharedWithManager?
  {
    match f.modelTransformers
    case Null => f.(modelTransformers := Detached([t]))
    case Detached(items) => f.(modelTransformers := Detached(items + [t]))
    case SharedWithManager =>
      f.(cell := Some(f.cell.value.(modelTransformers := f.cell.value.modelTransformers + [t])))
  }

  /**
   * `onCachePeriodChanged`: force the build, then notify the manager; without a
   * context the manager raises and the factory swallows the exception.
   */
  function CachePeriodChanged(f: Factory, period: int, contextAvailable: bool): (g: Factory)
    requires Valid(f)
    ensures Valid(g) && g.(effects := f.effects) == Get(f).0
    ensures contextAvailable ==> g.effects == f.effects + [CachePeriodNotified(Get(f).1.generation, period)]
    ensures !contextAvailable ==> g.effects == f.effects
  {
    var (built, m) := Get(f);
    if contextAvailable then built.(effects := built.effects + [CachePeriodNotified(m.generation, period)])
    else built
  }

  /**
   * `onModelPeriodChanged`: force the build, notify the manager and, only when
   * that did not raise, clear the manager's cache strategy.
   */
  function ModelPeriodChanged(f: Factory, period: int, contextAvailable: bool): (g: Factory)
    requires Valid(f)
    ensures Valid(g) && g.(effects := f.effects) == Get(f).0
    ensures contextAvailable ==>
              g.effects == f.effects + [ModelPeriodNotified(Get(f).1.generation, period),
                                        CacheCleared(Get(f).1.cacheStrategy)]
    ensures !contextAvailable ==> g.effects == f.effects
  {
    var (built, m) := Get(f);
    if contextAvailable then
      built.(effects := built.effects + [ModelPeriodNotified(m.generation, period), CacheCleared(m.cacheStrategy)])
    else built
  }

  /**
   * `destroy()`: the cell is emptied. The field keeps referring to the list the
   * released manager held, which the (now empty) cell no longer holds.
   */
  function DestroyCell(f: Factory): (g: Factory)
    requires Valid(f)
    ensures Valid(g) && g.cell.None? && !g.modelTransformers.SharedWithManager?
    ensures TransformerItems(g) == TransformerItems(f) && g.builds == f.builds && g.effects == f.effects
    ensures g.(cell := f.cell, modelTransformers := f.modelTransformers) == f
  {
    var list := if f.modelTransformers.SharedWithManager? then Detached(f.cell.value.modelTransformers)
                else f.modelTransformers;
    f.(cell := None, modelTransformers := list)
  }

  /** A list argument can be the manager's own list only while a manager is built. */
  predicate Allowed(f: Factory, op: Op)
  {
    op.SetModelTransformers? && op.list.SharedWithManager? ==> f.cell.Some?
  }

  /** The effect of one public call. */
  function Apply(f: Factory, op: Op): (g: Factory)
    requires Valid(f) && Allowed(f, op)
    ensures Valid(g) && g.smartFactoryAvailable == f.smartFactoryAvailable
  {
    match op
    case SetGroupExtractor(c) => f.(groupExtractor := c)
    case SetModelFactory(c) => f.(modelFactory := c)
    case SetHashBuilder(c) => f.(hashStrategy := c)
    case SetModelTransformers(list) => f.(modelTransformers := list)
    case AddModelTransformer(t) => AddTransformer(f, t)
    case SetCacheStrategy(c) => f.(cacheStrategy := c)
    case SetUriLocatorFactory(c) => f.(uriLocatorFactory := c)
    case SetProcessorsFactory(c) => f.(processorsFactory := c)
    case SetNamingStrategy(c) => f.(namingStrategy := c)
    case Create => Get(f).0
    case OnCachePeriodChanged(period, contextAvailable) => CachePeriodChanged(f, period, contextAvailable)
    case OnModelPeriodChanged(period, contextAvailable) => ModelPeriodChanged(f, period, contextAvailable)
    case Destroy => DestroyCell(f)
  }

  /** Every call of the sequence is allowed in the state it is made in. */
  predicate Feasible(f: Factory, ops: seq<Op>)
    requires Valid(f)
    decreases |ops|
  {
    ops == [] || (Allowed(f, ops[0]) && Feasible(Apply(f, ops[0]), ops[1..]))
  }

  /** The effect of a sequence of public calls, one after the other. */
  function Run(f: Factory, ops: seq<Op>): (g: Factory)
    requires Valid(f) && Feasible(f, ops)
    ensures Valid(g) && g.smartFactoryAvailable == f.smartFactoryAvailable
    decreases |ops|
  {
    if ops == [] then f else Run(Apply(f, ops[0]), ops[1..])
  }
}
