/**
 * The factory object itself: mutable slot fields, the lazily built manager and
 * the transformer list the manager shares with the factory. Every public method
 * is proved to have exactly the effect `Lifecycle.Apply` gives the call.
 */
module ManagerFactory {
  import opened Wrappers
  import opened Components
  import opened Lifecycle

  /** A growable list of model transformers, updated in place. */
  class TransformerList {
    var items: seq<Component>

    constructor ()
      ensures items == []
    {
      items := [];
    }

    method Add(t: Component)
      modifies this
      ensures items == old(items) + [t]
    {
      items := items + [t];
    }
  }

  /**
   * The assembled manager. Its strategies are assigned once, when the factory
   * builds it; its transformer list is the factory's list object, not a copy.
   */
  class WroManager {
    const generation: nat
    const groupExtractor: Component
    const cacheStrategy: Component
    const hashStrategy: Component
    const uriLocatorFactory: Component
    const processorsFactory: Component
    const namingStrategy: Component
    const modelFactory: Component
    const modelTransformers: TransformerList

    constructor (generation: nat, groupExtractor: Component, cacheStrategy: Component, hashStrategy: Component,
                 uriLocatorFactory: Component, processorsFactory: Component, namingStrategy: Component,
                 modelFactory: Component, modelTransformers: TransformerList)
      ensures this.generation == generation && this.groupExtractor == groupExtractor
      ensures this.cacheStrategy == cacheStrategy && this.hashStrategy == hashStrategy
      ensures this.uriLocatorFactory == uriLocatorFactory && this.processorsFactory == processorsFactory
      ensures this.namingStrategy == namingStrategy && this.modelFactory == modelFactory
      ensures this.modelTransformers == modelTransformers
    {
      this.generation := generation;
      this.groupExtractor := groupExtractor;
      this.cacheStrategy := cacheStrategy;
      this.hashStrategy := hashStrategy;
      this.uriLocatorFactory := uriLocatorFactory;
      this.processorsFactory := processorsFactory;
      this.namingStrategy := namingStrategy;
      this.modelFactory := modelFactory;
      this.modelTransformers := modelTransformers;
    }
  }

  /** The manager as a value, with the current contents of its list. */
  ghost function View(m: WroManager): Manager
    reads m.modelTransformers
  {
    Manager(m.generation, m.groupExtractor, m.cacheStrategy, m.hashStrategy, m.uriLocatorFactory,
            m.processorsFactory, m.namingStrategy, m.modelFactory, m.modelTransformers.items)
  }

  class BaseWroManagerFactory {
    /** Whether the smart model factory's class can be loaded and instantiated. */
    const smartFactoryAvailable: bool

    var groupExtractor: Option<Component>
    var modelFactory: Option<Component>
    var cacheStrategy: Option<Component>
    var hashStrategy: Option<Component>
    var modelTransformers: TransformerList?
    var uriLocatorFactory: Option<Component>
    var processorsFactory: Option<Component>
    var namingStrategy: Option<Component>
    /** The lazy initializer's cell: the built manager, if any. */
    var managerInitializer: Option<WroManager>
    /** How many managers have been built; the defaults of a build are tagged with its number. */
    var builds: nat
    /** What the notifications have delivered so far. */
    ghost var effects: seq<Effect>

    ghost predicate Valid()
      reads this
    {
      managerInitializer.Some? ==> managerInitializer.value.generation < builds
    }

    /** The list object the built manager holds, as a frame. */
    ghost function ManagerList(): set<object>
      reads this
    {
      if managerInitializer.Some? then {managerInitializer.value.modelTransformers} else {}
    }

    /** What a transformer-list reference means for this factory right now. */
    ghost function SlotOf(l: TransformerList?): ListSlot
      reads this, l
    {
      if l == null then Null
      else if managerInitializer.Some? && l == managerInitializer.value.modelTransformers then SharedWithManager
      else Detached(l.items)
    }

    /** The whole state of the factory as a value. */
    ghost function Model(): Factory
      reads this, modelTransformers, ManagerList()
    {
      Factory(smartFactoryAvailable, groupExtractor, modelFactory, cacheStrategy, hashStrategy,
              SlotOf(modelTransformers), uriLocatorFactory, processorsFactory, namingStrategy,
              if managerInitializer.Some? then Some(View(managerInitializer.value)) else None,
              builds, effects)
    }

    constructor (smartFactoryAvailable: bool)
      ensures Valid() && Model() == Initial(smartFactoryAvailable)
    {
      this.smartFactoryAvailable := smartFactoryAvailable;
      groupExtractor, modelFactory, cacheStrategy, hashStrategy := None, None, None, None;
      modelTransformers := null;
      uriLocatorFactory, processorsFactory, namingStrategy := None, None, None;
      managerInitializer := None;
      builds := 0;
      effects := [];
    }

    /**
     * The lazy initializer's build: fill every null slot with a new default,
     * writing it back, then hand all eight values to a new manager.
     */
    method Initialize() returns (m: WroManager)
      requires Valid() && managerInitializer.None?
      modifies this
      ensures managerInitializer.None? && effects == old(effects)
      ensures fresh(m) && m.generation == old(builds) && builds == old(builds) + 1
      ensures groupExtractor == Some(m.groupExtractor) && modelFactory == Some(m.modelFactory)
      ensures cacheStrategy == Some(m.cacheStrategy) && hashStrategy == Some(m.hashStrategy)
      ensures uriLocatorFactory == Some(m.uriLocatorFactory) && processorsFactory == Some(m.processorsFactory)
      ensures namingStrategy == Some(m.namingStrategy) && modelTransformers == m.modelTransformers
      ensures Picks(old(groupExtractor), NewGroupExtractor(old(builds)), m.groupExtractor)
      ensures Picks(old(modelFactory), NewModelFactory(smartFactoryAvailable, old(builds)), m.modelFactory)
      ensures Picks(old(cacheStrategy), NewCacheStrategy(old(builds)), m.cacheStrategy)
      ensures Picks(old(hashStrategy), NewHashStrategy(old(builds)), m.hashStrategy)
      ensures Picks(old(uriLocatorFactory), NewUriLocatorFactory(old(builds)), m.uriLocatorFactory)
      ensures Picks(old(processorsFactory), NewProcessorsFactory(old(builds)), m.processorsFactory)
      ensures Picks(old(namingStrategy), NewNamingStrategy(old(builds)), m.namingStrategy)
      ensures old(modelTransformers) == null ==>
                fresh(m.modelTransformers) && m.modelTransformers.items == [WildcardExpander(old(builds))]
      ensures old(modelTransformers) != null ==>
                m.modelTransformers == old(modelTransformers) && m.modelTransformers.items == old(modelTransformers.items)
    {
      ResolveLeadingStrategies();
      if modelTransformers == null {
        modelTransformers := NewModelTransformers();
      }
      ResolveTrailingStrategies();
      m := new WroManager(builds, groupExtractor.value, cacheStrategy.value, hashStrategy.value,
                          uriLocatorFactory.value, processorsFactory.value, namingStrategy.value,
                          modelFactory.value, modelTransformers);
      // The injection pass and the after-initialization hook leave every slot as it is.
      builds := builds + 1;
    }

    /** The first four slots, in source order: a null one gets a new default of the coming build, stored back. */
    method ResolveLeadingStrategies()
      modifies this`modelFactory, this`groupExtractor, this`cacheStrategy, this`hashStrategy
      ensures modelFactory.Some? && groupExtractor.Some? && cacheStrategy.Some? && hashStrategy.Some?
      ensures Picks(old(modelFactory), NewModelFactory(smartFactoryAvailable, builds), modelFactory.value)
      ensures Picks(old(groupExtractor), NewGroupExtractor(builds), groupExtractor.value)
      ensures Picks(old(cacheStrategy), NewCacheStrategy(builds), cacheStrategy.value)
      ensures Picks(old(hashStrategy), NewHashStrategy(builds), hashStrategy.value)
    {
      if modelFactory.None? {
        modelFactory := Some(NewModelFactory(smartFactoryAvailable, builds));
      }
      if groupExtractor.None? {
        groupExtractor := Some(NewGroupExtractor(builds));
      }
      if cacheStrategy.None? {
        cacheStrategy := Some(NewCacheStrategy(builds));
      }
      if hashStrategy.None? {
        hashStrategy := Some(NewHashStrategy(builds));
      }
    }

    /** The last three slots, in source order, resolved the same way. */
    method ResolveTrailingStrategies()
      modifies this`processorsFactory, this`uriLocatorFactory, this`namingStrategy
      ensures processorsFactory.Some? && uriLocatorFactory.Some? && namingStrategy.Some?
      ensures Picks(old(processorsFactory), NewProcessorsFactory(builds), processorsFactory.value)
      ensures Picks(old(uriLocatorFactory), NewUriLocatorFactory(builds), uriLocatorFactory.value)
      ensures Picks(old(namingStrategy), NewNamingStrategy(builds), namingStrategy.value)
    {
      if processorsFactory.None? {
        processorsFactory := Some(NewProcessorsFactory(builds));
      }
      if uriLocatorFactory.None? {
        uriLocatorFactory := Some(NewUriLocatorFactory(builds));
      }
      // the no-op naming strategy is the default
      if namingStrategy.None? {
        namingStrategy := Some(NewNamingStrategy(builds));
      }
    }

    /**
     * `create()`: the memoised manager; the build runs only when the cell is
     * empty, and a later call returns the very same object.
     */
    method Create() returns (m: WroManager)
      requires Valid()
      modifies this
      ensures Valid() && managerInitializer == Some(m)
      ensures old(managerInitializer).Some? ==> m == old(managerInitializer).value && unchanged(this)
      ensures old(managerInitializer).None? ==> fresh(m) && modelTransformers == m.modelTransformers
      ensures old(managerInitializer).Some? || old(modelTransformers) != null ==>
                modelTransformers == old(modelTransformers)
      ensures old(managerInitializer).None? && old(modelTransformers) == null ==> fresh(modelTransformers)
      ensures Model() == Get(old(Model())).0 && View(m) == Get(old(Model())).1
    {
      if managerInitializer.None? {
        var built := Initialize();
        managerInitializer := Some(built);
      }
      m := managerInitializer.value;
    }

    /** The default transformer list: a single wildcard expander, added through `AddModelTransformer`. */
    method NewModelTransformers() returns (l: TransformerList)
      requires Valid()
      modifies this`modelTransformers, modelTransformers
      ensures Valid() && l == modelTransformers
      ensures old(modelTransformers) == null ==> fresh(l) && l.items == [WildcardExpander(builds)]
      ensures old(modelTransformers) != null ==>
                l == old(modelTransformers) && l.items == old(modelTransformers.items) + [WildcardExpander(builds)]
      ensures Model() == AddTransformer(old(Model()), WildcardExpander(builds))
    {
      var self := AddModelTransformer(WildcardExpander(builds));
      l := modelTransformers;
    }

    method AddModelTransformer(t: Component) returns (r: BaseWroManagerFactory)
      requires Valid()
      modifies this`modelTransformers, modelTransformers
      ensures Valid() && r == this && modelTransformers != null
      ensures old(modelTransformers) == null ==> fresh(modelTransformers) && modelTransformers.items == [t]
      ensures old(modelTransformers) != null ==>
                modelTransformers == old(modelTransformers) && modelTransformers.items == old(modelTransformers.items) + [t]
      ensures Model() == Apply(old(Model()), Op.AddModelTransformer(t))
    {
      if modelTransformers == null {
        modelTransformers := new TransformerList();
      }
      modelTransformers.Add(t);
      r := this;
    }

    method SetModelTransformers(modelTransformers: TransformerList?) returns (r: BaseWroManagerFactory)
      requires Valid()
      modifies this`modelTransformers
      ensures Valid() && r == this && this.modelTransformers == modelTransformers
      ensures Model() == Apply(old(Model()), Op.SetModelTransformers(old(SlotOf(modelTransformers))))
    {
      this.modelTransformers := modelTransformers;
      r := this;
    }

    method SetGroupExtractor(groupExtractor: Option<Component>) returns (r: BaseWroManagerFactory)
      requires Valid()
      modifies this`groupExtractor
      ensures Valid() && r == this && this.groupExtractor == groupExtractor
      ensures Model() == Apply(old(Model()), Op.SetGroupExtractor(groupExtractor))
    {
      this.groupExtractor := groupExtractor;
      r := this;
    }

    method SetModelFactory(modelFactory: Option<Component>) returns (r: BaseWroManagerFactory)
      requires Valid()
      modifies this`modelFactory
      ensures Valid() && r == this && this.modelFactory == modelFactory
      ensures Model() == Apply(old(Model()), Op.SetModelFactory(modelFactory))
    {
      this.modelFactory := modelFactory;
      r := this;
    }

    method SetHashBuilder(hashBuilder: Option<Component>) returns (r: BaseWroManagerFactory)
      requires Valid()
      modifies this`hashStrategy
      ensures Valid() && r == this && hashStrategy == hashBuilder
      ensures Model() == Apply(old(Model()), Op.SetHashBuilder(hashBuilder))
    {
      hashStrategy := hashBuilder;
      r := this;
    }

    method SetCacheStrategy(cacheStrategy: Option<Component>) returns (r: BaseWroManagerFactory)
      requires Valid()
      modifies this`cacheStrategy
      ensures Valid() && r == this && this.cacheStrategy == cacheStrategy
      ensures Model() == Apply(old(Model()), Op.SetCacheStrategy(cacheStrategy))
    {
      this.cacheStrategy := cacheStrategy;
      r := this;
    }

    method SetUriLocatorFactory(uriLocatorFactory: Option<Component>) returns (r: BaseWroManagerFactory)
      requires Valid()
      modifies this`uriLocatorFactory
      ensures Valid() && r == this && this.uriLocatorFactory == uriLocatorFactory
      ensures Model() == Apply(old(Model()), Op.SetUriLocatorFactory(uriLocatorFactory))
    {
      this.uriLocatorFactory := uriLocatorFactory;
      r := this;
    }

    /** Unlike the other setters, this one does not return the factory. */
    method SetProcessorsFactory(processorsFactory: Option<Component>)
      requires Valid()
      modifies this`processorsFactory
      ensures Valid() && this.processorsFactory == processorsFactory
      ensures Model() == Apply(old(Model()), Op.SetProcessorsFactory(processorsFactory))
    {
      this.processorsFactory := processorsFactory;
    }

    method SetNamingStrategy(namingStrategy: Option<Component>) returns (r: BaseWroManagerFactory)
      requires Valid()
      modifies this`namingStrategy
      ensures Valid() && r == this && this.namingStrategy == namingStrategy
      ensures Model() == Apply(old(Model()), Op.SetNamingStrategy(namingStrategy))
    {
      this.namingStrategy := namingStrategy;
      r := this;
    }

    /** The naming strategy field: null until set or resolved by a build. */
    method GetNamingStrategy() returns (r: Option<Component>)
      ensures r == namingStrategy
    {
      r := namingStrategy;
    }

    /** The model factory field: null until set or resolved by a build. */
    method GetModelFactory() returns (r: Option<Component>)
      ensures r == modelFactory
    {
      r := modelFactory;
    }

    /**
     * Force the build and tell the manager the cache period changed. Without a
     * context the manager raises a runtime exception, which is caught here.
     */
    method OnCachePeriodChanged(period: int, contextAvailable: bool)
      requires Valid()
      modifies this
      ensures Valid() && managerInitializer.Some?
      ensures old(managerInitializer).Some? ==> managerInitializer == old(managerInitializer)
      ensures old(managerInitializer).None? ==>
                fresh(managerInitializer.value) && modelTransformers == managerInitializer.value.modelTransformers
      ensures old(managerInitializer).Some? || old(modelTransformers) != null ==>
                modelTransformers == old(modelTransformers)
      ensures old(managerInitializer).None? && old(modelTransformers) == null ==> fresh(modelTransformers)
      ensures Model() == Apply(old(Model()), Op.OnCachePeriodChanged(period, contextAvailable))
    {
      var m := Create();
      if contextAvailable {
        effects := effects + [CachePeriodNotified(m.generation, period)];
      }
    }

    /**
     * Force the build, tell the manager the model period changed and then clear
     * its cache strategy; when the manager raises for lack of a context the
     * exception is caught and the cache is left alone.
     */
    method OnModelPeriodChanged(period: int, contextAvailable: bool)
      requires Valid()
      modifies this
      ensures Valid() && managerInitializer.Some?
      ensures old(managerInitializer).Some? ==> managerInitializer == old(managerInitializer)
      ensures old(managerInitializer).None? ==>
                fresh(managerInitializer.value) && modelTransformers == managerInitializer.value.modelTransformers
      ensures old(managerInitializer).Some? || old(modelTransformers) != null ==>
                modelTransformers == old(modelTransformers)
      ensures old(managerInitializer).None? && old(modelTransformers) == null ==> fresh(modelTransformers)
      ensures Model() == Apply(old(Model()), Op.OnModelPeriodChanged(period, contextAvailable))
    {
      var m := Create();
      if contextAvailable {
        NotifyModelPeriodThenClear(m, period);
      }
    }

    /**
     * The body of the try block once the manager is built: notify it, fetch it
     * again and clear its cache strategy.
     */
    method NotifyModelPeriodThenClear(m: WroManager, period: int)
      requires Valid() && managerInitializer == Some(m)
      modifies this
      ensures managerInitializer == old(managerInitializer) && modelTransformers == old(modelTransformers)
      ensures effects == old(effects) + [ModelPeriodNotified(m.generation, period), CacheCleared(m.cacheStrategy)]
      ensures Valid() && Model() == old(Model()).(effects := effects)
    {
      effects := effects + [ModelPeriodNotified(m.generation, period)];
      var again := Create();
      effects := effects + [CacheCleared(again.cacheStrategy)];
    }

    /** Empty the cell; the next `Create` builds a new manager from the fields as they are then. */
    method Destroy()
      requires Valid()
      modifies this`managerInitializer
      ensures Valid() && managerInitializer.None?
      ensures Model() == Apply(old(Model()), Op.Destroy)
    {
      managerInitializer := None;
    }
  }
}
