# wro4j's BaseWroManagerFactory in Dafny

`BaseWroManagerFactory` is the composition root of wro4j's resource-processing pipeline. It has three parts:

- **Slot defaulting.** There are eight optional strategy slots: group extractor, model factory, cache strategy, hash strategy, model-transformer list, processors factory, URI-locator factory and naming strategy. Each is set by a setter or left null.
- **Build-once manager.** The first `create()` runs the build. Every null slot gets a default, that default is stored back into its field, and a `WroManager` holding the eight resolved values is memoised. `destroy()` forgets the manager, so the next `create()` builds again from the fields as they are then.
- **Notifications.** `onCachePeriodChanged` and `onModelPeriodChanged` force the build and pass the notification to the manager. A `WroRuntimeException` from the manager is swallowed. After a successful model-period notification, the manager's cache strategy is cleared.

The project has two layers.

- `lifecycle.dfy` (module `Lifecycle`) is the reference model, written over values:
  - `Factory` holds the slot fields, the memoised manager (the "cell"), a build counter and a log of what the notifications delivered.
  - `Apply` is the effect of one public call, and `Run` is the effect of a sequence of calls.
  - The model-transformer field is a `ListSlot`: null, a list the manager in the cell does not hold, or the very list the manager in the cell holds. The last case exists because the source hands its own `ArrayList` object to the manager.
- `manager_factory.dfy` (module `ManagerFactory`) is the imperative model:
  - `BaseWroManagerFactory` is a class with the source's fields.
  - `TransformerList` is a list object updated in place and shared with the manager.
  - `WroManager` is an object whose strategies are fixed when it is built.
  - Every public method is proved to change the state exactly as `Apply` says for that call: `ensures Model() == Apply(old(Model()), …)`.
  - The build's eight null checks are split into two methods, `ResolveLeadingStrategies` and `ResolveTrailingStrategies`, around the transformer-list check. The source's order (lines 70-94) is kept: each slot is checked and filled one after the other.

`lifecycle_properties.dfy` (module `LifecycleProperties`) holds the lemmas: about one call, and by induction about any sequence of calls.

`components.dfy` models the strategies as opaque tokens. A strategy the factory makes itself is `Made(kind, build)`: its implementation class and the number of the build that made it. So a default made by one build can be told apart from one made by a later build. A strategy the caller supplies is meant to be `Supplied(id)`. This is a convention: the setters accept any `Component`, so the types do not stop a caller from passing a `Made` token.

What stands in for the outside world:

- **Smart model factory.** Whether `SmartWroModelFactory` can be loaded is the constant `smartFactoryAvailable`, given when the factory is constructed. The class path does not change while the factory lives.
- **Execution context.** Whether one is available is the parameter `contextAvailable` of each notification. The manager raises `WroRuntimeException` exactly when it is false.
- **Notification log.** What the manager and its cache were told is a ghost log of `Effect` values.

## Model

| member | source | states |
|---|---|---|
| Lifecycle.Build | wro4j-core/src/main/java/ro/isdc/wro/manager/factory/BaseWroManagerFactory.java:68-113 | The build fills every slot, writes the values back and gives them to a manager of a new generation. A slot that is set is used unchanged. A null slot gets the default of this build. The transformer list becomes the one shared with the manager: `[WildcardExpander]` if the field was null, otherwise the field's own list. |
| Lifecycle.Get | wro4j-core/src/main/java/ro/isdc/wro/manager/factory/BaseWroManagerFactory.java:120-122 | `create()` returns the manager in the cell. When the cell is full, nothing changes. When it is empty, it runs the build, and afterwards the cell holds the returned manager. |
| Lifecycle.Apply | wro4j-core/src/main/java/ro/isdc/wro/manager/factory/BaseWroManagerFactory.java:116-334 | Every public call keeps the factory well formed: a shared list implies a built manager, and that manager is older than the build counter. |
| Lifecycle.Initial | wro4j-core/src/main/java/ro/isdc/wro/manager/factory/BaseWroManagerFactory.java:51-66 | A new factory has all eight slots null, is well formed, has built nothing and has logged nothing. |
| Components.NewModelFactory | wro4j-core/src/main/java/ro/isdc/wro/manager/factory/BaseWroManagerFactory.java:240-251 | The default model factory is a new instance of this build: the smart factory exactly when its class can be loaded and instantiated, the XML factory exactly when it cannot. The failed lookup is an ordinary branch. |
| Components.NewGroupExtractor | wro4j-core/src/main/java/ro/isdc/wro/manager/factory/BaseWroManagerFactory.java:231-233 | A new `DefaultGroupExtractor` of this build, never equal to a caller's strategy or to a default of another build. |
| Components.NewCacheStrategy | wro4j-core/src/main/java/ro/isdc/wro/manager/factory/BaseWroManagerFactory.java:223-225 | A new `LruMemoryCacheStrategy` of this build, never equal to a caller's strategy or to a default of another build. |
| Components.NewHashStrategy | wro4j-core/src/main/java/ro/isdc/wro/manager/factory/BaseWroManagerFactory.java:183-185 | A new `SHA1HashStrategy` of this build, never equal to a caller's strategy or to a default of another build. |
| Components.NewProcessorsFactory | wro4j-core/src/main/java/ro/isdc/wro/manager/factory/BaseWroManagerFactory.java:165-167 | A new `DefaultProcesorsFactory` of this build, never equal to a caller's strategy or to a default of another build. |
| Components.NewUriLocatorFactory | wro4j-core/src/main/java/ro/isdc/wro/manager/factory/BaseWroManagerFactory.java:175-177 | A new `DefaultUriLocatorFactory` of this build, never equal to a caller's strategy or to a default of another build. |
| Components.NewNamingStrategy | wro4j-core/src/main/java/ro/isdc/wro/manager/factory/BaseWroManagerFactory.java:190-192 | A new `NoOpNamingStrategy` of this build, never equal to a caller's strategy or to a default of another build. |
| Components.WildcardExpander | wro4j-core/src/main/java/ro/isdc/wro/manager/factory/BaseWroManagerFactory.java:155 | The default list's one transformer: a new `WildcardExpanderModelTransformer` of this build. |
| Lifecycle.AddTransformer | wro4j-core/src/main/java/ro/isdc/wro/manager/factory/BaseWroManagerFactory.java:292-298 | The field's list becomes `[t]` when it was null, and otherwise its old contents followed by `t`. Whether the list is the built manager's does not change. |
| Lifecycle.CachePeriodChanged | wro4j-core/src/main/java/ro/isdc/wro/manager/factory/BaseWroManagerFactory.java:197-203 | Apart from the log, the new state is the one `create()` leaves. With a context, the log gains one cache-period notification for the built manager; without one, the log is unchanged. |
| Lifecycle.ModelPeriodChanged | wro4j-core/src/main/java/ro/isdc/wro/manager/factory/BaseWroManagerFactory.java:209-217 | Apart from the log, the new state is the one `create()` leaves. With a context, the log gains the model-period notification and then the clear of the built manager's cache strategy; without one, the log is unchanged. |
| Lifecycle.DestroyCell | wro4j-core/src/main/java/ro/isdc/wro/manager/factory/BaseWroManagerFactory.java:332-334 | The cell is empty and nothing else changes: the field refers to a list with the same contents, which the manager in the cell (there is none now) does not hold, and every slot, the build counter and the log stay as they were. |
| LifecycleProperties.CreateResolvesEverySlot | wro4j-core/src/main/java/ro/isdc/wro/manager/factory/BaseWroManagerFactory.java:70-103 | After the first `create()`, no slot field is null. The returned manager holds exactly the factory's current slot values, transformer list included. |
| LifecycleProperties.SetSlotsArePassedUnchanged | wro4j-core/src/main/java/ro/isdc/wro/manager/factory/BaseWroManagerFactory.java:70-94 | A slot set before the build reaches the manager unchanged. Only a null slot is replaced, by the `new*` default of this build, and that default is stored in the field. |
| LifecycleProperties.DefaultTransformersOnlyWhenNull | wro4j-core/src/main/java/ro/isdc/wro/manager/factory/BaseWroManagerFactory.java:82-84 | The manager's list is exactly one wildcard expander if the field was null at build time. Otherwise it is exactly the list that was set or started by `addModelTransformer`, with no expander added. |
| LifecycleProperties.DefaultModelFactoryPrefersSmart | wro4j-core/src/main/java/ro/isdc/wro/manager/factory/BaseWroManagerFactory.java:240-251 | The default model factory is the smart factory if and only if it is available, and the XML factory otherwise. The build succeeds in both cases. |
| LifecycleProperties.AddModelTransformerAppends | wro4j-core/src/main/java/ro/isdc/wro/manager/factory/BaseWroManagerFactory.java:292-298 | `addModelTransformer` changes only the list: no strategy slot, no build counter and no log entry changes, and a built manager stays the same instance with the same strategies. If the list is the built manager's, the manager's list grows by `t` at its end. |
| LifecycleProperties.TransformersGrowOnlyByAdds | wro4j-core/src/main/java/ro/isdc/wro/manager/factory/BaseWroManagerFactory.java:154-157 | This holds for any call sequence without `setModelTransformers`. An existing list changes only by the added transformers, appended in call order. Builds, destroys and notifications never add a wildcard expander to it. |
| LifecycleProperties.CreateIsMemoised | wro4j-core/src/main/java/ro/isdc/wro/manager/factory/BaseWroManagerFactory.java:120-122 | A second `create()` returns the same manager and leaves the state unchanged. |
| LifecycleProperties.StepKeepsManager | wro4j-core/src/main/java/ro/isdc/wro/manager/factory/BaseWroManagerFactory.java:257-322 | Any call other than `destroy()` keeps a built manager: same generation and same strategies, so setters are inert for it. Its list can only grow at the end. An unbuilt factory builds at most once in the call. |
| LifecycleProperties.BuildRunsAtMostOnce | wro4j-core/src/main/java/ro/isdc/wro/manager/factory/BaseWroManagerFactory.java:66-68 | This holds for any call sequence without `destroy()`. The build runs at most once. An already built manager stays in the cell, with the same generation and the same strategies, whatever setters are called. |
| LifecycleProperties.DestroyThenCreateRebuilds | wro4j-core/src/main/java/ro/isdc/wro/manager/factory/BaseWroManagerFactory.java:332-334 | `destroy()` then `create()` builds a manager of a new generation from the current fields. Resolved defaults are reused, and the old list is passed on. |
| LifecycleProperties.ResolvedStrategiesPersist | wro4j-core/src/main/java/ro/isdc/wro/manager/factory/BaseWroManagerFactory.java:70-94 | Once all seven strategy slots are set, any sequence of calls without a strategy setter keeps them. This holds through any number of destroys and rebuilds. The manager in the cell always holds exactly these strategies, so earlier defaults are reused. |
| LifecycleProperties.ModelPeriodChangeClearsCacheOnce | wro4j-core/src/main/java/ro/isdc/wro/manager/factory/BaseWroManagerFactory.java:209-217 | `onModelPeriodChanged` leaves the manager `create()` would return in the cell and never fails. With a context, the number of cache clears in the log grows by exactly one, and the last entry clears that manager's cache strategy. Without a context, no clear is logged. |
| LifecycleProperties.CachePeriodChangeNeverClears | wro4j-core/src/main/java/ro/isdc/wro/manager/factory/BaseWroManagerFactory.java:197-203 | `onCachePeriodChanged` leaves the manager `create()` would return in the cell, never fails, and the factory itself never clears the cache, with or without a context. The manager's own `onCachePeriodChanged` is opaque, so this says nothing about what the manager does. |
| ManagerFactory.BaseWroManagerFactory.constructor | wro4j-core/src/main/java/ro/isdc/wro/manager/factory/BaseWroManagerFactory.java:51-66 | A new factory object's state is `Lifecycle.Initial`. |
| ManagerFactory.BaseWroManagerFactory.Initialize | wro4j-core/src/main/java/ro/isdc/wro/manager/factory/BaseWroManagerFactory.java:68-113 | The lazy initializer's build. Each null field gets a new default, written back. A new manager receives the eight field values and the field's own list object. The build counter advances. |
| ManagerFactory.BaseWroManagerFactory.ResolveLeadingStrategies | wro4j-core/src/main/java/ro/isdc/wro/manager/factory/BaseWroManagerFactory.java:70-81 | Model factory, group extractor, cache and hash strategy each keep a set value or get the default of the coming build. |
| ManagerFactory.BaseWroManagerFactory.ResolveTrailingStrategies | wro4j-core/src/main/java/ro/isdc/wro/manager/factory/BaseWroManagerFactory.java:85-94 | Processors factory, URI-locator factory and naming strategy each keep a set value or get the default of the coming build. |
| ManagerFactory.BaseWroManagerFactory.Create | wro4j-core/src/main/java/ro/isdc/wro/manager/factory/BaseWroManagerFactory.java:120-122 | Returns the memoised manager object: the same object, with nothing changed, on every call until `destroy()`, or a fresh one built now. A list object in the field stays there and is the one a new manager holds; a null field gets a fresh list. The new state is `Get` of the old. |
| ManagerFactory.BaseWroManagerFactory.NewModelTransformers | wro4j-core/src/main/java/ro/isdc/wro/manager/factory/BaseWroManagerFactory.java:154-157 | Adds a wildcard expander through `AddModelTransformer` and returns the field's list. Starting from null, the result is a fresh list holding just the expander. |
| ManagerFactory.BaseWroManagerFactory.AddModelTransformer | wro4j-core/src/main/java/ro/isdc/wro/manager/factory/BaseWroManagerFactory.java:292-298 | A null field gets a fresh empty list. The transformer is then appended in place to the field's list, which is the manager's own list when they are shared. Returns the factory. |
| ManagerFactory.BaseWroManagerFactory.SetModelTransformers | wro4j-core/src/main/java/ro/isdc/wro/manager/factory/BaseWroManagerFactory.java:284-287 | The field now refers to the given list object, possibly null. Nothing else changes. |
| ManagerFactory.BaseWroManagerFactory.SetGroupExtractor | wro4j-core/src/main/java/ro/isdc/wro/manager/factory/BaseWroManagerFactory.java:257-260 | Overwrites the field only; a built manager is unaffected. |
| ManagerFactory.BaseWroManagerFactory.SetModelFactory | wro4j-core/src/main/java/ro/isdc/wro/manager/factory/BaseWroManagerFactory.java:266-269 | Overwrites the field only; a built manager is unaffected. |
| ManagerFactory.BaseWroManagerFactory.SetHashBuilder | wro4j-core/src/main/java/ro/isdc/wro/manager/factory/BaseWroManagerFactory.java:275-278 | Overwrites the hash-strategy field only; a built manager is unaffected. |
| ManagerFactory.BaseWroManagerFactory.SetCacheStrategy | wro4j-core/src/main/java/ro/isdc/wro/manager/factory/BaseWroManagerFactory.java:303-306 | Overwrites the field only; a built manager is unaffected. |
| ManagerFactory.BaseWroManagerFactory.SetUriLocatorFactory | wro4j-core/src/main/java/ro/isdc/wro/manager/factory/BaseWroManagerFactory.java:312-315 | Overwrites the field only; a built manager is unaffected. |
| ManagerFactory.BaseWroManagerFactory.SetProcessorsFactory | wro4j-core/src/main/java/ro/isdc/wro/manager/factory/BaseWroManagerFactory.java:320-322 | Overwrites the field only and returns nothing, unlike the other setters. |
| ManagerFactory.BaseWroManagerFactory.SetNamingStrategy | wro4j-core/src/main/java/ro/isdc/wro/manager/factory/BaseWroManagerFactory.java:138-141 | Overwrites the field only; a built manager is unaffected. |
| ManagerFactory.BaseWroManagerFactory.GetNamingStrategy | wro4j-core/src/main/java/ro/isdc/wro/manager/factory/BaseWroManagerFactory.java:147-149 | Returns the field: null until set or resolved by a build. |
| ManagerFactory.BaseWroManagerFactory.GetModelFactory | wro4j-core/src/main/java/ro/isdc/wro/manager/factory/BaseWroManagerFactory.java:325-327 | Returns the field: null until set or resolved by a build. |
| ManagerFactory.BaseWroManagerFactory.OnCachePeriodChanged | wro4j-core/src/main/java/ro/isdc/wro/manager/factory/BaseWroManagerFactory.java:197-203 | Forces the build, then notifies the manager if there is a context. With no context, the exception is swallowed. A manager that was already built stays in place. A list object in the field stays there; a newly built manager holds the field's list. |
| ManagerFactory.BaseWroManagerFactory.OnModelPeriodChanged | wro4j-core/src/main/java/ro/isdc/wro/manager/factory/BaseWroManagerFactory.java:209-217 | Forces the build and notifies the manager. Only if that succeeds does it fetch the manager a second time and clear its cache strategy. With no context, the exception is swallowed. A list object in the field stays there; a newly built manager holds the field's list. |
| ManagerFactory.BaseWroManagerFactory.NotifyModelPeriodThenClear | wro4j-core/src/main/java/ro/isdc/wro/manager/factory/BaseWroManagerFactory.java:211-213 | The try block on a built manager: the log gains the model-period notification and then the clear of that manager's cache strategy, and nothing else changes. |
| ManagerFactory.BaseWroManagerFactory.Destroy | wro4j-core/src/main/java/ro/isdc/wro/manager/factory/BaseWroManagerFactory.java:332-334 | Empties the cell, and nothing else. The list field keeps the list the old manager held. |
| ManagerFactory.WroManager.constructor | wro4j-core/src/main/java/ro/isdc/wro/manager/factory/BaseWroManagerFactory.java:96-103 | The manager holds exactly the values it is given, and the list object itself rather than a copy. |

## Left out

- Thread safety of the lazy initializer. The class `DestroyableLazyInitializer` is not among the source files modelled. Its cell is modelled as a sequential `Option<WroManager>` in which every call is atomic, and that `destroy()` resets it to empty is an assumption. Any teardown it may run on the released manager is not modelled. An in-progress build state, callers waiting on it and a `destroy()` racing with a build are not modelled.
- Failing builds. `newModelFactory` catches an `Exception` from the failed lookup itself (line 246), and the model treats every failed lookup that way. An `Error` is not caught there: a `LinkageError` such as `NoClassDefFoundError` (the smart factory's class present but one of its dependencies missing) or `ExceptionInInitializerError` escapes `newModelFactory`, the build and `create()`. Such errors, and exceptions raised by the injection pass, are not modelled. So `create()` never fails here, and what a failed build leaves in the cell is not modelled either.
- Unmodifiable transformer lists. `addModelTransformer` calls `add` (line 296) on whatever `List` the caller passed to `setModelTransformers`. An unmodifiable list, such as one from `Arrays.asList` or `Collections.emptyList()`, makes that call throw `UnsupportedOperationException`. In the model every `TransformerList` accepts `Add`, so `AddModelTransformer` always appends.
- The reflective lookup of `SmartWroModelFactory` (`Class.forName`, `newInstance`). It is replaced by the constant `smartFactoryAvailable`.
- The injection pass (`InjectorBuilder`, `Injector.inject`) and the `onAfterInitializeManager` hook. Both are opaque and modelled as leaving every slot unchanged.
- Subclasses that override the `new*` makers or the hook. Only the base class's defaults are modelled.
- The internals of `WroManager`, of the strategies and of the servlet context. Strategies are tokens. The manager's notification methods are reduced to "raise `WroRuntimeException` exactly when no context is available", and a delivered notification is an entry in a ghost log. Clearing the cache strategy is assumed not to raise.
- Logging, the warnings and debug messages included. That a warning is written when a notification fails is therefore not modelled.
- Managers released by `destroy()`. `Lifecycle` tracks only the manager in the cell. A released manager keeps the list object it received at line 103, so it goes on sharing that list with the factory and with the next manager built; `ManagerFactory` keeps this, because its `WroManager` objects hold the `TransformerList` object itself.
- Java's `long` period is an unbounded `int`. The factory does no arithmetic on it.
- A caller changing a list object it passed to `setModelTransformers` directly, outside the factory. Only changes made through the factory are related to `Lifecycle.Apply`.
- The built manager holds the factory's own list object (line 103). So the build does not freeze the transformer slot: `addModelTransformer` after the build also changes the built manager's list. `AddModelTransformerAppends` states this.
- The build counter `builds` of `BaseWroManagerFactory` has no counterpart in the source. It is a modelling device that tags each default with the build that made it, so that `new` instances of different builds can be told apart.
