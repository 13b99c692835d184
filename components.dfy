/**
 * The pluggable strategies the factory assembles, as opaque tokens.
 *
 * Nothing here models what a strategy does; a token only records which
 * implementation it is and, for one the factory made itself, in which build it
 * was made (each `new*` maker of the factory creates a new instance).
 */
module Components {

  /** The implementation classes the factory instantiates on its own. */
  datatype Kind =
    | DefaultGroupExtractor
    | SmartWroModelFactory
    | XmlModelFactory
    | LruMemoryCacheStrategy
    | SHA1HashStrategy
    | DefaultProcesorsFactory
    | DefaultUriLocatorFactory
    | NoOpNamingStrategy
    | WildcardExpanderModelTransformer

  /**
   * A strategy instance: either made by the factory during the build with the
   * given generation, or supplied by the caller through a setter (`id` tells
   * caller-supplied instances apart).
   */
  datatype Component = Made(kind: Kind, build: nat) | Supplied(id: nat)

  /**
   * The default model factory: the smart factory when its class can be loaded
   * and instantiated, the XML factory otherwise. The lookup failing is an
   * ordinary branch, never an error.
   */
  function NewModelFactory(smartFactoryAvailable: bool, build: nat): (c: Component)
    ensures c.Made? && c.build == build
    ensures c.kind == SmartWroModelFactory <==> smartFactoryAvailable
    ensures c.kind == XmlModelFactory <==> !smartFactoryAvailable
  {
    if smartFactoryAvailable then Made(SmartWroModelFactory, build) else Made(XmlModelFactory, build)
  }

  /**
   * The other makers: each call makes a new instance of the base class's
   * default implementation, tagged with the build that made it, so it is never
   * a caller's strategy nor a default of another build.
   */
  function NewGroupExtractor(build: nat): (c: Component)
    ensures c.Made? && c.kind == DefaultGroupExtractor && c.build == build
  {
    Made(DefaultGroupExtractor, build)
  }

  function NewCacheStrategy(build: nat): (c: Component)
    ensures c.Made? && c.kind == LruMemoryCacheStrategy && c.build == build
  {
    Made(LruMemoryCacheStrategy, build)
  }

  function NewHashStrategy(build: nat): (c: Component)
    ensures c.Made? && c.kind == SHA1HashStrategy && c.build == build
  {
    Made(SHA1HashStrategy, build)
  }

  function NewProcessorsFactory(build: nat): (c: Component)
    ensures c.Made? && c.kind == DefaultProcesorsFactory && c.build == build
  {
    Made(DefaultProcesorsFactory, build)
  }

  function NewUriLocatorFactory(build: nat): (c: Component)
    ensures c.Made? && c.kind == DefaultUriLocatorFactory && c.build == build
  {
    Made(DefaultUriLocatorFactory, build)
  }

  function NewNamingStrategy(build: nat): (c: Component)
    ensures c.Made? && c.kind == NoOpNamingStrategy && c.build == build
  {
    Made(NoOpNamingStrategy, build)
  }

  /** The one transformer of the default transformer list. */
  function WildcardExpander(build: nat): (c: Component)
    ensures c.Made? && c.kind == WildcardExpanderModelTransformer && c.build == build
  {
    Made(WildcardExpanderModelTransformer, build)
  }
}
