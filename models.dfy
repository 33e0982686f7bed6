/** The configuration and global-policy shapes under models/. */
module Models {
  import opened Values

  /** An error formatter `(id, error) => string`; a falsy result means it declined. */
  type Handler = (string, Value) -> Value

  /** A `construct` function `() => Observable<T>`, known by name only: what the
      observable it returns does on each subscription is supplied where it is called. */
  datatype Producer = Producer(name: string)

  /** RxCacheItemConfig (models/rxcache-item-config.ts:3-10). An absent `construct`,
      `genericError` or `errorHandler` is None, an absent `load` is false and an absent
      `initialValue` is Undefined. */
  datatype Config = Config(
    id: string,
    construct: Option<Producer>,
    load: bool,
    initialValue: Value,
    genericError: Option<string>,
    errorHandler: Option<Handler>)

  /** The configuration `{ id }`. */
  function IdConfig(id: string): (c: Config)
    ensures c.id == id && c.construct.None? && !c.load && c.initialValue.Undefined?
    ensures c.genericError.None? && c.errorHandler.None?
  {
    Config(id, None, false, Undefined, None, None)
  }

  /** The initial process-wide fallback message (models/rxcache-global-config.ts:6-8). */
  const DefaultGenericError: string := "An error has occoured"

  /** The process-wide `globalConfig` object of models/rxcache-global-config.ts. */
  class GlobalConfig {
    var genericError: string
    var errorHandler: Option<Handler>

    constructor ()
      ensures genericError == DefaultGenericError && errorHandler.None?
    {
      genericError := DefaultGenericError;
      errorHandler := None;
    }
  }
}
