/**
 * `_SingletonMeta` (catalog_backend/dal/db_handler.py): calling a handler
 * class constructs an instance only the first time; the instance is kept in
 * one dictionary keyed by the class alone, so later constructor arguments are
 * ignored. `DalHandler` itself is abstract and cannot be instantiated.
 */
module DbHandler {
  import opened Wrappers
  import opened DynamoDal

  /** The classes whose metaclass is `_SingletonMeta`. */
  datatype HandlerClass = DalHandlerClass | DynamoDalHandlerClass

  /** `TypeError`: the abstract `DalHandler` has no concrete `add_product_deployment`. */
  datatype InstantiationError = AbstractClass(cls: HandlerClass)

  class SingletonMeta {
    /** `_SingletonMeta._instances`, shared by every class using the metaclass. */
    var instances: map<HandlerClass, DynamoDalHandler>

    ghost predicate Valid()
      reads this
    {
      DalHandlerClass !in instances
    }

    constructor ()
      ensures Valid() && instances == map[]
    {
      instances := map[];
    }

    /** `__call__(cls, table_name)`. */
    method Call(cls: HandlerClass, tableName: string) returns (r: Result<DynamoDalHandler, InstantiationError>)
      requires Valid()
      modifies this
      ensures Valid()
      ensures cls in old(instances) ==> r == Success(old(instances)[cls]) && instances == old(instances)
      ensures cls !in old(instances) && cls == DalHandlerClass ==>
        r == Failure(AbstractClass(cls)) && instances == old(instances)
      ensures cls !in old(instances) && cls == DynamoDalHandlerClass ==>
        && r.Success? && fresh(r.value)
        && r.value.tableName == tableName && !r.value.connected
        && instances == old(instances)[cls := r.value]
      // entries are never removed or replaced
      ensures forall c :: c in old(instances) ==> c in instances && instances[c] == old(instances)[c]
      ensures r.Success? ==> cls in instances && instances[cls] == r.value
    {
      if cls !in instances {
        if cls == DalHandlerClass {
          return Failure(AbstractClass(cls));
        }
        var h := new DynamoDalHandler(tableName);
        instances := instances[cls := h];
      }
      r := Success(instances[cls]);
    }
  }
}
