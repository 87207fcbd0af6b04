/**
 * `provision_product` (catalog_backend/logic/product_lifecycle.py): write the
 * product of a parsed Create request through the handler `get_dal_handler`
 * returns, and return the request id. Errors from the DAL propagate as they
 * are; there is no retry.
 */
module ProductLifecycle {
  import opened Wrappers
  import opened ProductTable
  import opened DynamoDal
  import opened Dal
  import opened Input

  method ProvisionProduct(factory: DalFactory, db: DynamoDb, now: nat, tableName: string, portfolioId: string,
                          productDetails: ProductCreateEvent) returns (r: Result<string, DalError>)
    requires factory.Valid()
    modifies factory, factory.meta, db, factory.meta.instances.Values
    ensures factory.Valid()
    ensures forall x :: x in factory.meta.instances.Values ==> x in old(factory.meta.instances.Values) || fresh(x)
    ensures factory.Abstract() == Request(old(factory.Abstract()), tableName).0
    // the write goes to the table of the handler obtained for `tableName`, under
    // (portfolio_id argument, stack id), with the fields of `resource_properties`
    ensures var p := productDetails.resourceProperties;
      var w := Write(old(db.tables), Request(old(factory.Abstract()), tableName).1, portfolioId,
                     productDetails.header.stackId, p.productName, p.productVersion, p.accountId,
                     p.consumerName, p.region, now);
      && (w.Success? ==> r == Success(productDetails.header.requestId) && db.tables == w.value)
      && (w.Failure? ==> r == Failure(w.error) && db.tables == old(db.tables))
  {
    var dalHandler := factory.GetDalHandler(tableName);
    var p := productDetails.resourceProperties;
    var o := dalHandler.AddProductDeployment(db, now, portfolioId, productDetails.header.stackId, p.productName,
                                             p.productVersion, p.accountId, p.consumerName, p.region);
    match o
    case Fail(e) => r := Failure(e);
    case Pass => r := Success(productDetails.header.requestId);
  }
}
