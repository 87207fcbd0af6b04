/**
 * `DynamoDalHandler` (catalog_backend/dal/dynamo_dal_handler.py): the one
 * component that talks to the store. It records only its table name when
 * constructed and obtains the table handle on first use; every write builds a
 * validated `ProductEntry` stamped with the current time and then `put_item`s
 * it, overwriting any item under the same key; delete removes one key.
 */
module DynamoDal {
  import opened Wrappers
  import opened ProductEntry
  import opened ProductTable

  /** The DynamoDB service: the tables that exist and their items. */
  class DynamoDb {
    var tables: Tables

    constructor (tables: Tables)
      ensures this.tables == tables
    {
      this.tables := tables;
    }
  }

  class DynamoDalHandler {
    const tableName: string
    /** Whether the table handle (`_get_db_handler`) has been obtained. */
    var connected: bool

    /** `__init__` records the table name and nothing else. */
    constructor (tableName: string)
      ensures this.tableName == tableName && !connected
    {
      this.tableName := tableName;
      connected := false;
    }

    /** `_get_db_handler`: obtain the table handle lazily. */
    method GetDbHandler()
      modifies this
      ensures connected
    {
      connected := true;
    }

    /**
     * `add_product_deployment` at time `now` (`_get_unix_time`): validation
     * runs before the handle is obtained, so a rejected entry changes nothing.
     */
    method AddProductDeployment(db: DynamoDb, now: nat, portfolioId: string, productStackId: string,
                                productName: string, productVersion: string, accountId: string,
                                consumerName: string, region: string) returns (r: Outcome<DalError>)
      modifies this, db
      ensures var w := Write(old(db.tables), tableName, portfolioId, productStackId, productName,
                             productVersion, accountId, consumerName, region, now);
        && (w.Success? ==> r == Pass && db.tables == w.value)
        && (w.Failure? ==> r == Fail(w.error) && db.tables == old(db.tables))
      ensures connected == (old(connected) || NewEntry(portfolioId, productStackId, productName,
                             productVersion, accountId, consumerName, region, now).Success?)
    {
      var entry := NewEntry(portfolioId, productStackId, productName, productVersion, accountId,
                            consumerName, region, now);
      if entry.Failure? {
        return Fail(Validation(entry.error));
      }
      GetDbHandler();
      if tableName !in db.tables {
        return Fail(TableNotFound(tableName));
      }
      db.tables := db.tables[tableName := Upsert(db.tables[tableName], entry.value)];
      r := Pass;
    }

    /** `delete_product_deployment`: obtain the handle, then delete the key; an absent key is fine. */
    method DeleteProductDeployment(db: DynamoDb, portfolioId: string, productStackId: string)
      returns (r: Outcome<DalError>)
      modifies this, db
      ensures var d := Delete(old(db.tables), tableName, portfolioId, productStackId);
        && (d.Success? ==> r == Pass && db.tables == d.value)
        && (d.Failure? ==> r == Fail(d.error) && db.tables == old(db.tables))
      ensures connected
    {
      GetDbHandler();
      if tableName !in db.tables {
        return Fail(TableNotFound(tableName));
      }
      db.tables := db.tables[tableName := Remove(db.tables[tableName], Key(portfolioId, productStackId))];
      r := Pass;
    }

    /**
     * `update_product_deployment`: the same unconditional overwrite as
     * `add_product_deployment`, with a fresh `created_at`; there is no check
     * that an item existed before.
     */
    method UpdateProductDeployment(db: DynamoDb, now: nat, portfolioId: string, productStackId: string,
                                   productName: string, productVersion: string, accountId: string,
                                   consumerName: string, region: string) returns (r: Outcome<DalError>)
      modifies this, db
      ensures var w := Write(old(db.tables), tableName, portfolioId, productStackId, productName,
                             productVersion, accountId, consumerName, region, now);
        && (w.Success? ==> r == Pass && db.tables == w.value)
        && (w.Failure? ==> r == Fail(w.error) && db.tables == old(db.tables))
      ensures connected == (old(connected) || NewEntry(portfolioId, productStackId, productName,
                             productVersion, accountId, consumerName, region, now).Success?)
    {
      var entry := NewEntry(portfolioId, productStackId, productName, productVersion, accountId,
                            consumerName, region, now);
      if entry.Failure? {
        return Fail(Validation(entry.error));
      }
      GetDbHandler();
      if tableName !in db.tables {
        return Fail(TableNotFound(tableName));
      }
      db.tables := db.tables[tableName := Upsert(db.tables[tableName], entry.value)];
      r := Pass;
    }
  }
}
