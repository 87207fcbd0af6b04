/**
 * The key-value store behind catalog_backend/dal/dynamo_dal_handler.py, as
 * values: a table maps the composite key (portfolio_id, product_stack_id) to an
 * entry, and the service holds tables by name. `Write` and `Delete` are what one
 * `put_item` (after `ProductEntry` validation) and one `delete_item` do.
 */
module ProductTable {
  import opened Wrappers
  import opened ProductEntry

  /** The table's composite primary key: partition key then sort key. */
  datatype Key = Key(portfolioId: string, productStackId: string)

  type Table = map<Key, Entry>

  /** The DynamoDB service as the handler sees it: tables by name. */
  type Tables = map<string, Table>

  datatype DalError =
    | Validation(error: ValidationError)  // pydantic ValidationError from ProductEntry
    | TableNotFound(tableName: string)    // the service call fails: no such table

  function KeyOf(e: Entry): Key
  {
    Key(e.portfolioId, e.productStackId)
  }

  /** `put_item`: store `e` under its key, replacing whatever was there. */
  function Upsert(t: Table, e: Entry): (r: Table)
    ensures r.Keys == t.Keys + {KeyOf(e)}
    ensures r[KeyOf(e)] == e
    ensures forall k :: k in t && k != KeyOf(e) ==> r[k] == t[k]
  {
    t[KeyOf(e) := e]
  }

  /** `delete_item`: the key is gone; a missing key is not an error. */
  function Remove(t: Table, k: Key): (r: Table)
    ensures r.Keys == t.Keys - {k}
    ensures forall k' :: k' in r ==> r[k'] == t[k']
  {
    t - {k}
  }

  /**
   * `add_product_deployment` / `update_product_deployment` at time `now`:
   * validate the entry (stamping `created_at := now`), then write it to the
   * handler's table. Validation happens first, so a bad field fails even when
   * the table is missing.
   */
  function Write(tables: Tables, tableName: string, portfolioId: string, productStackId: string,
                 productName: string, productVersion: string, accountId: string,
                 consumerName: string, region: string, now: nat): (r: Result<Tables, DalError>)
    ensures var v := NewEntry(portfolioId, productStackId, productName, productVersion, accountId,
                              consumerName, region, now);
      && (r.Success? <==> v.Success? && tableName in tables)
      && (v.Failure? ==> r == Failure(Validation(v.error)))
      && (v.Success? && tableName !in tables ==> r == Failure(TableNotFound(tableName)))
    ensures r.Success? ==>
      && r.value.Keys == tables.Keys
      && (forall n :: n in tables && n != tableName ==> r.value[n] == tables[n])
      && var k := Key(portfolioId, productStackId);
      && r.value[tableName].Keys == tables[tableName].Keys + {k}
      && r.value[tableName][k] == Entry(portfolioId, productStackId, productName, productVersion,
                                        accountId, consumerName, region, now)
      && (forall k' :: k' in tables[tableName] && k' != k ==> r.value[tableName][k'] == tables[tableName][k'])
  {
    match NewEntry(portfolioId, productStackId, productName, productVersion, accountId, consumerName, region, now)
    case Failure(err) => Failure(Validation(err))
    case Success(e) =>
      if tableName in tables then Success(tables[tableName := Upsert(tables[tableName], e)])
      else Failure(TableNotFound(tableName))
  }

  /** `delete_product_deployment`: remove one key from the handler's table. */
  function Delete(tables: Tables, tableName: string, portfolioId: string, productStackId: string)
    : (r: Result<Tables, DalError>)
    ensures r.Success? <==> tableName in tables
    ensures r.Failure? ==> r.error == TableNotFound(tableName)
    ensures r.Success? ==>
      && r.value.Keys == tables.Keys
      && (forall n :: n in tables && n != tableName ==> r.value[n] == tables[n])
      && r.value[tableName].Keys == tables[tableName].Keys - {Key(portfolioId, productStackId)}
      && (forall k :: k in r.value[tableName] ==> r.value[tableName][k] == tables[tableName][k])
  {
    if tableName in tables
    then Success(tables[tableName := Remove(tables[tableName], Key(portfolioId, productStackId))])
    else Failure(TableNotFound(tableName))
  }

  /** Upsert overwrite: of two entries under one key, the later one is what remains. */
  lemma UpsertOverwrites(t: Table, e1: Entry, e2: Entry)
    requires KeyOf(e1) == KeyOf(e2)
    ensures Upsert(Upsert(t, e1), e2) == Upsert(t, e2)
  {
  }

  /** Two writes under the same key: the second write alone decides the result, a rejection included. */
  lemma WriteThenWriteLastWins(tables: Tables, tableName: string, portfolioId: string, productStackId: string,
                               n1: string, v1: string, a1: string, c1: string, r1: string, now1: nat,
                               n2: string, v2: string, a2: string, c2: string, r2: string, now2: nat)
    requires Write(tables, tableName, portfolioId, productStackId, n1, v1, a1, c1, r1, now1).Success?
    ensures var w1 := Write(tables, tableName, portfolioId, productStackId, n1, v1, a1, c1, r1, now1).value;
            Write(w1, tableName, portfolioId, productStackId, n2, v2, a2, c2, r2, now2)
            == Write(tables, tableName, portfolioId, productStackId, n2, v2, a2, c2, r2, now2)
  {
    if NewEntry(portfolioId, productStackId, n2, v2, a2, c2, r2, now2).Success? {
      var e1 := NewEntry(portfolioId, productStackId, n1, v1, a1, c1, r1, now1).value;
      var e2 := NewEntry(portfolioId, productStackId, n2, v2, a2, c2, r2, now2).value;
      var t := tables[tableName];
      var w1 := tables[tableName := Upsert(t, e1)];
      UpsertOverwrites(t, e1, e2);
      assert w1[tableName := Upsert(w1[tableName], e2)] == tables[tableName := Upsert(t, e2)];
    }
  }

  /** A write never creates or drops a table, whether it succeeds or not. */
  lemma WriteKeepsTableNames(tables: Tables, tableName: string, portfolioId: string, productStackId: string,
                             productName: string, productVersion: string, accountId: string,
                             consumerName: string, region: string, now: nat)
    ensures var w := Write(tables, tableName, portfolioId, productStackId, productName, productVersion,
                           accountId, consumerName, region, now);
            w.Success? ==> w.value.Keys == tables.Keys
  {
  }

  /** Deleting an absent key succeeds and leaves the store unchanged. */
  lemma DeleteAbsentKeyUnchanged(tables: Tables, tableName: string, portfolioId: string, productStackId: string)
    requires tableName in tables
    requires Key(portfolioId, productStackId) !in tables[tableName]
    ensures Delete(tables, tableName, portfolioId, productStackId) == Success(tables)
  {
    assert Remove(tables[tableName], Key(portfolioId, productStackId)) == tables[tableName];
    assert tables[tableName := tables[tableName]] == tables;
  }

  /** Deleting twice is the same as deleting once, and the second delete does not fail. */
  lemma DeleteIdempotent(tables: Tables, tableName: string, portfolioId: string, productStackId: string)
    requires tableName in tables
    ensures var d := Delete(tables, tableName, portfolioId, productStackId);
            d.Success? && Delete(d.value, tableName, portfolioId, productStackId) == d
  {
    var d := Delete(tables, tableName, portfolioId, productStackId);
    DeleteAbsentKeyUnchanged(d.value, tableName, portfolioId, productStackId);
  }

  /** A write followed by a delete of the same key leaves the key absent, whatever was there before. */
  lemma DeleteAfterWrite(tables: Tables, tableName: string, portfolioId: string, productStackId: string,
                         productName: string, productVersion: string, accountId: string,
                         consumerName: string, region: string, now: nat)
    requires Write(tables, tableName, portfolioId, productStackId, productName, productVersion,
                   accountId, consumerName, region, now).Success?
    ensures var w := Write(tables, tableName, portfolioId, productStackId, productName, productVersion,
                           accountId, consumerName, region, now).value;
            Delete(w, tableName, portfolioId, productStackId) == Delete(tables, tableName, portfolioId, productStackId)
  {
    var k := Key(portfolioId, productStackId);
    var w := Write(tables, tableName, portfolioId, productStackId, productName, productVersion,
                   accountId, consumerName, region, now).value;
    assert Remove(w[tableName], k) == Remove(tables[tableName], k);
    assert w[tableName := Remove(w[tableName], k)] == tables[tableName := Remove(tables[tableName], k)];
  }
}
