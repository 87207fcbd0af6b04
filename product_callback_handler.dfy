/**
 * The queue-driven custom-resource handler
 * (catalog_backend/handlers/product_callback_handler.py). The process-level
 * entry point validates the environment, validates the queue envelope,
 * decodes each record body in order and hands it to the module-level
 * custom-resource dispatcher, which calls `create_event`, `update_event` or
 * `delete_event` by `RequestType` and answers SUCCESS or FAILED. An exception
 * while validating the envelope or decoding a body is caught and handed to
 * `init_failure`, which only records it: the remaining records of the
 * invocation are not processed, and because the dispatcher outlives the
 * invocation, every record it is given afterwards is answered FAILED without
 * being dispatched.
 */
module ProductCallbackHandler {
  import opened Wrappers
  import opened Json
  import opened ProductEntry
  import opened ProductTable
  import opened DynamoDal
  import opened Dal
  import opened Input
  import opened EnvVars
  import opened ProductLifecycle

  datatype RequestType = Create | Update | Delete

  /** ASCII lower-casing, `str.lower()` as far as the three request-type names are concerned. */
  function Lower(s: string): (r: string)
    ensures |r| == |s|
    ensures forall i :: 0 <= i < |s| ==> r[i] == if 'A' <= s[i] <= 'Z' then (s[i] as int + 32) as char else s[i]
  {
    seq(|s|, i requires 0 <= i < |s| => if 'A' <= s[i] <= 'Z' then (s[i] as int + 32) as char else s[i])
  }

  /**
   * The dispatch discriminator of a decoded body: the dispatcher looks its
   * handler up by the lower-cased `RequestType`, so "create" reaches
   * `create_event` just as "Create" does.
   */
  function RequestTypeOf(doc: Json): (r: Option<RequestType>)
    ensures r == Some(Create) <==> Str(doc, "RequestType").Some? && Lower(Str(doc, "RequestType").value) == "create"
    ensures r == Some(Update) <==> Str(doc, "RequestType").Some? && Lower(Str(doc, "RequestType").value) == "update"
    ensures r == Some(Delete) <==> Str(doc, "RequestType").Some? && Lower(Str(doc, "RequestType").value) == "delete"
  {
    match Str(doc, "RequestType")
    case None => None
    case Some(t) =>
      if Lower(t) == "create" then Some(Create)
      else if Lower(t) == "update" then Some(Update)
      else if Lower(t) == "delete" then Some(Delete)
      else None
  }

  /** The exact names are their own lower-case forms, so they dispatch to their own handlers. */
  lemma ExactNamesDispatch(doc: Json)
    ensures Str(doc, "RequestType") == Some("Create") ==> RequestTypeOf(doc) == Some(Create)
    ensures Str(doc, "RequestType") == Some("Update") ==> RequestTypeOf(doc) == Some(Update)
    ensures Str(doc, "RequestType") == Some("Delete") ==> RequestTypeOf(doc) == Some(Delete)
  {
    assert Lower("Create") == "create";
    assert Lower("Update") == "update";
    assert Lower("Delete") == "delete";
  }

  /**
   * A case variant such as "create" reaches `create_event`, where the
   * event model's `RequestType` literal rejects it: FAILED with a
   * validation error, nothing written.
   */
  lemma CaseVariantFailsInHandler(vars: GovernanceEnvVars, doc: Json, boundTable: string, tables: Tables, now: nat,
                                  updateProduct: UpdateProduct, deleteProduct: DeleteProduct)
    requires Str(doc, "RequestType") == Some("create")
    ensures RequestTypeOf(doc) == Some(Create)
    ensures ParseCreate(doc).Failure? && "RequestType" in ParseCreate(doc).error.fields
    ensures RecordResult(None, vars, doc, boundTable, tables, now, updateProduct, deleteProduct)
         == (Failed(InvalidRequest(ParseCreate(doc).error)), tables)
  {
    assert Lower("create") == "create";
  }

  /** A process-level failure handed to `init_failure`. */
  datatype ProcessingError = InvalidEnvelope | UndecodableBody(index: nat)

  /** Why a record's callback reports FAILED. */
  datatype HandlerError =
    | InvalidRequest(parse: ParseError)         // model validation of the body failed
    | StoreFailure(dal: DalError)               // the DAL raised
    | LifecycleFailure(reason: string)          // update_product or delete_product raised
    | UnknownRequestType                        // no handler for the body's RequestType
    | PriorInitFailure(init: ProcessingError)   // init_failure was recorded earlier in the process

  /** The response sent to the orchestrator for one record. */
  datatype Callback = Succeeded(physicalResourceId: Option<string>) | Failed(reason: HandlerError)

  /**
   * `update_product` and `delete_product`, whose bodies are not part of this
   * model: called with (event, table name, portfolio id) against the store as
   * it is, each gives its outcome and the store it leaves behind.
   */
  type UpdateProduct = (ProductUpdateEvent, string, string, Tables) -> (Result<string, string>, Tables)
  type DeleteProduct = (ProductDeleteEvent, string, string, Tables) -> (Outcome<string>, Tables)

  /**
   * The store after a lifecycle call that left `after`: item operations
   * change the items of tables that exist and never create or drop a table.
   */
  function Settle(tables: Tables, after: Tables): (r: Tables)
    ensures r.Keys == tables.Keys
  {
    map n | n in tables :: if n in after then after[n] else tables[n]
  }

  /** A call that keeps the table names leaves exactly the store it reports. */
  lemma SettleKeepsTableNamePreservingStore(tables: Tables, after: Tables)
    requires after.Keys == tables.Keys
    ensures Settle(tables, after) == after
  {
  }

  /**
   * `create_event` as a value: parse the body, then provision the product in
   * `boundTable`, the table of the handler `get_dal_handler` returns.
   */
  function CreateResult(vars: GovernanceEnvVars, event: Json, boundTable: string, tables: Tables, now: nat)
    : (r: (Result<string, HandlerError>, Tables))
    ensures r.1.Keys == tables.Keys
    ensures r.0.Failure? ==> r.1 == tables
    ensures ParseCreate(event).Failure? ==> r.0 == Failure(InvalidRequest(ParseCreate(event).error))
    ensures ParseCreate(event).Success? ==>
      var ev := ParseCreate(event).value;
      var p := ev.resourceProperties;
      var w := Write(tables, boundTable, vars.portfolioId, ev.header.stackId, p.productName, p.productVersion,
                     p.accountId, p.consumerName, p.region, now);
      && (w.Success? ==> r == (Success(ev.header.requestId), w.value))
      && (w.Failure? ==> r.0 == Failure(StoreFailure(w.error)))
    // SUCCESS exactly when the body parses, the entry is valid and the bound table exists
    ensures r.0.Success? <==>
      && ParseCreate(event).Success?
      && boundTable in tables
      && var ev := ParseCreate(event).value;
         var p := ev.resourceProperties;
         NewEntry(vars.portfolioId, ev.header.stackId, p.productName, p.productVersion, p.accountId,
                  p.consumerName, p.region, now).Success?
  {
    match ParseCreate(event)
    case Failure(e) => (Failure(InvalidRequest(e)), tables)
    case Success(ev) =>
      var p := ev.resourceProperties;
      match Write(tables, boundTable, vars.portfolioId, ev.header.stackId, p.productName, p.productVersion,
                  p.accountId, p.consumerName, p.region, now)
      case Failure(e) => (Failure(StoreFailure(e)), tables)
      case Success(t) => (Success(ev.header.requestId), t)
  }

  /**
   * `update_event`: parse the body as an Update event and call `update_product`
   * with the table name and portfolio id of the environment; a body that does
   * not parse never reaches it and changes nothing.
   */
  function UpdateEvent(vars: GovernanceEnvVars, event: Json, tables: Tables, updateProduct: UpdateProduct)
    : (r: (Result<string, HandlerError>, Tables))
    ensures r.1.Keys == tables.Keys
    ensures ParseUpdate(event).Failure? ==> r == (Failure(InvalidRequest(ParseUpdate(event).error)), tables)
    ensures ParseUpdate(event).Success? ==>
      var u := updateProduct(ParseUpdate(event).value, vars.tableName, vars.portfolioId, tables);
      && r.1 == Settle(tables, u.1)
      && (u.0.Success? ==> r.0 == Success(u.0.value))
      && (u.0.Failure? ==> r.0 == Failure(LifecycleFailure(u.0.error)))
  {
    match ParseUpdate(event)
    case Failure(e) => (Failure(InvalidRequest(e)), tables)
    case Success(ev) =>
      var u := updateProduct(ev, vars.tableName, vars.portfolioId, tables);
      match u.0
      case Success(id) => (Success(id), Settle(tables, u.1))
      case Failure(reason) => (Failure(LifecycleFailure(reason)), Settle(tables, u.1))
  }

  /**
   * `delete_event`: parse the body as a Delete event and call `delete_product`
   * with the table name and portfolio id of the environment; it returns nothing.
   */
  function DeleteEvent(vars: GovernanceEnvVars, event: Json, tables: Tables, deleteProduct: DeleteProduct)
    : (r: (Outcome<HandlerError>, Tables))
    ensures r.1.Keys == tables.Keys
    ensures ParseDelete(event).Failure? ==> r == (Fail(InvalidRequest(ParseDelete(event).error)), tables)
    ensures ParseDelete(event).Success? ==>
      var d := deleteProduct(ParseDelete(event).value, vars.tableName, vars.portfolioId, tables);
      && r.1 == Settle(tables, d.1)
      && (d.0.Pass? ==> r.0 == Pass)
      && (d.0.Fail? ==> r.0 == Fail(LifecycleFailure(d.0.error)))
  {
    match ParseDelete(event)
    case Failure(e) => (Fail(InvalidRequest(e)), tables)
    case Success(ev) =>
      var d := deleteProduct(ev, vars.tableName, vars.portfolioId, tables);
      match d.0
      case Pass => (Pass, Settle(tables, d.1))
      case Fail(reason) => (Fail(LifecycleFailure(reason)), Settle(tables, d.1))
  }

  /**
   * The dispatcher on one decoded body, given the failure `init_failure`
   * recorded earlier (if any): the callback it sends and the store it leaves.
   */
  function RecordResult(prior: Option<ProcessingError>, vars: GovernanceEnvVars, doc: Json, boundTable: string,
                        tables: Tables, now: nat, updateProduct: UpdateProduct, deleteProduct: DeleteProduct)
    : (r: (Callback, Tables))
    ensures r.1.Keys == tables.Keys
    // a recorded init failure answers FAILED without dispatching
    ensures prior.Some? ==> r == (Failed(PriorInitFailure(prior.value)), tables)
    ensures prior.None? && RequestTypeOf(doc).None? ==> r == (Failed(UnknownRequestType), tables)
    ensures prior.None? && RequestTypeOf(doc) == Some(Create) ==>
      var cr := CreateResult(vars, doc, boundTable, tables, now);
      && r.1 == cr.1
      && (cr.0.Success? ==> r.0 == Succeeded(Some(cr.0.value)))
      && (cr.0.Failure? ==> r.0 == Failed(cr.0.error))
    ensures prior.None? && RequestTypeOf(doc) == Some(Update) ==>
      var ur := UpdateEvent(vars, doc, tables, updateProduct);
      && r.1 == ur.1
      && (ur.0.Success? ==> r.0 == Succeeded(Some(ur.0.value)))
      && (ur.0.Failure? ==> r.0 == Failed(ur.0.error))
    ensures prior.None? && RequestTypeOf(doc) == Some(Delete) ==>
      var dr := DeleteEvent(vars, doc, tables, deleteProduct);
      && r.1 == dr.1
      && (dr.0.Pass? ==> r.0 == Succeeded(None))
      && (dr.0.Fail? ==> r.0 == Failed(dr.0.error))
  {
    if prior.Some? then (Failed(PriorInitFailure(prior.value)), tables)
    else
      match RequestTypeOf(doc)
      case None => (Failed(UnknownRequestType), tables)
      case Some(Create) =>
        var cr := CreateResult(vars, doc, boundTable, tables, now);
        (if cr.0.Success? then Succeeded(Some(cr.0.value)) else Failed(cr.0.error), cr.1)
      case Some(Update) =>
        var ur := UpdateEvent(vars, doc, tables, updateProduct);
        (if ur.0.Success? then Succeeded(Some(ur.0.value)) else Failed(ur.0.error), ur.1)
      case Some(Delete) =>
        var dr := DeleteEvent(vars, doc, tables, deleteProduct);
        (if dr.0.Pass? then Succeeded(None) else Failed(dr.0.error), dr.1)
  }

  /**
   * Dispatching `docs` in order, each against the store the previous ones
   * left: the callbacks sent and the final store.
   */
  function Run(prior: Option<ProcessingError>, vars: GovernanceEnvVars, docs: seq<Json>, boundTable: string,
               tables: Tables, now: nat, updateProduct: UpdateProduct, deleteProduct: DeleteProduct)
    : (r: (seq<Callback>, Tables))
    ensures |r.0| == |docs|
    ensures r.1.Keys == tables.Keys
    // after an init failure nothing is dispatched and nothing is written
    ensures prior.Some? ==>
      && r.1 == tables
      && forall j :: 0 <= j < |docs| ==> r.0[j] == Failed(PriorInitFailure(prior.value))
    decreases |docs|
  {
    if docs == [] then ([], tables)
    else
      var before := Run(prior, vars, docs[..|docs| - 1], boundTable, tables, now, updateProduct, deleteProduct);
      var last := RecordResult(prior, vars, docs[|docs| - 1], boundTable, before.1, now, updateProduct, deleteProduct);
      (before.0 + [last.0], last.1)
  }

  /** Dispatching one more decoded body extends the run by one step. */
  lemma RunStep(prior: Option<ProcessingError>, vars: GovernanceEnvVars, docs: seq<Json>, i: nat,
                boundTable: string, tables: Tables, now: nat,
                updateProduct: UpdateProduct, deleteProduct: DeleteProduct)
    requires i < |docs|
    ensures var before := Run(prior, vars, docs[..i], boundTable, tables, now, updateProduct, deleteProduct);
      var last := RecordResult(prior, vars, docs[i], boundTable, before.1, now, updateProduct, deleteProduct);
      Run(prior, vars, docs[..i + 1], boundTable, tables, now, updateProduct, deleteProduct)
        == (before.0 + [last.0], last.1)
  {
    assert docs[..i + 1][..i] == docs[..i];
  }

  /**
   * A Create record (or one of unknown type) sees the store only through
   * which tables exist, so its callback does not depend on the items earlier
   * records wrote.
   */
  lemma CreateDependsOnlyOnTableNames(prior: Option<ProcessingError>, vars: GovernanceEnvVars, doc: Json,
                                      boundTable: string, t1: Tables, t2: Tables, now: nat,
                                      updateProduct: UpdateProduct, deleteProduct: DeleteProduct)
    requires RequestTypeOf(doc) == Some(Create) || RequestTypeOf(doc).None?
    requires t1.Keys == t2.Keys
    ensures RecordResult(prior, vars, doc, boundTable, t1, now, updateProduct, deleteProduct).0
         == RecordResult(prior, vars, doc, boundTable, t2, now, updateProduct, deleteProduct).0
  {
    if prior.None? && RequestTypeOf(doc) == Some(Create) && ParseCreate(doc).Success? {
      var ev := ParseCreate(doc).value;
      var p := ev.resourceProperties;
      var w1 := Write(t1, boundTable, vars.portfolioId, ev.header.stackId, p.productName, p.productVersion,
                      p.accountId, p.consumerName, p.region, now);
      var w2 := Write(t2, boundTable, vars.portfolioId, ev.header.stackId, p.productName, p.productVersion,
                      p.accountId, p.consumerName, p.region, now);
      assert w1.Failure? ==> w2.Failure? && w1.error == w2.error;
    }
  }

  /**
   * A Create record reported SUCCESS has its entry in the bound table: the
   * request id is the physical resource id, and the stored entry carries the
   * environment's portfolio id, the stack id, the product fields and `now`.
   */
  lemma SucceededCreateIsStored(prior: Option<ProcessingError>, vars: GovernanceEnvVars, doc: Json,
                                boundTable: string, tables: Tables, now: nat,
                                updateProduct: UpdateProduct, deleteProduct: DeleteProduct)
    requires RequestTypeOf(doc) == Some(Create)
    requires RecordResult(prior, vars, doc, boundTable, tables, now, updateProduct, deleteProduct).0.Succeeded?
    ensures prior.None? && ParseCreate(doc).Success?
    ensures var ev := ParseCreate(doc).value;
      var p := ev.resourceProperties;
      var k := Key(vars.portfolioId, ev.header.stackId);
      var r := RecordResult(prior, vars, doc, boundTable, tables, now, updateProduct, deleteProduct);
      && r.0 == Succeeded(Some(ev.header.requestId))
      && boundTable in r.1 && k in r.1[boundTable]
      && r.1[boundTable][k] == Entry(vars.portfolioId, ev.header.stackId, p.productName, p.productVersion,
                                     p.accountId, p.consumerName, p.region, now)
  {
    var cr := CreateResult(vars, doc, boundTable, tables, now);
    assert cr.0.Success?;
    var ev := ParseCreate(doc).value;
    var p := ev.resourceProperties;
    var w := Write(tables, boundTable, vars.portfolioId, ev.header.stackId, p.productName, p.productVersion,
                   p.accountId, p.consumerName, p.region, now);
    assert w.Success?;
  }

  /**
   * A record reported FAILED leaves the store exactly as it was, unless it
   * reached `update_product` or `delete_product`, whose partial effects are
   * theirs to define.
   */
  lemma FailedRecordLeavesStore(prior: Option<ProcessingError>, vars: GovernanceEnvVars, doc: Json,
                                boundTable: string, tables: Tables, now: nat,
                                updateProduct: UpdateProduct, deleteProduct: DeleteProduct)
    requires RecordResult(prior, vars, doc, boundTable, tables, now, updateProduct, deleteProduct).0.Failed?
    ensures var e := RecordResult(prior, vars, doc, boundTable, tables, now, updateProduct, deleteProduct).0.reason;
      !e.LifecycleFailure? ==> RecordResult(prior, vars, doc, boundTable, tables, now, updateProduct, deleteProduct).1
                               == tables
  {
    if prior.None? && RequestTypeOf(doc) == Some(Create) {
      assert CreateResult(vars, doc, boundTable, tables, now).0.Failure?;
    }
  }

  /**
   * A Create body that fails model validation (a ProductModel missing a
   * field, say) is reported FAILED with the validation error and writes nothing.
   */
  lemma InvalidCreateFails(vars: GovernanceEnvVars, doc: Json, boundTable: string, tables: Tables, now: nat,
                           updateProduct: UpdateProduct, deleteProduct: DeleteProduct)
    requires RequestTypeOf(doc) == Some(Create)
    requires ParseCreate(doc).Failure?
    ensures RecordResult(None, vars, doc, boundTable, tables, now, updateProduct, deleteProduct)
         == (Failed(InvalidRequest(ParseCreate(doc).error)), tables)
  {
  }

  /**
   * An Update record whose call keeps the table names leaves exactly the
   * store `update_product` reports, and is answered with its result.
   */
  lemma UpdateStoreIsUpdateProducts(vars: GovernanceEnvVars, doc: Json, boundTable: string, tables: Tables,
                                    now: nat, updateProduct: UpdateProduct, deleteProduct: DeleteProduct)
    requires RequestTypeOf(doc) == Some(Update)
    requires ParseUpdate(doc).Success?
    requires updateProduct(ParseUpdate(doc).value, vars.tableName, vars.portfolioId, tables).1.Keys == tables.Keys
    ensures var u := updateProduct(ParseUpdate(doc).value, vars.tableName, vars.portfolioId, tables);
      var r := RecordResult(None, vars, doc, boundTable, tables, now, updateProduct, deleteProduct);
      && r.1 == u.1
      && (u.0.Success? <==> r.0.Succeeded?)
      && (u.0.Success? ==> r.0.physicalResourceId == Some(u.0.value))
  {
    var u := updateProduct(ParseUpdate(doc).value, vars.tableName, vars.portfolioId, tables);
    SettleKeepsTableNamePreservingStore(tables, u.1);
  }

  /**
   * The length bounds live in `ProductEntry`, not in `ProductModel`: a Create
   * body with an empty product name parses, and is then rejected by the DAL
   * with a length violation on the name, leaving the store unchanged.
   */
  lemma EmptyNameRejectedAtStore(vars: GovernanceEnvVars, doc: Json, boundTable: string, tables: Tables, now: nat)
    requires ParseCreate(doc).Success? && ParseCreate(doc).value.resourceProperties.productName == ""
    ensures var cr := CreateResult(vars, doc, boundTable, tables, now);
      && cr.0.Failure? && cr.0.error.StoreFailure? && cr.0.error.dal.Validation?
      && FieldLength(Name) in cr.0.error.dal.error.violations
      && cr.1 == tables
  {
  }

  /** `SqsModel.model_validate` as far as the handler reads it: a `Records` list whose items carry a string `body`. */
  function Bodies(items: seq<Json>): (r: Option<seq<string>>)
    ensures r.Some? <==> forall i :: 0 <= i < |items| ==> Str(items[i], "body").Some?
    ensures r.Some? ==> |r.value| == |items| && forall i :: 0 <= i < |items| ==> Str(items[i], "body") == Some(r.value[i])
  {
    if items == [] then Some([])
    else
      match (Str(items[0], "body"), Bodies(items[1..]))
      case (Some(b), Some(rest)) =>
        assert forall i :: 1 <= i < |items| ==> items[i] == items[1..][i - 1];
        Some([b] + rest)
      case (None, _) => None
      case (_, None) =>
        assert exists i :: 1 <= i < |items| && Str(items[i], "body").None? by {
          var i :| 0 <= i < |items[1..]| && Str(items[1..][i], "body").None?;
          assert items[1..][i] == items[i + 1];
        }
        None
  }

  function ParseEnvelope(event: Json): (r: Option<seq<string>>)
    ensures r.Some? <==>
      && Member(event, "Records").Some? && Member(event, "Records").value.JArr?
      && Bodies(Member(event, "Records").value.items).Some?
    ensures r.Some? ==> r == Bodies(Member(event, "Records").value.items)
  {
    match Member(event, "Records")
    case Some(JArr(items)) => Bodies(items)
    case _ => None
  }

  /** The decoded bodies up to (not including) the first that `json.loads` rejects. */
  function LeadingDecoded(bodies: seq<string>, decode: string -> Option<Json>): (r: seq<Json>)
    ensures |r| <= |bodies|
    ensures forall j :: 0 <= j < |r| ==> decode(bodies[j]) == Some(r[j])
    ensures |r| < |bodies| ==> decode(bodies[|r|]).None?
  {
    if bodies == [] then []
    else
      match decode(bodies[0])
      case None => []
      case Some(doc) =>
        var rest := LeadingDecoded(bodies[1..], decode);
        assert forall j :: 1 <= j < |bodies| ==> bodies[j] == bodies[1..][j - 1];
        [doc] + rest
  }

  /** What one invocation produces: a callback per dispatched record and what it handed to `init_failure`. */
  datatype Invocation = Invocation(callbacks: seq<Callback>, initFailure: Option<ProcessingError>)

  /** The module-level `CFN_RESOURCE`, which lives as long as the process. */
  class CfnResource {
    /** `_init_failed`: the last error handed to `init_failure`. */
    var initFailed: Option<ProcessingError>

    constructor ()
      ensures initFailed == None
    {
      initFailed := None;
    }
  }

  /** `create_event`. */
  method CreateEvent(factory: DalFactory, db: DynamoDb, now: nat, vars: GovernanceEnvVars, event: Json)
    returns (r: Result<string, HandlerError>)
    requires factory.Valid()
    modifies factory, factory.meta, db, factory.meta.instances.Values
    ensures factory.Valid()
    ensures forall x :: x in factory.meta.instances.Values ==> x in old(factory.meta.instances.Values) || fresh(x)
    ensures ParseCreate(event).Failure? ==> factory.Abstract() == old(factory.Abstract())
    ensures ParseCreate(event).Success? ==>
      factory.Abstract() == Request(old(factory.Abstract()), vars.tableName).0
    ensures var c := CreateResult(vars, event, Request(old(factory.Abstract()), vars.tableName).1,
                                  old(db.tables), now);
            r == c.0 && db.tables == c.1
  {
    var parsed := ParseCreate(event);
    if parsed.Failure? {
      return Failure(InvalidRequest(parsed.error));
    }
    var p := ProvisionProduct(factory, db, now, vars.tableName, vars.portfolioId, parsed.value);
    match p
    case Failure(e) => r := Failure(StoreFailure(e));
    case Success(id) => r := Success(id);
  }

  /**
   * `CFN_RESOURCE(record_body, context)` for one decoded body: answer FAILED
   * if an init failure was recorded, otherwise route by `RequestType` and
   * report the outcome.
   */
  method DispatchRecord(cfn: CfnResource, factory: DalFactory, db: DynamoDb, now: nat, vars: GovernanceEnvVars,
                        doc: Json, updateProduct: UpdateProduct, deleteProduct: DeleteProduct)
    returns (c: Callback)
    requires factory.Valid()
    modifies factory, factory.meta, db, factory.meta.instances.Values
    ensures factory.Valid()
    ensures forall x :: x in factory.meta.instances.Values ==> x in old(factory.meta.instances.Values) || fresh(x)
    ensures factory.Abstract() == old(factory.Abstract())
         || factory.Abstract() == Request(old(factory.Abstract()), vars.tableName).0
    ensures (c, db.tables) == RecordResult(cfn.initFailed, vars, doc, Request(old(factory.Abstract()), vars.tableName).1,
                                           old(db.tables), now, updateProduct, deleteProduct)
  {
    if cfn.initFailed.Some? {
      return Failed(PriorInitFailure(cfn.initFailed.value));
    }
    match RequestTypeOf(doc) {
      case None =>
        c := Failed(UnknownRequestType);
      case Some(Create) =>
        var r := CreateEvent(factory, db, now, vars, doc);
        c := if r.Success? then Succeeded(Some(r.value)) else Failed(r.error);
      case Some(Update) =>
        var u := UpdateEvent(vars, doc, db.tables, updateProduct);
        db.tables := u.1;
        c := if u.0.Success? then Succeeded(Some(u.0.value)) else Failed(u.0.error);
      case Some(Delete) =>
        var d := DeleteEvent(vars, doc, db.tables, deleteProduct);
        db.tables := d.1;
        c := if d.0.Pass? then Succeeded(None) else Failed(d.0.error);
    }
  }

  /**
   * The record loop of `handle_product_event`: decode each body in order and
   * dispatch it; the first body that does not decode stops the loop.
   */
  method ProcessRecords(cfn: CfnResource, factory: DalFactory, db: DynamoDb, now: nat, vars: GovernanceEnvVars,
                        bodies: seq<string>, decode: string -> Option<Json>,
                        updateProduct: UpdateProduct, deleteProduct: DeleteProduct)
    returns (callbacks: seq<Callback>, failure: Option<ProcessingError>)
    requires factory.Valid()
    modifies factory, factory.meta, db, factory.meta.instances.Values
    ensures factory.Valid()
    ensures forall x :: x in factory.meta.instances.Values ==> x in old(factory.meta.instances.Values) || fresh(x)
    ensures factory.Abstract() == old(factory.Abstract())
         || factory.Abstract() == Request(old(factory.Abstract()), vars.tableName).0
    ensures var docs := LeadingDecoded(bodies, decode);
      var run := Run(cfn.initFailed, vars, docs, Request(old(factory.Abstract()), vars.tableName).1,
                     old(db.tables), now, updateProduct, deleteProduct);
      && callbacks == run.0 && db.tables == run.1
      && (|docs| == |bodies| ==> failure == None)
      && (|docs| < |bodies| ==> failure == Some(UndecodableBody(|docs|)))
  {
    ghost var docs := LeadingDecoded(bodies, decode);
    ghost var s0 := factory.Abstract();
    ghost var bound := Request(s0, vars.tableName).1;
    ghost var t0 := db.tables;
    callbacks := [];
    failure := None;
    var i := 0;
    while i < |bodies|
      invariant 0 <= i <= |docs|
      invariant (callbacks, db.tables)
             == Run(cfn.initFailed, vars, docs[..i], bound, t0, now, updateProduct, deleteProduct)
      invariant failure == None
      invariant factory.Valid()
      invariant forall x :: x in factory.meta.instances.Values ==> x in old(factory.meta.instances.Values) || fresh(x)
      invariant factory.Abstract() == s0 || factory.Abstract() == Request(s0, vars.tableName).0
    {
      var decoded := decode(bodies[i]);
      if decoded.None? {
        failure := Some(UndecodableBody(i));
        break;
      }
      var doc := decoded.value;
      assert doc == docs[i];
      RequestIdempotent(s0, vars.tableName);
      var callback := DispatchRecord(cfn, factory, db, now, vars, doc, updateProduct, deleteProduct);
      RunStep(cfn.initFailed, vars, docs, i, bound, t0, now, updateProduct, deleteProduct);
      callbacks := callbacks + [callback];
      i := i + 1;
    }
    assert i == |docs| ==> docs[..i] == docs;
  }

  /**
   * `handle_product_event`. An invalid environment fails the decorator before
   * the handler body runs, so that error escapes; an invalid envelope or an
   * undecodable body is caught and handed to `init_failure`, which every
   * later record of the process then meets.
   */
  method HandleProductEvent(cfn: CfnResource, factory: DalFactory, db: DynamoDb, now: nat, environ: Environment,
                            event: Json, decode: string -> Option<Json>,
                            updateProduct: UpdateProduct, deleteProduct: DeleteProduct)
    returns (r: Result<Invocation, EnvError>)
    requires factory.Valid()
    modifies cfn, factory, factory.meta, db, factory.meta.instances.Values
    ensures factory.Valid()
    ensures forall x :: x in factory.meta.instances.Values ==> x in old(factory.meta.instances.Values) || fresh(x)
    ensures ParseGovernance(environ).Failure? ==>
      && r == Failure(ParseGovernance(environ).error)
      && db.tables == old(db.tables) && factory.Abstract() == old(factory.Abstract())
      && cfn.initFailed == old(cfn.initFailed)
    ensures ParseGovernance(environ).Success? ==>
      var vars := ParseGovernance(environ).value;
      && r.Success?
      && (factory.Abstract() == old(factory.Abstract())
          || factory.Abstract() == Request(old(factory.Abstract()), vars.tableName).0)
      // whatever this invocation hands to init_failure is what later records meet
      && cfn.initFailed == (if r.value.initFailure.Some? then r.value.initFailure else old(cfn.initFailed))
      && (ParseEnvelope(event).None? ==>
            r.value == Invocation([], Some(InvalidEnvelope)) && db.tables == old(db.tables))
      && (ParseEnvelope(event).Some? ==>
            var bodies := ParseEnvelope(event).value;
            var docs := LeadingDecoded(bodies, decode);
            var run := Run(old(cfn.initFailed), vars, docs, Request(old(factory.Abstract()), vars.tableName).1,
                           old(db.tables), now, updateProduct, deleteProduct);
            && r.value.callbacks == run.0 && db.tables == run.1
            && (|docs| == |bodies| ==> r.value.initFailure == None)
            && (|docs| < |bodies| ==> r.value.initFailure == Some(UndecodableBody(|docs|))))
  {
    var env := ParseGovernance(environ);
    if env.Failure? {
      return Failure(env.error);
    }
    var envelope := ParseEnvelope(event);
    if envelope.None? {
      cfn.initFailed := Some(InvalidEnvelope);
      return Success(Invocation([], Some(InvalidEnvelope)));
    }
    var callbacks, failure := ProcessRecords(cfn, factory, db, now, env.value, envelope.value, decode,
                                             updateProduct, deleteProduct);
    if failure.Some? {
      cfn.initFailed := failure;
    }
    r := Success(Invocation(callbacks, failure));
  }
}
