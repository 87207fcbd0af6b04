/**
 * The lifecycle-request models (catalog_backend/models/input.py): a product's
 * five properties and the Create, Update and Delete custom-resource events
 * that carry them, parsed from the decoded request body.
 */
module Input {
  import opened Wrappers
  import opened Json

  /** The only accepted `LogicalResourceId`. */
  const ExpectedLogicalResourceId: string := "PlatformGovernanceCustomResource"

  /** The aliases of `ProductModel`'s five required `str` fields. */
  const ProductFields: seq<string> := ["product_name", "product_version", "account_id", "consumer_name", "region"]

  /** The other required `str` fields every custom-resource request carries. */
  const HeaderFields: seq<string> := ["ServiceToken", "ResponseURL", "StackId", "RequestId", "ResourceType"]

  /** `ProductModel`: five strings, with no length bounds. */
  datatype ProductModel = ProductModel(
    productName: string, productVersion: string, accountId: string, consumerName: string, region: string)

  datatype RequestHeader = RequestHeader(
    serviceToken: string, responseUrl: string, stackId: string, requestId: string,
    logicalResourceId: string, resourceType: string)

  datatype ProductCreateEvent = ProductCreateEvent(header: RequestHeader, resourceProperties: ProductModel)
  datatype ProductDeleteEvent = ProductDeleteEvent(header: RequestHeader, resourceProperties: ProductModel)
  datatype ProductUpdateEvent = ProductUpdateEvent(
    header: RequestHeader, resourceProperties: ProductModel, oldResourceProperties: ProductModel)

  /** A ValidationError naming every top-level field (by alias) that is missing or invalid. */
  datatype ParseError = ParseError(fields: set<string>)

  function StrOr(j: Json, key: string): string
  {
    match Str(j, key)
    case Some(s) => s
    case None => ""
  }

  function MissingProductFields(j: Json): (r: set<string>)
    ensures forall k :: k in r <==> k in ProductFields && Str(j, k).None?
  {
    set k | k in ProductFields && Str(j, k).None?
  }

  /** `ProductModel.model_validate`: all five fields must be strings; other keys are ignored. */
  function ParseProduct(j: Json): (r: Result<ProductModel, ParseError>)
    ensures r.Success? <==> forall k :: k in ProductFields ==> Str(j, k).Some?
    ensures r.Success? ==>
      && Str(j, "product_name") == Some(r.value.productName)
      && Str(j, "product_version") == Some(r.value.productVersion)
      && Str(j, "account_id") == Some(r.value.accountId)
      && Str(j, "consumer_name") == Some(r.value.consumerName)
      && Str(j, "region") == Some(r.value.region)
    ensures r.Failure? ==> r.error.fields != {}
    ensures r.Failure? ==> forall k :: k in ProductFields ==> (k in r.error.fields <==> Str(j, k).None?)
  {
    var missing := MissingProductFields(j);
    if missing == {} then
      Success(ProductModel(StrOr(j, "product_name"), StrOr(j, "product_version"), StrOr(j, "account_id"),
                           StrOr(j, "consumer_name"), StrOr(j, "region")))
    else
      assert exists k :: k in missing;
      Failure(ParseError(missing))
  }

  /** A nested `ProductModel` field of the request; an absent field fails like a non-object. */
  function NestedProduct(j: Json, key: string): Result<ProductModel, ParseError>
  {
    match Member(j, key)
    case Some(p) => ParseProduct(p)
    case None => ParseProduct(JNull)
  }

  /** The header constraints of a request of type `requestType`. */
  predicate HasHeader(j: Json, requestType: string)
  {
    && Str(j, "RequestType") == Some(requestType)
    && (forall k :: k in HeaderFields ==> Str(j, k).Some?)
    && Str(j, "LogicalResourceId") == Some(ExpectedLogicalResourceId)
  }

  function MissingHeaderFields(j: Json): (r: set<string>)
    ensures r == {} <==> forall k :: k in HeaderFields ==> Str(j, k).Some?
    ensures "LogicalResourceId" !in r
  {
    MissingHeaderFieldsEmpty(j);
    set k | k in HeaderFields && Str(j, k).None?
  }

  lemma MissingHeaderFieldsEmpty(j: Json)
    ensures var r := set k | k in HeaderFields && Str(j, k).None?;
            r == {} <==> forall k :: k in HeaderFields ==> Str(j, k).Some?
  {
    var r := set k | k in HeaderFields && Str(j, k).None?;
    if r == {} {
      forall k | k in HeaderFields ensures Str(j, k).Some? {
        assert k !in r;
      }
    }
  }

  function HeaderErrors(j: Json, requestType: string): (r: set<string>)
    ensures r == {} <==> HasHeader(j, requestType)
    ensures "LogicalResourceId" in r <==> Str(j, "LogicalResourceId") != Some(ExpectedLogicalResourceId)
  {
    (if Str(j, "RequestType") == Some(requestType) then {} else {"RequestType"})
    + MissingHeaderFields(j)
    + (if Str(j, "LogicalResourceId") == Some(ExpectedLogicalResourceId) then {} else {"LogicalResourceId"})
  }

  /** The header of a well-formed request: every field as it appeared. */
  function HeaderOf(j: Json): (h: RequestHeader)
    requires HasHeader(j, StrOr(j, "RequestType"))
    ensures Str(j, "ServiceToken") == Some(h.serviceToken) && Str(j, "ResponseURL") == Some(h.responseUrl)
    ensures Str(j, "StackId") == Some(h.stackId) && Str(j, "RequestId") == Some(h.requestId)
    ensures Str(j, "ResourceType") == Some(h.resourceType)
    ensures h.logicalResourceId == ExpectedLogicalResourceId
  {
    assert "ServiceToken" in HeaderFields && "ResponseURL" in HeaderFields && "StackId" in HeaderFields;
    assert "RequestId" in HeaderFields && "ResourceType" in HeaderFields;
    RequestHeader(StrOr(j, "ServiceToken"), StrOr(j, "ResponseURL"), StrOr(j, "StackId"), StrOr(j, "RequestId"),
                  StrOr(j, "LogicalResourceId"), StrOr(j, "ResourceType"))
  }

  function PropertyErrors(j: Json, key: string): (r: set<string>)
    ensures r == {} <==> NestedProduct(j, key).Success?
  {
    if NestedProduct(j, key).Success? then {} else {key}
  }

  /** `ProductCreateEventModel.model_validate`. */
  function ParseCreate(j: Json): (r: Result<ProductCreateEvent, ParseError>)
    ensures r.Success? <==> HasHeader(j, "Create") && NestedProduct(j, "ResourceProperties").Success?
    ensures r.Success? ==>
      && r.value.header == HeaderOf(j)
      && r.value.resourceProperties == NestedProduct(j, "ResourceProperties").value
    ensures r.Failure? ==> r.error.fields != {}
    ensures Str(j, "LogicalResourceId") != Some(ExpectedLogicalResourceId) ==>
      r.Failure? && "LogicalResourceId" in r.error.fields
  {
    var errors := HeaderErrors(j, "Create") + PropertyErrors(j, "ResourceProperties");
    if errors == {} then Success(ProductCreateEvent(HeaderOf(j), NestedProduct(j, "ResourceProperties").value))
    else Failure(ParseError(errors))
  }

  /** `ProductDeleteEventModel.model_validate`. */
  function ParseDelete(j: Json): (r: Result<ProductDeleteEvent, ParseError>)
    ensures r.Success? <==> HasHeader(j, "Delete") && NestedProduct(j, "ResourceProperties").Success?
    ensures r.Success? ==>
      && r.value.header == HeaderOf(j)
      && r.value.resourceProperties == NestedProduct(j, "ResourceProperties").value
    ensures r.Failure? ==> r.error.fields != {}
    ensures Str(j, "LogicalResourceId") != Some(ExpectedLogicalResourceId) ==>
      r.Failure? && "LogicalResourceId" in r.error.fields
  {
    var errors := HeaderErrors(j, "Delete") + PropertyErrors(j, "ResourceProperties");
    if errors == {} then Success(ProductDeleteEvent(HeaderOf(j), NestedProduct(j, "ResourceProperties").value))
    else Failure(ParseError(errors))
  }

  /** `ProductUpdateEventModel.model_validate`: also requires `OldResourceProperties`, kept apart. */
  function ParseUpdate(j: Json): (r: Result<ProductUpdateEvent, ParseError>)
    ensures r.Success? <==>
      && HasHeader(j, "Update")
      && NestedProduct(j, "ResourceProperties").Success?
      && NestedProduct(j, "OldResourceProperties").Success?
    ensures r.Success? ==>
      && r.value.header == HeaderOf(j)
      && r.value.resourceProperties == NestedProduct(j, "ResourceProperties").value
      && r.value.oldResourceProperties == NestedProduct(j, "OldResourceProperties").value
    ensures r.Failure? ==> r.error.fields != {}
    ensures NestedProduct(j, "OldResourceProperties").Failure? ==>
      r.Failure? && "OldResourceProperties" in r.error.fields
    ensures Str(j, "LogicalResourceId") != Some(ExpectedLogicalResourceId) ==>
      r.Failure? && "LogicalResourceId" in r.error.fields
  {
    var errors := HeaderErrors(j, "Update") + PropertyErrors(j, "ResourceProperties")
                  + PropertyErrors(j, "OldResourceProperties");
    if errors == {} then
      Success(ProductUpdateEvent(HeaderOf(j), NestedProduct(j, "ResourceProperties").value,
                                 NestedProduct(j, "OldResourceProperties").value))
    else Failure(ParseError(errors))
  }

  /** An empty `{}` as properties is rejected, for every request type and for the old properties too. */
  lemma EmptyPropertiesRejected(j: Json)
    ensures Member(j, "ResourceProperties") == Some(JObj(map[])) ==>
      ParseCreate(j).Failure? && ParseDelete(j).Failure? && ParseUpdate(j).Failure?
    ensures Member(j, "OldResourceProperties") == Some(JObj(map[])) ==> ParseUpdate(j).Failure?
  {
    assert "product_name" in ProductFields;
  }

  /** Extra keys inside the properties, such as `ServiceToken`, do not change the parse. */
  lemma ExtraPropertiesIgnored(m: map<string, Json>, key: string, value: Json)
    requires key !in ProductFields
    ensures ParseProduct(JObj(m[key := value])) == ParseProduct(JObj(m))
  {
    assert MissingProductFields(JObj(m[key := value])) == MissingProductFields(JObj(m));
  }

  /** Parsing the properties keeps every value exactly as sent. */
  lemma ParseProductRoundTrip(p: ProductModel, extra: map<string, Json>)
    ensures var m := extra["product_name" := JStr(p.productName)]["product_version" := JStr(p.productVersion)]
                         ["account_id" := JStr(p.accountId)]["consumer_name" := JStr(p.consumerName)]
                         ["region" := JStr(p.region)];
            ParseProduct(JObj(m)) == Success(p)
  {
  }

  /** `ProductModel` sets no length bounds: an empty name and a 41-character name both parse. */
  lemma ProductModelHasNoLengthBounds(name: string)
    ensures var p := JObj(map["product_name" := JStr(name), "product_version" := JStr("1.0"),
                              "account_id" := JStr("123456789012"), "consumer_name" := JStr("TestConsumer"),
                              "region" := JStr("us-west-2")]);
            ParseProduct(p).Success? && ParseProduct(p).value.productName == name
  {
  }
}
