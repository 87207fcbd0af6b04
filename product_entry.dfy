/**
 * The persisted product-deployment record (`ProductEntry` in
 * catalog_backend/dal/models/db.py) and the field constraints pydantic checks
 * when one is constructed.
 */
module ProductEntry {
  import opened Wrappers

  /** The seven string fields of an entry, in declaration order. */
  datatype Field = PortfolioId | ProductStackId | Name | Version | AccountId | ConsumerName | Region

  /** The `max_length` of each string field; every one has `min_length=1`. */
  function MaxLength(f: Field): nat
  {
    match f
    case PortfolioId => 40
    case ProductStackId => 200
    case Name => 40
    case Version => 10
    case AccountId => 40
    case ConsumerName => 40
    case Region => 20
  }

  /** The length constraint on a string field (lengths count Unicode code points). */
  predicate FieldValid(f: Field, s: string)
  {
    1 <= |s| <= MaxLength(f)
  }

  datatype Entry = Entry(
    portfolioId: string,     // partition key
    productStackId: string,  // sort key
    name: string,
    version: string,
    accountId: string,
    consumerName: string,
    region: string,
    createdAt: int)
  {
    function Get(f: Field): string
    {
      match f
      case PortfolioId => portfolioId
      case ProductStackId => productStackId
      case Name => name
      case Version => version
      case AccountId => accountId
      case ConsumerName => consumerName
      case Region => region
    }
  }

  /** One failed constraint, as a pydantic error entry would name it. */
  datatype Violation = FieldLength(field: Field) | NonPositiveCreatedAt

  datatype ValidationError = ValidationError(violations: seq<Violation>)

  /** An entry satisfies all eight constraints: seven length bounds and a positive `created_at`. */
  predicate Valid(e: Entry)
  {
    && FieldValid(PortfolioId, e.portfolioId)
    && FieldValid(ProductStackId, e.productStackId)
    && FieldValid(Name, e.name)
    && FieldValid(Version, e.version)
    && FieldValid(AccountId, e.accountId)
    && FieldValid(ConsumerName, e.consumerName)
    && FieldValid(Region, e.region)
    && e.createdAt > 0
  }

  /** The string fields in declaration order. */
  const AllFields: seq<Field> := [PortfolioId, ProductStackId, Name, Version, AccountId, ConsumerName, Region]

  lemma AllFieldsComplete(f: Field)
    ensures f in AllFields
  {
  }

  /** `Valid` is the conjunction over all fields of `FieldValid`, plus the `created_at` bound. */
  lemma ValidMeansEveryField(e: Entry)
    ensures Valid(e) <==> (forall f: Field :: FieldValid(f, e.Get(f))) && e.createdAt > 0
  {
    if Valid(e) {
      forall f: Field ensures FieldValid(f, e.Get(f)) {
        match f
        case PortfolioId =>
        case ProductStackId =>
        case Name =>
        case Version =>
        case AccountId =>
        case ConsumerName =>
        case Region =>
      }
    } else if forall f: Field :: FieldValid(f, e.Get(f)) {
      assert FieldValid(PortfolioId, e.Get(PortfolioId)) && FieldValid(ProductStackId, e.Get(ProductStackId));
      assert FieldValid(Name, e.Get(Name)) && FieldValid(Version, e.Get(Version));
      assert FieldValid(AccountId, e.Get(AccountId)) && FieldValid(ConsumerName, e.Get(ConsumerName));
      assert FieldValid(Region, e.Get(Region));
    }
  }

  /** The length violations among the fields `fs`, in the order of `fs`. */
  function LengthViolations(fs: seq<Field>, e: Entry): (r: seq<Violation>)
    ensures forall v :: v in r ==> v.FieldLength? && v.field in fs && !FieldValid(v.field, e.Get(v.field))
    ensures forall f :: f in fs && !FieldValid(f, e.Get(f)) ==> FieldLength(f) in r
  {
    if fs == [] then []
    else
      (if FieldValid(fs[0], e.Get(fs[0])) then [] else [FieldLength(fs[0])])
      + LengthViolations(fs[1..], e)
  }

  function CreatedAtViolations(e: Entry): seq<Violation>
  {
    if e.createdAt > 0 then [] else [NonPositiveCreatedAt]
  }

  /** Every failed constraint of `e`, in field declaration order, `created_at` last. */
  function Violations(e: Entry): (r: seq<Violation>)
    ensures forall f: Field :: FieldLength(f) in r <==> !FieldValid(f, e.Get(f))
    ensures NonPositiveCreatedAt in r <==> e.createdAt <= 0
    ensures r == [] <==> Valid(e)
  {
    ViolationsComplete(e);
    LengthViolations(AllFields, e) + CreatedAtViolations(e)
  }

  lemma ViolationsComplete(e: Entry)
    ensures var r := LengthViolations(AllFields, e) + CreatedAtViolations(e);
      && (forall f: Field :: FieldLength(f) in r <==> !FieldValid(f, e.Get(f)))
      && (r == [] <==> Valid(e))
  {
    var lv := LengthViolations(AllFields, e);
    var r := lv + CreatedAtViolations(e);
    forall f: Field ensures FieldLength(f) in r <==> !FieldValid(f, e.Get(f)) {
      AllFieldsComplete(f);
    }
    ValidMeansEveryField(e);
    if r == [] {
      assert CreatedAtViolations(e) == [];
    } else if lv != [] {
      assert lv[0] in lv;
    } else {
      assert CreatedAtViolations(e) != [];
    }
  }

  /**
   * `ProductEntry(...)`: construction either yields the entry with the given
   * field values or raises a ValidationError that lists every violation.
   */
  function NewEntry(portfolioId: string, productStackId: string, name: string, version: string,
                    accountId: string, consumerName: string, region: string, createdAt: int)
    : (r: Result<Entry, ValidationError>)
    ensures r.Success? <==>
      && 1 <= |portfolioId| <= 40 && 1 <= |productStackId| <= 200
      && 1 <= |name| <= 40 && 1 <= |version| <= 10
      && 1 <= |accountId| <= 40 && 1 <= |consumerName| <= 40
      && 1 <= |region| <= 20 && createdAt > 0
    ensures r.Success? ==>
      r.value == Entry(portfolioId, productStackId, name, version, accountId, consumerName, region, createdAt)
    ensures r.Failure? ==> r.error.violations != []
    ensures r.Failure? ==> forall f: Field ::
      FieldLength(f) in r.error.violations <==>
      !FieldValid(f, Entry(portfolioId, productStackId, name, version, accountId, consumerName, region, createdAt).Get(f))
  {
    var e := Entry(portfolioId, productStackId, name, version, accountId, consumerName, region, createdAt);
    var v := Violations(e);
    if v == [] then Success(e) else Failure(ValidationError(v))
  }

  /** A value of exactly the maximum length passes; one more character, or none at all, fails. */
  lemma FieldBoundaries(f: Field, s: string)
    ensures |s| == MaxLength(f) ==> FieldValid(f, s)
    ensures |s| == MaxLength(f) + 1 ==> !FieldValid(f, s)
    ensures |s| == 0 ==> !FieldValid(f, s)
  {
  }

  /** The over-long values of the unit tests are all rejected: 41, 11, 41, 41 and 21 characters. */
  lemma OverLongTestValuesRejected(s: string)
    ensures |s| == 41 ==> !FieldValid(Name, s) && !FieldValid(AccountId, s) && !FieldValid(ConsumerName, s)
    ensures |s| == 11 ==> !FieldValid(Version, s)
    ensures |s| == 21 ==> !FieldValid(Region, s)
  {
  }
}
