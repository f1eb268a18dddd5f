/**
 * The four records of the rentals app (LLC, Property, Tenant, Payment) and the
 * field rules a model form enforces before a record is saved: required text,
 * maximum lengths, choice codes, decimal precision and minimum values.
 * Money is held in integer cents and bathrooms in integer tenths.
 */
module Entities {
  import opened Wrappers
  import opened Dates

  /** A primary key (Django's auto-incremented `id`). */
  type Id = nat

  datatype PropertyStatus = Occupied | Vacant | Office | LotVacant | OtherStatus

  datatype IdentificationType = DriversLicense | DodId | SocialSecurity | Passport | OtherId

  datatype Llc = Llc(name: string, creationDate: Date, lastFilingDate: Option<Date>)

  datatype Property = Property(
    llc: Id,
    streetNumber: string,
    streetName: string,
    datePurchased: Option<Date>,
    size: string,
    status: PropertyStatus,
    rentAmount: int,      // cents
    homePayment: int,     // cents
    lotPayment: int,      // cents
    make: string,
    year: Option<int>,
    vin: Option<string>,
    securityDeposit: int, // cents
    bedrooms: int,
    bathrooms: int,       // tenths
    powerProvider: string,
    waterProvider: string)

  datatype Tenant = Tenant(
    firstName: string,
    lastName: string,
    phoneNumber: string,
    dateOfBirth: Option<Date>,
    identificationType: Option<IdentificationType>, // None is the blank choice
    identificationNumber: string,
    isApproved: bool,
    dateApproved: Option<Date>,
    moveInDate: Option<Date>,
    property: Option<Id>)

  datatype Payment = Payment(tenant: Id, property: Id, paymentDate: Date, amount: int, notes: string)

  // ---- choice codes ----

  /** The stored code of a property status (`max_length = 3`). */
  function StatusCode(s: PropertyStatus): string {
    match s
    case Occupied => "OCC"
    case Vacant => "VAC"
    case Office => "OFF"
    case LotVacant => "LOT"
    case OtherStatus => "OTH"
  }

  /** Choice validation: a code outside the list is refused. */
  function ParseStatus(code: string): (r: Option<PropertyStatus>)
    ensures r.Some? <==> exists s :: StatusCode(s) == code
    ensures r.Some? ==> StatusCode(r.value) == code
  {
    assert StatusCode(Occupied) == "OCC" && StatusCode(Vacant) == "VAC" && StatusCode(Office) == "OFF";
    assert StatusCode(LotVacant) == "LOT" && StatusCode(OtherStatus) == "OTH";
    if code == "OCC" then Some(Occupied)
    else if code == "VAC" then Some(Vacant)
    else if code == "OFF" then Some(Office)
    else if code == "LOT" then Some(LotVacant)
    else if code == "OTH" then Some(OtherStatus)
    else None
  }

  lemma StatusCodeRoundTrip(s: PropertyStatus)
    ensures ParseStatus(StatusCode(s)) == Some(s)
    ensures |StatusCode(s)| <= 3
  {
  }

  /** The stored code of an identification type (`max_length = 4`). */
  function IdentificationCode(t: IdentificationType): string {
    match t
    case DriversLicense => "DL"
    case DodId => "DOD"
    case SocialSecurity => "SSN"
    case Passport => "PASS"
    case OtherId => "OTH"
  }

  /**
   * Choice validation of `identification_type`, which is `blank = True`: the
   * empty code is the blank choice, a listed code is its type, anything else
   * is refused.
   */
  function ParseIdentification(code: string): (r: Result<Option<IdentificationType>, ()>)
    ensures r.Ok? <==> code == "" || exists t :: IdentificationCode(t) == code
    ensures r == Ok(None) <==> code == ""
    ensures r.Ok? && r.value.Some? ==> IdentificationCode(r.value.value) == code
  {
    assert IdentificationCode(DriversLicense) == "DL" && IdentificationCode(DodId) == "DOD";
    assert IdentificationCode(SocialSecurity) == "SSN" && IdentificationCode(Passport) == "PASS";
    assert IdentificationCode(OtherId) == "OTH";
    if code == "" then Ok(None)
    else if code == "DL" then Ok(Some(DriversLicense))
    else if code == "DOD" then Ok(Some(DodId))
    else if code == "SSN" then Ok(Some(SocialSecurity))
    else if code == "PASS" then Ok(Some(Passport))
    else if code == "OTH" then Ok(Some(OtherId))
    else Err(())
  }

  lemma IdentificationCodeRoundTrip(t: IdentificationType)
    ensures ParseIdentification(IdentificationCode(t)) == Ok(Some(t))
    ensures 0 < |IdentificationCode(t)| <= 4
  {
  }

  // ---- field rules ----

  /** The model fields a save can be refused on, one constructor per column. */
  datatype Field =
    | LlcName | LlcCreationDate | LlcLastFilingDate
    | PropertyLlc | PropertyStreetNumber | PropertyStreetName | PropertyDatePurchased | PropertySize
    | PropertyRentAmount | PropertyHomePayment | PropertyLotPayment | PropertyMake | PropertyYear
    | PropertyVin | PropertySecurityDeposit | PropertyBedrooms | PropertyBathrooms
    | PropertyPowerProvider | PropertyWaterProvider
    | TenantFirstName | TenantLastName | TenantPhoneNumber | TenantDateOfBirth
    | TenantIdentificationNumber | TenantDateApproved | TenantMoveInDate | TenantProperty
    | PaymentTenant | PaymentProperty | PaymentDate | PaymentAmount

  function Pow10(n: nat): nat {
    if n == 0 then 1 else 10 * Pow10(n - 1)
  }

  /**
   * `DecimalField(max_digits = m, decimal_places = p)` on a value already
   * scaled by 10^p: at most m digits in all, so the scaled magnitude stays
   * below 10^m.
   */
  predicate FitsDecimal(scaled: int, maxDigits: nat) {
    -(Pow10(maxDigits) as int) < scaled < Pow10(maxDigits)
  }

  const MoneyDigits: nat := 8
  const BathroomDigits: nat := 3
  /** `MinValueValidator(Decimal('0.01'))` on a payment amount, in cents. */
  const MinPaymentCents := 1
  /** `MinValueValidator(Decimal('0.5'))` on bathrooms, in tenths. */
  const MinBathroomTenths := 5
  /** The range of `PositiveSmallIntegerField`. */
  const SmallIntMax := 32767

  /** A `CharField` without `blank = True`: present and within its length. */
  predicate RequiredText(s: string, maxLength: nat) {
    0 < |s| <= maxLength
  }

  /** A `CharField` with `blank = True`. */
  predicate OptionalText(s: string, maxLength: nat) {
    |s| <= maxLength
  }

  predicate ValidOptionalDate(d: Option<Date>) {
    d.None? || IsValid(d.value)
  }

  /** `DecimalField(max_digits = 8, decimal_places = 2)` with `MinValueValidator(0)`. */
  predicate ValidMoney(cents: int) {
    cents >= 0 && FitsDecimal(cents, MoneyDigits)
  }

  /** `PositiveSmallIntegerField`. */
  predicate ValidSmallInt(n: int) {
    0 <= n <= SmallIntMax
  }

  const LlcFields: set<Field> := {LlcName, LlcCreationDate, LlcLastFilingDate}

  const PropertyFields: set<Field> := {
    PropertyStreetNumber, PropertyStreetName, PropertyDatePurchased, PropertySize,
    PropertyRentAmount, PropertyHomePayment, PropertyLotPayment, PropertyMake, PropertyYear,
    PropertyVin, PropertySecurityDeposit, PropertyBedrooms, PropertyBathrooms,
    PropertyPowerProvider, PropertyWaterProvider}

  const TenantFields: set<Field> := {
    TenantFirstName, TenantLastName, TenantPhoneNumber, TenantDateOfBirth,
    TenantIdentificationNumber, TenantDateApproved, TenantMoveInDate}

  const PaymentFields: set<Field> := {PaymentDate, PaymentAmount}

  /** The rule of one LLC field. */
  predicate LlcFieldOk(l: Llc, f: Field)
    ensures f !in LlcFields ==> LlcFieldOk(l, f)
    ensures f == LlcName ==> (LlcFieldOk(l, f) <==> l.name != [] && |l.name| <= 200)
    ensures f == LlcLastFilingDate && l.lastFilingDate.None? ==> LlcFieldOk(l, f)
  {
    match f
    case LlcName => RequiredText(l.name, 200)
    case LlcCreationDate => IsValid(l.creationDate)
    case LlcLastFilingDate => ValidOptionalDate(l.lastFilingDate)
    case _ => true
  }

  /** The rule of one Property field; the `llc` reference is checked by the store. */
  predicate PropertyFieldOk(p: Property, f: Field)
    ensures f !in PropertyFields ==> PropertyFieldOk(p, f)
    ensures f == PropertyRentAmount ==> (PropertyFieldOk(p, f) <==> 0 <= p.rentAmount <= 99_999_999)
    ensures f == PropertyHomePayment ==> (PropertyFieldOk(p, f) <==> 0 <= p.homePayment <= 99_999_999)
    ensures f == PropertyLotPayment ==> (PropertyFieldOk(p, f) <==> 0 <= p.lotPayment <= 99_999_999)
    ensures f == PropertySecurityDeposit ==> (PropertyFieldOk(p, f) <==> 0 <= p.securityDeposit <= 99_999_999)
    ensures f == PropertyBathrooms ==> (PropertyFieldOk(p, f) <==> 5 <= p.bathrooms <= 999)
    ensures f == PropertyBedrooms ==> (PropertyFieldOk(p, f) <==> 0 <= p.bedrooms <= 32767)
    ensures f == PropertyVin && p.vin.None? ==> PropertyFieldOk(p, f)
  {
    assert Pow10(MoneyDigits) == 100_000_000 && Pow10(BathroomDigits) == 1000;
    match f
    case PropertyStreetNumber => RequiredText(p.streetNumber, 20)
    case PropertyStreetName => RequiredText(p.streetName, 150)
    case PropertyDatePurchased => ValidOptionalDate(p.datePurchased)
    case PropertySize => OptionalText(p.size, 50)
    case PropertyRentAmount => ValidMoney(p.rentAmount)
    case PropertyHomePayment => ValidMoney(p.homePayment)
    case PropertyLotPayment => ValidMoney(p.lotPayment)
    case PropertyMake => OptionalText(p.make, 100)
    case PropertyYear => p.year.None? || ValidSmallInt(p.year.value)
    case PropertyVin => p.vin.None? || OptionalText(p.vin.value, 50)
    case PropertySecurityDeposit => ValidMoney(p.securityDeposit)
    case PropertyBedrooms => ValidSmallInt(p.bedrooms)
    case PropertyBathrooms => p.bathrooms >= MinBathroomTenths && FitsDecimal(p.bathrooms, BathroomDigits)
    case PropertyPowerProvider => OptionalText(p.powerProvider, 100)
    case PropertyWaterProvider => OptionalText(p.waterProvider, 100)
    case _ => true
  }

  /** The rule of one Tenant field; the `property` reference is checked by the store. */
  predicate TenantFieldOk(t: Tenant, f: Field)
    ensures f !in TenantFields ==> TenantFieldOk(t, f)
    ensures f == TenantFirstName ==> (TenantFieldOk(t, f) <==> t.firstName != [] && |t.firstName| <= 100)
    ensures f == TenantLastName ==> (TenantFieldOk(t, f) <==> t.lastName != [] && |t.lastName| <= 100)
  {
    match f
    case TenantFirstName => RequiredText(t.firstName, 100)
    case TenantLastName => RequiredText(t.lastName, 100)
    case TenantPhoneNumber => OptionalText(t.phoneNumber, 20)
    case TenantDateOfBirth => ValidOptionalDate(t.dateOfBirth)
    case TenantIdentificationNumber => OptionalText(t.identificationNumber, 100)
    case TenantDateApproved => ValidOptionalDate(t.dateApproved)
    case TenantMoveInDate => ValidOptionalDate(t.moveInDate)
    case _ => true
  }

  /** The rule of one Payment field (`notes` is unbounded text); both references are checked by the store. */
  predicate PaymentFieldOk(p: Payment, f: Field)
    ensures f !in PaymentFields ==> PaymentFieldOk(p, f)
    ensures f == PaymentAmount ==> (PaymentFieldOk(p, f) <==> 1 <= p.amount <= 99_999_999)
  {
    assert Pow10(MoneyDigits) == 100_000_000;
    match f
    case PaymentDate => IsValid(p.paymentDate)
    case PaymentAmount => p.amount >= MinPaymentCents && FitsDecimal(p.amount, MoneyDigits)
    case _ => true
  }

  /** The fields a form reports errors on, before uniqueness and references are looked at. */
  function LlcFieldErrors(l: Llc): set<Field> {
    set f | f in LlcFields && !LlcFieldOk(l, f)
  }

  function PropertyFieldErrors(p: Property): set<Field> {
    set f | f in PropertyFields && !PropertyFieldOk(p, f)
  }

  function TenantFieldErrors(t: Tenant): set<Field> {
    set f | f in TenantFields && !TenantFieldOk(t, f)
  }

  function PaymentFieldErrors(p: Payment): set<Field> {
    set f | f in PaymentFields && !PaymentFieldOk(p, f)
  }

  predicate ValidLlc(l: Llc) {
    LlcFieldErrors(l) == {}
  }

  predicate ValidProperty(p: Property) {
    PropertyFieldErrors(p) == {}
  }

  predicate ValidTenant(t: Tenant) {
    TenantFieldErrors(t) == {}
  }

  predicate ValidPayment(p: Payment) {
    PaymentFieldErrors(p) == {}
  }

  // ---- what a record that passes its field rules satisfies ----

  /** Money fields of an accepted property lie in 0 .. 999,999.99 and bathrooms in 0.5 .. 99.9. */
  lemma AcceptedPropertyBounds(p: Property)
    requires ValidProperty(p)
    ensures 0 <= p.rentAmount <= 99_999_999 && 0 <= p.homePayment <= 99_999_999
    ensures 0 <= p.lotPayment <= 99_999_999 && 0 <= p.securityDeposit <= 99_999_999
    ensures 5 <= p.bathrooms <= 999
    ensures 0 <= p.bedrooms <= SmallIntMax
  {
    assert Pow10(MoneyDigits) == 100_000_000;
    assert Pow10(BathroomDigits) == 1000;
    assert PropertyRentAmount !in PropertyFieldErrors(p);
    assert PropertyHomePayment !in PropertyFieldErrors(p);
    assert PropertyLotPayment !in PropertyFieldErrors(p);
    assert PropertySecurityDeposit !in PropertyFieldErrors(p);
    assert PropertyBathrooms !in PropertyFieldErrors(p);
    assert PropertyBedrooms !in PropertyFieldErrors(p);
  }

  /** An accepted payment amount is strictly positive: between 0.01 and 999,999.99. */
  lemma AcceptedPaymentBounds(p: Payment)
    requires ValidPayment(p)
    ensures 0 < p.amount <= 99_999_999
  {
    assert Pow10(MoneyDigits) == 100_000_000;
    assert PaymentAmount !in PaymentFieldErrors(p);
  }

  /** A zero or negative amount is refused on the `amount` field; one cent is accepted. */
  lemma PaymentAmountRule(p: Payment)
    ensures p.amount <= 0 ==> PaymentAmount in PaymentFieldErrors(p)
    ensures p.amount == 1 ==> PaymentAmount !in PaymentFieldErrors(p)
  {
    assert Pow10(MoneyDigits) == 100_000_000;
  }

  // ---- defaults ----

  /** A property with every default of the model: vacant, one bedroom, 1.0 bathroom, no money owed. */
  function NewProperty(llc: Id, streetNumber: string, streetName: string): (p: Property)
    ensures p.llc == llc && p.streetNumber == streetNumber && p.streetName == streetName
    ensures p.status == Vacant && p.bedrooms == 1 && p.bathrooms == 10
    ensures p.rentAmount == 0 && p.homePayment == 0 && p.lotPayment == 0 && p.securityDeposit == 0
  {
    Property(llc, streetNumber, streetName, None, "", Vacant, 0, 0, 0, "", None, None, 0, 1, 10, "", "")
  }

  /** A tenant with the model's defaults: not approved, not placed in any property. */
  function NewTenant(firstName: string, lastName: string): (t: Tenant)
    ensures t.firstName == firstName && t.lastName == lastName
    ensures !t.isApproved && t.property.None? && t.identificationType.None?
  {
    Tenant(firstName, lastName, "", None, None, "", false, None, None, None)
  }

  /** A property with every default passes the field rules exactly when both street fields are filled in and short enough. */
  lemma NewPropertyValidity(llc: Id, streetNumber: string, streetName: string)
    ensures ValidProperty(NewProperty(llc, streetNumber, streetName))
            <==> RequiredText(streetNumber, 20) && RequiredText(streetName, 150)
  {
    var p := NewProperty(llc, streetNumber, streetName);
    if RequiredText(streetNumber, 20) && RequiredText(streetName, 150) {
      assert Pow10(BathroomDigits) == 1000 && Pow10(MoneyDigits) == 100_000_000;
      forall f | f in PropertyFields ensures PropertyFieldOk(p, f) {
      }
      assert PropertyFieldErrors(p) == {};
    } else if !RequiredText(streetNumber, 20) {
      assert PropertyStreetNumber in PropertyFieldErrors(p);
    } else {
      assert PropertyStreetName in PropertyFieldErrors(p);
    }
  }

  /** A tenant with every default passes the field rules exactly when both names are filled in and short enough. */
  lemma NewTenantValidity(firstName: string, lastName: string)
    ensures ValidTenant(NewTenant(firstName, lastName)) <==> RequiredText(firstName, 100) && RequiredText(lastName, 100)
  {
    var t := NewTenant(firstName, lastName);
    forall f | f in TenantFields && f != TenantFirstName && f != TenantLastName
      ensures TenantFieldOk(t, f)
    {
    }
    assert TenantFirstName in TenantFieldErrors(t) <==> !RequiredText(firstName, 100);
    assert TenantLastName in TenantFieldErrors(t) <==> !RequiredText(lastName, 100);
  }
}
