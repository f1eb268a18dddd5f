/**
 * The database behind the four models: one table per model, keyed by id.
 * Inserts apply the field rules, the foreign-key lookups and the unique
 * constraints (LLC `name`, Property `vin` when present). Deletes follow each
 * foreign key's `on_delete`: PROTECT refuses the delete while a row refers to
 * the target, SET_NULL clears the reference on every referring tenant.
 */
module Store {
  import opened Wrappers
  import opened Entities

  /** Why an insert is refused, one entry per offending field. */
  datatype Rejection =
    | InvalidField(field: Field)     // a field rule failed
    | NotUnique(field: Field)        // a unique constraint would be broken
    | UnknownReference(field: Field) // a foreign key names no row

  /** The PROTECT foreign keys, named by the relation that blocks a delete. */
  datatype Relation = LlcProperties | TenantPayments | PropertyPayments

  datatype DeleteError =
    | NotFound
    | Protected(relation: Relation, blocking: set<Id>)

  // ---- reverse relations (`related_name` queries) ----

  /** `llc.properties`: the properties owned by an LLC. */
  function PropertiesOf(properties: map<Id, Property>, llc: Id): set<Id> {
    set k | k in properties && properties[k].llc == llc
  }

  /** `property.tenants`: the tenants placed in a property. */
  function TenantsOf(tenants: map<Id, Tenant>, property: Id): set<Id> {
    set k | k in tenants && tenants[k].property == Some(property)
  }

  /** `tenant.payments`: the payments made by a tenant. */
  function PaymentsByTenant(payments: map<Id, Payment>, tenant: Id): set<Id> {
    set k | k in payments && payments[k].tenant == tenant
  }

  /** `property.payments`: the payments made for a property. */
  function PaymentsForProperty(payments: map<Id, Payment>, property: Id): set<Id> {
    set k | k in payments && payments[k].property == property
  }

  /** The related-object query the delete collector runs: every row whose reference points at the target. */
  method Collect<T>(table: map<Id, T>, refersToTarget: T -> bool) returns (ids: set<Id>)
    ensures forall k :: k in ids <==> k in table && refersToTarget(table[k])
  {
    ids := {};
    var pending := table.Keys;
    while pending != {}
      invariant pending <= table.Keys
      invariant forall k :: k in ids <==> k in table && k !in pending && refersToTarget(table[k])
      decreases pending
    {
      var k :| k in pending;
      if refersToTarget(table[k]) {
        ids := ids + {k};
      }
      pending := pending - {k};
    }
  }

  // ---- unique constraints ----

  predicate NameTaken(llcs: map<Id, Llc>, name: string) {
    exists k :: k in llcs && llcs[k].name == name
  }

  /** A NULL vin never conflicts: the constraint only compares present values. */
  predicate VinTaken(properties: map<Id, Property>, vin: Option<string>) {
    vin.Some? && exists k :: k in properties && properties[k].vin == vin
  }

  predicate NamesUnique(llcs: map<Id, Llc>) {
    forall a, b :: a in llcs && b in llcs && llcs[a].name == llcs[b].name ==> a == b
  }

  predicate VinsUnique(properties: map<Id, Property>) {
    forall a, b :: a in properties && b in properties && properties[a].vin.Some? && properties[a].vin == properties[b].vin ==> a == b
  }

  // ---- what an insert checks ----

  function Invalid(fields: set<Field>): (r: set<Rejection>)
    ensures forall f :: InvalidField(f) in r <==> f in fields
    ensures r == {} <==> fields == {}
  {
    var r := set f | f in fields :: InvalidField(f);
    assert forall f :: f in fields ==> InvalidField(f) in r;
    r
  }

  /**
   * The ModelForm check of a new LLC: every failing field, then the unique
   * name, which is looked up only when the name passed its own rule.
   */
  function LlcRejections(l: Llc, llcs: map<Id, Llc>): (r: set<Rejection>)
    ensures r == {} <==> ValidLlc(l) && !NameTaken(llcs, l.name)
    ensures forall f :: InvalidField(f) in r <==> f in LlcFieldErrors(l)
    ensures NotUnique(LlcName) in r <==> LlcFieldOk(l, LlcName) && NameTaken(llcs, l.name)
  {
    assert ValidLlc(l) ==> LlcName !in LlcFieldErrors(l);
    Invalid(LlcFieldErrors(l))
    + (if LlcFieldOk(l, LlcName) && NameTaken(llcs, l.name) then {NotUnique(LlcName)} else {})
  }

  /**
   * The ModelForm check of a new property: every failing field, an unknown
   * LLC, and a present VIN already in use, looked up only when the VIN passed
   * its own rule.
   */
  function PropertyRejections(p: Property, llcs: map<Id, Llc>, properties: map<Id, Property>): (r: set<Rejection>)
    ensures r == {} <==> ValidProperty(p) && p.llc in llcs && !VinTaken(properties, p.vin)
    ensures forall f :: InvalidField(f) in r <==> f in PropertyFieldErrors(p)
    ensures UnknownReference(PropertyLlc) in r <==> p.llc !in llcs
    ensures NotUnique(PropertyVin) in r <==> PropertyFieldOk(p, PropertyVin) && VinTaken(properties, p.vin)
    ensures p.vin.None? ==> NotUnique(PropertyVin) !in r
  {
    assert ValidProperty(p) ==> PropertyVin !in PropertyFieldErrors(p);
    Invalid(PropertyFieldErrors(p))
    + (if p.llc !in llcs then {UnknownReference(PropertyLlc)} else {})
    + (if PropertyFieldOk(p, PropertyVin) && VinTaken(properties, p.vin) then {NotUnique(PropertyVin)} else {})
  }

  /** The ModelForm check of a new tenant: every failing field and a placement in an unknown property. */
  function TenantRejections(t: Tenant, properties: map<Id, Property>): (r: set<Rejection>)
    ensures r == {} <==> ValidTenant(t) && (t.property.None? || t.property.value in properties)
    ensures forall f :: InvalidField(f) in r <==> f in TenantFieldErrors(t)
    ensures UnknownReference(TenantProperty) in r <==> t.property.Some? && t.property.value !in properties
  {
    Invalid(TenantFieldErrors(t))
    + (if t.property.Some? && t.property.value !in properties then {UnknownReference(TenantProperty)} else {})
  }

  /** The ModelForm check of a new payment: every failing field and an unknown tenant or property. */
  function PaymentRejections(p: Payment, tenants: map<Id, Tenant>, properties: map<Id, Property>): (r: set<Rejection>)
    ensures r == {} <==> ValidPayment(p) && p.tenant in tenants && p.property in properties
    ensures forall f :: InvalidField(f) in r <==> f in PaymentFieldErrors(p)
    ensures UnknownReference(PaymentTenant) in r <==> p.tenant !in tenants
    ensures UnknownReference(PaymentProperty) in r <==> p.property !in properties
  {
    Invalid(PaymentFieldErrors(p))
    + (if p.tenant !in tenants then {UnknownReference(PaymentTenant)} else {})
    + (if p.property !in properties then {UnknownReference(PaymentProperty)} else {})
  }

  // ---- the invariant every committed state keeps ----

  predicate RecordsValid(llcs: map<Id, Llc>, properties: map<Id, Property>, tenants: map<Id, Tenant>, payments: map<Id, Payment>) {
    && (forall k :: k in llcs ==> ValidLlc(llcs[k]))
    && (forall k :: k in properties ==> ValidProperty(properties[k]))
    && (forall k :: k in tenants ==> ValidTenant(tenants[k]))
    && (forall k :: k in payments ==> ValidPayment(payments[k]))
  }

  predicate ReferencesResolve(llcs: map<Id, Llc>, properties: map<Id, Property>, tenants: map<Id, Tenant>, payments: map<Id, Payment>) {
    && (forall k :: k in properties ==> properties[k].llc in llcs)
    && (forall k :: k in tenants && tenants[k].property.Some? ==> tenants[k].property.value in properties)
    && (forall k :: k in payments ==> payments[k].tenant in tenants && payments[k].property in properties)
  }

  predicate Integrity(llcs: map<Id, Llc>, properties: map<Id, Property>, tenants: map<Id, Tenant>, payments: map<Id, Payment>) {
    && RecordsValid(llcs, properties, tenants, payments)
    && NamesUnique(llcs)
    && VinsUnique(properties)
    && ReferencesResolve(llcs, properties, tenants, payments)
  }

  /** Null the `property` reference of the given tenants; every other tenant is left as it is. */
  function ClearPlacements(tenants: map<Id, Tenant>, ids: set<Id>): map<Id, Tenant> {
    map k | k in tenants :: if k in ids then tenants[k].(property := None) else tenants[k]
  }

  /** The SET_NULL update: every tenant placed in the property loses its placement, nothing else moves. */
  function Detach(tenants: map<Id, Tenant>, property: Id): (r: map<Id, Tenant>)
    ensures r.Keys == tenants.Keys
    ensures TenantsOf(r, property) == {}
    ensures forall k :: k in tenants && k !in TenantsOf(tenants, property) ==> r[k] == tenants[k]
    ensures forall k :: k in TenantsOf(tenants, property) ==> r[k] == tenants[k].(property := None)
  {
    ClearPlacements(tenants, TenantsOf(tenants, property))
  }

  /** Clearing one more tenant extends the set of cleared ones. */
  lemma ClearOneMore(tenants: map<Id, Tenant>, ids: set<Id>, k: Id)
    requires k in tenants
    ensures ClearPlacements(tenants, ids)[k := tenants[k].(property := None)] == ClearPlacements(tenants, ids + {k})
  {
  }

  // ---- each operation keeps the invariant ----

  lemma InsertLlcKeepsIntegrity(llcs: map<Id, Llc>, properties: map<Id, Property>, tenants: map<Id, Tenant>, payments: map<Id, Payment>, id: Id, l: Llc)
    requires Integrity(llcs, properties, tenants, payments)
    requires id !in llcs && LlcRejections(l, llcs) == {}
    ensures Integrity(llcs[id := l], properties, tenants, payments)
  {
    assert LlcFieldErrors(l) == {};
    assert LlcName !in LlcFieldErrors(l);
    assert !NameTaken(llcs, l.name);
    assert RecordsValid(llcs[id := l], properties, tenants, payments);
    assert NamesUnique(llcs[id := l]);
    assert VinsUnique(properties);
    assert ReferencesResolve(llcs[id := l], properties, tenants, payments);
  }

  lemma InsertPropertyKeepsIntegrity(llcs: map<Id, Llc>, properties: map<Id, Property>, tenants: map<Id, Tenant>, payments: map<Id, Payment>, id: Id, p: Property)
    requires Integrity(llcs, properties, tenants, payments)
    requires id !in properties && PropertyRejections(p, llcs, properties) == {}
    ensures Integrity(llcs, properties[id := p], tenants, payments)
  {
    assert PropertyFieldErrors(p) == {};
    assert PropertyVin !in PropertyFieldErrors(p);
    assert !VinTaken(properties, p.vin);
    assert RecordsValid(llcs, properties[id := p], tenants, payments);
    assert NamesUnique(llcs);
    assert VinsUnique(properties[id := p]);
    assert ReferencesResolve(llcs, properties[id := p], tenants, payments);
  }

  lemma InsertTenantKeepsIntegrity(llcs: map<Id, Llc>, properties: map<Id, Property>, tenants: map<Id, Tenant>, payments: map<Id, Payment>, id: Id, t: Tenant)
    requires Integrity(llcs, properties, tenants, payments)
    requires id !in tenants && TenantRejections(t, properties) == {}
    ensures Integrity(llcs, properties, tenants[id := t], payments)
  {
    assert TenantFieldErrors(t) == {};
    assert RecordsValid(llcs, properties, tenants[id := t], payments);
    assert NamesUnique(llcs);
    assert VinsUnique(properties);
    assert ReferencesResolve(llcs, properties, tenants[id := t], payments);
  }

  lemma InsertPaymentKeepsIntegrity(llcs: map<Id, Llc>, properties: map<Id, Property>, tenants: map<Id, Tenant>, payments: map<Id, Payment>, id: Id, p: Payment)
    requires Integrity(llcs, properties, tenants, payments)
    requires id !in payments && PaymentRejections(p, tenants, properties) == {}
    ensures Integrity(llcs, properties, tenants, payments[id := p])
  {
    assert PaymentFieldErrors(p) == {};
    assert RecordsValid(llcs, properties, tenants, payments[id := p]);
    assert NamesUnique(llcs);
    assert VinsUnique(properties);
    assert ReferencesResolve(llcs, properties, tenants, payments[id := p]);
  }

  lemma RemoveLlcKeepsIntegrity(llcs: map<Id, Llc>, properties: map<Id, Property>, tenants: map<Id, Tenant>, payments: map<Id, Payment>, id: Id)
    requires Integrity(llcs, properties, tenants, payments)
    requires PropertiesOf(properties, id) == {}
    ensures Integrity(llcs - {id}, properties, tenants, payments)
  {
    forall k | k in properties ensures properties[k].llc in llcs - {id} {
      assert k !in PropertiesOf(properties, id);
    }
    assert RecordsValid(llcs - {id}, properties, tenants, payments);
    assert NamesUnique(llcs - {id});
    assert VinsUnique(properties);
    assert ReferencesResolve(llcs - {id}, properties, tenants, payments);
  }

  lemma RemoveTenantKeepsIntegrity(llcs: map<Id, Llc>, properties: map<Id, Property>, tenants: map<Id, Tenant>, payments: map<Id, Payment>, id: Id)
    requires Integrity(llcs, properties, tenants, payments)
    requires PaymentsByTenant(payments, id) == {}
    ensures Integrity(llcs, properties, tenants - {id}, payments)
  {
    forall k | k in payments ensures payments[k].tenant in tenants - {id} {
      assert k !in PaymentsByTenant(payments, id);
    }
    assert RecordsValid(llcs, properties, tenants - {id}, payments);
    assert NamesUnique(llcs);
    assert VinsUnique(properties);
    assert ReferencesResolve(llcs, properties, tenants - {id}, payments);
  }

  lemma RemovePaymentKeepsIntegrity(llcs: map<Id, Llc>, properties: map<Id, Property>, tenants: map<Id, Tenant>, payments: map<Id, Payment>, id: Id)
    requires Integrity(llcs, properties, tenants, payments)
    ensures Integrity(llcs, properties, tenants, payments - {id})
  {
  }

  /** Clearing one tenant's placement keeps every rule: the field is nullable and names no row. */
  lemma ClearPlacementKeepsIntegrity(llcs: map<Id, Llc>, properties: map<Id, Property>, tenants: map<Id, Tenant>, payments: map<Id, Payment>, k: Id)
    requires Integrity(llcs, properties, tenants, payments)
    requires k in tenants
    ensures Integrity(llcs, properties, tenants[k := tenants[k].(property := None)], payments)
  {
    assert RecordsValid(llcs, properties, tenants[k := tenants[k].(property := None)], payments);
    assert NamesUnique(llcs);
    assert VinsUnique(properties);
    assert ReferencesResolve(llcs, properties, tenants[k := tenants[k].(property := None)], payments);
  }

  /** Once no tenant and no payment points at a property, removing it keeps every rule. */
  lemma RemovePropertyKeepsIntegrity(llcs: map<Id, Llc>, properties: map<Id, Property>, tenants: map<Id, Tenant>, payments: map<Id, Payment>, id: Id)
    requires Integrity(llcs, properties, tenants, payments)
    requires TenantsOf(tenants, id) == {} && PaymentsForProperty(payments, id) == {}
    ensures Integrity(llcs, properties - {id}, tenants, payments)
  {
    forall k | k in tenants && tenants[k].property.Some? ensures tenants[k].property.value in properties - {id} {
      assert k !in TenantsOf(tenants, id);
    }
    forall k | k in payments ensures payments[k].property in properties - {id} {
      assert k !in PaymentsForProperty(payments, id);
    }
    assert RecordsValid(llcs, properties - {id}, tenants, payments);
    assert NamesUnique(llcs);
    assert VinsUnique(properties - {id});
    assert ReferencesResolve(llcs, properties - {id}, tenants, payments);
  }

  class Database {
    var llcs: map<Id, Llc>
    var properties: map<Id, Property>
    var tenants: map<Id, Tenant>
    var payments: map<Id, Payment>
    // the next value of each table's auto-increment key
    var nextLlcId: Id
    var nextPropertyId: Id
    var nextTenantId: Id
    var nextPaymentId: Id

    ghost predicate Valid()
      reads this
    {
      && Integrity(llcs, properties, tenants, payments)
      && (forall k :: k in llcs ==> k < nextLlcId)
      && (forall k :: k in properties ==> k < nextPropertyId)
      && (forall k :: k in tenants ==> k < nextTenantId)
      && (forall k :: k in payments ==> k < nextPaymentId)
    }

    constructor ()
      ensures Valid()
      ensures llcs == map[] && properties == map[] && tenants == map[] && payments == map[]
    {
      llcs, properties, tenants, payments := map[], map[], map[], map[];
      nextLlcId, nextPropertyId, nextTenantId, nextPaymentId := 1, 1, 1, 1;
    }

    method AddLlc(l: Llc) returns (r: Result<Id, set<Rejection>>)
      requires Valid()
      modifies this
      ensures Valid()
      ensures r.Err? <==> LlcRejections(l, old(llcs)) != {}
      ensures r.Err? ==> r.error == LlcRejections(l, old(llcs)) && unchanged(this)
      ensures r.Ok? ==> r.value !in old(llcs) && llcs == old(llcs)[r.value := l]
      ensures r.Ok? ==> nextLlcId == r.value + 1 && r.value == old(nextLlcId)
      ensures properties == old(properties) && tenants == old(tenants) && payments == old(payments)
      ensures nextPropertyId == old(nextPropertyId) && nextTenantId == old(nextTenantId) && nextPaymentId == old(nextPaymentId)
    {
      var rejections := LlcRejections(l, llcs);
      if rejections != {} {
        return Err(rejections);
      }
      var id := nextLlcId;
      InsertLlcKeepsIntegrity(llcs, properties, tenants, payments, id, l);
      llcs := llcs[id := l];
      nextLlcId := nextLlcId + 1;
      r := Ok(id);
    }

    method AddProperty(p: Property) returns (r: Result<Id, set<Rejection>>)
      requires Valid()
      modifies this
      ensures Valid()
      ensures r.Err? <==> PropertyRejections(p, old(llcs), old(properties)) != {}
      ensures r.Err? ==> r.error == PropertyRejections(p, old(llcs), old(properties)) && unchanged(this)
      ensures r.Ok? ==> r.value !in old(properties) && properties == old(properties)[r.value := p]
      ensures r.Ok? ==> nextPropertyId == r.value + 1 && r.value == old(nextPropertyId)
      ensures llcs == old(llcs) && tenants == old(tenants) && payments == old(payments)
      ensures nextLlcId == old(nextLlcId) && nextTenantId == old(nextTenantId) && nextPaymentId == old(nextPaymentId)
    {
      var rejections := PropertyRejections(p, llcs, properties);
      if rejections != {} {
        return Err(rejections);
      }
      var id := nextPropertyId;
      InsertPropertyKeepsIntegrity(llcs, properties, tenants, payments, id, p);
      properties := properties[id := p];
      nextPropertyId := nextPropertyId + 1;
      r := Ok(id);
    }

    method AddTenant(t: Tenant) returns (r: Result<Id, set<Rejection>>)
      requires Valid()
      modifies this
      ensures Valid()
      ensures r.Err? <==> TenantRejections(t, old(properties)) != {}
      ensures r.Err? ==> r.error == TenantRejections(t, old(properties)) && unchanged(this)
      ensures r.Ok? ==> r.value !in old(tenants) && tenants == old(tenants)[r.value := t]
      ensures r.Ok? ==> nextTenantId == r.value + 1 && r.value == old(nextTenantId)
      ensures llcs == old(llcs) && properties == old(properties) && payments == old(payments)
      ensures nextLlcId == old(nextLlcId) && nextPropertyId == old(nextPropertyId) && nextPaymentId == old(nextPaymentId)
    {
      var rejections := TenantRejections(t, properties);
      if rejections != {} {
        return Err(rejections);
      }
      var id := nextTenantId;
      InsertTenantKeepsIntegrity(llcs, properties, tenants, payments, id, t);
      tenants := tenants[id := t];
      nextTenantId := nextTenantId + 1;
      r := Ok(id);
    }

    method AddPayment(p: Payment) returns (r: Result<Id, set<Rejection>>)
      requires Valid()
      modifies this
      ensures Valid()
      ensures r.Err? <==> PaymentRejections(p, old(tenants), old(properties)) != {}
      ensures r.Err? ==> r.error == PaymentRejections(p, old(tenants), old(properties)) && unchanged(this)
      ensures r.Ok? ==> r.value !in old(payments) && payments == old(payments)[r.value := p]
      ensures r.Ok? ==> nextPaymentId == r.value + 1 && r.value == old(nextPaymentId)
      ensures llcs == old(llcs) && properties == old(properties) && tenants == old(tenants)
      ensures nextLlcId == old(nextLlcId) && nextPropertyId == old(nextPropertyId) && nextTenantId == old(nextTenantId)
    {
      var rejections := PaymentRejections(p, tenants, properties);
      if rejections != {} {
        return Err(rejections);
      }
      var id := nextPaymentId;
      InsertPaymentKeepsIntegrity(llcs, properties, tenants, payments, id, p);
      payments := payments[id := p];
      nextPaymentId := nextPaymentId + 1;
      r := Ok(id);
    }

    /** `Property.llc` is PROTECT: an LLC that owns properties stays. */
    method DeleteLlc(id: Id) returns (r: Result<(), DeleteError>)
      requires Valid()
      modifies this
      ensures Valid()
      ensures id !in old(llcs) ==> r == Err(NotFound)
      ensures id in old(llcs) && PropertiesOf(old(properties), id) != {} ==>
                r == Err(Protected(LlcProperties, PropertiesOf(old(properties), id)))
      ensures r.Ok? <==> id in old(llcs) && PropertiesOf(old(properties), id) == {}
      ensures r.Err? ==> unchanged(this)
      ensures r.Ok? ==> llcs == old(llcs) - {id}
      ensures properties == old(properties) && tenants == old(tenants) && payments == old(payments)
      ensures nextLlcId == old(nextLlcId) && nextPropertyId == old(nextPropertyId)
      ensures nextTenantId == old(nextTenantId) && nextPaymentId == old(nextPaymentId)
    {
      if id !in llcs {
        return Err(NotFound);
      }
      var blocking := Collect(properties, (p: Property) => p.llc == id);
      assert blocking == PropertiesOf(properties, id);
      if blocking != {} {
        return Err(Protected(LlcProperties, blocking));
      }
      RemoveLlcKeepsIntegrity(llcs, properties, tenants, payments, id);
      llcs := llcs - {id};
      r := Ok(());
    }

    /** `Payment.tenant` is PROTECT: a tenant with payments stays. */
    method DeleteTenant(id: Id) returns (r: Result<(), DeleteError>)
      requires Valid()
      modifies this
      ensures Valid()
      ensures id !in old(tenants) ==> r == Err(NotFound)
      ensures id in old(tenants) && PaymentsByTenant(old(payments), id) != {} ==>
                r == Err(Protected(TenantPayments, PaymentsByTenant(old(payments), id)))
      ensures r.Ok? <==> id in old(tenants) && PaymentsByTenant(old(payments), id) == {}
      ensures r.Err? ==> unchanged(this)
      ensures r.Ok? ==> tenants == old(tenants) - {id}
      ensures llcs == old(llcs) && properties == old(properties) && payments == old(payments)
      ensures nextLlcId == old(nextLlcId) && nextPropertyId == old(nextPropertyId)
      ensures nextTenantId == old(nextTenantId) && nextPaymentId == old(nextPaymentId)
    {
      if id !in tenants {
        return Err(NotFound);
      }
      var blocking := Collect(payments, (p: Payment) => p.tenant == id);
      assert blocking == PaymentsByTenant(payments, id);
      if blocking != {} {
        return Err(Protected(TenantPayments, blocking));
      }
      RemoveTenantKeepsIntegrity(llcs, properties, tenants, payments, id);
      tenants := tenants - {id};
      r := Ok(());
    }

    /** The SET_NULL pass: clear the placement of every tenant placed in the property, one row at a time. */
    method DetachTenants(property: Id)
      requires Valid()
      modifies this`tenants
      ensures Valid()
      ensures tenants == Detach(old(tenants), property)
    {
      var placed := Collect(tenants, (t: Tenant) => t.property == Some(property));
      assert placed == TenantsOf(tenants, property);
      ghost var original := tenants;
      var cleared := {};
      while cleared != placed
        invariant cleared <= placed
        invariant tenants == ClearPlacements(original, cleared)
        invariant Integrity(llcs, properties, tenants, payments)
        decreases placed - cleared
      {
        assert placed - cleared != {};
        var k :| k in placed - cleared;
        ClearPlacementKeepsIntegrity(llcs, properties, tenants, payments, k);
        ClearOneMore(original, cleared, k);
        tenants := tenants[k := tenants[k].(property := None)];
        cleared := cleared + {k};
      }
    }

    /**
     * `Payment.property` is PROTECT and `Tenant.property` is SET_NULL: a
     * property with payments stays; otherwise its tenants are detached and
     * the property is removed.
     */
    method DeleteProperty(id: Id) returns (r: Result<(), DeleteError>)
      requires Valid()
      modifies this
      ensures Valid()
      ensures id !in old(properties) ==> r == Err(NotFound)
      ensures id in old(properties) && PaymentsForProperty(old(payments), id) != {} ==>
                r == Err(Protected(PropertyPayments, PaymentsForProperty(old(payments), id)))
      ensures r.Ok? <==> id in old(properties) && PaymentsForProperty(old(payments), id) == {}
      ensures r.Err? ==> unchanged(this)
      ensures r.Ok? ==> properties == old(properties) - {id} && tenants == Detach(old(tenants), id)
      ensures llcs == old(llcs) && payments == old(payments)
      ensures nextLlcId == old(nextLlcId) && nextPropertyId == old(nextPropertyId)
      ensures nextTenantId == old(nextTenantId) && nextPaymentId == old(nextPaymentId)
    {
      if id !in properties {
        return Err(NotFound);
      }
      var blocking := Collect(payments, (p: Payment) => p.property == id);
      assert blocking == PaymentsForProperty(payments, id);
      if blocking != {} {
        return Err(Protected(PropertyPayments, blocking));
      }
      DetachTenants(id);
      RemovePropertyKeepsIntegrity(llcs, properties, tenants, payments, id);
      properties := properties - {id};
      r := Ok(());
    }

    /** Nothing refers to a payment, so any stored payment can go. */
    method DeletePayment(id: Id) returns (r: Result<(), DeleteError>)
      requires Valid()
      modifies this
      ensures Valid()
      ensures r.Err? <==> id !in old(payments)
      ensures r.Err? ==> r == Err(NotFound) && unchanged(this)
      ensures r.Ok? ==> payments == old(payments) - {id}
      ensures llcs == old(llcs) && properties == old(properties) && tenants == old(tenants)
      ensures nextLlcId == old(nextLlcId) && nextPropertyId == old(nextPropertyId)
      ensures nextTenantId == old(nextTenantId) && nextPaymentId == old(nextPaymentId)
    {
      if id !in payments {
        return Err(NotFound);
      }
      RemovePaymentKeepsIntegrity(llcs, properties, tenants, payments, id);
      payments := payments - {id};
      r := Ok(());
    }
  }
}
