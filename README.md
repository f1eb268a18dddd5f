# Rentals tracker: filing status and entity store

This project models the domain core of a small Django property-management
application (`rent_tracker/rentals/models.py`). The application tracks LLCs,
the mobile-home properties they own, the tenants placed in those properties
and the payments tenants make. Two pieces of that file carry real logic, and
both are modelled here.

- **`LLC.get_filing_status`** (`filing.dfy`, with calendar dates in
  `dates.dfy`). This is the tax-filing traffic light. With no last filing date
  the result is `unknown`. Otherwise the code computes the next April 15
  deadline on or after today and a yellow threshold two calendar months
  before it, then returns `red`, `yellow` or `green`. The clock is the
  parameter `today`. `relativedelta(months=2)` is modelled as a general month
  subtraction with the day clamped to the month's length (`MinusMonths`). A
  lemma shows that from April 15 this always lands on February 15 of the same
  year.
- **The four models and their integrity rules.** `entities.dfy` holds the
  records, the choice codes, the field rules and the defaults. `store.dfy`
  holds the tables. Money is integer cents and bathrooms are integer tenths.
  The store is a `Database` class with one `map` per table. Inserts apply the
  field rules, the foreign-key lookups and the unique constraints (LLC `name`;
  Property `vin` when it is present). A refused insert reports every offending
  field and changes nothing. Deletes follow each foreign key's `on_delete`:
  - `Property.llc`, `Payment.tenant` and `Payment.property` are PROTECT. A
    delete with any referring row is refused and names the blocking rows.
  - `Tenant.property` is SET_NULL. Deleting a property clears the reference
    on exactly the tenants placed in it, in place (`DetachTenants`), and then
    removes the property.

The red branch is reproduced as written: a last filing on or after the
upcoming deadline is `red`. A consequence is that a filing made long before the
yellow threshold, even years earlier, is `green` (`Filing.Classification`).
Nothing in the code says which reading was intended, so the model does not
change it.

Three details of the code that the model keeps:
- Tenants never block a property delete. `Tenant.property` is
  `on_delete=SET_NULL` (`models.py:150-157`), so they are detached.
- `bedrooms` and `year` are `PositiveSmallIntegerField`s, which accept 0 to
  32767, so 0 bedrooms is accepted.
- Creating `datetime.date(year + 1, 4, 15)` raises when today falls after
  April 15 of year 9999. `GetFilingStatus` returns `Err(YearOutOfRange)` there.
  It never does so when the last filing date is absent, because the code
  returns `unknown` before it reads the clock.

## Model

| member | source | states |
|---|---|---|
| `Dates.MinusMonths` | rent_tracker/rentals/models.py:48 | `date - relativedelta(months=n)`, for a result no earlier than year 1: moves the month index back by exactly n and keeps the day unless that month is shorter, in which case it gives the month's last day |
| `Filing.NextDeadline` | rent_tracker/rentals/models.py:39-45 | the deadline is April 15 of today's year or of the next year, and is never before today |
| `Filing.NextDeadlineIsEarliest` | rent_tracker/rentals/models.py:39-45 | the deadline is the earliest April 15 on or after today |
| `Filing.DeadlineOutOfRangeOnlyAtEnd` | rent_tracker/rentals/models.py:42-45 | for a real date, the deadline cannot be built exactly when today is after April 15 of year 9999 |
| `Filing.YellowThresholdIsFebruaryFifteenth` | rent_tracker/rentals/models.py:47-48 | two months before the deadline is February 15 of the deadline's year, strictly before the deadline |
| `Filing.GetFilingStatus` | rent_tracker/rentals/models.py:25-56 | for every real date today: no last filing date gives `Unknown`, and only then; with a date, an error arises exactly when the deadline year is out of range |
| `Filing.Classification` | rent_tracker/rentals/models.py:50-56 | with a filing date: red iff last >= deadline; yellow iff Feb 15 <= last < deadline; green iff last < Feb 15 |
| `Filing.StatusIsMonotone` | rent_tracker/rentals/models.py:50-56 | for a fixed today, a later filing date never gives a greener status (green < yellow < red) |
| `Filing.ExamplesBeforeDeadline` | rent_tracker/rentals/models.py:42-56 | with today 2024-03-01: 2024-01-01 is green, 2024-03-01 yellow, 2024-04-15 and 2024-04-16 red |
| `Filing.ExamplesAfterDeadline` | rent_tracker/rentals/models.py:42-56 | with today 2024-05-01 the deadline moves to 2025: 2024-06-01 is green, 2025-03-01 yellow; today in May 9999 is out of range |
| `Entities.ParseStatus` | rent_tracker/rentals/models.py:61-66 | a code is accepted exactly when it is one of the five listed codes, and it parses to the status whose code it is |
| `Entities.StatusCodeRoundTrip` | rent_tracker/rentals/models.py:61-83 | every status code parses back to its status and fits `max_length=3` |
| `Entities.ParseIdentification` | rent_tracker/rentals/models.py:128-143 | a code is accepted exactly when it is blank or a listed code; blank, and only blank, gives no type; a listed code parses to the type whose code it is |
| `Entities.IdentificationCodeRoundTrip` | rent_tracker/rentals/models.py:128-143 | every identification code parses back to its type and fits `max_length=4` |
| `Entities.LlcFieldOk` | rent_tracker/rentals/models.py:10-15 | the rule of one LLC field: the name is required and at most 200 characters, the creation date is a real date, a missing last filing date is accepted; fields of other models always pass |
| `Entities.PropertyFieldOk` | rent_tracker/rentals/models.py:74-114 | the rule of one property field: each money field accepts exactly 0..999,999.99, bathrooms exactly 0.5..99.9, bedrooms exactly 0..32767, a null VIN is accepted; fields of other models always pass |
| `Entities.TenantFieldOk` | rent_tracker/rentals/models.py:135-147 | the rule of one tenant field: first and last name are required and at most 100 characters; fields of other models always pass |
| `Entities.PaymentFieldOk` | rent_tracker/rentals/models.py:180-186 | the rule of one payment field: the amount accepts exactly 0.01..999,999.99; fields of other models always pass |
| `Entities.AcceptedPropertyBounds` | rent_tracker/rentals/models.py:84-112 | an accepted property has rent, home payment, lot payment and deposit in 0..999,999.99, bathrooms in 0.5..99.9 and bedrooms in 0..32767 |
| `Entities.AcceptedPaymentBounds` | rent_tracker/rentals/models.py:181-185 | an accepted payment amount is strictly positive and at most 999,999.99 |
| `Entities.PaymentAmountRule` | rent_tracker/rentals/models.py:181-185 | an amount of zero or less is an error on `amount`; 0.01 is not |
| `Entities.NewProperty` | rent_tracker/rentals/models.py:78-112 | the model's defaults: status VAC, 1 bedroom, 1.0 bathroom, every money field 0 |
| `Entities.NewPropertyValidity` | rent_tracker/rentals/models.py:74-114 | a property with all defaults passes the field rules exactly when both street fields are non-empty and within 20 and 150 characters |
| `Entities.NewTenant` | rent_tracker/rentals/models.py:135-157 | the model's defaults: not approved, no identification type, placed in no property |
| `Entities.NewTenantValidity` | rent_tracker/rentals/models.py:135-147 | a tenant with all defaults passes the field rules exactly when both names are non-empty and within 100 characters |
| `Store.LlcRejections` | rent_tracker/rentals/models.py:10-15 | a new LLC is accepted exactly when every field passes and no stored LLC has its name; every failing field is reported; the name is looked up only when it passed its own rule |
| `Store.PropertyRejections` | rent_tracker/rentals/models.py:68-114 | a new property is accepted exactly when every field passes, its LLC exists and its VIN is null or unused; the VIN is looked up only when it passed its own rule, and a null VIN never conflicts |
| `Store.TenantRejections` | rent_tracker/rentals/models.py:135-157 | a new tenant is accepted exactly when every field passes and its property is null or exists |
| `Store.PaymentRejections` | rent_tracker/rentals/models.py:166-186 | a new payment is accepted exactly when every field passes and both its tenant and its property exist |
| `Store.Collect` | rent_tracker/rentals/models.py:68-73 | the related-row query of a delete returns exactly the rows of a table that refer to the target |
| `Store.Detach` | rent_tracker/rentals/models.py:150-157 | the SET_NULL update keeps every tenant id, leaves no tenant placed in the property, clears exactly the placed tenants and changes nothing else |
| `Store.InsertLlcKeepsIntegrity` | rent_tracker/rentals/models.py:10 | adding an LLC with no rejection keeps names unique and every rule intact |
| `Store.InsertPropertyKeepsIntegrity` | rent_tracker/rentals/models.py:68-112 | adding a property with no rejection keeps present VINs unique and every reference resolving |
| `Store.InsertTenantKeepsIntegrity` | rent_tracker/rentals/models.py:135-157 | adding a tenant with no rejection keeps every rule intact |
| `Store.InsertPaymentKeepsIntegrity` | rent_tracker/rentals/models.py:168-185 | adding a payment with no rejection keeps every rule intact |
| `Store.RemoveLlcKeepsIntegrity` | rent_tracker/rentals/models.py:68-73 | removing an LLC that owns no property leaves no dangling `llc` reference |
| `Store.RemoveTenantKeepsIntegrity` | rent_tracker/rentals/models.py:168-173 | removing a tenant with no payments leaves no dangling `tenant` reference |
| `Store.RemovePaymentKeepsIntegrity` | rent_tracker/rentals/models.py:166-186 | removing a payment keeps every rule, since nothing refers to payments |
| `Store.ClearPlacementKeepsIntegrity` | rent_tracker/rentals/models.py:150-157 | nulling one tenant's property reference keeps every rule |
| `Store.RemovePropertyKeepsIntegrity` | rent_tracker/rentals/models.py:150-179 | once no tenant and no payment refers to a property, removing it keeps every reference resolving |
| `Store.Database.constructor` | rent_tracker/rentals/models.py:8-186 | the store starts with four empty tables that satisfy the invariant |
| `Store.Database.AddLlc` | rent_tracker/rentals/models.py:8-15 | refused exactly when some field or the unique name fails, with every such field reported and nothing changed; otherwise a fresh id holds the LLC and nothing else changes |
| `Store.Database.AddProperty` | rent_tracker/rentals/models.py:68-114 | refused exactly on a field error, an unknown LLC or a present duplicate VIN, with nothing changed; otherwise a fresh id holds the property and nothing else changes |
| `Store.Database.AddTenant` | rent_tracker/rentals/models.py:135-157 | refused exactly on a field error or an unknown property, with nothing changed; otherwise a fresh id holds the tenant and nothing else changes |
| `Store.Database.AddPayment` | rent_tracker/rentals/models.py:168-186 | refused exactly on a field error (including amount < 0.01) or an unknown tenant or property, with nothing changed; otherwise a fresh id holds the payment |
| `Store.Database.DeleteLlc` | rent_tracker/rentals/models.py:68-73 | succeeds exactly when the LLC exists and owns no property; refused deletes name the blocking properties and change nothing; a success removes only the LLC |
| `Store.Database.DeleteTenant` | rent_tracker/rentals/models.py:168-173 | succeeds exactly when the tenant exists and has no payment; refused deletes name the blocking payments and change nothing; a success removes only the tenant |
| `Store.Database.DetachTenants` | rent_tracker/rentals/models.py:150-157 | the SET_NULL pass, done tenant by tenant in place, leaves the tenant table equal to `Detach` of the old one and keeps the invariant |
| `Store.Database.DeleteProperty` | rent_tracker/rentals/models.py:150-179 | succeeds exactly when the property exists and has no payment, whatever its tenants; a refused delete changes nothing; a success removes the property, detaches exactly its tenants and leaves LLCs and payments alone |
| `Store.Database.DeletePayment` | rent_tracker/rentals/models.py:166-186 | succeeds exactly when the payment exists, removing only it |

## Left out

- Views, URL routing, forms, admin, templates, permissions and authentication (`views.py`, `urls.py`, `forms.py`, `admin.py`) are framework plumbing. `views.py` defines no working add, edit or delete view: the property ones are commented-out stubs and the rest are missing, though `urls.py` routes to them. The admin is the working write path.
- Editing an existing record is not modelled. Its unique check leaves out the row being edited, so its rules differ from an insert's.
- The field rules are the ones `full_clean` applies in a model form or the admin. `Model.save()` and `objects.create()` run no validators and no blank check, so `Integrity` holds only for rows that entered through a form. The unique constraints and foreign keys are enforced by the database on every path.
- The audit log (`signals.py`, `apps.py`) is a logging side effect, and the thread-local current user (`middleware.py`) is per-request context. Both are I/O or concurrency.
- `datetime.date.today()` is the parameter `today`; the database engine, transactions and query ordering (`Meta.ordering`) are not modelled.
- `__str__` display strings and choice display labels are not modelled; only the stored codes are.
- Decimal input with more decimal places than a field allows cannot be written in cents or tenths, so that rejection is not modelled.
- Form-level whitespace stripping of text input is not modelled: a required text field is refused only when it is empty.
- Free-text length limits are counted in Dafny characters, which matches Python's count of code points.
- Dates.MinusMonths: a result before year 1, which `date.replace` refuses with `ValueError`, is excluded by its precondition rather than modelled as an error. The filing status only subtracts two months from an April 15 in year 1 or later, so it never reaches that case.
