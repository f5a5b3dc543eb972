# Customer create/edit form: a Dafny model

This project models the one piece of logic in a small billing roster: the
create/edit customer form of `components/AddEditCustomerModal.tsx`, and the
record types of `types.ts` that the form reads and produces.

- `types.dfy` (module `Types`): `BillStatus` (`'LUNAS' | 'BELUM LUNAS'`, a
  closed two-value type), `Bill` (a `paymentDate` that is a string or null,
  string `dueDate` and `paymentMonth`, and its own `baseBill`, which is kept
  apart from the customer's current amount), `Customer` (`id`, `name`,
  `baseBill`, `whatsappNumber`, `dueDateDay` and an ordered `seq<Bill>`), and
  `CustomerData`, the form's payload `Omit<Customer, 'id' | 'bills'>`. The
  payload type has no id and no bills, so a submission cannot set or alter a
  customer's identity or bill history.
- `ecma_number.dfy` (module `EcmaNumber`): `parseInt(s, 10)` as ECMAScript
  defines it (section 19.2.5 of ECMA-262, "parseInt ( string, radix )"). It
  skips leading white space, takes an optional sign and reads the longest run
  of decimal digits. No digits gives NaN, written `None`. The module also models
  `Number.prototype.toString()` on an integer and the `<`/`>` comparisons,
  which are false whenever one side is NaN.
- `customer_form.dfy` (module `CustomerForm`):
  - The class `AddEditCustomerModal` holds the four `useState` text fields.
    `Seed` is the seeding effect. The `Set…` methods are the inputs' `onChange`
    setters. `HandleSubmit` judges the current fields.
  - The pure function `Submit` is the `handleSubmit` decision. It returns
    `MissingField`, `DayOutOfRange` or `Submitted(data, id)`. The two error
    values stand for the two alerts.
  - The lemmas state what seeding and submission promise.
- `wrappers.dfy` (module `Wrappers`): `Option`.

The model keeps two behaviours of the form as written:
- A due day with no digit after its leading white space and optional sign
  parses to NaN. NaN fails both range
  comparisons, so that day is not rejected (`NaNDayAccepted`).
- The amount is parsed but never range-checked or NaN-checked
  (`ContentIsNotChecked`).

## Model

| member | source | states |
|---|---|---|
| `Types.StatusLabel` | types.ts:2 | a status is written as exactly one of the two literals, and `"LUNAS"` only for the paid status |
| `Types.StatusOfLabel` | types.ts:2 | a string is a status exactly when it is `"LUNAS"` or `"BELUM LUNAS"` |
| `Types.StatusLabelRoundTrip` | types.ts:2 | the union is closed: labels and statuses correspond one to one |
| `Types.Omit` | types.ts:12-19 | the payload of a stored customer carries that customer's own amount and due day |
| `Types.OmitForgetsIdAndBills` | components/AddEditCustomerModal.tsx:9 | the payload type keeps name, amount, WhatsApp number and due day unchanged but is blind to `id` and `bills`: customers differing only there have the same payload |
| `EcmaNumber.ParseInt` | components/AddEditCustomerModal.tsx:39-46 | `parseInt(s, 10)` is a number exactly when a decimal digit follows the leading white space and at most one sign, and NaN otherwise; a negative result comes only from a `-` sign |
| `EcmaNumber.ParseIntValue` | components/AddEditCustomerModal.tsx:39-46 | `parseInt` skips the leading white space and at most one `+` or `-` and reads the run of decimal digits up to the first non-digit as its value, negated after a `-` ("+150000" is 150000, " -12x" is -12) |
| `EcmaNumber.NumberToString` | components/AddEditCustomerModal.tsx:22-24 | `toString` of a non-negative integer is its decimal digits without leading zeros; of a negative one, a `-` followed by such digits |
| `EcmaNumber.LessThan` | components/AddEditCustomerModal.tsx:40 | `x < 1` is true only for a number, never for NaN |
| `EcmaNumber.GreaterThan` | components/AddEditCustomerModal.tsx:40 | `x > 31` is true only for a number, never for NaN |
| `EcmaNumber.ParseIntOfNumberToString` | components/AddEditCustomerModal.tsx:39 | `parseInt` reads an integer's decimal text back as that integer, ignoring any text after it that does not start with a digit ("20abc" is 20) |
| `EcmaNumber.NumberToStringRoundTrip` | components/AddEditCustomerModal.tsx:22-24 | the text that `toString` writes for an integer `parseInt`s back to the same integer |
| `EcmaNumber.ParseIntSkipsWhiteSpace` | components/AddEditCustomerModal.tsx:39 | leading white space never changes what `parseInt` returns |
| `EcmaNumber.ParseIntWithoutDigits` | components/AddEditCustomerModal.tsx:39 | text with no decimal digit ("abc", "", "-") is NaN |
| `EcmaNumber.NaNIsIncomparable` | components/AddEditCustomerModal.tsx:40 | a number is NaN exactly when it is neither below nor above any bound |
| `CustomerForm.OrEmpty` | components/AddEditCustomerModal.tsx:23 | the empty-string fallback on the WhatsApp number returns the string itself, since the only falsy string is `''` |
| `CustomerForm.Seeded` | components/AddEditCustomerModal.tsx:20-30 | with a customer, the fields hold its name and WhatsApp number verbatim and the decimal text `toString` writes for its amount and due day, both non-empty; with none, all four fields are `''` |
| `CustomerForm.IdOf` | components/AddEditCustomerModal.tsx:47 | `customerToEdit?.id` is present exactly in edit mode, and is then the edited customer's id |
| `CustomerForm.Submit` | components/AddEditCustomerModal.tsx:33-49 | rejected as missing exactly when name, amount or day text is empty; rejected as out of range exactly when all three are present and the day parses to a number outside 1..31; otherwise name and WhatsApp number pass unchanged, amount and day are their `parseInt` results, the id is `customerToEdit?.id`, and an accepted numeric day lies in 1..31 |
| `CustomerForm.AddEditCustomerModal.constructor` | components/AddEditCustomerModal.tsx:14-17 | every working field starts as `''` |
| `CustomerForm.AddEditCustomerModal.Seed` | components/AddEditCustomerModal.tsx:19-31 | the new fields are those `Seeded` gives for the subject, whatever they held before, so edits are discarded and seeding twice with one subject gives the same fields |
| `CustomerForm.AddEditCustomerModal.SetName` | components/AddEditCustomerModal.tsx:72 | replaces the name and nothing else |
| `CustomerForm.AddEditCustomerModal.SetBaseBill` | components/AddEditCustomerModal.tsx:83 | replaces the amount text and nothing else |
| `CustomerForm.AddEditCustomerModal.SetDueDateDay` | components/AddEditCustomerModal.tsx:94 | replaces the due-day text and nothing else |
| `CustomerForm.AddEditCustomerModal.SetWhatsappNumber` | components/AddEditCustomerModal.tsx:108 | replaces the WhatsApp number and nothing else |
| `CustomerForm.AddEditCustomerModal.HandleSubmit` | components/AddEditCustomerModal.tsx:33-49 | a submission's outcome is the `Submit` verdict on the current fields |
| `CustomerForm.SeededFields` | components/AddEditCustomerModal.tsx:20-30 | adds to `Seeded`'s contract that the amount and day texts seeding writes parse back to the customer's own numbers, so the form shows them as they are stored |
| `CustomerForm.MissingFieldWins` | components/AddEditCustomerModal.tsx:35-38 | an empty name, amount or day text is rejected whatever the other fields hold |
| `CustomerForm.DayOutOfRangeRejected` | components/AddEditCustomerModal.tsx:39-43 | with name and amount present, a day written as any integer below 1 or above 31 ("0", "32", "-1") is rejected |
| `CustomerForm.NaNDayAccepted` | components/AddEditCustomerModal.tsx:39-43 | a non-empty day text with no digit after its leading white space and optional sign is not rejected: the payload goes out with a NaN day |
| `CustomerForm.ContentIsNotChecked` | components/AddEditCustomerModal.tsx:35-46 | any non-empty name and any non-empty amount text are accepted with a valid day, the amount as `parseInt` reads it (NaN for "abc", -5 for "-5") |
| `CustomerForm.SubmitAfterSeed` | components/AddEditCustomerModal.tsx:20-47 | seeding from a customer with a non-empty name and a day in 1..31 and submitting unchanged emits exactly that customer's name, amount, WhatsApp number and day, addressed to its id |
| `CustomerForm.SubmitAddressesSubject` | components/AddEditCustomerModal.tsx:45-48 | the payload does not depend on the mode; create mode sends no id, edit mode sends the edited customer's |
| `CustomerForm.ScenarioAccepted` | components/AddEditCustomerModal.tsx:39-47 | `{Budi, "150000", "6281234", "20"}` is accepted as `{Budi, 150000, "6281234", 20}` |
| `CustomerForm.ScenarioMissingName` | components/AddEditCustomerModal.tsx:35-37 | an empty name is rejected as missing |
| `CustomerForm.ScenarioDayOutOfRange` | components/AddEditCustomerModal.tsx:39-42 | day "35" is rejected as out of range |
| `CustomerForm.ScenarioNaNDays` | components/AddEditCustomerModal.tsx:39-47 | day "abc5" with amount "b" is accepted with both numbers NaN; "+-5" and "x5" are NaN as well |
| `CustomerForm.ScenarioLooseText` | components/AddEditCustomerModal.tsx:35-47 | a one-space name, amount "-5" and day "20abc" are accepted as `" "`, -5 and 20 |

## Left out

- components/Icons.tsx: SVG icons, no logic.
- Rendering, and the early `return null` when the form is closed (components/AddEditCustomerModal.tsx:51-132): layout only.
- The inputs' `type="number"`, `min`, `max` and `required` attributes: the browser applies them, not `handleSubmit`, so the model does not assume they filter the text.
- `alert` and `e.preventDefault()`: user-interface side effects. Each alert is the matching error value.
- React's effect scheduling: `Seed` is an explicit call. `isOpen` only triggers the effect and does not affect its result, so `Seed` takes the subject alone.
- The `onSubmit` and `onClose` callbacks and the store behind them are outside the form. Only the payload and id handed to `onSubmit` are modelled.
- JavaScript numbers are `int`s. Floating-point behaviour is not modelled, including `-0`, precision loss beyond 2^53, and `parseInt`'s approximation above 20 significant digits.
- EcmaNumber.NumberToString: writes every integer as plain decimal. `Number.prototype.toString` switches to exponent form at magnitude 10^21 and above, so `SubmitAfterSeed` matches the source only below that magnitude.
- `parseInt` is modelled only for radix 10, the only radix the form uses.
- Types.Omit: stored customers hold integer amounts and due days, although `types.ts` types them as `number` and `Submit` itself can emit NaN for both; seeding from a customer whose amount or day is NaN (which `toString` shows as "NaN") is not modelled.
- CustomerForm.OrEmpty: a stored record whose WhatsApp number is null or undefined, the case the `|| ''` fallback exists for, is not modelled, because `types.ts` declares the field a `string` and the model's `Customer` holds one; on a string the fallback changes nothing.
