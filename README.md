# Order-entry front end: order draft, settlement text, backup and submission

This project models the logic of a browser front end used by a small shop. The front end has two forms:

- The **order form** (`OrderForm`) holds an order draft. The draft is a customer id, an order date, a time note, an ordered list of line items, a shipping fee, the selected settlement bank account, the customer's remittance tail and an order number. The user edits the draft item by item. The form previews a settlement message and a JSON backup. It can import a backup, and it confirms the order to a remote script endpoint.
- The **customer form** (`CustomerForm`) collects four fields. It prefixes the group nickname with `@` and submits the customer.

The fixed **bank-account table** (`BANK_ACCOUNTS`) supplies the settlement accounts. It is used both for the message and for the order's `receiveAccount` tag.

Modules, one per concern of the source:

| module | file | models |
|---|---|---|
| `Wrappers` | wrappers.dfy | `Option` |
| `Numbers` | numbers.dfy | `parseInt` (sign and decimal-digit prefix), `parseInt(x) \|\| 0`, integer rendering |
| `Banks` | banks.dfy | `BANK_ACCOUNTS` and `find` by id |
| `Api` | api.dfy | `createOrder` / `createCustomer`: a backend that logs each request and always reports success |
| `OrderDraft` | order_draft.dfy | items, `handleItemChange` / `removeItem` list functions, `calculateTotal` |
| `Settlement` | settlement.dfy | `generateOrderText` (including `trim`), `formatProductName`, the preview guard |
| `Backup` | backup.dfy | `generateBackupJson`, the merge done by `handleImport` |
| `Submission` | submission.dfy | the guards, payload, `receiveAccount` and reset of `handleConfirm` |
| `Order` | order_form.dfy | class `OrderForm`: the form's state and its handlers |
| `Customer` | customer_form.dfy | class `CustomerForm`, nickname normalisation |

Modelling choices:

- Every text value is a `string`. The shipping fee is a string too: the numeric initial and reset value 0 is `"0"`.
- Item ids are natural numbers taken from a counter (`nextId`). They replace `Date.now()` and `Math.random()`.
- The form's mount date is a constructor parameter.
- JSON parsing is abstract. `HandleImport` receives `Option<Snapshot>`, and `None` stands for text that is not JSON or is `null`.
- The network is abstract. `transportOk` says whether the fetch succeeded. Both create calls report success either way, as the client does.
- `OrderForm` has a class invariant `Valid()`: item ids are distinct and below `nextId`, and the selected bank id is one the selector offers. Every handler preserves it.

Behaviour of the code worth knowing:

- An import whose `items` is a truthy non-array throws inside `.map`. By then the customer id, time note and fee setters have already run. Those updates stay, and the import reports failure.
- An import of `"items": []` empties the item list.
- Item lines use the raw `quantity` and `unit`, not `formatProductName`. `formatProductName` is computed and then ignored.
- Entries D and E of the bank table have different bank codes and account numbers as written. The comments in `src/constants.js` say otherwise.
- `receiveAccount` uses the last five characters of the account number, whatever they are. Entry F has an empty account number, so its tag is `-賣貨便`.

## Model

| member | source | states |
|---|---|---|
| Numbers.DigitRun | src/components/OrderForm.jsx:93 | the digit prefix `parseInt` reads: all digits, and maximal |
| Numbers.IntToString | src/components/OrderForm.jsx:110 | the definition of how the total is written into the text, with a `-` for a negative one; NatToString, NatToStringValue and ParseIntOfIntToString prove it reads back as the total |
| Numbers.NatToString | src/components/OrderForm.jsx:110 | rendering a total gives a non-empty digit string with no leading zero |
| Numbers.NatToStringValue | src/components/OrderForm.jsx:110 | the rendered digits have the value rendered |
| Numbers.ParseIntOfIntToString | src/components/OrderForm.jsx:93-94 | `parseInt` of a rendered integer gives that integer back (negative ones included) |
| Numbers.ParseInt | src/components/OrderForm.jsx:93-94 | the definition of `parseInt` on an optional sign and a digit prefix; ParseIntReads, ParseIntOfIntToString and EmptyAndZeroCountAsZero prove what it reads |
| Numbers.ParseIntReads | src/components/OrderForm.jsx:93-94 | `parseInt` succeeds exactly when a digit follows the optional sign; its value is that of the maximal digit run, negated when the text starts with `-` |
| Numbers.IntOr0 | src/components/OrderForm.jsx:93-94 | the definition of `parseInt(x) \|\| 0`: the parsed value, or 0 when nothing parses; EmptyAndZeroCountAsZero proves the empty and `'0'` cases |
| Numbers.EmptyAndZeroCountAsZero | src/components/OrderForm.jsx:109 | `''` does not parse, `'0'` parses to 0, and both contribute 0 |
| Banks.Offered | src/components/OrderForm.jsx:421-425 | the definition of the ids the bank selector offers, one option per table entry; OfferedResolves proves each resolves, and Order.OrderForm.SelectBank accepts only these |
| Banks.FindFirst | src/components/OrderForm.jsx:106 | `find` returns the first entry with the id, or nothing exactly when no entry has it |
| Banks.Lookup | src/components/OrderForm.jsx:106 | the definition of the `find` by id on the table; FindFirst states first-match semantics, and LookupEntry and OfferedResolves prove every offered id finds its own entry |
| Banks.IdsUnique | src/constants.js:1-7 | the table (`BankAccounts`, copied literally) has pairwise distinct ids A to F |
| Banks.LookupEntry | src/components/OrderForm.jsx:151 | looking up an entry's id yields that entry |
| Banks.OfferedResolves | src/components/OrderForm.jsx:417-425 | every id the selector offers resolves to an entry with that id |
| Banks.FirstEntryIsA | src/components/OrderForm.jsx:31 | the initial selection is the first entry, A, and it resolves |
| Banks.DAndEDiffer | src/constants.js:5-6 | D and E have codes 103 and 808 and different account numbers |
| Api.Backend.CreateOrder | src/api/client.js:30-47 | one request is logged with the key; the result is success whatever the transport did |
| Api.Backend.CreateCustomer | src/api/client.js:49-65 | the same for a customer request |
| OrderDraft.DefaultItem | src/components/OrderForm.jsx:82-84 | the definition of a blank item: no product or price, the first size and unit, and it contributes 0 to the total; TotalAfterAdd builds on it |
| OrderDraft.InitialDraft | src/components/OrderForm.jsx:21-35 | the definition of the mounted draft: one blank item, bank A (offered), fee "0", total 0; Submission.ResetDraftIsRefused and Backup.RoundTripIntoInitial use it |
| OrderDraft.SumPrices | src/components/OrderForm.jsx:92-93 | the definition of the item sum in `calculateTotal`; SumPricesNonNegative, SumPricesAppend, SumPricesWithout and SamePricesSameSum prove its properties |
| OrderDraft.SumPricesNonNegative | src/components/OrderForm.jsx:92-93 | prices that each count as non-negative give a non-negative sum |
| OrderDraft.Total | src/components/OrderForm.jsx:92-95 | the definition of `calculateTotal`; TotalAfterAdd, TotalAfterRemove, TotalAfterNonPriceEdit and Settlement.CalcLineAddsUp prove its properties |
| OrderDraft.SetField | src/components/OrderForm.jsx:78 | the named field takes the value; the id and the other fields keep theirs |
| OrderDraft.ChangeItems | src/components/OrderForm.jsx:76-80 | same length; position by position, only items with the id are changed |
| OrderDraft.ChangeKeepsIdsAndOtherFields | src/components/OrderForm.jsx:76-80 | an edit keeps every id and every other field, and sets the named field on matching items |
| OrderDraft.ChangeUnknownId | src/components/OrderForm.jsx:76-80 | an edit for an id no item has leaves the list unchanged |
| OrderDraft.RemoveById | src/components/OrderForm.jsx:88 | the result holds exactly the items whose id differs |
| OrderDraft.RemoveAbsent | src/components/OrderForm.jsx:88 | removing an absent id changes nothing |
| OrderDraft.RemoveUnique | src/components/OrderForm.jsx:88 | with unique ids, removing item k's id yields the list without position k, order kept |
| OrderDraft.RemoveDropsAtMostOne | src/components/OrderForm.jsx:86-90 | with unique ids a removal drops at most one item (exactly one when the id is present) and keeps ids unique |
| OrderDraft.SumPricesAppend | src/components/OrderForm.jsx:93 | the price sum of a concatenation is the sum of the parts |
| OrderDraft.SamePricesSameSum | src/components/OrderForm.jsx:93 | the sum depends on the prices only |
| OrderDraft.SumPricesSingle | src/components/OrderForm.jsx:93 | one item contributes `parseInt(price) \|\| 0` |
| OrderDraft.SumPricesWithout | src/components/OrderForm.jsx:93 | dropping one position subtracts exactly its contribution |
| OrderDraft.TotalAfterAdd | src/components/OrderForm.jsx:82-95 | appending a blank item leaves the total unchanged |
| OrderDraft.TotalAfterRemove | src/components/OrderForm.jsx:86-95 | removing an item takes exactly its price out of the total |
| OrderDraft.TotalAfterNonPriceEdit | src/components/OrderForm.jsx:76-95 | editing any field other than the price leaves the total unchanged |
| Settlement.CalcLine | src/components/OrderForm.jsx:108-110 | the definition of the calculation line; CalcLineAddsUp and SingleItemCalcLine prove that it adds up |
| Settlement.ItemLine | src/components/OrderForm.jsx:112-115 | the definition of one item line; ItemLineEnds and OrderTextStartsWithFirstItem prove how it reads |
| Settlement.ItemLineEnds | src/components/OrderForm.jsx:114 | an item line starts with `#` and the product and ends with the price as typed |
| Settlement.ItemLines | src/components/OrderForm.jsx:112-115 | the definition of the item lines joined by newlines; JoinContainsParts and OrderTextMentions prove each line occurs in the message |
| Settlement.OrderText | src/components/OrderForm.jsx:105-134 | the definition of `generateOrderText`; OrderTextShape, OrderTextMentions, OrderTextNamesBank and AccountAInText prove its shape and content |
| Settlement.CanPreview | src/components/OrderForm.jsx:137 | the definition of the preview guard, every item names a product; Order.OrderForm.Review states that it decides the preview |
| Settlement.TrimStart | src/components/OrderForm.jsx:133 | the definition of the leading half of `trim`; TrimStartFrame proves it removes exactly the leading whitespace |
| Settlement.TrimEnd | src/components/OrderForm.jsx:133 | the definition of the trailing half of `trim`; TrimEndFrame proves it removes exactly the trailing whitespace |
| Settlement.Trim | src/components/OrderForm.jsx:133 | the definition of `trim`; TrimFrame and TrimTemplate prove it strips exactly the whitespace frame of the template |
| Settlement.Join | src/components/OrderForm.jsx:110-115 | the definition of `join` used for the price parts and the item lines; JoinStartsWithFirst and JoinContainsParts prove its content |
| Settlement.PriceShown | src/components/OrderForm.jsx:109 | the definition of a price as the calculation line shows it; PriceShownCountsSame proves the term is never blank and adds what the price adds |
| Settlement.PriceShownCountsSame | src/components/OrderForm.jsx:109 | an empty price written as 0 is not blank and counts the same in `parseInt(x) \|\| 0` |
| Settlement.PriceParts | src/components/OrderForm.jsx:109 | the definition of the shown prices, one per item in order; CalcLineAddsUp proves they add up to the item sum |
| Settlement.FormatProductName | src/components/OrderForm.jsx:97-103 | the product name, extended by quantity and unit exactly when both are non-empty |
| Settlement.TrimStartFrame | src/components/OrderForm.jsx:133 | leading whitespace before a non-whitespace text is removed, nothing more |
| Settlement.TrimEndFrame | src/components/OrderForm.jsx:133 | trailing whitespace after a non-whitespace text is removed, nothing more |
| Settlement.TrimFrame | src/components/OrderForm.jsx:117-133 | `trim` strips exactly a whitespace frame |
| Settlement.JoinStartsWithFirst | src/components/OrderForm.jsx:115 | a join starts with its first part |
| Settlement.JoinContainsParts | src/components/OrderForm.jsx:112-115 | every part occurs in the join |
| Settlement.BodyBoundaries | src/components/OrderForm.jsx:120-132 | the fixed body starts and ends with non-whitespace |
| Settlement.TrimTemplate | src/components/OrderForm.jsx:117-133 | trimming the template leaves the item lines and a blank line before the body; with no lines, the body alone |
| Settlement.OrderTextShape | src/components/OrderForm.jsx:105-134 | the message is the item lines, a blank line and the fixed body; with no items, the body alone |
| Settlement.OrderTextStartsWithFirstItem | src/components/OrderForm.jsx:112-118 | with items, the message starts with `#<product> * <quantity><unit> = $<price>` of the first one |
| Settlement.OrderTextMentions | src/components/OrderForm.jsx:105-134 | every item line, the calculation line and the bank block occur in the message |
| Settlement.OrderTextNamesBank | src/components/OrderForm.jsx:125-127 | the bank's name, `銀行代碼(<code>)` and the account number occur in the message |
| Settlement.CalcLineAddsUp | src/components/OrderForm.jsx:109-110 | the terms before `=` (empty shown as 0) plus the fee sum to the total after it, and that total reads back |
| Settlement.SingleItemCalcLine | src/components/OrderForm.jsx:108-110 | one item priced 500 with fee 60 gives the line `500+60=560` |
| Settlement.AccountAInText | src/components/OrderForm.jsx:105-134 | paid to account A, the message contains bank code `822` and account `808540401057` |
| Backup.Export | src/components/OrderForm.jsx:60-74 | the definition of `generateBackupJson`; ProjectAll, RoundTrip and RoundTripIntoInitial prove what an import of it restores |
| Backup.Overlay | src/components/OrderForm.jsx:48-49 | the definition of a conditional setter that only a present, non-empty value triggers; Merge states what it keeps |
| Backup.ProjectAll | src/components/OrderForm.jsx:65-71 | the backup keeps every item, in order, without its id |
| Backup.FreshItems | src/components/OrderForm.jsx:51 | imported items keep their fields in order and get consecutive fresh ids |
| Backup.Merge | src/components/OrderForm.jsx:45-58 | a parsed import never touches date, bank, remittance or order number, and leaves each field the snapshot lacks |
| Backup.ImportSucceeds | src/components/OrderForm.jsx:45-58 | the definition of when the success alert is reached rather than the catch: the text parses and `items` is not a truthy non-array; Order.OrderForm.HandleImport reports exactly this |
| Backup.FreshItemsIds | src/components/OrderForm.jsx:51 | imported ids are distinct and lie in the fresh range |
| Backup.RoundTrip | src/components/OrderForm.jsx:45-74 | importing a backup restores non-empty customer id and time note, the fee, and every item's fields in order; only ids differ |
| Backup.RoundTripIntoInitial | src/components/OrderForm.jsx:45-74 | into a freshly mounted draft the round trip restores customer id, time note, fee and items |
| Backup.ImportEmptyList | src/components/OrderForm.jsx:51 | an explicit empty item array empties the list |
| Submission.LastFive | src/components/OrderForm.jsx:163 | `slice(-5)`: the last five characters, or all of a shorter string |
| Submission.ReceiveAccount | src/components/OrderForm.jsx:163 | the definition of the receive tag; ReceiveAccountParts, ReceiveAccountOfA and ReceiveAccountOfF prove what it holds |
| Submission.ReceiveAccountParts | src/components/OrderForm.jsx:163 | the tag ends with `-` and the label, after the account number's last five characters (all of a shorter one) |
| Submission.Incomplete | src/components/OrderForm.jsx:147 | the definition of an item lacking a product or a price; Submission.Decide refuses with IncompleteItem exactly when some item is incomplete |
| Submission.BuildPayload | src/components/OrderForm.jsx:153-168 | one payload item per draft item, in order, with name, quantity, unit, size and price copied |
| Submission.Decide | src/components/OrderForm.jsx:144-170 | refuses for no key, then no customer, then an item missing product or price; otherwise sends the payload with the selected bank's tag |
| Submission.AfterConfirm | src/components/OrderForm.jsx:173-179 | the reset keeps order date, order number and bank and leaves a single fresh item |
| Submission.OfferedBankNeverFails | src/components/OrderForm.jsx:151 | with an offered bank, the lookup never fails |
| Submission.ResetDraftIsRefused | src/components/OrderForm.jsx:144-179 | a draft just reset cannot be confirmed again |
| Submission.ReceiveAccountOfA | src/components/OrderForm.jsx:163 | the tag of account A is `01057-Chen` |
| Submission.ReceiveAccountOfF | src/components/OrderForm.jsx:163 | account F has no number, so its tag is `-賣貨便` |
| Order.OrderForm.constructor | src/components/OrderForm.jsx:21-43 | one blank item, bank A, fee "0", empty fields, not submitting |
| Order.OrderForm.AddItem | src/components/OrderForm.jsx:82-84 | exactly one blank item (first size, first unit) is appended; the others and the total stay |
| Order.OrderForm.RemoveItem | src/components/OrderForm.jsx:86-90 | no-op on one item, otherwise removes the id's items; a non-empty list never becomes empty |
| Order.OrderForm.ChangeItem | src/components/OrderForm.jsx:76-80 | the list becomes `ChangeItems` of the old one; an unknown id changes nothing |
| Order.OrderForm.SetCustomerId | src/components/OrderForm.jsx:254 | the customer id takes the input and the rest of the draft is unchanged; `Valid()` is kept |
| Order.OrderForm.SetTimeItem | src/components/OrderForm.jsx:263 | the time note takes the input and the rest of the draft is unchanged; `Valid()` is kept |
| Order.OrderForm.SetShippingFee | src/components/OrderForm.jsx:399 | the fee takes the input and the rest of the draft is unchanged; `Valid()` is kept |
| Order.OrderForm.SelectBank | src/components/OrderForm.jsx:419-425 | the selection takes an offered id |
| Order.OrderForm.SetRemittanceAccount | src/components/OrderForm.jsx:437 | the remittance tail takes the input and the rest of the draft is unchanged; `Valid()` is kept |
| Order.OrderForm.SetOrderDate | src/components/OrderForm.jsx:447 | the order date takes the input and the rest of the draft is unchanged; `Valid()` is kept |
| Order.OrderForm.SetOrderNumber | src/components/OrderForm.jsx:457 | the order number takes the input and the rest of the draft is unchanged; `Valid()` is kept |
| Order.OrderForm.HandleImport | src/components/OrderForm.jsx:45-58 | unparsable input changes nothing; otherwise the draft becomes the merge; success unless items is not an array |
| Order.OrderForm.Review | src/components/OrderForm.jsx:136-142 | refused while an item has no product; otherwise shows the message for the selected bank and the draft's backup; `Valid()` is kept |
| Order.OrderForm.ShowPreview | src/components/OrderForm.jsx:139-141 | the message is `OrderText` for the resolved selected bank, the backup is the draft's export, and the preview opens |
| Order.OrderForm.Confirm | src/components/OrderForm.jsx:144-186 | a refused draft sends nothing and changes nothing; otherwise one request and the reset |
| Order.OrderForm.ResetAfterSuccess | src/components/OrderForm.jsx:173-179 | the reset draft, with a fresh id for the new blank item, closing the preview |
| Customer.WithField | src/components/CustomerForm.jsx:15-18 | the named field takes the value, the other three keep theirs |
| Customer.AnyEmpty | src/components/CustomerForm.jsx:27 | the definition of the empty-field check; AnyEmptyMeansSomeField proves it covers exactly the four fields |
| Customer.AnyEmptyMeansSomeField | src/components/CustomerForm.jsx:27 | the empty check covers exactly the four fields |
| Customer.NormalizeNick | src/components/CustomerForm.jsx:36 | the nickname starts with `@`; unchanged if it already did, else `@` is prepended |
| Customer.NormalizeIdempotent | src/components/CustomerForm.jsx:36 | normalising twice equals normalising once |
| Customer.PayloadOf | src/components/CustomerForm.jsx:34-37 | name, phone and address copied; the nickname is `NormalizeNick` of the input, so one starting with `@` is sent as it is |
| Customer.CustomerForm.constructor | src/components/CustomerForm.jsx:5-11 | four empty fields, not loading |
| Customer.CustomerForm.HandleChange | src/components/CustomerForm.jsx:13-19 | exactly the named field changes |
| Customer.CustomerForm.HandleSubmit | src/components/CustomerForm.jsx:21-47 | refuses without a key, then with an empty field, sending nothing; otherwise sends the normalised payload once and clears the form |

## Left out

- JSON text: the grammar, `JSON.stringify` and `JSON.parse` are not modelled. A backup is the structured value, and an import receives the parse result.
- JSON values that are not strings: a number, `null` or boolean for the customer id, time note or fee, or for an item's product, size, price, quantity or unit, is not modelled. Such values follow JavaScript truthiness in the code: an imported `"price": 0` is falsy, so confirming refuses it, while every modelled price is a string and `"0"` passes. Item fields missing from a backup are not modelled either, and the extra keys the spread copies into imported items are dropped.
- `parseInt`: the model does not skip leading whitespace and does not read the `0x` prefix. JavaScript's double-precision arithmetic is not modelled: totals are unbounded integers.
- `trim`: the model removes a fixed list of whitespace code points.
- Clock and randomness: the mount date is a parameter, and ids come from a counter.
- Presentation: rendering, modals, the clipboard, alerts, the number-input wheel/arrow suppression, the import panel and its text box, and the product suggestion list.
- src/App.jsx is not part of this model. It covers API-key and product-list caching, fetching the product list, effects and tabs. `getProducts` is left out with it.
- The network: `createOrder` and `createCustomer` log the request. The transport's outcome is a parameter and is ignored, as the client ignores it.
- Async interleaving: the `submitting` and `loading` flags are modelled only as a precondition and an end state.
- Order.OrderForm.Confirm: does not state that `submitting` is true while the request is in flight, only that it is false afterwards and that the confirm button is not pressed while it is true.
- Customer.CustomerForm.HandleSubmit: does not state that `loading` is true while the request is in flight, only that it is false afterwards.
- Order.OrderForm.Review: a selected id that the table lacks would throw there. The class invariant excludes it, so that path is not modelled.
- Order.OrderForm.ChangeItem: covers only the five fields the inputs edit; any other field name is not modelled.
