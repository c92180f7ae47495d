# ZorgMate invoice core in Dafny

ZorgMate is a Spring Boot back end for care professionals. They log billable
time entries per client (and optionally per project), turn unbilled hours into
invoices, manage those invoices, and get a push notice over a WebSocket when an
invoice changes. This project models the core of that back end and proves
properties of the model:

- **the owner-scoped invoice service** (`service/impl/InvoiceServiceImpl.java`).
  Every by-id operation first reports an absent invoice, then an invoice owned
  by someone else. Update replaces all items and recomputes the total from
  server-side subtotals. Delete follows the JPA cascade. Auto-generation bills
  the caller's unbilled time entries for one client on a new invoice and links
  the entries to it. The invoice number is `INV-<year>-<count+1 zero-padded to
  4 digits>`.
- **the older, unscoped invoice service** (`Service/impl/InvoiceServiceImpl.java`):
  create, update, delete, status change and the two listings. It parses the
  invoice number with `Integer.parseInt` only after everything is saved, so a
  non-numeric number fails after the writes.
- **the time-entry service**, **the project over-hours check** and **the two
  user registries**: unique username with an encoded password, and the older
  one with unique email.
- **the exception-to-HTTP table** of `GlobalExceptionHandler`.
- **the WebSocket session registry**: one slot per username, a `token=` query
  parse, removal by session id, and a two-recipient fan-out.
- **the bearer-token header parsing** (the Bearer scheme of section 2.1 of RFC
  6750) of `JwtTokenProvider.resolveToken`, and the decision `JwtAuthFilter`
  makes.

How the model is built:

- The database is a class `Store.Database` with one `map<Id, Row>` per table
  and one IDENTITY counter per table. Ids start at 1.
- The older invoice service has a store of its own,
  `LegacyInvoiceService.LegacyDatabase`. In the source both services share
  the `invoices` table; "## Left out" says what this separation does not
  capture.
- The repository queries carry no ORDER BY. The model assumes they list rows
  in ascending id order, which is insertion order under IDENTITY keys; the
  database does not promise this order.
- The services are methods that change the store, each with the writes the
  Java code performs, in the same order.
- `Store.Consistent` is the integrity the services keep and every method
  re-establishes it:
  - keys below their counters;
  - references that resolve;
  - every stored amount equal to the sum of the invoice's stored item subtotals.
- Java exceptions are the `Exceptions.Exception` datatype in a `Result`.
- `BigDecimal` amounts are `real`, compared by value.
- Dates are day numbers.
- `int` hours are the subset type `Int32`. The one place where `int` overflow
  matters, the hours sum, wraps explicitly.
- Several things are parameters: the clock (`today`, `year`), JWT validation,
  username extraction, the password encoder, and the socket's `isOpen` and
  send failures.

Three behaviours of the code worth noting:

- Deleting an owned invoice removes its time entries with it, as the JPA
  cascade declared on `Invoice.timeEntries` does. It does not restore them to
  unbilled.
- A new WebSocket session replaces the user's previous one. There is no set of
  sessions per user.
- A foreign invoice is reported as 403, and only an absent one as 404.

## Model

| member | source | states |
|---|---|---|
| Text.ZeroPadValue | src/main/java/com/example/zorgmate/service/impl/InvoiceServiceImpl.java:238 | `%04d` padding keeps a digit string's value and its digits |
| Text.ZeroPad | src/main/java/com/example/zorgmate/service/impl/InvoiceServiceImpl.java:238 | `%04d` pads with leading zeros up to the width, never truncates, and ends with the digits given |
| Text.ToUpperCase | src/main/java/com/example/zorgmate/service/impl/InvoiceServiceImpl.java:85 | same length; each lower-case ASCII letter becomes its capital, every other character stays |
| Text.ToUpperCaseIdempotent | src/main/java/com/example/zorgmate/service/impl/InvoiceServiceImpl.java:85 | upper-casing twice is upper-casing once |
| Text.ParseInt | src/main/java/com/example/zorgmate/Service/impl/InvoiceServiceImpl.java:72 | the result is an `int` in [-2^31, 2^31 − 1]; the empty string and a lone sign are refused; without a `-` the value is not negative |
| Text.ParseIntRoundTrip | src/main/java/com/example/zorgmate/Service/impl/InvoiceServiceImpl.java:72 | `Integer.parseInt` reads back every `int` written in decimal |
| Text.ParseIntRejectsNonDigit | src/main/java/com/example/zorgmate/Service/impl/InvoiceServiceImpl.java:72 | a non-digit anywhere, the first character included unless it is a sign, makes `parseInt` throw |
| Entities.StatusValueOf | src/main/java/com/example/zorgmate/service/impl/InvoiceServiceImpl.java:85 | `valueOf` accepts exactly the three constant names and returns the constant of that name |
| Entities.ParseStatus | src/main/java/com/example/zorgmate/service/impl/InvoiceServiceImpl.java:85 | the upper-cased string names the returned status; none when no status has that name |
| Entities.StatusNameRoundTrip | src/main/java/com/example/zorgmate/service/impl/InvoiceServiceImpl.java:85 | every status's name, upper or lower case, parses back to it |
| ExceptionHandler.Handle | src/main/java/com/example/zorgmate/exception/GlobalExceptionHandler.java:13-40 | 404 exactly for the two not-found exceptions, 403 exactly for access denied, 400 exactly for no-unbilled-hours and IllegalArgument (NumberFormat included); every body is the one entry `error` → message; other exceptions are not handled |
| ExceptionHandler.InvoiceErrorBodies | src/main/java/com/example/zorgmate/exception/GlobalExceptionHandler.java:24-40 | the three invoice exceptions give their fixed Dutch messages with the id under their statuses |
| Billing.MapToEntities | src/main/java/com/example/zorgmate/service/impl/InvoiceServiceImpl.java:218-228 | one item per request line, in order, fields copied, linked to the invoice, subtotal = rate × hours |
| Billing.Subtotal | src/main/java/com/example/zorgmate/service/impl/InvoiceServiceImpl.java:224 | rate × hours is 0 for 0 hours and never negative for non-negative hours and rate |
| Billing.Total | src/main/java/com/example/zorgmate/service/impl/InvoiceServiceImpl.java:230-234 | no items total 0; non-negative subtotals give a non-negative total |
| Billing.ClientSubtotalIgnored | src/main/java/com/example/zorgmate/service/impl/InvoiceServiceImpl.java:224 | requests differing only in client-sent subtotals give the same items |
| Billing.RequestTotal | src/main/java/com/example/zorgmate/service/impl/InvoiceServiceImpl.java:230-234 | the total of the built items is the sum of rate × hours over the request lines |
| Billing.TotalAppend | src/main/java/com/example/zorgmate/service/impl/InvoiceServiceImpl.java:230-234 | the total of two item lists joined is the sum of their totals |
| Billing.ItemFromEntry | src/main/java/com/example/zorgmate/service/impl/InvoiceServiceImpl.java:150-159 | the item copies the entry's description, hours and rate, links back to the entry and the invoice, and is priced rate × hours |
| Billing.ItemsFromEntries | src/main/java/com/example/zorgmate/service/impl/InvoiceServiceImpl.java:146-162 | one item per selected entry, in order |
| Billing.InvoiceNumberShape | src/main/java/com/example/zorgmate/service/impl/InvoiceServiceImpl.java:236-239 | the number is `INV-<year>-` followed by at least 4 digits whose value is count + 1 |
| Billing.InvoiceNumber | src/main/java/com/example/zorgmate/service/impl/InvoiceServiceImpl.java:236-239 | the number starts with `INV-<year>-` and has at least four characters after it |
| Billing.InvoiceNumberInjective | src/main/java/com/example/zorgmate/service/impl/InvoiceServiceImpl.java:236-239 | different counts in one year give different numbers |
| Billing.LinesTotalIsTotal | src/main/java/com/example/zorgmate/service/impl/InvoiceServiceImpl.java:194-215 | response lines carrying the items' subtotals add up to the items' total |
| Store.IdsWhere | src/main/java/com/example/zorgmate/service/impl/InvoiceServiceImpl.java:50 | a derived query lists exactly the rows satisfying its condition, in ascending id order |
| Store.SingleResult | src/main/java/com/example/zorgmate/service/impl/UserServiceImpl.java:30 | an `Optional` query is empty iff nothing matches, the match iff exactly one does, and throws iff several do |
| Store.UnbilledIds | src/main/java/com/example/zorgmate/service/impl/InvoiceServiceImpl.java:138 | exactly the client's entries with no invoice, ascending |
| Store.ItemsOf | src/main/java/com/example/zorgmate/service/impl/InvoiceServiceImpl.java:52 | every item listed belongs to the invoice asked for |
| Store.ItemIds | src/main/java/com/example/zorgmate/service/impl/InvoiceServiceImpl.java:52 | exactly the ids of the invoice's items, ascending |
| Store.ItemsOfListing | src/main/java/com/example/zorgmate/service/impl/InvoiceServiceImpl.java:52 | the listing has one item per id of the invoice's items, the i-th being the row at the i-th such id, and contains every item of the invoice |
| Store.OtherListingsKept | src/main/java/com/example/zorgmate/service/impl/InvoiceServiceImpl.java:178 | saving a batch for one invoice leaves every other invoice's listing as it was |
| Store.ListedTotalIsTotal | src/main/java/com/example/zorgmate/service/impl/InvoiceServiceImpl.java:230-234 | the running total over an invoice's listed items is their total |
| Store.RemoveItemsOf | src/main/java/com/example/zorgmate/Service/impl/InvoiceServiceImpl.java:166 | exactly the invoice's items go, every other item stays as it was |
| Store.RemoveEntriesOf | src/main/java/com/example/zorgmate/dal/entity/Invoice/Invoice.java:47-48 | exactly the entries billed on the invoice go, every other entry stays |
| Store.LinkEntries | src/main/java/com/example/zorgmate/service/impl/InvoiceServiceImpl.java:180-181 | the listed entries point at the invoice, nothing else changes |
| Store.ReplaceKeepsConsistent | src/main/java/com/example/zorgmate/service/impl/InvoiceServiceImpl.java:87-94 | replacing an invoice's items and setting its amount to their total keeps the store consistent |
| Store.CascadeKeepsConsistent | src/main/java/com/example/zorgmate/dal/entity/Invoice/Invoice.java:44-48 | removing an invoice with its items and time entries keeps the store consistent |
| Store.GenerateKeepsConsistent | src/main/java/com/example/zorgmate/service/impl/InvoiceServiceImpl.java:164-181 | saving a generated invoice, its items and the linked entries keeps the store consistent |
| Store.EntryAddedConsistent | src/main/java/com/example/zorgmate/service/impl/TimeEntryServiceImpl.java:41 | a new entry whose references resolve keeps the store consistent |
| Store.SaveAll | src/main/java/com/example/zorgmate/service/impl/InvoiceServiceImpl.java:178 | `saveAll` stores the batch in order under consecutive new ids and touches no stored row |
| Store.Database.SaveTimeEntry | src/main/java/com/example/zorgmate/service/impl/TimeEntryServiceImpl.java:41 | the entry is stored under the next id, every other table and counter unchanged, consistency kept |
| Store.CheckNotNull | src/main/java/com/example/zorgmate/dal/entity/Invoice/TimeEntry.java:48-49 | the NOT NULL check fails iff `created_by` is null, naming that column; otherwise the row is the draft as given |
| Store.Database.InsertTimeEntry | src/main/java/com/example/zorgmate/service/impl/TimeEntryServiceImpl.java:41 | a draft with null `created_by` is refused with DataIntegrityViolation and nothing written; any other is stored under the next id as drafted, every other table and counter unchanged |
| Store.Database.SaveAllItems | src/main/java/com/example/zorgmate/service/impl/InvoiceServiceImpl.java:90 | the batch is stored in order under consecutive new ids from the item counter, which advances by its length; no other table or counter changes |
| InvoiceService.Authorize | src/main/java/com/example/zorgmate/service/impl/InvoiceServiceImpl.java:60-65 | not found iff the id is absent; access denied iff present with another owner (exact comparison); otherwise the invoice |
| InvoiceService.MapToDTO | src/main/java/com/example/zorgmate/service/impl/InvoiceServiceImpl.java:194-216 | the response carries the id, the stored amount, a status name that parses back to the status, and one line per item in order |
| InvoiceService.ItemViewOf | src/main/java/com/example/zorgmate/service/impl/InvoiceServiceImpl.java:196-202 | a line keeps the subtotal, and has a date iff the item came from a time entry |
| InvoiceService.OwnedIds | src/main/java/com/example/zorgmate/service/impl/InvoiceServiceImpl.java:50 | exactly the caller's invoices, ascending |
| InvoiceService.GetInvoiceByIdForUser | src/main/java/com/example/zorgmate/service/impl/InvoiceServiceImpl.java:59-69 | fails exactly as the owner check does; otherwise the invoice's response with its stored total |
| InvoiceService.ShownTotalIsSumOfLines | src/main/java/com/example/zorgmate/service/impl/InvoiceServiceImpl.java:67-68 | in a consistent store the total shown is the sum of the lines shown |
| InvoiceService.StoredViews | src/main/java/com/example/zorgmate/service/impl/InvoiceServiceImpl.java:50-55 | one response per listed invoice, in the listed order |
| InvoiceService.GetInvoicesForUser | src/main/java/com/example/zorgmate/service/impl/InvoiceServiceImpl.java:49-56 | one response per invoice of the caller, in id order |
| InvoiceService.ListingAgreesWithLookup | src/main/java/com/example/zorgmate/service/impl/InvoiceServiceImpl.java:49-68 | every listed response is what the by-id lookup returns for that invoice |
| InvoiceService.Revised | src/main/java/com/example/zorgmate/service/impl/InvoiceServiceImpl.java:80-93 | the updated invoice takes every request field, the parsed status and the new amount, and keeps its owner |
| InvoiceService.UpdateInvoiceForUser | src/main/java/com/example/zorgmate/service/impl/InvoiceServiceImpl.java:72-103 | not-found, then access-denied, then unknown status, each with nothing changed; otherwise the items become exactly the request's, the amount their total, other invoices keep their items, and only the item counter advances (by the number of lines) |
| InvoiceService.DeleteInvoiceForUser | src/main/java/com/example/zorgmate/service/impl/InvoiceServiceImpl.java:106-121 | the owner check as above with nothing changed on failure; otherwise the invoice, its items and its billed entries go, other invoices keep their items, clients, projects and every counter stay |
| InvoiceService.UpdateInvoiceStatusForUser | src/main/java/com/example/zorgmate/service/impl/InvoiceServiceImpl.java:124-134 | the owner check as above; otherwise only the status changes, with every other table and all five counters stated unchanged |
| InvoiceService.FilterOwned | src/main/java/com/example/zorgmate/service/impl/InvoiceServiceImpl.java:139-140 | exactly the listed entries the caller created |
| InvoiceService.FilterOwnedKeepsOrder | src/main/java/com/example/zorgmate/service/impl/InvoiceServiceImpl.java:138-140 | filtering an ascending listing keeps it ascending |
| InvoiceService.SelectUnbilled | src/main/java/com/example/zorgmate/service/impl/InvoiceServiceImpl.java:138-140 | exactly the caller's unbilled entries of the client, ascending; other users' entries never count |
| InvoiceService.BuildItems | src/main/java/com/example/zorgmate/service/impl/InvoiceServiceImpl.java:146-162 | the loop yields one item per entry in order and a running total equal to their total |
| InvoiceService.LinkSelected | src/main/java/com/example/zorgmate/service/impl/InvoiceServiceImpl.java:180 | the loop sets exactly the selected entries' invoice |
| InvoiceService.NothingLeftToBill | src/main/java/com/example/zorgmate/service/impl/InvoiceServiceImpl.java:138-140 | once the selected entries are linked, nothing is left to select |
| InvoiceService.SaveGeneratedInvoice | src/main/java/com/example/zorgmate/service/impl/InvoiceServiceImpl.java:175-181 | the invoice is saved under the next id, its items listed for it, other invoices keep their items, the selected entries billed on it; only the invoice and item counters advance |
| InvoiceService.AutoGenerateInvoiceFromUnbilled | src/main/java/com/example/zorgmate/service/impl/InvoiceServiceImpl.java:137-190 | fails with no-unbilled-hours iff nothing is selected, saving nothing; otherwise one new UNPAID invoice under the next id, numbered from the invoice count and the year, with sender = owner = caller, the client's name as receiver, due = issue + 14, amount = total of one item per entry; other invoices keep their items; every selected entry is billed on it and none is left to bill; the entry, client and project counters stay |
| LegacyInvoiceService.Lines | src/main/java/com/example/zorgmate/Service/impl/InvoiceServiceImpl.java:62-68 | one dateless line per item, in order |
| LegacyInvoiceService.FromRequest | src/main/java/com/example/zorgmate/Service/impl/InvoiceServiceImpl.java:31-39 | the stored invoice carries the request's number, names and dates, with the given status and amount |
| LegacyInvoiceService.View | src/main/java/com/example/zorgmate/Service/impl/InvoiceServiceImpl.java:70-80 | id, dates and the parsed number; a status name that reads back as the status; the stored amount; names iff requested; one line per item, adding up to the items' total |
| LegacyInvoiceService.ListedView | src/main/java/com/example/zorgmate/Service/impl/InvoiceServiceImpl.java:96-104 | the number as `parseInt` reads it, no names, the stored amount, one line per listed item, adding up to the listed items' total |
| LegacyInvoiceService.FirstUnparsed | src/main/java/com/example/zorgmate/Service/impl/InvoiceServiceImpl.java:183-185 | the position of the first listed invoice whose number does not parse, every one before it parsing; the length when all parse |
| LegacyInvoiceService.LegacyDatabase.SaveAllItems | src/main/java/com/example/zorgmate/Service/impl/InvoiceServiceImpl.java:53 | the batch is stored in order under consecutive new ids; the invoices and their counter stay |
| LegacyInvoiceService.CreatedConsistent | src/main/java/com/example/zorgmate/Service/impl/InvoiceServiceImpl.java:41-60 | saving a new invoice with its items and their total keeps the store consistent |
| LegacyInvoiceService.RevisedConsistent | src/main/java/com/example/zorgmate/Service/impl/InvoiceServiceImpl.java:119-138 | replacing an invoice's items and amount keeps the store consistent |
| LegacyInvoiceService.DeletedConsistent | src/main/java/com/example/zorgmate/Service/impl/InvoiceServiceImpl.java:166-167 | removing an invoice and its items keeps the store consistent and other invoices' items |
| LegacyInvoiceService.SaveNewInvoice | src/main/java/com/example/zorgmate/Service/impl/InvoiceServiceImpl.java:31-60 | saved under the next id with amount 0, items saved, amount set to their total |
| LegacyInvoiceService.CreateInvoice | src/main/java/com/example/zorgmate/Service/impl/InvoiceServiceImpl.java:30-81 | unknown status fails with nothing saved; otherwise the invoice and its items are stored with amount = their total, and the result fails (NumberFormat) iff the number is not an `int`, after the writes |
| LegacyInvoiceService.UpdateInvoice | src/main/java/com/example/zorgmate/Service/impl/InvoiceServiceImpl.java:108-159 | absent id fails with `Factuur niet gevonden` and unknown status fails, both with nothing changed; otherwise items replaced, amount their total, and the number parsed last |
| LegacyInvoiceService.DeleteInvoice | src/main/java/com/example/zorgmate/Service/impl/InvoiceServiceImpl.java:162-168 | absent id fails with `Factuur met ID <id> niet gevonden`; otherwise the invoice and exactly its items go |
| LegacyInvoiceService.UpdateInvoiceStatus | src/main/java/com/example/zorgmate/Service/impl/InvoiceServiceImpl.java:170-176 | absent id fails with `Factuur niet gevonden`; otherwise only the status changes |
| LegacyInvoiceService.ListedViews | src/main/java/com/example/zorgmate/Service/impl/InvoiceServiceImpl.java:181-199 | the listing succeeds iff every listed number parses, and then has one response per invoice in order |
| LegacyInvoiceService.StatusIds | src/main/java/com/example/zorgmate/Service/impl/InvoiceServiceImpl.java:182 | exactly the invoices with the status, ascending |
| LegacyInvoiceService.AllIds | src/main/java/com/example/zorgmate/Service/impl/InvoiceServiceImpl.java:86 | every stored invoice, ascending |
| LegacyInvoiceService.GetInvoicesByStatus | src/main/java/com/example/zorgmate/Service/impl/InvoiceServiceImpl.java:181-200 | fails iff a listed number does not parse; otherwise one response per invoice with the status, in id order, each with its own items |
| LegacyInvoiceService.GetAllInvoices | src/main/java/com/example/zorgmate/Service/impl/InvoiceServiceImpl.java:84-106 | fails iff a stored number does not parse; otherwise one response per stored invoice, in id order |
| LegacyInvoiceService.ByStatusIsExact | src/main/java/com/example/zorgmate/Service/impl/InvoiceServiceImpl.java:181-200 | every listed response has the status asked for, and every invoice with it is listed |
| LegacyInvoiceService.ListedTotalsAdd | src/main/java/com/example/zorgmate/Service/impl/InvoiceServiceImpl.java:96-104 | in a consistent store each listed total is the sum of its lines |
| TimeEntryService.ProjectRef | src/main/java/com/example/zorgmate/service/impl/TimeEntryServiceImpl.java:30 | a project is set iff an id was given and found; otherwise none, not an error |
| TimeEntryService.NewDraft | src/main/java/com/example/zorgmate/service/impl/TimeEntryServiceImpl.java:32-39 | the built entry has the request's client, the resolved project, no invoice and the given owner; it passes the NOT NULL check iff an owner is set, and then has the request's fields |
| TimeEntryService.CreateWith | src/main/java/com/example/zorgmate/service/impl/TimeEntryServiceImpl.java:28-44 | unknown client fails first; a null owner makes the insert fail with nothing written; otherwise the entry is stored as drafted under the next id |
| TimeEntryService.MapToDTO | src/main/java/com/example/zorgmate/service/impl/TimeEntryServiceImpl.java:60-70 | fields copied, the client's name, and projectName null iff there is no project or it has no name |
| TimeEntryService.CreateTimeEntryAsWritten | src/main/java/com/example/zorgmate/service/impl/TimeEntryServiceImpl.java:28-44 | with the owner left null by the builder: no such element for an unknown client, otherwise the insert refuses the null `created_by`; nothing is written either way |
| TimeEntryService.CreateTimeEntry | src/main/java/com/example/zorgmate/service/impl/TimeEntryServiceImpl.java:28-44 | unknown client fails with nothing saved; otherwise the entry is stored under the next id, copying the request, owned by the caller, unbilled, and listed among the client's unbilled entries; no other table or counter changes |
| TimeEntryService.EntryViews | src/main/java/com/example/zorgmate/service/impl/TimeEntryServiceImpl.java:48-49 | one response per listed entry, in order |
| TimeEntryService.AllEntryIds | src/main/java/com/example/zorgmate/service/impl/TimeEntryServiceImpl.java:48 | every stored entry, ascending |
| TimeEntryService.GetAllTimeEntries | src/main/java/com/example/zorgmate/service/impl/TimeEntryServiceImpl.java:47-51 | one response per stored entry, whoever created it |
| TimeEntryService.GetUnbilledEntriesByClient | src/main/java/com/example/zorgmate/service/impl/TimeEntryServiceImpl.java:54-58 | one response per unbilled entry of the client |
| TimeEntryService.UnbilledIgnoresCreator | src/main/java/com/example/zorgmate/service/impl/TimeEntryServiceImpl.java:54-58 | unbilled entries of two different creators are both listed |
| ProjectService.WrapInt32 | src/main/java/com/example/zorgmate/service/impl/ProjectServiceImpl.java:25-28 | the `int` result is congruent to the exact value modulo 2^32 and equal to it when it fits |
| ProjectService.ProjectEntryIds | src/main/java/com/example/zorgmate/service/impl/ProjectServiceImpl.java:25 | exactly the ids of the entries booked on the project, ascending |
| ProjectService.ProjectHours | src/main/java/com/example/zorgmate/service/impl/ProjectServiceImpl.java:25-27 | one number per entry booked on the project, in id order, each that entry's hours |
| ProjectService.IntSum | src/main/java/com/example/zorgmate/service/impl/ProjectServiceImpl.java:25-28 | summing with wrap-around at every step is the exact sum wrapped once |
| ProjectService.IsProjectOverHoursAsWritten | src/main/java/com/example/zorgmate/service/impl/ProjectServiceImpl.java:21-31 | unknown project throws; no limit gives false; otherwise the wrapped `int` sum is compared strictly with the limit |
| ProjectService.IsProjectOverHours | src/main/java/com/example/zorgmate/service/impl/ProjectServiceImpl.java:21-31 | unknown project throws; no limit gives false; otherwise true iff the exact hours exceed the limit |
| ProjectService.AsWrittenAgreesWithoutOverflow | src/main/java/com/example/zorgmate/service/impl/ProjectServiceImpl.java:25-30 | with non-negative hours summing to at most 2^31 − 1 the two agree |
| ProjectService.NonNegativeSum | src/main/java/com/example/zorgmate/service/impl/ProjectServiceImpl.java:25-28 | non-negative hours give a non-negative sum |
| ProjectService.NoEntriesNotOver | src/main/java/com/example/zorgmate/service/impl/ProjectServiceImpl.java:25-30 | no entries and a non-negative limit give false |
| ProjectService.AddingHoursKeepsOver | src/main/java/com/example/zorgmate/service/impl/ProjectServiceImpl.java:25-30 | booking one more entry with non-negative hours never turns true into false |
| ProjectService.HoursAfterAdding | src/main/java/com/example/zorgmate/service/impl/ProjectServiceImpl.java:25-28 | a new entry adds its hours to the project's sum iff it is booked on the project |
| ProjectService.NineOverEight | src/main/java/com/example/zorgmate/service/impl/ProjectServiceImpl.java:30 | 5 + 4 hours against a limit of 8 is over |
| ProjectService.TenNotOverTen | src/main/java/com/example/zorgmate/service/impl/ProjectServiceImpl.java:30 | 5 + 5 hours against a limit of 10 is not over |
| ProjectService.MaxHoursOver | src/main/java/com/example/zorgmate/service/impl/ProjectServiceImpl.java:25-30 | one entry of 2^31 − 1 hours is over a limit of 0, as written |
| ProjectService.OverflowCounterexample | src/main/java/com/example/zorgmate/service/impl/ProjectServiceImpl.java:25-30 | adding one hour to that makes the code as written say "not over", while the exact sum is still over |
| UserService.NameIds | src/main/java/com/example/zorgmate/service/impl/UserServiceImpl.java:82 | exactly the accounts with the username, ascending |
| UserService.FoundNoneMeaning | src/main/java/com/example/zorgmate/service/impl/UserServiceImpl.java:30 | the lookup is empty iff no account has the username |
| UserService.FoundOneMeaning | src/main/java/com/example/zorgmate/service/impl/UserServiceImpl.java:82-83 | a found account has the username and is the only one with it |
| UserService.FoundManyMeaning | src/main/java/com/example/zorgmate/service/impl/UserServiceImpl.java:82 | the lookup throws only when two accounts share the username |
| UserService.UniqueNeverAmbiguous | src/main/java/com/example/zorgmate/service/impl/UserServiceImpl.java:30 | with unique usernames the lookup never throws |
| UserService.DefaultRole | src/main/java/com/example/zorgmate/service/impl/UserServiceImpl.java:34 | the requested role when given, USER otherwise |
| UserService.RegisterKeepsUnique | src/main/java/com/example/zorgmate/service/impl/UserServiceImpl.java:30-42 | registering an unused username keeps usernames unique |
| UserService.RegisteredIsFound | src/main/java/com/example/zorgmate/service/impl/UserServiceImpl.java:36-42 | a registered account is found by its username |
| UserService.Updated | src/main/java/com/example/zorgmate/service/impl/UserServiceImpl.java:65-66 | the update keeps the password |
| UserService.UpdateCanDuplicate | src/main/java/com/example/zorgmate/service/impl/UserServiceImpl.java:60-70 | renaming to a taken username is accepted and makes the lookup by that name throw |
| UserService.UserStore.RegisterUser | src/main/java/com/example/zorgmate/service/impl/UserServiceImpl.java:29-44 | a failing lookup is passed on and a taken username fails with `Gebruikersnaam word al gebruikt`, both with nothing saved; otherwise the account is saved under the next id with the encoded password and the defaulted role; uniqueness is kept |
| UserService.UserStore.UpdateUser | src/main/java/com/example/zorgmate/service/impl/UserServiceImpl.java:60-70 | absent id fails with `Gebruiker met ID <id> niet gevonden` and no change; otherwise exactly username and role are set |
| UserService.UserStore.DeleteUser | src/main/java/com/example/zorgmate/service/impl/UserServiceImpl.java:72-78 | absent id fails with no change; otherwise exactly that account goes |
| UserService.GetUserById | src/main/java/com/example/zorgmate/service/impl/UserServiceImpl.java:53-58 | succeeds iff the id is stored, with its username and role; otherwise the not-found message |
| UserService.GetUserByUsername | src/main/java/com/example/zorgmate/service/impl/UserServiceImpl.java:80-85 | a result is an account with the username; not found iff no account has it; throws only when usernames are not unique |
| UserService.GetAllUsers | src/main/java/com/example/zorgmate/service/impl/UserServiceImpl.java:46-51 | one response per stored account, in id order |
| LegacyUserService.EmailIds | src/main/java/com/example/zorgmate/Service/impl/UserServiceImpl.java:25 | exactly the accounts with the email, ascending |
| LegacyUserService.EmailAbsentMeaning | src/main/java/com/example/zorgmate/Service/impl/UserServiceImpl.java:25 | the lookup is empty iff no account has the email |
| LegacyUserService.EmailHeldTwice | src/main/java/com/example/zorgmate/Service/impl/UserServiceImpl.java:25 | the lookup throws only when two accounts share the email |
| LegacyUserService.UniqueEmailsNeverAmbiguous | src/main/java/com/example/zorgmate/Service/impl/UserServiceImpl.java:25 | with unique emails the lookup never throws |
| LegacyUserService.NewLegacyUser | src/main/java/com/example/zorgmate/Service/impl/UserServiceImpl.java:29-35 | the account carries the request's username and email and the defaulted role |
| LegacyUserService.RegisterKeepsEmailsUnique | src/main/java/com/example/zorgmate/Service/impl/UserServiceImpl.java:24-37 | registering an unused email keeps emails unique |
| LegacyUserService.LegacyUserStore.RegisterUser | src/main/java/com/example/zorgmate/Service/impl/UserServiceImpl.java:24-38 | a used email fails with `Email already in use` and nothing saved; otherwise the account is saved under the next id and returned |
| LegacyUserService.LegacyUserStore.DeleteUser | src/main/java/com/example/zorgmate/Service/impl/UserServiceImpl.java:47-53 | absent id fails with `User with ID <id> not found.`; otherwise exactly that account goes |
| LegacyUserService.GetAllLegacyUsers | src/main/java/com/example/zorgmate/Service/impl/UserServiceImpl.java:40-45 | one four-field response per stored account, in id order |
| LegacyUserService.ListedOnce | src/main/java/com/example/zorgmate/Service/impl/UserServiceImpl.java:40-45 | every stored account appears in the listing exactly once |
| WebSocket.TokenOf | src/main/java/com/example/zorgmate/websocket/InvoiceWebSocketHandler.java:27-28 | a token iff the query starts with `token=`, and then the query is `token=` followed by it |
| WebSocket.TokenRoundTrip | src/main/java/com/example/zorgmate/websocket/InvoiceWebSocketHandler.java:27-28 | every token after `token=` is read back unchanged |
| WebSocket.QueryIsNotParsed | src/main/java/com/example/zorgmate/websocket/InvoiceWebSocketHandler.java:27-28 | `&x=1` after the token stays in it, and a token that is not first is not found |
| WebSocket.Admit | src/main/java/com/example/zorgmate/websocket/InvoiceWebSocketHandler.java:24-39 | a username iff there is a token, it validates, and it names a subject |
| WebSocket.WithoutSession | src/main/java/com/example/zorgmate/websocket/InvoiceWebSocketHandler.java:63 | exactly the entries held by the session go, the others keep their sessions |
| WebSocket.Recipients | src/main/java/com/example/zorgmate/websocket/InvoiceWebSocketHandler.java:67-72 | the creator first, the receiver when present, no one twice, no one else |
| WebSocket.SendTo | src/main/java/com/example/zorgmate/websocket/InvoiceWebSocketHandler.java:74-83 | one frame on the user's session iff it is registered, open and the send does not fail; nothing otherwise |
| WebSocket.Fanout | src/main/java/com/example/zorgmate/websocket/InvoiceWebSocketHandler.java:67-72 | at most one frame per recipient; every frame carries the message to the session of a recipient that is registered, open and not failing, and every such recipient gets one |
| WebSocket.ReceiverIsCreator | src/main/java/com/example/zorgmate/websocket/InvoiceWebSocketHandler.java:69 | a receiver equal to the creator is sent to once |
| WebSocket.UnregisteredGetsNothing | src/main/java/com/example/zorgmate/websocket/InvoiceWebSocketHandler.java:75-76 | users with no session are sent nothing |
| WebSocket.ClosedSessionUnreachable | src/main/java/com/example/zorgmate/websocket/InvoiceWebSocketHandler.java:61-83 | once a user's session closes, nothing reaches that user |
| WebSocket.InvoiceWebSocketHandler.AfterConnectionEstablished | src/main/java/com/example/zorgmate/websocket/InvoiceWebSocketHandler.java:22-54 | an admitted session takes its user's slot, replacing any earlier one; any other session is closed and the registry unchanged |
| WebSocket.InvoiceWebSocketHandler.HandleTextMessage | src/main/java/com/example/zorgmate/websocket/InvoiceWebSocketHandler.java:56-59 | `Ontvangen: ` + payload is sent back on the same session |
| WebSocket.InvoiceWebSocketHandler.AfterConnectionClosed | src/main/java/com/example/zorgmate/websocket/InvoiceWebSocketHandler.java:61-65 | the registry loses exactly the entries held by that session |
| WebSocket.InvoiceWebSocketHandler.SendToSingleUser | src/main/java/com/example/zorgmate/websocket/InvoiceWebSocketHandler.java:74-83 | what is sent is `SendTo`; the registry is unchanged and nothing is raised |
| WebSocket.InvoiceWebSocketHandler.SendToUser | src/main/java/com/example/zorgmate/websocket/InvoiceWebSocketHandler.java:67-72 | what is sent is the fan-out over the recipients |
| Jwt.ResolveToken | src/main/java/com/example/zorgmate/security/JwtTokenProvider.java:81-88 | a token iff the header starts with exactly `Bearer `; then the header is `Bearer ` + token, 7 characters longer |
| Jwt.ResolveRoundTrip | src/main/java/com/example/zorgmate/security/JwtTokenProvider.java:84-85 | `Bearer t` resolves to `t` for every `t` |
| Jwt.ResolveEdgeCases | src/main/java/com/example/zorgmate/security/JwtTokenProvider.java:84-87 | `Bearer ` alone gives the empty token; `bearer x`, `Bearerx` and no header give none |
| Jwt.Decide | src/main/java/com/example/zorgmate/security/JwtAuthFilter.java:32-47 | an authentication iff the header resolves, the token validates, names a subject, and that user is found; always principal = username and authorities = [ROLE_USER]; throws only for duplicate usernames |
| Jwt.AuthenticatedMeansKnownUser | src/main/java/com/example/zorgmate/security/JwtAuthFilter.java:40-46 | an authenticated principal is a stored account's username |
| Jwt.UniqueUsersAuthenticate | src/main/java/com/example/zorgmate/security/JwtAuthFilter.java:34-46 | with unique usernames a valid bearer token for a stored user always authenticates |
| Jwt.SecurityContext.DoFilterInternal | src/main/java/com/example/zorgmate/security/JwtAuthFilter.java:28-54 | the decided authentication is installed, otherwise the context is untouched; the chain is called once unless the lookup throws, which cannot happen with unique usernames |

## Left out

- Notifications from the owner-scoped invoice service: the calls are wrapped in try/catch and cannot change a result. The two-argument `sendToUser` they call also does not match the handler's three-argument method.
- HTTP controllers, `SecurityConfig`, `WebSocketConfig` and request validation annotations: framework wiring. The services are modelled without the DTO constraints (empty item lists and 0 hours are accepted).
- JWT signing, validation and subject extraction, and the password encoder: foreign code, passed in as functions. A token whose subject is null is `None` from the extraction function.
- `ClientServiceImpl`, address lookup and the postcode client: no rule to model. `Store.Database.SaveClient` and `SaveProject` only set up stores.
- Concurrency: the `ConcurrentHashMap` registry and the `count() + 1` invoice-number race. Every call is sequential.
- Logging and `System.out` output.
- The clock: `LocalDate.now()` and its year are the parameters `today` and `year`.
- BigDecimal scale: amounts are exact reals compared by value.
- `Long` ids: ids are unbounded integers and are never near 2^63.
- The exception handler's answer for exceptions it has no handler for (NoSuchElement, IncorrectResultSize, DataIntegrityViolation): `Handle` returns none for them and the framework default is not modelled.
- dal/entity/User.java and dal/entity/UserRole.java of the older registry are not part of this model. Its `LegacyUser` holds username, email and role, and it reuses the newer `UserRole`. The `RegisterRequest` and `UserDTO` classes shown have no email field, so the older service reads its own request shape `LegacyRegisterRequest`.
- WebSocket.InvoiceWebSocketHandler.AfterConnectionEstablished: a send on a session the handler itself closed is decided by the `isOpen` parameter, not by the handler's `closed` set.
- Text.ParseInt: only the ASCII digits 0-9 are digits. `Integer.parseInt` also accepts other Unicode decimal digits (such as Arabic-Indic ones).
- Text.ToUpperCase: only ASCII a-z are upper-cased. Java's `toUpperCase()` is Unicode- and locale-aware: it maps the dotless `ı` to `I`, so `paıd` is accepted as PAID, and under a Turkish default locale `paid` becomes `PAİD` and is refused.
- Entities.ParseStatus: inherits the ASCII-only upper-casing of `Text.ToUpperCase`; the two locale cases above are not modelled.
- Null request fields: every field of a request is present in the model. In the source a missing status, item list, hourly rate or hours throws a NullPointerException, and a missing description or date reaches the NOT NULL check of its column. Only the null `created_by` of the time-entry builder is modelled.
- WebSocket.InvoiceWebSocketHandler.HandleTextMessage: the IOException `sendMessage` may throw is not modelled; the echo always goes out.
- LegacyInvoiceService.LegacyDatabase: the two `Invoice` entities (`dal/entity/Invoice.java:15` and `dal/entity/Invoice/Invoice.java:15`) both map to the `invoices` table, and both services inject the one `InvoiceRepository`. That repository is typed over the older entity (`dal/repository/InvoiceRepository.java:3,10`) and declares no `findByCreatedBy`, which the owner-scoped service calls (`service/impl/InvoiceServiceImpl.java:50`). So the source as given does not compile. The model gives each service its own store. It therefore does not capture that `count()` in the invoice number would also count the older service's rows. It also does not capture that the older service's listings would reach the `INV-...` numbers and fail to parse them.
- InvoiceService.MapToDTO: `dto/Invoice/InvoiceResponseDTO.java:18` declares `invoiceNumber` as `int`, while the owner-scoped service passes the `String` invoice number to it (`service/impl/InvoiceServiceImpl.java:194-216`). So the source as given does not compile. The model keeps that service's `InvoiceView.invoiceNumber` a string, as its code builds it. The older service's `LegacyView.invoiceNumber` is an `int`, as its code parses it.

## Findings

| source | as written | input that shows it | evidently intended | confidence | as-written member | corrected member |
|---|---|---|---|---|---|---|
| src/main/java/com/example/zorgmate/service/impl/TimeEntryServiceImpl.java:32-41 | the new entry is built without `createdBy`, which `TimeEntry.java:48-49` declares NOT NULL, so every save of an entry for a known client is rejected | any request whose client exists | the entry records the authenticated caller as its creator, so that auto-generation (which filters on `createdBy`) can bill it | not executed | TimeEntryService.CreateTimeEntryAsWritten | TimeEntryService.CreateTimeEntry |
| src/main/java/com/example/zorgmate/service/impl/ProjectServiceImpl.java:25-30 | the hours are summed as `int`, which wraps around past 2^31 − 1, so booking more hours can turn "over" into "not over" | limit 0, entries of 2^31 − 1 and 1 hours: as written false, while the first entry alone gave true | the comparison uses the exact sum of the hours (a `long` sum) | not executed | ProjectService.OverflowCounterexample | ProjectService.AddingHoursKeepsOver |
