# IT Service Manager: tickets, storage, reports, QR links and label printing

This Dafny project models the core of a repair shop's service-ticket app.

- **Store (`Storage`).** The ticket and settings store keeps service tickets and the app settings under two AsyncStorage keys. Every operation reads the whole collection, changes it in memory and writes it back. The store is the class `Storage.TicketStore`, with one field per key. Each field is a `Slot`: never written, unreadable, or a stored value. The outcome of every write or removal is a `bool` parameter, so the error paths (a swallowed read error, a re-thrown write error) are modelled branch by branch.
- **Filters (`Tickets`).** These are the record types of the app and the ticket filters the store and the reports share. `Where` is `Array.prototype.filter` over a first-order `Criterion`.
- **Reports (`Reports`).** These cover the revenue, technician, product and client reports, the client and technician name lists, and the dashboard figures. The grouping loops of the revenue, technician and product reports are methods with loop invariants. Each is proved against a grouping specification: the tickets of one product type or technician, selected with `Where`. The report figures are then proved to add up to the figures of the whole range.
- **Sorting (`Sorting`).** `Array.prototype.sort` as the reports use it: a descending sort by a numeric key, proved sorted and a permutation, and the de-duplicating sort of the name lists.
- **Deep links and QR codes (`QrCode`, `DeepLink`).** `QrCode` holds the QR payload: the deep link `<scheme>://ticket/<id>` and the Telegram search fallback. `DeepLink` parses a ticket id back out of a link with the regular expression `manusapp://ticket/([a-zA-Z0-9-]+)`. The model is an explicit leftmost, greedy match.
- **Label printer (`SunmiPrinter`).** This is the pure side of the Sunmi thermal printer:
  - the ESC/POS label text, built step by step as the source does, with the place of every section proved;
  - the reading of the printer status code;
  - the counting of a batch print. Every native call's outcome (returned or threw) is an input.
- **Text (`Text`).** The string helpers: ASCII case mapping, prefix and substring tests, `substring`, `replace` of the first occurrence, and the code-point order of `sort()`.

Timestamps are integers of milliseconds. Money is `real`. A partial update is a record of `Option` fields. The uuid generator and the clock are parameters of the operations that use them.

A few behaviours look unintended from their names, and the model keeps them as the code has them:

- The product report's `failureRate` is the share of *completed* tickets, as `lib/reports.ts:177` computes it.
- The dashboard's average ticket value divides completed revenue by the number of *all* tickets (`lib/reports.ts:270`).
- The deep-link parser's literal is always `manusapp`, whatever the configured scheme (see Findings).

## Model

| member | source | states |
|---|---|---|
| Storage.ReadTickets | lib/storage.ts:21-29 | a stored collection is returned as is; a missing key or a failed read gives the empty collection |
| Storage.FindIndex | lib/storage.ts:73 | the result is -1 exactly when no ticket has the id, and otherwise the first position holding it |
| Storage.FindTicket | lib/storage.ts:37 | `None` exactly when no ticket has the id; otherwise the first stored ticket with that id |
| Storage.TicketStore.AllTickets | lib/storage.ts:21-29 | the stored collection when one is stored; the empty collection for a missing key or a failed read |
| Storage.TicketStore.GetSettings | lib/storage.ts:194-221 | the stored settings when they are stored; the default settings for a missing key or a failed read |
| Storage.TicketStore.GetTicketById | lib/storage.ts:34-42 | null exactly when no stored ticket has the id; otherwise the first stored ticket with it |
| Storage.TicketStore.CreateTicket | lib/storage.ts:47-65 | on a successful write the new ticket (fresh id, both timestamps `now`) is appended and returned; a failed write throws and stores nothing; a fresh id keeps ids unique |
| Storage.ApplyPatch | lib/storage.ts:80-84 | id and creation time are kept, `updatedAt` becomes `now`, every field given in the patch overrides the stored one and every absent field keeps it; an empty patch changes only `updatedAt` |
| Storage.ApplyPatchIdempotent | lib/storage.ts:80-84 | applying the same patch twice equals applying it once |
| Storage.TicketStore.UpdateTicket | lib/storage.ts:70-92 | a missing id gives null and writes nothing; otherwise the first match is patched in place, stored and returned, or the write error is thrown with nothing stored; unique ids stay unique |
| Storage.FindUpdated | lib/storage.ts:80-87 | after an update, looking the id up finds the patched ticket |
| Storage.FindCreated | lib/storage.ts:56-60 | when no stored ticket has the new id, the created ticket is found by its id |
| Storage.TicketStore.DeleteTicket | lib/storage.ts:97-113 | no ticket with the id gives false and no write; otherwise every ticket with the id is removed and true returned, or the write error is thrown; unique ids stay unique |
| Storage.DeleteRemovesId | lib/storage.ts:100 | after the filter no ticket has the id, and every other ticket is kept |
| Storage.DeleteTwice | lib/storage.ts:100-105 | a second delete of the same id removes nothing, so it reports false |
| Storage.WhereKeepsUniqueIds | lib/storage.ts:100 | filtering a collection with unique ids keeps them unique |
| Storage.CriteriaMeaning | lib/storage.ts:122-149 | a ticket passes the criteria of a filter-options record exactly when it meets every given option; empty strings and a half-open date range count as absent |
| Storage.NarrowStep | lib/storage.ts:120-149 | filtering by more criteria narrows the result by their conjunction |
| Storage.FilterMembership | lib/storage.ts:118-156 | a ticket is in the filter result exactly when it is stored and meets the options |
| Storage.TicketStore.FilterTickets | lib/storage.ts:118-156 | the successive narrowing steps give exactly the stored tickets that meet every given option, in stored order |
| Storage.NoFilterKeepsAll | lib/storage.ts:118-156 | with no option given the filter returns the whole collection |
| Storage.TelegramSentPatch | lib/storage.ts:163-166 | the patch sets `telegramSent` and the message id and nothing else |
| Storage.TicketStore.MarkTelegramSent | lib/storage.ts:161-172 | true exactly when the ticket exists and the write succeeds, and then only its Telegram fields and update time change; otherwise nothing is stored |
| Storage.TicketStore.ClearAllTickets | lib/storage.ts:177-184 | a successful removal leaves no tickets; a failed one throws and changes nothing |
| Storage.ReadSettings | lib/storage.ts:194-221 | stored settings are returned as is; otherwise the defaults (`Technician`, empty Telegram config, `auto`) |
| Storage.MergeSettings | lib/storage.ts:229-232 | each given field overrides the current one and every other field is kept |
| Storage.MergeSettingsTwice | lib/storage.ts:229-232 | merging is idempotent, and of two merges the later value wins for each of the technician name, the Telegram config and the theme |
| Storage.TicketStore.UpdateSettings | lib/storage.ts:226-240 | on success the merged settings are stored, returned and read back; on failure the error is thrown and nothing is stored |
| Storage.TicketStore.GetTelegramConfig | lib/storage.ts:245-256 | the stored Telegram config, or the empty one |
| Storage.TicketStore.UpdateTelegramConfig | lib/storage.ts:261-275 | only the Telegram config changes; the technician name and theme are kept |
| Storage.TicketStore.GetTechnicianName | lib/storage.ts:280-288 | the stored technician name, or `Technician` |
| Storage.TicketStore.UpdateTechnicianName | lib/storage.ts:293-301 | only the technician name changes, and the name is returned; a failed write throws |
| Storage.TicketStore.ExportAllData | lib/storage.ts:311-325 | the export holds the stored tickets, the current settings and the export time |
| Storage.TicketStore.ClearAllData | lib/storage.ts:330-338 | the tickets key is removed before the settings key, and a failure stops at its step; full success leaves no tickets and the default settings |
| Tickets.WhereMembers | lib/storage.ts:122-148 | a ticket is in a filter's result exactly when it is in the input and meets the criterion |
| Tickets.WhereConcat | lib/storage.ts:122-148 | filtering distributes over concatenation |
| Tickets.WhereKeepsAll | lib/storage.ts:122-148 | a filter returns its whole input exactly when every ticket meets the criterion |
| Tickets.WhereSameLength | lib/storage.ts:100-102 | the result has the input's length exactly when nothing was dropped, the test `deleteTicket` relies on |
| Tickets.WhereAllOfSnoc | lib/storage.ts:120-149 | filtering again by one more criterion equals filtering once by the conjunction |
| Tickets.CompletedOrOpen | lib/reports.ts:257-260 | every ticket is either completed or pending, in progress or on hold, so the two counts add up to the total |
| Reports.InRange | lib/reports.ts:24-27 | the report range keeps exactly the stored tickets received inside it, and everything when a bound is missing |
| Reports.AccumulateRevenue | lib/reports.ts:45-66 | the loop's totals are the revenue of the completed tickets and 30% of it, and its per-product record is the breakdown of those tickets by type |
| Reports.BookedIsBreakdown | lib/reports.ts:45-66 | folding the tickets one by one into the per-product record gives the breakdown by type |
| Reports.BreakdownAt | lib/reports.ts:52-65 | a product type has an entry exactly when a ticket of that type occurs, and the entry holds those tickets' count, revenue, 30% cost and profit |
| Reports.BreakdownSnoc | lib/reports.ts:51-65 | booking one more ticket updates only its own type's entry, creating it at zero when absent |
| Reports.NonEmptyBreakdown | lib/reports.ts:69-74 | dropping empty entries leaves the breakdown unchanged, since every entry counts at least one ticket |
| Reports.GenerateRevenueReport | lib/reports.ts:20-88 | count, revenue, 30% cost, profit and average are those of the completed tickets in the range, and the breakdown is theirs by product type |
| Reports.BreakdownReconciles | lib/reports.ts:45-74 | the per-product counts and revenues add up to the report's ticket count and total revenue |
| Reports.GroupByTechnician | lib/reports.ts:103-109 | one list per technician who occurs, no name twice, each list exactly that technician's tickets in order |
| Reports.TechnicianEntry | lib/reports.ts:113-132 | count, completed and pending counts that add up, a completion rate within 0 and 1, revenue and average of the technician's tickets |
| Reports.TechnicianEntries | lib/reports.ts:112-134 | one entry per technician name, in order, each the figures of that technician's tickets in the range |
| Tickets.SumCost | lib/reports.ts:118 | the reduce of the costs; non-negative when every cost is |
| Reports.EntriesCountEveryTicket | lib/reports.ts:112-134 | the technicians' ticket counts add up to the number of tickets in the range |
| Reports.GenerateTechnicianReport | lib/reports.ts:93-137 | one entry per technician in the range, sorted by revenue highest first, each with the figures of that technician's tickets, counts adding up to the range |
| Reports.GroupByProduct | lib/reports.ts:152-165 | every product type's list is exactly the tickets of that type in order |
| Reports.ProductEntry | lib/reports.ts:170-184 | repair count, the share of completed tickets within 0 and 1, revenue and average cost of the type's tickets |
| Reports.ProductEntries | lib/reports.ts:168-185 | every entry is the figures of one listed product type's tickets, and no entry has a repair count of zero |
| Reports.ProductEntriesKeys | lib/reports.ts:168-169 | the entries are exactly the product types with a non-empty list |
| Reports.ProductEntriesTotals | lib/reports.ts:168-185 | the entries' repair counts and revenues add up to the tickets' count and revenue per product type |
| Reports.GenerateProductReport | lib/reports.ts:142-188 | one entry per product type in the range, sorted by repair count highest first, with that type's figures; counts and revenues add up to the whole range |
| Reports.EarliestReceived | lib/reports.ts:203-207 | the first date after sorting by date: a receipt date of the list, no later than any |
| Reports.LatestReceived | lib/reports.ts:203-208 | the last date after sorting by date: a receipt date of the list, no earlier than any |
| Reports.GenerateClientReport | lib/reports.ts:193-222 | null exactly when no ticket's client matches ignoring case; otherwise the matching tickets with their count, total and average, the name, phone and email of the first match, and the earliest and latest receipt dates as first and last service dates |
| Reports.GetAllClientNames | lib/reports.ts:227-231 | every client name exactly once, in ascending order |
| Reports.GetAllTechnicianNames | lib/reports.ts:236-240 | every technician name exactly once, in ascending order |
| Reports.GetDashboardStats | lib/reports.ts:245-272 | total, completed and other counts add up, today's tickets are those received on the current calendar day, and revenue is the completed tickets' |
| Reports.RevenueReportAgreesWithDashboard | lib/reports.ts:20-88 | a revenue report over a range that covers every ticket counts the dashboard's completed tickets and their revenue |
| Reports.RatioInUnit | lib/reports.ts:125 | a count divided by a larger total lies between 0 and 1 |
| Sorting.SortDesc | lib/reports.ts:136 | the result is sorted by the key, highest first, and is a permutation of the input |
| Sorting.SumKeySort | lib/reports.ts:136 | sorting keeps the sum of any numeric field |
| Sorting.Reordered | lib/reports.ts:187 | a permutation keeps the elements, their names and the names' distinctness |
| Sorting.SortedDistinct | lib/reports.ts:229-230 | the unique names in ascending code-point order, each once, exactly those of the input |
| Text.LexLeTotal | lib/reports.ts:230 | any two strings are ordered one way or the other by `sort()`'s order |
| Text.LexLeAntisymmetric | lib/reports.ts:230 | two strings ordered both ways are equal |
| Text.LexLeTransitive | lib/reports.ts:230 | the string order is transitive |
| Text.ToUpper | lib/sunmi-printer.ts:67 | the upper-cased string has the same length, each ASCII small letter mapped to its capital |
| Text.ReplaceFirst | lib/sunmi-printer.ts:159 | a string in which the pattern never occurs comes back unchanged |
| Text.ToLower | lib/storage.ts:124 | the lower-cased string has the same length, each ASCII capital mapped to its small letter |
| QrCode.Scheme | lib/qr-code.ts:10 | an unset or empty environment variable gives `manusapp`, otherwise its value; the scheme is never empty |
| QrCode.GenerateTicketQRData | lib/qr-code.ts:17-23 | the link is the scheme's `://ticket/` prefix followed by exactly the ticket id |
| QrCode.GenerateTelegramFallbackLink | lib/qr-code.ts:29-38 | empty exactly when no group is set; otherwise the Telegram search for exactly the ticket id |
| QrCode.FallbackIgnoresGroupValue | lib/qr-code.ts:29-38 | the fallback link does not depend on which group is configured |
| QrCode.GenerateQRCodeURL | lib/qr-code.ts:44-51 | the primary URL is the deep link; the fallback is not part of it |
| QrCode.GenerateQRCodeForPrinter | lib/qr-code.ts:65-75 | value is the deep link, size as given (200 by default), and the fallback is empty without a group |
| DeepLink.FindMatch | lib/deep-link-handler.ts:18 | the first position where the pattern matches, or none at all |
| DeepLink.RunEnd | lib/deep-link-handler.ts:18 | the greedy `+` group ends at the first character outside `[a-zA-Z0-9-]` |
| DeepLink.ParseAfter | lib/deep-link-handler.ts:18-19 | none exactly when the prefix followed by an id character occurs nowhere; otherwise an id that starts right after the leftmost match and runs to the end of its id characters |
| DeepLink.ParseTicketDeepLink | lib/deep-link-handler.ts:15-24 | null exactly when `manusapp://ticket/` followed by an id character occurs nowhere; otherwise the maximal id-character run after the leftmost match |
| DeepLink.ParseTicketDeepLinkFor | lib/qr-code.ts:10-20 | the parse for the configured scheme; under the default scheme it is the deployed parser |
| DeepLink.RoundTrip | lib/qr-code.ts:17-23 | parsing a generated deep link gives back the ticket id, for every scheme and every id made of id characters |
| DeepLink.DefaultRoundTrip | lib/deep-link-handler.ts:15-24 | with the default scheme the deployed parser reads back every generated link |
| DeepLink.StopsAtSlash | lib/deep-link-handler.ts:18-19 | example (one input): the id stops at the first character outside the class |
| DeepLink.FindsLinkInsideText | lib/deep-link-handler.ts:18-19 | example (one input): the match is unanchored, so text before the link is skipped |
| DeepLink.CustomSchemeIsNotParsed | lib/deep-link-handler.ts:18 | a link generated under another scheme is not recognised |
| DeepLink.GenerateTelegramFallbackURL | lib/deep-link-handler.ts:29-35 | empty exactly when no group is set; otherwise the Telegram search for exactly the id |
| DeepLink.FallbacksAgree | lib/deep-link-handler.ts:29-35 | the handler's fallback and the QR generator's fallback are the same link |
| DeepLink.HandleTicketDeepLink | lib/deep-link-handler.ts:40-68 | true exactly when the link holds a ticket id; the fallback in its `catch` is never reached |
| SunmiPrinter.LabelId | lib/sunmi-printer.ts:67 | the first eight characters of the id (fewer if shorter), upper-cased |
| SunmiPrinter.ProblemText | lib/sunmi-printer.ts:70-72 | at most 40 characters: the description itself when it fits, else its first 37 characters and `...` |
| SunmiPrinter.GenerateLabelText | lib/sunmi-printer.ts:66-169 | the label built step by step is the header, the ID, TEL and DATA fields, the defect section and the QR section with no link line, since the QR data carries no group |
| SunmiPrinter.LabelLayout | lib/sunmi-printer.ts:94-166 | where each section of the label starts: title, each field name followed by its value, `DEFECT:` and the problem, the QR marker, and only line feeds after it |
| SunmiPrinter.LinkLineOfFallback | lib/sunmi-printer.ts:157-162 | with a group the line under the QR code would be the fallback link without `https://` |
| SunmiPrinter.ErrorText | lib/sunmi-printer.ts:374 | the error's message when it is an `Error`, otherwise the fixed text |
| SunmiPrinter.StatusName | lib/sunmi-printer.ts:396-404 | codes 0 to 4 map to their names, one to one, and every other code reads as `unknown` |
| SunmiPrinter.GetPrinterStatus | lib/sunmi-printer.ts:382-418 | unavailable without the module, `available` without a status method, the mapped code when the call returns, `error` with the message when it throws; an error is reported exactly in the first and last cases |
| SunmiPrinter.StatusNamesAreCodes | lib/sunmi-printer.ts:394-410 | a status code never reads as `available` or `unavailable` |
| SunmiPrinter.Succeeded | lib/sunmi-printer.ts:342-357 | at most the number of calls, and all of them exactly when every call returned |
| SunmiPrinter.PrintedCount | lib/sunmi-printer.ts:342-357 | with a print method, the number of print calls that returned; without one, every label |
| SunmiPrinter.PrintedStep | lib/sunmi-printer.ts:343-356 | one more label adds one to the count unless a print method exists and its call threw |
| SunmiPrinter.PrintOneLabel | lib/sunmi-printer.ts:343-356 | a label counts as printed unless the print call it makes threw |
| SunmiPrinter.PrintMultipleLabels | lib/sunmi-printer.ts:321-377 | no module gives the unavailable error; a throwing init or feed gives 0 printed with its message; otherwise the printed count is the labels whose call returned, with success exactly when all were printed and the partial-print message otherwise |
| SunmiPrinter.AllCallsReturnedMeansAllPrinted | lib/sunmi-printer.ts:342-368 | when every print call returns, every label is counted |
| SunmiPrinter.OneFailureMeansShort | lib/sunmi-printer.ts:342-368 | one failed print call with a print method present leaves the batch short |

## Left out

- The React screens, hooks and components are not part of this model. That includes `useDeepLinkHandler` (lib/deep-link-handler.ts:73-105), which subscribes to the URL events of the operating system.
- The Telegram client and its network calls are not part of this model.
- The native printer service is an input: whether each method exists and whether each call returned or threw. The paper itself is not modelled.
- `printLabel` and `printTestLabel` are not modelled. They repeat the native-call pattern of the batch print for a single label.
- `isSunmiPrinterAvailable` is not modelled. It prints nothing and only checks whether the native module is present, which is the `service` input of the modelled operations.
- JSON serialisation and AsyncStorage are a field per key. Parsing is the identity, and a failed read or parse is the `Unreadable` slot.
- The uuid generator and the clock are parameters. Storage.TicketStore.CreateTicket takes one `now` for both timestamps, where the source reads the clock twice (lib/storage.ts:52-53), so its `createdAt` and `updatedAt` can differ by a millisecond. It keeps ids unique only for a fresh id, which uuid v4 gives in practice but does not guarantee.
- ISO date strings are integer timestamps. `formatDate` (lib/sunmi-printer.ts:35-45) is a parameter of the label text. The dashboard's calendar day is the timestamp divided by a day's milliseconds, with time zones left out.
- Money is modelled as `real`. Floating-point rounding is not modelled.
- `toLowerCase` and `toUpperCase` are modelled only for the ASCII letters. Other characters are left unchanged.
- String order is the order of code points. JavaScript compares UTF-16 code units, which differ only above U+FFFF.
- SunmiPrinter.LabelId, SunmiPrinter.ProblemText: lengths and truncation count code points, where JavaScript's `.length` and `substring` count UTF-16 code units. Above U+FFFF the source cuts earlier than the model (21 emoji are 42 code units, so the source shortens them and `substring(0, 37)` can split a surrogate pair, while the model prints them whole).
- Reports.GroupByTechnician, Reports.GenerateTechnicianReport: the source groups into a plain object, so a technician named after an inherited property of `Object.prototype` (`constructor`, `toString`, `__proto__`, ...) finds a truthy value, never gets a list, and the report rejects with a TypeError at `.push`. The model treats every name as an ordinary key and returns an entry for it.
- Reports.GenerateTechnicianReport: technician names are taken in order of first appearance, and `SortDesc` is a stable sort. The source's order of tied entries differs in two cases only: `Object.entries` lists integer-like names (`"7"`, `"42"`) first in ascending numeric order, and an engine whose `sort` is not stable may reorder ties.
- `Object.entries` order of the revenue breakdown is not modelled, since the breakdown is a map.
- `formatProductType` (lib/sunmi-printer.ts:18-30) is not modelled. Nothing in the core calls it.
- The `catch` branch of `parseTicketDeepLink` is not modelled, since a regular-expression match cannot throw. The fallback in `handleTicketDeepLink`'s `catch` is unreachable for the same reason.
- The console logging on every error path is left out.
- Interleavings of concurrent read-modify-write operations on the store are not modelled. Each operation runs alone.
- SunmiPrinter.GetPrinterStatus: the status code is an integer. A non-numeric result of the native call is not modelled.

## Findings

| source | as written | input that shows it | evidently intended | confidence | as-written member | corrected member |
|---|---|---|---|---|---|---|
| lib/deep-link-handler.ts:18 | the parser matches the literal `manusapp://ticket/`, while lib/qr-code.ts:10 builds links under `EXPO_PUBLIC_SCHEME` when it is set | scheme `myapp`, ticket id `abc`: the QR code holds `myapp://ticket/abc` and the parser returns null | the parser reads links under the same scheme the generator uses, so every generated link reads back | not executed | DeepLink.CustomSchemeIsNotParsed | DeepLink.RoundTrip |
