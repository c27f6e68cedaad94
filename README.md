# Nordea account analyzer: a verified model of its ledger logic

`analyzer.py` reads Nordea bank statement exports and groups their transactions by account. When a batch arrives it skips the transactions the account already holds; duplicates within one batch are kept. From a known reference balance it walks back in time and produces one balance per calendar day.

It also keeps *virtual* accounts. Each one collects the negated copy of every transaction whose counterparty or message contains a configured text.

The script has two further jobs:

- It classifies transactions into spending categories with an ordered rule table.
- It builds two tables: a balance matrix, which scans every account's balance series in lock-step by position, and a monthly spending matrix by category.

This project models that logic in Dafny and proves what it computes. The modules follow the program's structure:

- `Transactions` (transaction.dfy): the transaction record, row padding, the negated copy (`opposite`) and case-insensitive containment.
  - Its equality is Dafny's structural equality over every field, the raw row included. This is what `__eq__` does when it compares `__dict__`.
  - Dates are day numbers (proleptic Gregorian ordinals, day 1 = 0001-01-01). Amounts are integer cents.
- `Accounts` (account.dfy): the `Account` class.
  - Merge with deduplication.
  - Balance reconstruction: a stable sort by booking date, newest first; buckets per day; a backward walk.
  - Mirroring into virtual accounts.
  - The walk is checked against `IsBalanceSeries`, an independent description of the expected result: the entry for day d holds the reference balance minus everything booked on or after d.
- `Classification` (classification.dfy): the rule-table fold, `add_to_dict`, and the per-period sums.
- `Report` (report.dfy): the balance-row loop, the dictionary sums, the ordering of categories by total, and the spending matrix.
- `Assets` (assets.dfy): the `Assets` class. It merges a batch into its real account, offers the batch to every virtual account, collects all transactions, and drives balance calculation and the two reports.

Three behaviours of the code are worth stating outright:

- **Classification.** Each match replaces the text being matched, and later rules are matched against that replacement. So with rules A: ["x"] and B: ["x"], the text "xyz" gets the label A: rule B is matched against "A", which does not contain "x" (`SameSearchValueFirstRuleWins`). A later rule can also match an earlier label (`LaterRuleMatchesEarlierLabel`).
- **Offering to virtual accounts.** The whole incoming batch is offered to every virtual account, not only the transactions new to the real account (analyzer.py:172-174).
- **Empty filters.** A filter only has to be set, so an empty filter matches every transaction (`Accounts.Includes`).

## Model

| member | source | states |
|---|---|---|
| Transactions.Padded | analyzer.py:103-104 | a row shorter than 13 fields is extended with empty fields to exactly 13; the original fields stay in front; longer rows are kept as they are |
| Transactions.PadRow | analyzer.py:103-104 | the padding loop yields exactly the padded row |
| Transactions.PaddedIdempotent | analyzer.py:103-104 | padding an already padded row changes nothing |
| Transactions.FromRow | analyzer.py:97-119 | the record keeps its account, booking date and amount, and the input row extended with empty fields to 13; the counterparty is field 4 and the message field 10 of the input row, and each is empty when the row is too short to hold it |
| Transactions.Opposite | analyzer.py:133-136 | the opposite negates the amount and agrees with the original in every other field; it equals the original exactly when the amount is 0 |
| Transactions.OppositeIsReconstruction | analyzer.py:133-136 | rebuilding a transaction from its stored row and negating the amount gives the same record as Opposite |
| Transactions.OppositeInvolutive | analyzer.py:130-136 | the opposite of the opposite equals the original under full-field equality |
| Transactions.Lower | analyzer.py:89 | lower-casing keeps the length and maps every character on its own |
| Transactions.Contains | analyzer.py:89 | `needle in hay` holds exactly when the needle occurs at some position of the text |
| Accounts.UnseenCount | analyzer.py:42 | the merge keeps every copy of a transaction from the batch that the stored list lacks, duplicates within the batch included, and no copy of one already stored |
| Accounts.UnseenMembers | analyzer.py:42 | a transaction is added exactly when it is in the batch and not stored |
| Accounts.UnseenOfStored | analyzer.py:42 | a batch whose transactions are all stored adds nothing |
| Accounts.UnseenOfEmpty | analyzer.py:28-29 | merging into an empty account keeps the whole batch |
| Accounts.MergeIdempotent | analyzer.py:41-44 | merging the same batch a second time adds nothing |
| Accounts.FilterUnseen | analyzer.py:42 | the filter loop yields in batch order exactly the batch transactions not stored |
| Accounts.InsertByDate | analyzer.py:51 | insertion adds the one transaction to the multiset |
| Accounts.SortByDateDesc | analyzer.py:51 | the sort is a permutation and orders booking dates newest first |
| Accounts.SortMembers | analyzer.py:51 | the sorted list has the same length and the same members as the input |
| Accounts.SortBounds | analyzer.py:51 | the first entry of the sorted list is the newest booking and its last the oldest |
| Accounts.SortStable | analyzer.py:51 | the sort is stable: the transactions of each day keep their original order |
| Accounts.SortKeepsSums | analyzer.py:51 | the sum of what is booked from any day on is the same before and after sorting |
| Accounts.BucketByDay | analyzer.py:55-63 | one bucket per distinct booking date, dates strictly descending, each bucket the day's net change; first and last buckets are the newest and oldest day; an empty list gives a single undated zero bucket |
| Accounts.AddToBucket | analyzer.py:57-62 | one step of the bucketing loop keeps the closed buckets plus the open one equal to the day buckets of the transactions seen so far, with the open bucket on the latest transaction's date and the first bucket on the first transaction's date |
| Accounts.WalkBack | analyzer.py:66-77 | the walk succeeds exactly when the first bucket is dated and not after the reference day; then it emits one entry per day from the reference day down to the oldest bucket, each amount the reference balance minus the buckets dated on or after that day; otherwise stepping back below day 1 fails |
| Accounts.SeriesStep | analyzer.py:66-77 | consecutive entries differ by exactly the net change booked on the older day; days without bookings are flat |
| Accounts.SeriesEnds | analyzer.py:66-77 | the first entry already has the reference day's own bookings subtracted, so the reference balance itself is not emitted when that day's bookings do not sum to zero; the last entry is the reference balance minus all bookings |
| Accounts.SeriesUnique | analyzer.py:66-77 | at most one series meets the balance-series description |
| Accounts.WorkedExample | analyzer.py:66-77 | reference 100 on day 10 and −20 booked on day 8 give (100, day 10), (100, day 9), (120, day 8) |
| Accounts.WalkIsSeries | analyzer.py:66-77 | a successful walk over the buckets of the sorted list is the balance series of the unsorted list |
| Accounts.WalkCondition | analyzer.py:63-69 | the walk's success condition holds exactly when the list is non-empty and nothing is booked after the reference day |
| Accounts.ReconstructBalances | analyzer.py:48-77 | sorts, buckets and walks; succeeds exactly when there are transactions and none is booked after the reference day, and then yields the balance series |
| Accounts.Includes | analyzer.py:87-94 | a transaction is taken exactly when a filter that is set occurs, ignoring case, in the counterparty or in the message respectively; an empty filter takes everything |
| Accounts.MirrorSound | analyzer.py:81-85 | mirroring only appends, and every appended transaction is the opposite of an offered transaction the filters take |
| Accounts.MirrorComplete | analyzer.py:81-85 | after mirroring, the opposite of every offered transaction the filters take is present, and everything stored before still is |
| Accounts.MirrorNoop | analyzer.py:84 | when every such opposite is already stored, mirroring changes nothing |
| Accounts.MirrorIdempotent | analyzer.py:81-85 | offering the same batch twice is the same as offering it once |
| Accounts.Account.constructor | analyzer.py:26-35 | the account holds the given batch, with duplicates, the reference balance and day, and no filters |
| Accounts.Account.AddTransactions | analyzer.py:41-44 | the stored list becomes the old list followed by the unseen part of the batch |
| Accounts.Account.CalculateBalances | analyzer.py:48-79 | the stored list becomes its stable sort, the day buckets are stored (a single undated zero bucket for an empty list), and success (exactly under the condition above) stores the balance series |
| Accounts.Account.IncludesTransaction | analyzer.py:87-94 | the account's filters take the transaction exactly as Includes states |
| Accounts.Account.AddTransactionIfIncluded | analyzer.py:81-85 | appends the opposite exactly when the filters take the transaction and no equal opposite is stored; otherwise nothing changes |
| Classification.ClassifyCounterparty | analyzer.py:215-225 | the nested loops compute the rule-table fold in which every match replaces the running text by the rule's key |
| Classification.ApplyRule | analyzer.py:218-220 | the inner loop over one rule's search values gives the rule's key exactly when some search value occurs, ignoring case, in the text, and the text unchanged otherwise |
| Classification.ClassifiedIsTextOrKey | analyzer.py:215-225 | the classification is the original text or one of the rule keys |
| Classification.NoMatchKeepsText | analyzer.py:215-225 | a text no rule matches is returned unchanged |
| Classification.FirstMatchThenLabel | analyzer.py:215-225 | the rules before the first match change nothing; from it on, classification continues from its key |
| Classification.SameSearchValueFirstRuleWins | analyzer.py:215-225 | rules A: ["x"], B: ["x"] classify "xyz" as A |
| Classification.LaterRuleMatchesEarlierLabel | analyzer.py:215-225 | rules A: ["x"], B: ["a"] classify "xyz" as B, through the label A |
| Classification.AddToDict | analyzer.py:209-213 | adds to the key's entry or creates it with the value; no other key is touched |
| Classification.InPeriodOnly | analyzer.py:199 | keeps exactly the transactions booked in the half-open range [start, end) |
| Classification.TallyMeaning | analyzer.py:197-213 | the period dictionary has an entry for exactly the labels that occur, each the sum of the values classified so |
| Classification.TallyGet | analyzer.py:266-267 | reading a label with default 0 gives its sum, also for an absent label |
| Classification.ClassifyPeriod | analyzer.py:197-207 | the period loop builds the label-to-sum dictionary of the transactions in [start, end) |
| Classification.SomePeriod | analyzer.py:254-255 | a booking between the oldest and the newest month boundary falls in some month [months[i+1], months[i]) |
| Classification.OnlyOnePeriod | analyzer.py:254-255 | with strictly descending boundaries it falls in only one |
| Report.SumOverRemove | analyzer.py:297-298 | the sum of a dictionary's values does not depend on the order of the keys |
| Report.SumValues | analyzer.py:297-298 | the summing loop gives the sum of the dictionary's values |
| Report.BalanceRows | analyzer.py:279-304 | row i holds the i-th entry of each account by position, the last amount of an account that has run out, 0 for an account without balances, the date of the last account still running, and the total; there are min(longest series, 10000) + 1 rows |
| Report.VisitAccounts | analyzer.py:283-295 | one pass over the accounts records each i-th balance in the name-keyed dictionary and yields the row's cells, date and count of exhausted accounts |
| Report.RowAt | analyzer.py:283-299 | one pass of the outer loop appends row i with the contents described for `Report.BalanceRows`, keeps the dictionary holding each account's last amount up to row i, and reports that every account has run out exactly when the row index has reached the longest series |
| Report.TotalOfValues | analyzer.py:297-298 | with distinct names, the sum of the dictionary of last amounts is the sum of the amounts the row shows |
| Report.AllExhausted | analyzer.py:300-301 | every account has run out at index i exactly when i is at least the longest series' length |
| Report.FinalRowStale | analyzer.py:299-301 | the row added last, when the cap is not reached, has no date and repeats each account's last amount |
| Report.RowDateOfLastLive | analyzer.py:285-290 | a row's date is the date of the last account in order that still has an entry |
| Report.RowTotalIsSumOfCells | analyzer.py:294-299 | a row's total is the sum of its account cells |
| Report.Reverse | analyzer.py:306 | reversal keeps the length and mirrors positions |
| Report.BalanceMatrix | analyzer.py:306-307 | the header, then the rows in reverse order |
| Report.BalanceTable | analyzer.py:279-307 | the emitted matrix is the header followed by the balance rows, oldest index first |
| Report.AddAll | analyzer.py:257-258 | adding a month's dictionary key by key, in any order, gives the combined totals |
| Report.TotalsMeaning | analyzer.py:254-258 | a category has a total exactly when it occurs in some month, and the total is the sum of its monthly amounts |
| Report.OrderByTotal | analyzer.py:261-262 | every category once, by ascending total; ties in any order |
| Report.SpendingCells | analyzer.py:263-267 | each cell is that month's sum for the category, 0 for a category the month lacks |
| Report.MonthlySpendings | analyzer.py:254-258 | one dictionary per month [months[i+1], months[i]), and the running totals |
| Report.SpendingTable | analyzer.py:254-267 | the categories are those that occur in some month, each once, by ascending total; every cell is the month's sum for the category |
| Assets.AllOfMembers | analyzer.py:191-195 | a transaction is collected exactly when some account holds it |
| Assets.OfferBatch | analyzer.py:172-174 | offering the batch one transaction at a time mirrors it into the virtual account |
| Assets.OfferToAll | analyzer.py:172-174 | every virtual account ends as if the batch had been offered to it transaction by transaction: the opposite of each filter-matching transaction is appended, in batch order, unless an equal one is already stored; the accounts are distinct objects, so each is offered the batch once |
| Assets.CalculateAll | analyzer.py:150-152 | the accounts are balanced in turn; success exactly when every account can be balanced, and then each holds its sorted list, its day buckets and its balance series; on failure there is a first account that cannot be balanced: those before it are balanced, it holds its sorted list, its day buckets and no series, and those after it are unchanged |
| Assets.Assets.constructor | analyzer.py:140-143 | no accounts yet; settings as given |
| Assets.Assets.GetAccounts | analyzer.py:154-155 | the real accounts in order, then the virtual ones; in a valid state no account object is listed twice and no two real accounts share an account number |
| Assets.Assets.AddTransactions | analyzer.py:165-174 | merges the batch into the real account of that number, or creates it with the configured balance (default 0) holding the batch; then mirrors the whole batch into every virtual account; every account stays a separate object and numbers stay unique |
| Assets.Assets.AddExternalAccounts | analyzer.py:179-186 | appends one fresh virtual account per external account, named after it, with its configured balance and filters and no transactions |
| Assets.Assets.GetAllTransactions | analyzer.py:191-195 | all transactions of all accounts, real before virtual, each account's in order |
| Assets.Assets.ClassifyTransactions | analyzer.py:197-201 | the labels are exactly those of transactions of any account booked in [start, end), each with the sum of its values |
| Assets.Assets.CalculateBalances | analyzer.py:150-152 | succeeds exactly when every account can be balanced, and then every account holds its sorted list, its day buckets and its balance series; on failure the accounts stand as `Assets.CalculateAll` leaves them |
| Assets.Assets.BalanceReport | analyzer.py:277-307 | the balance matrix over all accounts |
| Assets.Assets.SpendingReport | analyzer.py:254-267 | the spending table over the transactions of all accounts |

## Left out

- File input and output are not modelled: reading export files and folders (analyzer.py:12-16, 145-162), loading settings (analyzer.py:19-22, 188-189) and writing the CSV files (analyzer.py:315-321). Transactions, settings and the classification table come in as values.
- Field parsing is not modelled: `strptime` dates, `float` amounts and UTF-8 decoding (analyzer.py:107-111, 124-128). `Transactions.FromRow` takes the parsed dates and amount.
- Amounts are integer cents, not floats.
- Lower-casing is ASCII only, not Python's Unicode `lower()`.
- The month boundaries are an input sequence, newest first. Generating them back to 2016-01-01 from the wall clock (analyzer.py:243-253) is not modelled.
- Wall-clock defaults become parameters: the reference day of new accounts (the `balance_date` default at analyzer.py:26) and `today` (analyzer.py:243), which is unused.
- Dictionary order becomes explicit: the real accounts and the classification table are sequences. The real accounts are kept in the order their numbers were first seen, where the source lists them in its dictionary's order. The external accounts come in as a sequence whose order stands for the order of the `externalaccounts` settings; it fixes the order of the virtual accounts and so the column order of the balance matrix. The totals dictionary's order shows only through ties in `Report.OrderByTotal`, which allows any order among equal totals.
- Diagnostics are left out: every `print`, the `__str__` methods, and the `except: print; raise` wrappers (analyzer.py:71-75, 217-224).
- Assets.Assets.AddExternalAccounts: requires a configured balance for every external account. The source passes `None` as the reference balance and then fails in the balance walk. An account whose newest booking is on or before the reference day fails at the first subtraction from the balance (analyzer.py:76). Any other account, including one that nothing was mirrored into and whose only bucket is undated, walks down to date.min and fails at the date step (analyzer.py:72).
- Booking dates are always present. The source's `parse_date` yields `''` for an empty field (analyzer.py:125-126), and such a transaction cannot be ordered with real dates.
- Accounts.Account.CalculateBalances: on failure the model stores no balances and reports `false`. The source raises from the date arithmetic with a partial series; the script then stops, which `Assets.CalculateAll` models by stopping at the first failing account.
- Report.BalanceRows: requires distinct account names. In the source, accounts with the same name share one entry of the dictionary of last amounts.
- Assets.Assets.BalanceReport: requires distinct account names and a non-empty balance series for the first account, the two requirements of `Report.BalanceRows` below, stated here over all accounts. The source also runs the report with duplicate names, sharing one dictionary entry between them.
- Assets.Assets.BalanceReport: an account whose balances were never calculated takes part with an empty series and counts as run out from row 0, because every account starts with no balances. In the source such an account has no `balances` attribute yet, so the report fails. The script calculates every balance (analyzer.py:242) before it builds the report.
- Report.BalanceRows: requires the first account's series to be non-empty. Otherwise the source's leftover `value = balance` (analyzer.py:295) reads a name that was never bound. After a successful `CalculateBalances` every series is non-empty.
- Report.BalanceTable: requires distinct account names and a non-empty first series, the two requirements of `Report.BalanceRows`, which it calls. The source accepts duplicate names, which share one dictionary entry.
- Report.RowAt: requires distinct account names, as `Report.BalanceRows` does, because the dictionary of last amounts is keyed by name. The source accepts duplicate names, which share one entry.
- Report.VisitAccounts: requires distinct account names for the same reason. With duplicates, the source's later account overwrites the shared entry of an earlier one.
- The every-fifth-row list (analyzer.py:309-312) is not modelled: it is never written.
- `Assets.add_account` (analyzer.py:176-177) is folded into `Assets.Assets.AddTransactions`, its only caller, which calls it only for a new account number.
- The padding loop works on the row as a value. In the source it extends the caller's list in place, and the record keeps that same list.
