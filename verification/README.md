# The Azzet ledger, claims, billing, one-time passwords and migrations, verified

These Dafny modules model the parts of the Azzet backend whose state is derived, and prove that the
derived state agrees with what it is derived from, over every run.

**The double-entry ledger** (`internal/accounting`). A request becomes a DRAFT transaction with journal
lines, made from a rule table with a PPN tax split or entered by hand. A worker that may see its
events late, repeatedly and in any order posts each draft: ledger entries with running balances, a
summary row per account and period, a status and an event. Voiding writes a reversal with the sides
swapped, which is itself a draft to be posted and can be voided again. Reports re-derive totals.

**The company-claim workflow** (`internal/claim`): six statuses, an audit log, the entity's
verification and shadow flag, an outbox, and a worker that takes one silent transition.

**Three smaller machines**: reuse of pending payments under a clock (`internal/billing`), rows of
one-time passwords (`internal/auth`), and migrations that can be interrupted anywhere
(`cmd/migrate`).

## How it is modelled

Money is whole cents and rates are exact reals; `FloatToNumeric` is rounding to the nearest cent,
halves to the even one, as `%.2f` prints them, while the transaction's own amount is rounded by its
column, halves away from zero. Row ids are positions in sequences. Each handler call is one atomic step.
Clock readings, random keys, the AI's answer, the payment gateway's answer, duplicate scores and the
success of separate writes are inputs. Every handler is a class method that updates its tables as the
Go code does and is proved equal to a function on the table values; the run theorems are about those
functions. A run is any sequence of steps; created events can be delivered any number of times.

| Module | Content |
|---|---|
| `Prelude`, `Sums`, `Money` | result shapes; sums over index ranges; cents, rounding and the tax split |
| `Rules`, `Chart`, `ChartRuns`, `Numbering` | rule table and categorizer; chart of accounts, its seeding, creation and updates; runs of these; the template's numbering and custom accounts |
| `Books`, `Journals`, `Accounting` | tables and committed operations as functions; facts about journals; the handlers |
| `Requests`, `Directions` | when a request is stored, and as what; which way each category moves money |
| `LedgerRuns`, `Voids`, `Chains`, `Postings`, `Outbox`, `Balances`, `Losses`, `Endings`, `Delivery` | runs of create, deliver and void: when a void works, reversal chains, totals, exactly-once posting, running, stored and ending balances, order independence |
| `Reports`, `Figures`, `Statements`, `Scenarios` | the equation, the check and the reports; what each figure adds up; what the flag and the net income say; short runs on which they are wrong |
| `Claims`, `ClaimRuns`, `ClaimActs` | the claim handlers, their runs, and who may do what |
| `Billing`, `Settlements`, `Otp`, `Migrations` | the three smaller machines with their runs; what gateway callbacks may settle |

## Where the code does not do what it is for

The model follows the code. Each of these has a lemma with a concrete input or an exact condition.

- `GetLastLedgerBalance` takes the entry that sorts last by posting time and then by random id. All
  entries of one posting share the time, so when a transaction hits an account twice, as every PPN
  sale and purchase hits cash, the balance the next posting builds on is right exactly when the second
  entry's id does not sort before the first's (`StoredMovesByRecords`, `SecondHitKeptIff`; the runs
  `PpnSaleKeptIff`, `RunningBalanceCanLoseThePpn`). Over a whole run the losses add up, and stored
  balances, the check, ending balances and statements are off by just that (`StoredIsPostedLessLost`,
  `PpnSalesKeptIff`, `CheckTotal`, `EndingRightIff`, `SheetFlagIff`, `ReportedIncome`).
- The balance sheet and the income statement add up ending balances, which are cumulative, over
  periods, and read normal-signed balances as debit minus credit; the worker's equation check misreads
  revenue and contra accounts the same way (`FigureRightIff`, `SheetFlagIff`, `ReportedIncome`,
  `CheckPassesIff`; the runs `FirstSaleMisreported`, `SecondPeriodMisreported`). The
  equation itself, on debit-minus-credit values, holds (`AccountingEquation`, `RangeEquation`).
- An ending balance is right exactly when what was posted early and late for its period, and what its
  last running balance falls short, cancel (`EndingRightIff`; the run `SwappedEndingsWrong`).
- A JOURNAL request without ADVANCED entries creates a transaction without lines, which the worker
  can only mark FAILED (`NewTxJournal`, `FailsIffEmpty`).
- An amount that rounds to nothing, or whose tax does, is refused by the table's check rather than by
  validation (`SeededSimpleSucceedsIff`).
- A tax-inclusive request outside the two PPN categories posts the base only, yet stores the tax
  (`IncludesTaxPostsOnlyBase`).
- At some rates the rounded base and tax of a whole-cent amount miss it by a cent (`SplitExactIff`,
  `SplitCanLoseACent`); at 11% they never do.
- `UpdateAccount` without a parent detaches a nested account, and can make an account its own parent
  (`UpdateKeepsForestIff`, `UpdateCanMakeACycle`). An account created before seeding blocks it
  (`EarlyAccountBlocksSeeding`).
- A late EXPIRED or FAILED callback takes a paid invoice back, after which it can be charged again
  (`PaidStaysIff`, `PaidInvoiceCanBeChargedAgain`).
- A callback whose amounts are zero or less passes the amount check, so a PAID one pays the invoice
  whatever the invoice's amount is (`RefusedIff`, `TurnsPaidIff`).
- When the write that counts a failed comparison and the write that invalidates the row both fail,
  nothing is recorded, contrary to the comment at `internal/auth/service.go:601-602`
  (`OutageIsUnbounded`).
- Migrations are ordered by name but skipped by number: a run interrupted at the wrong point leaves a
  file out for good unless numbers increase in name order (`ResumableIff`, `UnpaddedNames`).

## Model

| member | source | states |
|---|---|---|
| Money.SplitWithinOneCent | internal/accounting/service.go:760-769 | For any total and any positive rate, the separately rounded base and tax miss the rounded total by at most one cent |
| Money.SplitExactIff | internal/accounting/service.go:760-769 | For a whole-cent total they add up exactly if and only if the base is not a half cent or the total is even, with halves going to the even cent |
| Money.SplitExactAtPpnRate | internal/accounting/constants.go:262 | At 11% they add up to the total to the cent for every amount |
| Money.SplitCanLoseACent | internal/accounting/service.go:495-503 | A total of 0.25 at 100% splits into two parts of 0.125, exact in binary, that are stored as 0.12 each: a cent disappears |
| Money.SignedIsDebitMinusCredit | internal/accounting/service.go:753-758 | A stored balance is debit minus credit times the sign of the normal side: the conversion the reports omit |
| Rules.RuleExistsIff | internal/accounting/rules.go:126-152 | A category has a journal rule if and only if its type whitelists it or it is one of the three special categories |
| Rules.CategorizeAlwaysListed | internal/accounting/categorizer.go:74-154 | Whatever the AI answers, the chosen category is whitelisted and has a rule, exactly for the four types with a whitelist; the AI's own category is used only at sufficient confidence |
| Rules.CategorizeIff | internal/accounting/categorizer.go:74-154 | The AI's category is used if and only if its type whitelists it and its confidence is at least 0.7; otherwise it is the type's fallback |
| Rules.PpnPairIff | internal/accounting/service.go:771-783 | The tax pair occurs in a rule if and only if the category is a PPN category, and then it is the one additional pair |
| Chart.InsertAll | internal/accounting/coa_service.go:52-90 | The seeding loop with its map from codes to new ids inserts what the template folds to, or fails on the same entry |
| Chart.ChartStore.SeedDefaultCoa | internal/accounting/coa_service.go:30-91 | Seeding either commits the whole template or leaves the chart untouched |
| Chart.ChartStore.CreateCustomAccount | internal/accounting/coa_service.go:165-224 | The new account's normal side, level and parent, and each refusal |
| Chart.ChartStore.UpdateCustomAccount | internal/accounting/coa_service.go:227-267 | An update writes parent and activity of a custom account only |
| ChartRuns.TemplateSeeds | internal/accounting/coa_template.go:18-119 | The template seeds an empty chart without error into a chart whose levels are depths, holding every template entry under its code |
| ChartRuns.SeedsIffEmpty | internal/accounting/coa_service.go:30-91 | Seeding succeeds exactly on an empty chart and otherwise changes nothing |
| ChartRuns.OperationKeeps | internal/accounting/coa_service.go:227-267 | No operation changes a system account, removes an account, reuses a code, or changes a code, type or normal side |
| ChartRuns.SystemAccountsNeverChange | internal/accounting/coa_service.go:30-267 | Over any operations after seeding, all system accounts stay as seeded |
| ChartRuns.RuleCodesInTemplate | internal/accounting/rules.go:22-122 | Every account code of every rule is in the template |
| ChartRuns.RulesResolve | internal/accounting/rules.go:126-152 | On a workspace seeded first, after any operations, every whitelisted or special category has a rule whose codes resolve to the template's own accounts |
| ChartRuns.EarlyAccountBlocksSeeding | internal/accounting/coa_service.go:30-50 | A chart that got an account before seeding can never be seeded |
| ChartRuns.LevelIsDepth | internal/accounting/coa_service.go:184-201 | In a leveled chart exactly level minus one parent links lead from any account to a root: the links form a forest |
| ChartRuns.CreationKeepsForest | internal/accounting/coa_service.go:30-224 | Every run of seeding and creating keeps levels equal to depths |
| ChartRuns.UpdateKeepsForestIff | internal/accounting/coa_service.go:227-267 | An update keeps that if and only if the new parent is one level up, or there is none and the account was a root |
| ChartRuns.UpdateCanMakeACycle | internal/accounting/coa_service.go:240-267 | A run that makes an account its own parent |
| Numbering.TemplateNumbered | internal/accounting/coa_template.go:18-119 | Every template entry's code starts with its type's digit, and the entries of level one are the types' roots on the side given to custom accounts of the type |
| Numbering.AccountAddedIff | internal/accounting/coa_service.go:165-224 | A custom account is added if and only if its type is known, its code is new and a given parent exists |
| Numbering.AddedAccount | internal/accounting/coa_service.go:180-224 | It is active, one level below its parent, and on the normal side of the template's root of its type |
| Numbering.AccountUpdated | internal/accounting/coa_service.go:227-267 | An update is refused exactly for a missing or system account or a missing parent; it writes the given parent, or none, and switches the account off only when told to |
| Books.LastEntryIsGreatest | internal/db/accounting.sql.go:735-740 | The entry the balance query reads is the account's greatest by posting time and id, and there is none exactly when the account has no entry |
| Journals.SwapNegates | internal/accounting/service.go:414-430 | The reversal's journal has the original's debit and credit exchanged in total and on every account |
| Journals.RuleLinesOkIff | internal/accounting/service.go:505-592 | For a rule with any number of pairs the loop succeeds if and only if every pair resolves and rounds to at least a cent, and it never reports a mismatch |
| Journals.RuleLinesArePairs | internal/accounting/service.go:505-592 | What it produces are debit and credit lines of equal value, pair by pair, in rule order |
| Journals.PairsBalance | internal/accounting/service.go:505-592 | Any such journal balances exactly |
| Journals.AutoLinesExact | internal/accounting/service.go:469-595 | A generated journal has no drift, at least two lines, fits the table and resolves |
| Journals.NewTxJournal | internal/accounting/service.go:39-252 | Every transaction a request creates balances within a cent, exactly unless the request gave its entries by hand, and is empty exactly for JOURNAL requests without ADVANCED entries |
| Journals.GeneratedNeverMismatches | internal/accounting/service.go:220-230 | A request with a generated journal is never refused as unbalanced |
| Journals.SeededRuleFits | internal/accounting/rules.go:126-152 | On a seeded workspace every rule's codes resolve and its tax pair is there exactly for PPN categories |
| Journals.SeededSimpleSucceedsIff | internal/accounting/service.go:39-252 | On a seeded workspace an otherwise valid SIMPLE request succeeds if and only if no pair rounds to nothing |
| Journals.PpnMovesCash | internal/accounting/service.go:555-592 | In the PPN categories cash moves by the two rounded parts together, and the stored tax is what the tax account moves by |
| Journals.PpnMovesFullAmountIff | internal/accounting/service.go:495-503 | Cash moves by exactly the full whole-cent amount if and only if the base is no half cent or the amount is even; always at 11% |
| Journals.IncludesTaxPostsOnlyBase | internal/accounting/service.go:556-559 | In any other category every line carries the base, while the tax is stored with the transaction |
| Requests.EntriesStoredIff | internal/accounting/service.go:597-628 | A request with its own entries is stored if and only if it is complete, every code names an account, every entry has exactly one positive side and the entries' own sums differ by a cent at most |
| Requests.EntriesStored | internal/accounting/service.go:610-621 | Its lines are then its entries, one by one: the account each code names, each debit as debit and each credit as credit |
| Requests.GeneratedStoredIff | internal/accounting/service.go:39-252 | Any other request is stored if and only if it is complete and is a JOURNAL request or has a rule whose codes all resolve and whose pairs each keep a cent, with a listed category outside ADVANCED mode |
| Requests.RequestRecorded | internal/accounting/service.go:121-166 | What is stored is one draft with the request's type, mode, date, amount, category and included tax, and its created event; nothing else changes |
| Directions.PlacesMoved | internal/accounting/rules.go:16-123 | On any chart a generated journal moves cash and bank, receivables, payables, stock and cost of sales by its base as its category means: receipts and cash sales in, payments and cash purchases out, credit sales owed to the workspace, credit purchases owed by it, returns and discounts back |
| Directions.TypesMoved | internal/accounting/rules.go:16-123 | On a workspace seeded first it moves the five account types as its category means: income up on revenue, expenses on expense, loans and advances on liabilities, capital on equity, goods sold as cost |
| Directions.PaymentsDiffer | internal/accounting/rules.go:33-53 | Payments of different categories debit different accounts |
| Directions.ReceiptsDiffer | internal/accounting/rules.go:19-28 | Receipts of different categories credit different accounts |
| Accounting.CreateRuleEntries | internal/accounting/service.go:505-592 | The journal loop yields the lines the rule folds to, or its first failure |
| Accounting.CreateAutoJournalEntries | internal/accounting/service.go:469-595 | The generated journal, with the tax taken out of the base first where it applies |
| Accounting.CreateManualJournalEntries | internal/accounting/service.go:597-628 | The entered lines with their accounts looked up, or the first failure |
| Accounting.AccountingStore.CreateTransaction | internal/accounting/service.go:39-252 | The request's transaction and created event are committed together, or the tables are unchanged and the error says why |
| Accounting.AccountingStore.VoidTransaction | internal/accounting/service.go:342-460 | Only a posted transaction is voided; the void, the reversal draft and its created event are committed together |
| Accounting.PostJournal | internal/accounting/ledger_worker.go:136-191 | One round of the posting loop: an entry on the balance last read, and its period's summary |
| Accounting.PostJournals | internal/accounting/ledger_worker.go:136-191 | The loop posts all lines in order, each seeing the ones before |
| Accounting.AccountingStore.HandleTransactionCreated | internal/accounting/ledger_worker.go:47-238 | A delivery skips what is not a draft, fails an empty or unbalanced one, and posts any other with all its rows, status and event |
| LedgerRuns.StepKeepsTxs | internal/accounting/service.go:342-460 | Every step keeps: links lead back to voided originals with swapped journals; only the last of a chain is not voided; posted counts; stored journals balance |
| LedgerRuns.RunKeepsTxs | internal/accounting/ledger_worker.go:78-227 | So does every run |
| Chains.MemberEffect | internal/accounting/service.go:414-430 | The member at depth d of a chain has the original's effect, or its negation when d is odd |
| Chains.ReversalChains | internal/accounting/service.go:352-439 | In every run, voids of reversals included, reversal links form disjoint simple chains, and only the last member of a chain is not voided |
| Chains.ChainsNetToOriginal | internal/accounting/service.go:414-430 | In every run a chain's net effect on any account is the original's when an odd number of members have posted and zero when even, whatever is interleaved |
| Chains.PostedIsStanding | internal/accounting/service.go:352-439 | Any signed quantity summed over all posted transactions equals its sum over the originals that still stand |
| Chains.RunKeepsGenerated | internal/accounting/service.go:469-595 | In every run an original whose request did not give its entries by hand is exact, ADVANCED requests without entries included |
| Chains.DriftOfARun | internal/accounting/service.go:746-751 | All posted journals together are off balance by at most one cent per standing hand-entered original, and by nothing when no request gave its entries by hand |
| Voids.VoidsIff | internal/accounting/service.go:342-360 | A void changes the books if and only if the transaction exists and is posted, reversals included |
| Voids.VoidLeaves | internal/accounting/service.go:385-439 | It marks the transaction and appends one draft linked to it, dated in the current period, with the sides of every line exchanged, and its created event |
| Voids.VoidAndDeliverWorks | internal/accounting/service.go:352-439 | In every run any posted transaction can be voided and the reversal posted in its turn, one deeper in the chain |
| Voids.ChainsOfAnyDepth | internal/accounting/service.go:352-439 | Every run with a posted transaction extends to one whose chain goes n deeper, for every n |
| Scenarios.EveryDepthIsReached | internal/accounting/service.go:352-439 | For every n there is a run with a chain of depth n |
| Postings.PostLinesCount | internal/accounting/ledger_worker.go:136-191 | Posting adds a journal's debits and credits to the ledger, account by account, however amounts are counted by period |
| Postings.RunKeepsLedgerIsPosted | internal/accounting/ledger_worker.go:136-191 | In every run an account's ledger debits and credits of each period, and its net over all, equal the sums over the posted journals |
| Postings.UpsertAgrees | internal/db/accounting.sql.go:1980-1990 | The upsert keeps a summary in agreement with the ledger's debits, credits, count and last running balance |
| Postings.SummariesAgree | internal/accounting/ledger_worker.go:176-191 | In every run every summary row is what the ledger adds up to for its account and period, and keys are unique |
| Postings.RunKeepsCounted | internal/accounting/ledger_worker.go:136-191 | In every run, with debits and credits counted by any two functions of the period, the ledger and the posted journals count the same on every account |
| Postings.PeriodsAddUp | internal/accounting/ledger_worker.go:176-191 | Over all its periods an account's debit totals equal the debits of its ledger and of its posted journals, and its credit totals the credits |
| Outbox.RunsPostExactlyOnce | internal/accounting/ledger_worker.go:78-227 | In every run the ledger is the journals of the posted and voided transactions, each once and whole, one entry per line, with one posted event each; drafts and failures have none |
| Outbox.DraftIsUndelivered | internal/accounting/service.go:232-247 | Every draft has a created event in the outbox that was never delivered |
| Outbox.AllDeliveredNoDraft | internal/accounting/ledger_worker.go:78-131 | A transaction whose event was delivered at least once is no draft |
| Outbox.FailsIffEmpty | internal/accounting/ledger_worker.go:96-131 | A settled transaction is FAILED if and only if it has no lines |
| Balances.RunKeepsEntries | internal/accounting/ledger_worker.go:136-191 | In every run each entry's running balance is the balance last read, moved by the entry, on an existing account |
| Balances.ExactIffNothingMissed | internal/accounting/ledger_worker.go:136-178 | An account's running balances are prefix sums if and only if none of its entries missed what the balance query skipped |
| Balances.AscendingKeysExact | internal/db/accounting.sql.go:735-740 | When time and id ascend with insertion on an account each of its running balances is the prefix sum, however often a transaction hits it and whatever happens on other accounts |
| Balances.StoredIsPosted | internal/accounting/ledger_worker.go:136-178 | Then its last stored balance is the debit-minus-credit sum of the posted journals on the normal side |
| Balances.PostAscendsIff | internal/accounting/ledger_worker.go:136-178 | A posting keeps an account's keys ascending if and only if its clock reading and drawn ids do there |
| Balances.StoredMovesByRecords | internal/accounting/ledger_worker.go:136-178 | Posted later than everything stored, any journal moves an account's stored balance by its net effect less the lines whose ids sort before an earlier line's on the account; so the balance is right if and only if those cancel |
| Balances.SecondHitKeptIff | internal/accounting/ledger_worker.go:136-178 | With two lines on an account the stored balance is right if and only if the second id does not sort before the first |
| Balances.SecondDebitKeptIff | internal/accounting/ledger_worker.go:136-178 | For a journal that debits an account twice the stored balance keeps the second amount if and only if the second id does not sort before the first |
| Balances.SecondCreditKeptIff | internal/accounting/ledger_worker.go:136-178 | The same for a journal that credits an account twice |
| Balances.PpnSaleDebitsTwice | internal/accounting/rules.go:75-78 | Every PPN sale debits cash twice |
| Balances.PpnPurchaseCreditsTwice | internal/accounting/rules.go:101-104 | Every PPN purchase credits cash twice |
| Losses.StoredIsPostedLessLost | internal/accounting/ledger_worker.go:136-191 | In every run whose postings read a later clock than everything stored, with arbitrary ids and for every account: the stored balance is the sum of the posted journals on the normal side less what the postings lost, so it is right if and only if the losses cancel |
| Losses.AscendingLosesNothing | internal/db/accounting.sql.go:735-740 | On an account whose keys ascend nothing was lost |
| Losses.PpnSalesKeptIff | internal/accounting/ledger_worker.go:136-178 | In such a run with any number of PPN sales, whose other postings hit cash once at most, the stored cash balance is never too high, and right if and only if no sale drew its second id before its first |
| Endings.EndingRightIff | internal/accounting/ledger_worker.go:176-191 | In every run the stored ending balance of a period misses the sum dated up to it by what was posted late, less what was posted early, plus what the last entry's running balance falls short, so it is right if and only if these cancel |
| Endings.EndingRightInOrder | internal/accounting/ledger_worker.go:134-191 | For an account posted in non-decreasing period order only the last part is left; where its keys ascend as well, every ending balance is right |
| Delivery.DeliveriesSettle | internal/accounting/ledger_worker.go:78-131 | After any deliveries exactly the covered transactions have left draft, posted or failed as their journals say |
| Delivery.TotalsArePosted | internal/accounting/ledger_worker.go:176-191 | Stored period totals are sums over posted journals |
| Delivery.OrderDoesNotMatter | internal/accounting/ledger_worker.go:78-200 | Two delivery sequences over the same events, in any order and with any duplicates, end with the same statuses, ledger balances and period totals; an account's stored balances are the same if and only if both lost the same on it, and so where its keys ascend in both |
| Reports.LedgerBalances | internal/accounting/ledger_worker.go:105-191 | In every run debit-minus-credit balances over all accounts sum to at most one cent per standing hand-entered original, and to zero when no request gave its entries by hand |
| Reports.AccountingEquation | internal/accounting/report_service.go:109-156 | With exact standing journals, assets, liabilities and equity as debit minus credit add up to cumulative net income, contra accounts included |
| Reports.ValidateAccountingEquation | internal/accounting/ledger_worker.go:242-287 | The check's loop passes if and only if the stored balances, signed as it signs them, are within a cent of zero |
| Reports.CheckTotal | internal/accounting/ledger_worker.go:249-284 | In every clocked run what the check adds up is the true total of the active accounts, less twice the net of revenue and contra accounts, less the losses as it signs them |
| Reports.CheckTotalAscending | internal/accounting/ledger_worker.go:249-284 | The same without losses where the active accounts' keys ascend |
| Reports.CheckPassesIff | internal/accounting/ledger_worker.go:242-287 | In every clocked run it passes if and only if the drift of the posted journals, less the net of switched-off accounts, twice that of misread ones and the losses, is within a cent |
| Reports.CheckPassesIffNothingMisread | internal/accounting/ledger_worker.go:271-276 | With exact journals and ascending keys on the active accounts it passes if and only if the net of switched-off accounts and twice that of misread ones are within a cent of nothing; with no account switched off, if and only if the latter net to nothing |
| Reports.GetBalanceSheet | internal/accounting/report_service.go:55-105 | The loop builds the report: the listed rows of each type, each total as the sum over the active accounts of the type, and the flag that compares them |
| Reports.SheetLists | internal/db/accounting.sql.go:524-533 | Each list of the balance sheet holds every active account of its type whose figure is not zero, once, with that figure, and nothing else |
| Reports.GetIncomeStatement | internal/accounting/report_service.go:109-156 | The loop builds the report: the listed rows of each type, revenue as the negated sum over its active accounts, expense as the sum, and their difference |
| Reports.IncomeLists | internal/db/accounting.sql.go:626-637 | So do the two lists of the income statement |
| Figures.FigureSumsBalances | internal/db/accounting.sql.go:524-545 | In every run an account's figure over any range is the sum of its cumulative balances at every period of the range in which it has entries, less the errors of the stored ending balances |
| Figures.NoErrors | internal/db/accounting.sql.go:524-545 | An account posted in period order whose keys ascend has no such errors |
| Figures.FigureCountsJournals | internal/db/accounting.sql.go:626-640 | So in every run each posted journal counts in it once for every such period from its own on, less the errors |
| Figures.FigureRightIff | internal/db/accounting.sql.go:626-640 | In every run the figure is off from what was moved in the range by the surplus counts of the posted journals less the errors, so it is right if and only if these are equal |
| Figures.OneSidedFigureRightIff | internal/db/accounting.sql.go:626-640 | For an account that is only moved to its normal side it is right if and only if no journal that moves it is dated before a period of the range in which it has entries |
| Figures.OnePeriodFigure | internal/db/accounting.sql.go:524-545 | With all entries of the account in one period of the range the figure is what was moved in the range, and all that was ever moved, less the errors; there are none where its keys ascend |
| Figures.SheetFigureRightIff | internal/db/accounting.sql.go:524-545 | Over all periods up to one, the figure is the cumulative balance if and only if the ending balances before the latest period come to the latest one's error |
| Statements.RangeEquation | internal/accounting/report_service.go:109-156 | In every run, over every range, what moved on assets, liabilities and equity as debit minus credit adds up to the net income of the range and the drift of its journals, which is nothing when they are exact |
| Statements.SheetFlagIff | internal/accounting/report_service.go:55-105 | In every run the report's balanced flag is set if and only if net income, journal drift and the surplus counts come to what the sheet hides in switched-off accounts, twice what it misreads in contra accounts, and the errors |
| Statements.ReportedIncome | internal/accounting/report_service.go:109-156 | In every run the report's net income is the true one less the surplus counts, plus what the statement hides, twice what it misreads, and the errors |
| Statements.NoErrorsShown | internal/db/accounting.sql.go:524-545 | There are no errors where the active accounts are posted in period order with ascending keys |
| Statements.FiguresRightIff | internal/db/accounting.sql.go:626-640 | In every run all figures of active accounts are right if and only if for each the surplus counts of the posted journals come to the errors |
| Statements.OnePeriodFiguresRight | internal/db/accounting.sql.go:524-545 | They are whenever all entries lie in one period of the range and the active accounts' keys ascend |
| Statements.SheetBalancedIff | internal/accounting/report_service.go:55-105 | With the figures right, the report's balanced flag is set if and only if net income equals the net of switched-off accounts and twice the net of contra accounts on the sheet |
| Statements.IncomeRightIff | internal/accounting/report_service.go:124-153 | With the figures right, the report's net income is off by the net of switched-off income accounts and twice the net of credit-normal ones, so it is right if and only if these cancel |
| Statements.OnePeriodStatements | internal/accounting/report_service.go:55-156 | Both for runs with a single period of activity and ascending keys on the active accounts, without assuming anything of the figures |
| Scenarios.SeedingOpens | internal/accounting/coa_service.go:30-91 | Seeding an empty workspace gives a chart on which the runs below start: its cash and service revenue accounts resolve and are active |
| Scenarios.OneSaleRuns | internal/accounting/ledger_worker.go:47-238 | A request for a cash sale and one delivery of its event post it |
| Scenarios.FirstSaleMisreported | internal/accounting/report_service.go:55-156 | After the first cash sale of a seeded workspace, of any amount: the sheet is not balanced, the income is reported as a loss, the check after the posting fails |
| Scenarios.SecondPeriodMisreported | internal/db/accounting.sql.go:524-545 | Two sales posted in order in two periods: the sheet's cash figure counts the first twice, and the income statement of the second period counts it as well |
| Scenarios.SwappedEndingsWrong | internal/accounting/ledger_worker.go:176-191 | Two sales posted out of period order: both stored ending balances are wrong |
| Scenarios.PpnSaleKeptIff | internal/db/accounting.sql.go:735-740 | On a seeded workspace a first PPN sale leaves its full amount as the stored cash balance if and only if the second cash line's id does not sort before the first |
| Scenarios.RunningBalanceCanLoseThePpn | internal/db/accounting.sql.go:735-740 | Such a run with a sale of 1.11 that leaves 1.00 on record |
| Claims.ClaimStore.OpenClaim | internal/claim/service.go:67-156 | A claim on an unclaimed shadow entity opens as a draft with its verification and audit rows; each refusal changes nothing |
| Claims.ClaimStore.SubmitClaim | internal/claim/service.go:158-266 | A draft or rejected claim with a confirmed document is submitted or resubmitted, the latter without its reviewer, with verification, audit and event |
| Claims.ClaimStore.RequestDocumentUpload | internal/claim/service.go:268-345 | A document row and, separately, its audit entry, in three statuses only |
| Claims.ClaimStore.ConfirmDocumentUpload | internal/claim/service.go:347-398 | A pending document found in storage becomes uploaded |
| Claims.ClaimStore.DisputeClaim | internal/claim/service.go:532-601 | A rejected claim is disputed and its entity pending again |
| Claims.ClaimStore.AssignClaim | internal/claim/service.go:661-713 | A submitted or disputed claim goes to review with its reviewer |
| Claims.ClaimStore.ApproveClaim | internal/claim/service.go:715-820 | A claim under review is approved, its shadow entity linked to the claimant and verified |
| Claims.ClaimStore.RejectClaim | internal/claim/service.go:822-902 | A claim under review is rejected and its entity with it |
| Claims.ClaimStore.HandleClaimRequested | internal/claim/worker.go:30-66 | The loop over duplicates sends a submitted claim to review, unlogged, if and only if some score reaches the threshold |
| Claims.ClaimStore.EnsureVerificationRecord | internal/claim/service.go:983-1001 | The verification row is created unverified unless there is one |
| ClaimRuns.ReplayCounts | internal/claim/service.go:226-250 | In any log that replays, requests plus disputes less rejections less approvals is one while the claim is under consideration and zero otherwise |
| ClaimRuns.MoveKeeps | internal/claim/service.go:187-250 | A logged status change keeps every invariant of every claim |
| ClaimRuns.RunKeeps | internal/claim/worker.go:45-63 | In every run, with stale and repeated worker events: one claim per entity; verification is a function of claim status; no longer a shadow exactly when approved; a confirmed document outside draft; the log replays as a path of the transition graph to the status, with no gap but the worker's |
| ClaimRuns.ApprovedIsFinal | internal/claim/service.go:715-820 | No later steps move an approved claim |
| ClaimRuns.ApprovedByAdmin | internal/claim/service.go:749-792 | An approved claim's last logged move is an administrator's approval |
| ClaimRuns.EventsAndCounts | internal/claim/service.go:226-250 | In every run claim-requested events equal submissions, rejected events rejections, approved events approvals, at most one, and the count above holds |
| ClaimActs.OpensIff | internal/claim/service.go:67-155 | A claim is opened if and only if the entity is a shadow without a claim and the user has a personal entity |
| ClaimActs.SubmitsIff | internal/claim/service.go:173-192 | A claim is submitted if and only if its own claimant does it, it is a draft or rejected, and a document is confirmed; a resubmission has no reviewer |
| ClaimActs.DisputesIff | internal/claim/service.go:532-601 | A claim is disputed if and only if its own claimant does it and it is rejected |
| ClaimActs.UploadsIff | internal/claim/service.go:268-345 | A document is added if and only if the claimant does it to a draft, rejected or disputed claim |
| ClaimActs.ConfirmsIff | internal/claim/service.go:347-398 | A document is confirmed if and only if the claimant does it, the storage has it and it is pending |
| ClaimActs.AssignsIff | internal/claim/service.go:661-713 | A claim goes to review if and only if it is submitted or disputed, with the administrator as its reviewer |
| ClaimActs.ApprovesIff | internal/claim/service.go:715-820 | A claim is approved if and only if it is under review |
| ClaimActs.RejectsIff | internal/claim/service.go:822-902 | A claim is rejected if and only if it is under review |
| ClaimActs.WorkerMovesIff | internal/claim/worker.go:30-66 | The worker moves a claim if and only if it is still submitted and a score is 0.8 or more, and changes nothing but the status |
| ClaimActs.RunKeepsActors | internal/claim/service.go:1003-1021 | In every run a user's log entry is by the claimant of its claim, and where an administrator acted last the claim names that administrator as its reviewer |
| Billing.NewestPending | internal/db/billing.sql.go:225-230 | The query's payment is pending, no pending payment of the invoice is newer, and there is none exactly when none is pending |
| Billing.BillingStore.PayInvoice | internal/billing/service.go:73-152 | The refusals, the reuse of a living pending payment and the new payment with its expiry; what is returned is pending and alive |
| Billing.BillingStore.HandleWebhook | internal/billing/service.go:155-262 | The payload checks and the separate writes to payment, invoice and subscription, cut short anywhere |
| Billing.AtMostOneAlive | internal/billing/service.go:98-146 | In every run under a monotone clock an invoice has at most one pending unexpired payment, and every other pending one had expired when the newest was created |
| Billing.PayCreatesIff | internal/billing/service.go:100-134 | Paying changes the tables if and only if the invoice is payable, no payment of it is pending and unexpired, and the gateway and the insert succeed |
| Billing.RetryCompletes | internal/billing/service.go:187-220 | A callback cut short and delivered again leaves what an undisturbed one leaves |
| Settlements.PaidLostIff | internal/billing/service.go:222-258 | A step unpays a paid invoice if and only if it is an EXPIRED or FAILED callback that may settle one of its payments and gets as far as the invoice |
| Settlements.PaidStaysIff | internal/billing/service.go:222-258 | A paid invoice stays paid through a run if and only if no such step occurs |
| Settlements.PaidInvoiceCanBeChargedAgain | internal/billing/service.go:222-258 | A run in which a paid invoice is expired by a late callback and becomes payable |
| Settlements.RefusedIff | internal/billing/service.go:172-185 | A callback for a named payment is refused for exactly one reason, each given exactly; it may settle the payment if and only if a given external id is its invoice's and an amount above zero is the invoice's amount |
| Settlements.UnnamedIsRefused | internal/billing/service.go:156-168 | A callback without an id, or whose id names no payment, changes nothing |
| Settlements.CallbackLeaves | internal/billing/service.go:187-260 | A callback that names a payment settles it, its invoice and subscription if it may and its status is known, and otherwise changes nothing |
| Settlements.TurnsPaidIff | internal/billing/service.go:172-213 | A step makes an unpaid invoice paid if and only if it is a PAID or SETTLED callback that may settle one of its payments and gets as far as the invoice |
| Settlements.PaidByCallback | internal/billing/service.go:172-213 | In every run each paid invoice was paid by such a callback |
| Settlements.ActiveIff | internal/billing/service.go:215-220 | In every run a subscription is active if and only if such a callback for one of its invoices got as far as the subscription |
| Settlements.PaymentCreated | internal/billing/service.go:110-146 | What paying creates is a pending payment of the invoice's amount that runs for 24 hours |
| Settlements.SweptIff | internal/db/billing.sql.go:507-510 | The sweep expires exactly the pending payments whose time is over |
| Otp.Newest | internal/db/auth.sql.go:407-413 | The query's row is unused and unexpired, none such is newer, and there is none exactly when no row is valid |
| Otp.OtpStore.StoreOtp | internal/auth/service.go:569-580 | A fresh row with the configured limit and expiry |
| Otp.OtpStore.ValidateOtp | internal/auth/service.go:582-613 | Which row is compared and what each combination of write outcomes leaves; success exactly on a right code whose mark was written |
| Otp.RowRead | internal/db/auth.sql.go:407-413 | The row read is unused and its time is not over, none such for the identifier and purpose is newer, and there is one whenever there is such a row |
| Otp.AcceptedIff | internal/auth/service.go:589-612 | A request is accepted if and only if it carries the code of the row read, which is below its limit, and the row can be marked used |
| Otp.ReadRowLeft | internal/auth/service.go:595-612 | A recorded wrong code adds one attempt and leaves the row unused; one that cannot be recorded uses it up if it can; no other row changes |
| Otp.ComparedWithinLimit | internal/auth/service.go:595-612 | In every run a row's comparisons are its attempts, its use and the unrecorded ones; they stay within the limit but for those; it is accepted at most once, with fewer counted failures than the limit |
| Otp.OutageIsUnbounded | internal/auth/service.go:600-608 | While both writes fail a row is compared any number of times |
| Otp.AcceptedOnlyWhenNewerAreUsed | internal/db/auth.sql.go:407-413 | Under a monotone clock a code is accepted only for an unexpired row carrying it, all of whose newer rows for the identifier and purpose have been used |
| Migrations.Migrator.RunMigrations | cmd/migrate/main.go:43-124 | The filter, the order and the loop with its single reading of the version; a run that completes leaves no file above that version unapplied |
| Migrations.SortSorts | cmd/migrate/main.go:78 | The files are put in name order, none lost or repeated |
| Migrations.RunsApplyAPrefix | cmd/migrate/main.go:55-115 | With numbers increasing in name order, any runs of any releases interrupted anywhere leave a prefix of the files applied, each once, with exactly their versions recorded |
| Migrations.ResumableIff | cmd/migrate/main.go:80-115 | Every sequence of interrupted runs can be completed with each file applied exactly once, if and only if the numbers increase strictly in name order, start above zero and fit the column |
| Migrations.SmallerNumberComesFirst | cmd/migrate/main.go:78-83 | On prefixes of one width, name order is number order |
| Migrations.PaddedDirectoryIsSafe | cmd/migrate/main.go:55-130 | A directory of uniquely numbered files with prefixes of one width is applied in numeric order, each file once, over any interrupted runs |
| Migrations.UnpaddedNames | cmd/migrate/main.go:126-130 | Two unpadded names that a full run applies in the wrong order and an interrupted one never completes |

## Left out

- Floating point: amounts are exact reals rounded to cents, so results that depend on binary rounding (such as an amount just below half a cent) and NUMERIC overflow are not modelled.
- Amounts of hand-entered journal entries are given in cents, already rounded.
- Concurrency inside a handler: status reads happen outside the database transaction; handlers are serial atomic steps, so `FOR UPDATE SKIP LOCKED` never skips.
- Failures of the database or the network inside a handler, which roll it back, except where writes are separate (billing callbacks, one-time passwords, upload audit) or a run can be cut short (migrations).
- Other workspaces and the workspace checks that go with them, in accounting: one workspace is modelled.
- Line items, transaction numbers, names, descriptions, reasons, currencies and payment methods beyond their validity.
- Row order within reports, the trial balance, cash flow and general ledger listings.
- The outbox publisher's retry limits and dead letters; delivery is any sequence of steps.
- Cleaning of AI prompts and normalisation of names: the AI's answer is an arbitrary input.
- Document types and storage contents: whether a document is acceptable or found is an input.
- HTTP handlers, configuration, tokens, hashing and the external clients; a one-time code is compared as itself, not by its hash.
- Gateway ids that several payments share: the row the query returns is then an input.
- Refunds, which no code here performs, and the expiry sweep's caller, which the repository lacks; the statement itself is a step.
- Migration SQL itself, leading blanks in file names other than space and tab, and files that change between runs.
- Money.ToCents: states rounding on exact reals only, for the reason in the first line.
- Money.SplitExactIff: places ties on exact reals; where a half cent is not a binary fraction, the program rounds to the side its float lies on, because floats are not modelled.
- Losses.StoredIsPostedLessLost: takes each posting's clock reading to be later than every stored one; where two postings share a reading or a clock is set back, only the results without a clock hold (`ExactIffNothingMissed`, `StoredIsPosted`, `EndingRightIff`, `FigureRightIff`, `SheetFlagIff`, `ReportedIncome`).
- Directions.PaymentsDiffer: tells the accounts of two categories apart but not which of them has the category's name, since account names are not modelled; the same goes for `ReceiptsDiffer`.
- Journals.PpnMovesFullAmountIff: rests on the same ties at rates other than 11%.
- Chart.ChartStore.UpdateCustomAccount: refuses a parent outside the one modelled workspace, which the program does not check.
- The identity service's own writer of entity verification, `SetVerificationStatus` (internal/identity/service.go:106-185): nothing in the repository calls it; a call would let verification differ from what the claim's status says.
- Outbox.AllDeliveredNoDraft: says nothing of when an event is delivered, only that a delivery settles its transaction.
