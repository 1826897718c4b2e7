# SwanBudget core in Dafny

SwanBudget (백조) is a personal-finance web app. The user enters incomes and expenses, links
payment cards, and reads monthly statistics. Everything lives in one React context, the
finance store, which the browser's local storage keeps between visits. This project models
the following parts as immutable datatypes and pure functions:

- **The finance store** (`Finance`, from `context/finance-context.tsx`):
  - transactions, cards, categories and the settings record;
  - the thirteen default categories and the default settings;
  - every add, update and delete;
  - `updateUserSettings`, `resetAllData` and `restoreData`;
  - the yearly and monthly views and the income, expense and balance totals.
- **Storage** (`Persistence`):
  - what the store writes to local storage (transactions and cards only when non-empty);
  - what it reads back on load.
- **Card utilities** (`CardUtils`, from `lib/card-utils.ts`):
  - the card-number formatter;
  - brand detection by regular expression, with the Discover pattern worked out digit by digit;
  - masking;
  - the Luhn check, as a loop.
- **The statistics page** (`Statistics`, from `app/statistics/page.tsx`):
  - `aggregateByCategory`;
  - the comparison month a year back, the change rates and the day-by-day series;
  - the income/expense ratio and the savings rate;
  - the selected day's subset and what the page lists in each view mode.
- **The page handlers:**
  - `CardsPage`: the card dialog's checks;
  - `SettingsPage`: the category form's checks and the backup snapshot;
  - `HomePage`: the transaction form, its type and category pickers, and its checks.

Supporting modules:

- `Wrappers`: `Option` and `Result`.
- `Seqs`: `Filter` and its laws.
- `Text`: digits, white space and decimal strings.
- `Calendar`: dates, month lengths and `subMonths`.

The model makes these substitutions for the source's runtime:

- **Clock.** `Date.now()` becomes a parameter `now: nat`. An identifier is its decimal string.
- **Numbers.** A JavaScript `number` amount becomes a Dafny `real`. There is no rounding, NaN or infinity.
- **Dates.** A `Date` becomes a calendar date: year, month 0 to 11, and day. There is no time of day and no time zone.
- **Storage.** Local storage becomes a `Storage` record with one cell per key. A cell is absent, holds unparsable text, or holds a value.
- **Restore input.** A parsed backup becomes a `RestoreInput` with one optional field per key.
  - A key that is missing or falsy is `None`.
  - An empty array is truthy in JavaScript, so `Some([])` replaces a collection.

## Model

| member | source | states |
|---|---|---|
| Text.DigitsOf | lib/card-utils.ts:42 | Removing every non-digit leaves only digits and never lengthens the string. A string of digits is left unchanged and a string without digits becomes empty. |
| Text.DigitsOfInOrder | lib/card-utils.ts:42 | Removing non-digits works character by character: the result for two strings joined is the two results joined, and a single character stays exactly when it is a digit. So every digit is kept, in order. |
| Text.DigitsOfIdempotent | app/cards/page.tsx:268 | Stripping non-digits a second time changes nothing, so the CVV field is stable under re-entry. |
| Text.RemoveSpacesInOrder | app/cards/page.tsx:106 | Removing white space works character by character: the result for two strings joined is the two results joined, and a single character stays exactly when it is not white space. So every other character is kept, in order. |
| Text.RemoveSpaces | app/cards/page.tsx:106 | `replace(/\s/g, "")` leaves no white space and never lengthens the string. A string without white space is left unchanged. |
| Text.DecimalString | context/finance-context.tsx:173 | `toString()` of a clock reading is a non-empty digit string whose decimal value is the reading, with no leading zero unless the reading is 0. |
| Text.DecimalStringInjective | context/finance-context.tsx:173 | Distinct clock readings give distinct identifiers. |
| Calendar.StartOfMonth | app/statistics/page.tsx:94 | The start of the month is a valid date on day 1 of the same year and month. |
| Calendar.SubMonths | app/statistics/page.tsx:98 | Going back k months from a first of month gives a valid first of month exactly k months earlier on the year*12+month scale. |
| Calendar.TwelveMonthsBackIsSameMonthLastYear | app/statistics/page.tsx:98-103 | Twelve months back from a first of month is the same month of the previous year, on day 1. |
| Calendar.DaysOfMonth | app/statistics/page.tsx:126 | `eachDayOfInterval` over a month lists DaysInMonth valid dates, day i+1 at index i. |
| Calendar.DaysInMonth | app/statistics/page.tsx:95 | A month has 28 to 31 days. February has 29 exactly in leap years. The other months have 30 exactly for April, June, September and November. |
| CardUtils.FormatCardNumber | lib/card-utils.ts:2-17 | With fewer than four digits the input comes back unchanged. Otherwise the result is digits grouped by four with single spaces, at most 19 characters long. Without its spaces it is the input's first digits, at most sixteen. |
| CardUtils.FormatIdempotent | lib/card-utils.ts:2-17 | Formatting an already formatted number changes nothing. |
| CardUtils.DiscoverPatternIsRange | lib/card-utils.ts:25 | The Discover regular expression, alternative by alternative, matches exactly the prefixes 6011, 65 and 622126 to 622925. |
| CardUtils.DetectCardType | lib/card-utils.ts:20-33 | The result is one of the five brand names. Each brand is returned exactly when its own pattern matches, so the order of the tests never matters. Discover is returned exactly for the prefixes 6011, 65 and 622126 to 622925. Unknown is returned exactly when no pattern matches. |
| CardUtils.Prefix644To649IsUnknown | lib/card-utils.ts:25 | A number starting 644 to 649 is reported Unknown, because the `64[4-9]` alternative only applies after `622`. |
| CardUtils.DetectCardTypeIntended | lib/card-utils.ts:20-33 | Corrected detection: Discover exactly for 6011, 65, 622126 to 622925 and 644 to 649. On every number outside 644 to 649 it agrees with the detection as written. |
| CardUtils.SliceLast | app/cards/page.tsx:107 | For k > 0, `slice(-k)` returns min(k, length) characters, and they are a suffix of the input. `slice(-0)` returns the whole string. |
| CardUtils.MaskCardNumber | lib/card-utils.ts:36-38 | The mask is the fixed 15-character prefix followed by the last four characters, or the whole number when it is shorter. |
| CardUtils.MaskSeesOnlyLastFour | lib/card-utils.ts:36-38 | Two numbers with the same last four characters have the same mask. |
| CardUtils.LuhnDigit | lib/card-utils.ts:51-56 | A Luhn digit is at most 9. Undoubled it is the digit itself. Doubled it is congruent to twice the digit modulo 9, and it is 0 only for '0'. |
| CardUtils.ValidateCardNumber | lib/card-utils.ts:41-63 | The right-to-left loop returns true exactly when the Luhn sum of the number's digits is a multiple of 10. A number without digits is invalid. |
| CardUtils.LuhnIgnoresNonDigits | lib/card-utils.ts:42 | Validity depends only on the digits of the input. |
| Finance.ClockId | context/finance-context.tsx:173 | A new identifier is a non-empty string of digits. |
| Finance.DefaultCategoriesShape | context/finance-context.tsx:65-79 | There are thirteen default categories: eight expense ones, then five income ones. |
| Finance.AddTransaction | context/finance-context.tsx:169-176 | The new transaction, stamped with the clock identifier and carrying the given fields, is put in front of the unchanged old list. Cards, categories and settings are untouched. |
| Finance.UpdateTransaction | context/finance-context.tsx:179-190 | The length and every identifier are kept. Entries with the id get the new fields and the others are unchanged. An unknown id changes nothing. |
| Finance.DeleteTransaction | context/finance-context.tsx:193-195 | No entry with the id remains. Every other entry is kept and nothing new appears. An unknown id changes nothing. |
| Finance.DeleteTransactionInOrder | context/finance-context.tsx:193-195 | Deleting from two lists joined is deleting from each, in order, and a single entry stays exactly when its id differs. So the survivors keep their order and their repetitions. |
| Finance.DeleteUndoesAdd | context/finance-context.tsx:169-195 | Deleting the just-added transaction by its fresh identifier gives back the state before the add. |
| Finance.DeleteAfterUpdate | context/finance-context.tsx:179-195 | Deleting an entry after updating it gives the same store as deleting it straight away. |
| Finance.UpdateIdempotent | context/finance-context.tsx:179-190 | Updating an entry again with the same fields changes nothing more. |
| Finance.AddCard | context/finance-context.tsx:198-204 | The card, stamped with the clock identifier, is appended after the unchanged old cards. The rest of the store is untouched. |
| Finance.DeleteCard | context/finance-context.tsx:207-209 | No card with the id remains. Every other card is kept and nothing new appears. An unknown id changes nothing. |
| Finance.DeleteCardInOrder | context/finance-context.tsx:207-209 | Card deletion works card by card and keeps the order: deleting from two lists joined is deleting from each, and a single card stays exactly when its id differs. |
| Finance.DeleteCardUndoesAdd | context/finance-context.tsx:198-209 | Deleting the just-added card by its fresh identifier gives back the store before the add. |
| Finance.DeletedCardLeavesDanglingReference | context/finance-context.tsx:207-209 | Deleting a card leaves the transactions that name it unchanged, still pointing at a card that no longer exists. |
| Finance.AddCategory | context/finance-context.tsx:212-218 | The category, stamped with the clock identifier, is appended after the unchanged old list. The rest of the store is untouched. |
| Finance.DeleteCategory | context/finance-context.tsx:221-223 | No category with the id remains. Every other category is kept and nothing new appears. An unknown id changes nothing. |
| Finance.DeleteCategoryInOrder | context/finance-context.tsx:221-223 | Category deletion works entry by entry and keeps the order: deleting from two lists joined is deleting from each, and a single category stays exactly when its id differs. |
| Finance.DeleteCategoryUndoesAdd | context/finance-context.tsx:212-223 | Deleting the just-added category by its fresh identifier gives back the store before the add. |
| Finance.UpdateUserSettings | context/finance-context.tsx:226-228 | Each field given in the patch replaces the old one and the others are kept. An empty patch changes nothing. |
| Finance.PatchesCompose | context/finance-context.tsx:226-228 | Applying a patch twice is applying it once. A later patch overrides an earlier one field by field. |
| Finance.ResetAllData | context/finance-context.tsx:231-237 | Reset leaves no transactions and no cards, the thirteen default categories and the default settings. |
| Finance.RestoreData | context/finance-context.tsx:240-258 | Each key present in the snapshot replaces its whole collection. Each missing key leaves its collection as it was. |
| Finance.RestoreOnlyCards | context/finance-context.tsx:240-258 | A snapshot with only cards changes only the cards. |
| Finance.YearlyTransactions | context/finance-context.tsx:269-274 | Every entry of the yearly view lies in that year, and every stored entry of that year appears in it. |
| Finance.MonthlyTransactions | context/finance-context.tsx:261-266 | Every entry of the monthly view lies in that year and month, and every stored entry of that month appears in it. |
| Finance.PeriodViewsKeepExactly | context/finance-context.tsx:261-274 | The yearly and monthly views hold only stored entries. |
| Finance.PeriodViewsInOrder | context/finance-context.tsx:261-274 | The view of two lists joined is the view of each, in order, and a single entry is kept exactly when it is dated in the period. So the views keep list order and repetitions. |
| Finance.MonthlyWithinYearly | context/finance-context.tsx:261-274 | The monthly view is the yearly view filtered by month. |
| Finance.GetTotalIncome | context/finance-context.tsx:277-280 | The income total of the list passed, or of the whole store when none is passed. An explicit empty list totals 0. |
| Finance.GetTotalExpense | context/finance-context.tsx:283-286 | The expense total of the list passed, or of the whole store when none is passed. An explicit empty list totals 0. |
| Finance.TotalConcat | context/finance-context.tsx:277-286 | The income or expense total of two lists joined is the sum of their totals. |
| Finance.GetBalance | context/finance-context.tsx:289-291 | The balance is total income minus total expense, and it is 0 for an empty subset. |
| Finance.BalanceConcat | context/finance-context.tsx:277-291 | The balance of two lists joined is the sum of their balances. |
| Finance.BucketsPartition | context/finance-context.tsx:261-286 | When every entry falls into one of n buckets, the per-bucket totals add up to the whole total and the per-bucket counts to the whole count. |
| Finance.MonthsPartitionYear | context/finance-context.tsx:261-286 | The twelve monthly views of a year add up to the yearly view's totals and count. |
| Persistence.Load | context/finance-context.tsx:99-145 | Each key that is stored and parses is taken as is. A key that is missing or fails to parse gives an empty list for transactions and cards, and the default for categories and settings. |
| Persistence.Persist | context/finance-context.tsx:148-166 | Categories and settings are always written. Transactions and cards are written only when non-empty, and otherwise the stored value is left as it was. |
| Persistence.LoadAfterPersistFromCleared | context/finance-context.tsx:99-166 | Writing a state into cleared storage and loading it back gives the same state. |
| Persistence.ResetStorage | context/finance-context.tsx:231-237 | After reset the storage holds no transactions and no cards. The default categories and settings are written only when the store did not already hold those very objects, since React then skips the effect, and the key stays absent. Loading it gives the reset state either way. |
| Persistence.ReloadResurrectsDeletedLast | context/finance-context.tsx:148-152 | Deleting the only transaction empties the store, but a reload brings the deleted transaction back. |
| Persistence.EmptiedListsReloadStale | context/finance-context.tsx:148-158 | From any storage, a transaction or card list once written non-empty and then emptied in the store reloads as the old list. |
| Persistence.PersistAlways | context/finance-context.tsx:148-158 | Corrected write: every collection is written, empty or not. |
| Persistence.LoadAfterPersistAlways | context/finance-context.tsx:99-166 | With every collection written, loading gives back exactly the last state, from any earlier storage. |
| Persistence.ReloadKeepsDeletion | context/finance-context.tsx:99-158 | Under the corrected write, deleting the only transaction survives a reload. |
| Statistics.FirstIndex | app/statistics/page.tsx:43-47 | Returns the first position of a category in the list, or the list's length when the category is absent. |
| Statistics.AggregateByCategory | app/statistics/page.tsx:40-50 | The result has one entry per category of the chosen type, with distinct names. Each value is that category's total. Entries appear in first-seen order. The values add up to the type's total. |
| Statistics.AccumulateSummarises | app/statistics/page.tsx:43-49 | The fold over the entries keeps the summary invariant: distinct names, values that are totals, the same categories, first-seen order and the same grand total. |
| Statistics.AggregateIgnoresOtherKind | app/statistics/page.tsx:44 | Entries of the other type do not affect the result. A list holding only the other type gives none. |
| Statistics.ChangeRate | app/statistics/page.tsx:118-123 | The rate is 0 when the prior total is 0. Otherwise rate times prior equals (current − prior) × 100. For a positive prior, the rate is positive exactly on growth and zero exactly when the totals are equal. |
| Statistics.IncomeExpenseRatio | app/statistics/page.tsx:335-341 | The ratio is non-negative and 0 when there is no expense. Otherwise ratio times expense equals abs(income − expense) × 100, and the ratio is 0 exactly when income equals expense. |
| Statistics.SavingsRate | app/statistics/page.tsx:355-361 | The rate is 0 without income. Otherwise rate times income equals (income − expense) × 100. It is negative exactly when expense exceeds income, 100 exactly when there is no expense, and never above 100 for a non-negative expense. |
| Statistics.DayPoint | app/statistics/page.tsx:127-137 | A day's point carries that day's date, that day's expense and income totals (0 for a day without entries), and income minus expense as its balance. |
| Statistics.DailySeries | app/statistics/page.tsx:126-138 | The series has one point per day of the month, point i being the point of day i+1, with that day's totals and balance. |
| Statistics.DailySeriesAddsUp | app/statistics/page.tsx:126-138 | Over a month's valid entries, the daily incomes (expenses) add up to the month's total income (expense). |
| Statistics.BuildReport | app/statistics/page.tsx:94-155 | The current list is the store's monthly view of the selected month, and the comparison list is the monthly view of the same month one year earlier. The four month totals are those lists' income and expense totals, and the day totals are the selected day's. Selected-day entries carry the selected date. The rates and ratios are those of the matching totals for the view mode. The series is the day-by-day series of the current month's list. Each category list adds up to the shown total. The listed entries are the day's in day view and the month's otherwise, and the category lists aggregate them. |
| Statistics.SelectedDayIsThatDay | app/statistics/page.tsx:106 | The selected-day list, taken from the month's list, is exactly that day's entries of the whole store, in store order. |
| Statistics.SelectedDayWithinMonth | app/statistics/page.tsx:102-106 | Every selected-day entry is an entry of the current month's list. |
| Statistics.ReportSeriesAddsUp | app/statistics/page.tsx:112-138 | When every stored date is valid, the page's daily series adds up to the current month's income and expense totals. |
| CardsPage.EnterCardNumber | app/cards/page.tsx:73-76 | The number field shows the formatted input. Under four digits the input is unchanged. Otherwise the field holds the first sixteen digits at most, in groups of four separated by single spaces, and is at most 19 characters long. The other fields are untouched. |
| CardsPage.EnterCvv | app/cards/page.tsx:268 | The CVV field keeps only digits and never grows. An input of digits is kept as is. |
| CardsPage.CardOf | app/cards/page.tsx:106-117 | The stored card has the number without white space, the detected brand and the last four characters. The other fields are copied. |
| CardsPage.SubmitCard | app/cards/page.tsx:79-133 | Each refusal happens exactly under its condition, in the source's order: an empty field, then fewer than 16 non-space characters, then a CVV shorter than 3. Otherwise the card from CardOf is added. |
| CardsPage.AcceptedNumberHasSixteenDigits | app/cards/page.tsx:73-117 | A number typed with four or more digits and then accepted is stored as exactly its first sixteen digits. |
| CardsPage.FifteenDigitsRejected | app/cards/page.tsx:89-92 | Fifteen typed digits are refused as an invalid number. |
| CardsPage.AcceptanceIgnoresNumberContent | app/cards/page.tsx:84-97 | Acceptance depends on the card number only through its cleaned length, so no Luhn or brand test takes part. |
| CardsPage.LettersAccepted | app/cards/page.tsx:39-54 | A word of sixteen or more lower-case letters passes the formatter unchanged, is accepted, and is stored as the card number with brand Unknown. |
| CardsPage.SubmitCardIntended | app/cards/page.tsx:79-133 | Corrected checks: a number that is not all digits, or shorter than 16, is refused. An accepted card is all digits and gets the corrected brand. |
| CardsPage.IntendedAcceptsOnlySixteenDigits | app/cards/page.tsx:73-117 | Under the corrected checks, whatever was typed, an accepted number is sixteen digits that start the input's digits. |
| CardsPage.RemoveSpacesOfDigits | app/cards/page.tsx:106 | When removing white space leaves only digits, the result is the string's digits. |
| CardsPage.IntendedAgreesOnDigitNumbers | app/cards/page.tsx:79-133 | On digit-only numbers outside 644 to 649, the corrected and written checks give the same outcome. |
| SettingsPage.AddCategoryGuarded | app/settings/page.tsx:37-55 | A blank name is refused. A name already present with the same type is refused as a duplicate, and those are the only refusals. On success the category is added and then present. |
| SettingsPage.DefaultCategoriesUnique | context/finance-context.tsx:65-79 | No two default categories share name and type. |
| SettingsPage.AddCategoryKeepsUnique | app/settings/page.tsx:37-55 | A successful add keeps the (name, type) pairs unique. |
| SettingsPage.PaddedNameIsNoDuplicate | app/settings/page.tsx:38-40 | The blank test trims the name but the duplicate test does not. An existing name typed with a trailing space passes both tests, while the exact name is refused as a duplicate. |
| SettingsPage.DeleteCategoryKeepsUnique | app/settings/page.tsx:58-62 | Deleting keeps the (name, type) pairs unique. |
| SettingsPage.BackupData | app/settings/page.tsx:65-72 | The backup holds the store's transactions, cards and categories, and no settings. |
| SettingsPage.BackupRestoreRoundTrip | app/settings/page.tsx:65-110 | Restoring a backup into any store gives the backed-up store with the target's settings. Restoring it into the same store changes nothing. |
| HomePage.InitialForm | app/page.tsx:24-29 | The form opens on the given date as an expense in the first expense category, with no description, no amount and no card. |
| HomePage.SelectType | app/page.tsx:230-243 | The type buttons change only the type and keep the chosen category. |
| HomePage.SelectCategory | app/page.tsx:263-273 | The picker only accepts names listed for the current type. Nothing else changes. |
| HomePage.SelectCard | app/page.tsx:301-306 | The card picker sets only the selected card id. |
| HomePage.SubmitTransaction | app/page.tsx:36-52 | A form without description, without amount or with a non-positive amount changes nothing. Otherwise one transaction with the form's fields goes in front, carrying the card only for an expense. Description, amount and card are cleared, and the rest of the store is unchanged. |
| HomePage.SubmitKeepsLedger | app/page.tsx:36-52 | Entries made through the form always have a description, a positive amount and no card on an income, and submitting keeps that for the whole list. |
| HomePage.DeleteKeepsLedger | context/finance-context.tsx:193-195 | Deleting keeps every stored entry well formed. |
| HomePage.CashIsNoCardId | app/page.tsx:306 | The cash entry's value "cash" is never an identifier the store creates. |
| HomePage.ListsDisjoint | app/page.tsx:19-20 | No name is both an income and an expense category of the form. |
| HomePage.SwitchedTypeKeepsExpenseCategory | app/page.tsx:230-243 | Switching an expense form to income keeps its expense category, and submitting stores an income filed under a name the income list does not offer. |
| HomePage.SelectTypeIntended | app/page.tsx:230-243 | Corrected type buttons: changing the type resets the category to the first of the new type's list. |
| HomePage.IntendedFormKeepsCategoryFit | app/page.tsx:24-52 | With the corrected type buttons, every step of the form keeps the category within its type's list. |
| HomePage.IntendedSubmissionFiledCorrectly | app/page.tsx:36-52 | With the corrected form, a stored entry's category is one its type offers. |

## Left out

- **Browser and runtime plumbing** is not modelled:
  - `localStorage` calls and `JSON.stringify`/`JSON.parse` are reduced to the `Storage` cells.
  - `FileReader`, `Blob` and the download link are not modelled.
  - `setTimeout` delays, success and error banners, routing and rendering are not modelled.
  - Only the state changes and the decisions behind them are kept.
- **Date parsing of stored data.** `new Date(t.date)` on load and on restore is taken to give back the stored date. A date string that does not parse, giving an Invalid Date, is not modelled.
- **JavaScript numbers.** Floating-point rounding, NaN and infinity are not modelled: amounts are reals. `Number.parseFloat` is not modelled because the number input only yields a valid number or an empty string, which `HomePage.Form` represents as `None`.
- **Dates.** Time of day and time zones are not modelled. `isSameDay` compares calendar dates, and `endOfMonth` is used only through the month's days.
- **Field length limits.** The `maxLength` limits of the card number (19) and CVV (4) fields are browser behaviour and are not modelled. Without them the formatter still caps the digits at sixteen.
- **Category order.** `Object.entries` lists integer-like keys, such as a category named "10", before the other keys. The model keeps first-seen order for every name.
- Statistics.AggregateByCategory: does not model the plain-object accumulator's inherited keys. A category named "constructor" or "toString" starts from the inherited function instead of 0 and gets a string value. A category named "__proto__" is dropped, because that setter ignores numbers. The model treats every name as an ordinary key. Such a name can be typed into the category form or come from a restored backup.
- **Strings.** A Dafny string is a sequence of Unicode code points, while JavaScript's `length` and `slice` count UTF-16 code units. A character outside the Basic Multilingual Plane, such as an emoji, counts once in the model and twice in the source. So eight such characters pass the source's `length < 16` card-number test but not the model's, and `slice(-4)` may split a surrogate pair in the source. All other characters count alike in both.
- **React effect timing.** The persistence effects fire on reference changes. `Persist` is applied after every state change. For an operation that builds a new list this is what the source does. Categories and settings are always written, while the source rewrites them only when their reference changed, so the model may hold a stored copy of the defaults where the source leaves the key absent. The two storages are the same up to what `Persistence.Load` reads back. `Persistence.ResetStorage` models reset exactly: it takes as parameters whether the store still held the default objects.
- Finance.RestoreData: does not model a parsed backup whose keys have the wrong shape, because `RestoreInput` holds only well-typed collections. A truthy `transactions` that is not an array makes `.map` throw (context/finance-context.tsx:242-247) before any key is merged, so the settings page's catch (app/settings/page.tsx:101-103) reports an error and the store is unchanged. A truthy `cards`, `categories` or `settings` of any shape is stored unchecked (lines 249-256). A falsy key, such as `null`, `0` or `""`, is the model's `None`.
- Persistence.Load: does not model a stored value that parses to the wrong shape, because a `Stored` cell holds only well-typed data. Parsed `cards`, `categories` and `settings` are kept whatever their shape (context/finance-context.tsx:120-141). A parsed `transactions` that `.map` rejects, such as `null` or a number, falls back to the empty list, which is what the model's `Corrupt` cell gives.
- **Settings patch.** A patch field given explicitly as `undefined` overwrites the setting in JavaScript. `SettingsPatch` treats it as absent.
- **Clashing identifiers.** Two additions in the same millisecond get the same identifier. The model takes the clock reading as a parameter and does not order calls.
- **Out-of-scope files.** The API routes, the my-page screen and the header are not part of this model.
- **Duplicated card helpers.** The cards page's private copies of `formatCardNumber` and `detectCardType` (app/cards/page.tsx lines 39-70) are character for character those of lib/card-utils.ts, so the page is modelled with the library versions.
- **Chart presentation.** The statistics page's `format(day, "MM.dd")` labels and `toFixed(1)` rounding are presentation. `DailyPoint` keeps the date and the rates keep the exact value.
- Statistics.DailySeriesAddsUp: requires every entry's date to be a real calendar date, because an entry dated, say, February 30 shows in the month's totals but on no day of the series.

## Findings

| source | as written | input that shows it | evidently intended | confidence | as-written member | corrected member |
|---|---|---|---|---|---|---|
| context/finance-context.tsx:148-158 | Transactions and cards are written to local storage only when the list is non-empty. | Add one transaction, delete it, reload: the deleted transaction comes back. | Every change, including emptying a list, is written. | high, not executed | Persistence.ReloadResurrectsDeletedLast | Persistence.LoadAfterPersistAlways |
| lib/card-utils.ts:25 | `64[4-9]` is nested inside the `622(...)` group, where the `[2-8][0-9]{2}` alternative already covers it. | "6445 0000 0000 0000" is detected as Unknown. | Discover prefixes 644 to 649 report Discover. | high, not executed | CardUtils.Prefix644To649IsUnknown | CardUtils.DetectCardTypeIntended |
| app/cards/page.tsx:39-54 | With fewer than four digits the formatter returns its input unchanged, and the length check counts characters, not digits. | A card number "abcdefghijklmnop" with the other fields filled is accepted and stored. | Only a sixteen-digit number is accepted. | medium, not executed | CardsPage.LettersAccepted | CardsPage.IntendedAcceptsOnlySixteenDigits |
| app/page.tsx:230-243 | The type buttons change the type but keep the chosen category. | An expense form on "식비" switched to income and submitted stores an income in "식비". | The category follows the type, so a stored income has an income category. | medium, not executed | HomePage.SwitchedTypeKeepsExpenseCategory | HomePage.IntendedSubmissionFiledCorrectly |
