# NextEarnX wallet and Lifafa panel, modelled in Dafny

NextEarnX is a browser-only earning panel. Every page keeps its state in
the browser's `localStorage`. It holds the registered users, the session
user, one wallet balance and history per user, the Lifafas (red envelopes:
a sum split into a fixed number of equal claims), the banned mobile
numbers, the global settings (UPI id, minimum deposit, plan prices,
required Telegram channels) and the active subscription.

This project models the pages that read and write that state:

- the user pages: login, signup, home, wallet, payment, plans, profile,
  transfer, Lifafa creation, claim and refund, ban list, Telegram
  channels, instant panel, affiliate;
- the admin pages: dashboard, user manager, transaction audit, global
  settings.

The state is one `Store` object (module `Store`) whose fields are the
storage keys. Each page is a class whose fields are the page's module
variables, or a set of functions where the page only computes.

Conventions of the model:

- Money is whole paise (`int`). The source stores balances as text with
  two decimals.
- A number read from a form is `Option<int>`, with `None` standing for
  `NaN`.
- The clock, the random draws and the answers to `confirm()` are
  parameters of the operations.
- A redirect or a message is an outcome value.

Modules, one per page or shared concern:

- `Common`: text helpers. This covers trimming, splitting, the number
  formats of `toFixed(2)` and `String(n)` together with their parsers,
  and the list helpers.
- `Store`: the records and the storage object.
- `Otp`: the six-digit codes.
- Pages: `Login`, `Signup`, `Home`, `Wallet`, `Purchase`, `Plans`,
  `Profile`, `Transfer`, `MakeLifafa`, `ClaimLifafa`, `Unclaimed`,
  `BanList`, `Telegram`, `InstantPanel`, `Affiliate`, `Dashboard`,
  `UserManager`, `Audit`, `GlobalSettings`.

## Model

| member | source | states |
|---|---|---|
| Store.Overlay | panel/js/subscription.js:39-49 | `{ ...defaults, ...stored }`: each field the stored object has wins, every other field keeps its default, and an empty stored object gives back the defaults |
| Store.BalanceKeyInjective | panel/js/make_lifafa.js:50-63 | the key routing never puts two different users in one balance slot |
| Store.HistoryKeyInjective | panel/js/make_lifafa.js:65-74 | the key routing never puts two different users in one history slot |
| Store.UserIndex | panel/js/subscription.js:31 | `findIndex` by username: the index found holds that username and no earlier user does; when none is found, no user has it |
| Store.LifafaIndex | panel/js/claim.js:100 | `find` by Lifafa id: the first record with the id, or proof that no record has it |
| Store.Store.UpdateMainUserList | panel/js/subscription.js:23-36 | the first user with the same username is replaced by the updated record; without one the list is left as it was; the length never changes |
| Store.Store.SetBalance | panel/js/claim.js:54-56 | a balance write changes exactly that key |
| Store.Store.PushHistory | panel/js/claim.js:272-280 | a history write appends one entry to the history read under that key (an empty history when missing) and changes no other key |
| Common.AmountOfFixed2 | panel/js/claim.js:49-56 | `parseFloat(x.toFixed(2))` gives back every amount of whole paise: a stored balance reads back unchanged |
| Common.AmountOfNumText | panel/js/wallet.js:110-112 | `parseFloat(String(x))` gives back every amount of whole paise |
| Common.TokensOfJoin | panel/js/make_lifafa.js:265 | splitting on the separator class and dropping empty pieces gives back the delimiter-free words that were joined |
| Common.SplitOfJoin | panel/js/ban_numbers.js:76-91 | `split(sep)` of a join of separator-free pieces gives back the pieces |
| Common.TrimBlank | panel/js/make_lifafa.js:227 | a trimmed text is empty exactly when the text holds only white space |
| Common.RemoveAllNoDup | panel/js/ban_numbers.js:107-108 | filtering one value out of a duplicate-free list leaves it duplicate-free |
| Common.AddMissingProps | panel/js/ban_numbers.js:76-91 | adding the values not yet present keeps the old list as a prefix, ends up holding exactly the old and the added values, and keeps a duplicate-free list duplicate-free |
| Common.DedupProps | panel/js/ban_numbers.js:18-33 | `Array.from(new Set(xs))` holds exactly the values of the list, each once, and is no longer than it |
| Common.Split | panel/js/purchase.js:5 | `split` on one character gives at least one piece, and no piece holds the separator |
| Common.NatText | panel/js/instant_panel.js:108 | `String(n)` of a whole number is a non-empty run of decimal digits |
| Common.RemoveAt | panel/js/telegram_settings.js:110 | `splice(index, 1)` drops exactly that element: the elements before it keep their places and the ones after move down by one |
| Common.Reverse | panel/js/wallet.js:59 | `reverse()` keeps the length and puts the k-th element from the end at position k |
| Common.Filter | panel/admin/js/user_manager.js:301 | `Array.prototype.filter`, stated recursively: the elements that pass, in order and as often as they occur; nothing else and nothing more |
| Common.FilterOfFilter | panel/admin/js/transaction_audit.js:121-135 | filtering by one test and then by another is filtering once by both |
| Common.Utf16Length | panel/js/signup.js:164 | a string's `.length` counts UTF-16 code units: at least one and at most two per character, and exactly one each when no character lies outside the Basic Multilingual Plane |
| Common.Utf16LengthOfAstral | panel/js/customise_profile.js:254 | characters outside the Basic Multilingual Plane count twice, so three emoji have length six |
| Common.NumberValueDefined | panel/js/ban_numbers.js:78 | `isNaN(s)` is false exactly when `Number(s)` is a number |
| Common.IntegerValue | panel/js/script.js:124 | a number equals a whole number exactly when it is finite and its fraction after scaling is zero |
| Common.UnsignedAmountOfExponent | panel/js/purchase.js:62 | `parseFloat` reads a whole number followed by an exponent, such as `1e3`, as that number times the power of ten |
| Common.ParseAmount | panel/js/purchase.js:61-62 | `parseFloat` read in whole paise, with NaN as no value; its properties are the lemmas `AmountOfNumText` and `AmountOfFixed2` (the text of an amount of whole paise reads back as that amount) and `UnsignedAmountOfExponent` (`<n>e<k>` reads as n·10^k rupees) |
| Common.ParseInteger | panel/js/instant_panel.js:80 | `parseInt` without a radix, with NaN as no value; its properties are the lemmas `IntegerOfNatText` (a number's decimal text reads back as that number) and `IntegerOfHex` (a `0x` prefix switches to base 16) |
| Common.IntegerOfNatText | panel/js/unclaimed_lifafa.js:211 | `parseInt` of a whole number's decimal text gives back that number |
| Common.IntegerOfHex | panel/js/instant_panel.js:80 | `parseInt` without a radix reads `0x` followed by hexadecimal digits as their base-16 value, so `0x10` is sixteen |
| Common.HexRunOfAll | panel/js/instant_panel.js:131 | a text made only of hexadecimal digits is read to its end |
| Common.Tokens | panel/js/ban_numbers.js:76-77 | splitting on runs of the separators and dropping empty pieces gives pieces that are non-empty and hold no separator; `TokensOfJoin` proves that such pieces, joined, split back into themselves |
| Common.RemoveAll | panel/js/ban_numbers.js:107 | `filter(n => n !== x)` keeps a value exactly when it was in the list and differs from `x`, and never lengthens the list; `RemoveAllNoDup` keeps a duplicate-free list duplicate-free |
| Common.Dedup | panel/js/ban_numbers.js:24 | `Array.from(new Set(xs))`; its properties are the lemma `DedupProps`: exactly the values of the list, each once, no longer than it |
| Common.Trim | panel/js/instant_panel.js:79 | `String.prototype.trim`; its property is the lemma `TrimBlank`: the result is empty exactly when the text holds only white space |
| Common.Fixed2 | panel/js/wallet.js:41 | `toFixed(2)` of an amount; its property is the lemma `AmountOfFixed2`: the text reads back as the amount |
| Common.NumText | panel/js/wallet.js:110 | `String(x)` of an amount; its property is the lemma `AmountOfNumText`: the text reads back as the amount |
| MakeLifafa.Validate | panel/js/make_lifafa.js:226-243 | the five checks in the source's order: a blank title, a per-claim amount that is NaN or below ₹0.01, a count that is NaN or below 2, a total below ₹10, a balance below the total; each reason is reported exactly when the checks before it passed and it fails |
| MakeLifafa.AcceptedFormBounds | panel/js/make_lifafa.js:226-251 | an accepted form has at least two claims of at least ₹0.01, a total of at least ₹10, and leaves the creator's balance non-negative |
| MakeLifafa.NewRecord | panel/js/make_lifafa.js:256-275 | the appended record belongs to the creator, has the new id and date, `count × perClaim` as its total and no claims; its access code is absent exactly when the trimmed code is blank; it copies the global channels; it requires referrals only for a positive count |
| MakeLifafa.CreationEntry | panel/js/make_lifafa.js:282-284 | the logged entry is a debit of the whole total, dated now |
| MakeLifafa.SpecialUsersAreWords | panel/js/make_lifafa.js:265 | every special user kept is a non-empty word holding no separator |
| MakeLifafa.SpecialUsersOfLines | panel/js/make_lifafa.js:216-265 | numbers entered one per line come back as exactly that list |
| MakeLifafa.CreationKeepsClaimsWithinCount | panel/js/make_lifafa.js:256-280 | appending a new record keeps every stored Lifafa within its claim count |
| MakeLifafa.StatusTextShowsClaims | panel/js/make_lifafa.js:127-128 | the status reads `CLOSED` exactly when the Lifafa is full; otherwise it starts with the number of claims |
| MakeLifafa.ClaimedLineReadsBack | panel/js/make_lifafa.js:128 | the `n/count Claimed` line reads back as `n` and is never `CLOSED` |
| MakeLifafa.CreatorRecords | panel/js/make_lifafa.js:114-115 | the list shows exactly the records whose creator is the session user; it is the input filtered by that test, so the order and the repeats of the kept elements are those of the input |
| MakeLifafa.Commit | panel/js/make_lifafa.js:250-284 | the three writes of a creation: the new balance, the record appended, one entry logged; nothing else is touched |
| MakeLifafa.MakeLifafaPage.constructor | panel/js/make_lifafa.js:33-48 | the page reads the session username (empty without a session) and the stored settings (`{}` when none) |
| MakeLifafa.MakeLifafaPage.Submit | panel/js/make_lifafa.js:205-297 | a rejection reports the first failing check; a rejection or a declined confirmation writes nothing; a creation debits the total from the creator's global balance, appends the new record and logs one debit |
| ClaimLifafa.IdParam | panel/js/claim.js:35-96 | the id parameter counts only when present and non-empty |
| ClaimLifafa.LoadView | panel/js/claim.js:81-114 | no session goes to login; then a missing id, an unknown id and a full record each give their own error, each exactly when the earlier steps passed; otherwise the first record with the id is shown, and it still has room |
| ClaimLifafa.RunChecks | panel/js/claim.js:140-217 | the claimed gate runs first, then the ban gate, and a failure of either leaves the later gates pending; after both pass, the Telegram and referral gates pass and the code gate fails exactly when a code is set and passes otherwise |
| ClaimLifafa.EnabledAtLoad | panel/js/claim.js:211-216 | the claim button starts enabled exactly when the user has not claimed yet, is not banned and no access code is asked |
| ClaimLifafa.WithClaim | panel/js/claim.js:249-261 | a claim appends one claim of the per-claim amount for the user and changes no other field |
| ClaimLifafa.ClaimEntry | panel/js/claim.js:272-280 | a claim logs a credit of the per-claim amount, dated now |
| ClaimLifafa.SavedAfterClaim | panel/js/claim.js:263-269 | the saved list replaces the first record with the id and keeps every other record; without such a record nothing changes |
| ClaimLifafa.ClaimKeepsClaimsWithinCount | panel/js/claim.js:249-269 | a claim on a record that still had room keeps every record within its count |
| ClaimLifafa.ReloadAfterClaim | panel/js/claim.js:94-163 | reloading after a claim either shows the Lifafa closed or shows the claim and marks the user as already claimed, so the button is never enabled again |
| ClaimLifafa.ClaimPage.constructor | panel/js/claim.js:81-129 | the page shows what the loader decides; over a shown record the gates are those of the checker, the button is enabled as at load and the code form is shown exactly when the code gate failed |
| ClaimLifafa.ClaimPage.SubmitCode | panel/js/claim.js:222-240 | with the code form shown, a trimmed input equal to the code opens the code gate and enables the button; any other input marks the gate failed and keeps the button disabled |
| ClaimLifafa.ClaimPage.ClickClaim | panel/js/claim.js:243-289 | a disabled button or a declined confirmation does nothing; a claim credits the session wallet by the per-claim amount, saves the record with the claim appended, logs one credit and disables the button |
| Unclaimed.Active | panel/js/unclaimed_lifafa.js:61-66 | the user's open records: exactly the records created by the user with fewer claims than the count |
| Unclaimed.RemoveOpen | panel/js/unclaimed_lifafa.js:224 | the bulk refund keeps exactly the records that are not open records of the user, and no more than there were |
| Unclaimed.RemoveId | panel/js/unclaimed_lifafa.js:255 | the single refund's list is never longer than the stored list; which records it keeps, and in which order, is `RefundListsAreFilters` |
| Unclaimed.RefundListsAreFilters | panel/js/unclaimed_lifafa.js:61-66 | the open records, the list the bulk refund keeps and the list the single refund keeps are each the stored list filtered by its test: exactly the records that pass, in stored order and with their repeats |
| Unclaimed.ActivePartition | panel/js/unclaimed_lifafa.js:224 | the open records and the records the bulk refund keeps together make up the list, as a multiset |
| Unclaimed.NothingOpenAfterRefund | panel/js/unclaimed_lifafa.js:224-238 | after a bulk refund the user has no open record left, so the page shows a zero total |
| Unclaimed.UnclaimedRefundReturnsCost | panel/js/unclaimed_lifafa.js:99-103 | a Lifafa nobody has claimed is refunded for exactly the total its creation debited |
| Unclaimed.EmptyDisplay | panel/js/unclaimed_lifafa.js:89-95 | an empty list shows the texts of a zero count and a zero total |
| Unclaimed.DisplayReadsBack | panel/js/unclaimed_lifafa.js:145-148 | the refund handlers read the total, the count and a button's amount back from their displayed text as the very numbers rendered |
| Unclaimed.BulkRefundEntry | panel/js/unclaimed_lifafa.js:227-234 | a bulk refund logs a credit of the whole total, dated now |
| Unclaimed.SingleRefundEntry | panel/js/unclaimed_lifafa.js:258-265 | a single refund logs a credit of the button's amount, dated now |
| Unclaimed.ListedFor | panel/js/unclaimed_lifafa.js:167-173 | the records listing the number as a special user, and only those; it is the input filtered by that test, so the order and the repeats of the kept elements are those of the input |
| Unclaimed.SpecialCheck | panel/js/unclaimed_lifafa.js:153-190 | a trimmed input that is not ten characters forming a number is refused; otherwise the result is exactly the user's open records that list it |
| Unclaimed.Refund | panel/js/unclaimed_lifafa.js:220-235 | the writes of a refund: the amount credited, the new Lifafa list saved, one credit logged |
| Unclaimed.UnclaimedPage.constructor | panel/js/unclaimed_lifafa.js:286-288 | the page renders the user's open records |
| Unclaimed.UnclaimedPage.Render | panel/js/unclaimed_lifafa.js:82-150 | the page shows the open records, their summed unclaimed value, their count and one button per record carrying its id and value; refund-all is enabled exactly when the list is not empty |
| Unclaimed.UnclaimedPage.RefundAll | panel/js/unclaimed_lifafa.js:209-240 | a refund happens exactly when the button is enabled, the user confirms and the shown total is not zero; it credits the shown total, drops the user's open records, logs one credit and leaves nothing open |
| Unclaimed.UnclaimedPage.RefundSingle | panel/js/unclaimed_lifafa.js:243-273 | a confirmed button credits that record's unclaimed value, drops every record with its id from the list captured at render, logs one credit, and renders again: the open records shown are the user's open records in the new list, which is captured when there are any |
| Transfer.RecipientKeysAreNotGlobal | panel/js/pay_to_other.js:36-60 | a recipient's balance and history slots are never the sender's global slots |
| Transfer.RecipientKeysAgree | panel/js/pay_to_other.js:36-60 | the key routing sends a recipient other than the sender to the `_<username>` slots and the sender to the global slots |
| Transfer.MobileIndex | panel/js/pay_to_other.js:182 | the first user with the mobile number, or proof that nobody has it |
| Transfer.FindRecipient | panel/js/pay_to_other.js:169-197 | a recipient is found exactly when the trimmed input is a 10-character number, some user has it and the first such user's name differs from the sender's ignoring case; the recipient is that user and never the sender |
| Transfer.TransferCheck | panel/js/pay_to_other.js:134-140 | a transfer passes exactly when there is a recipient, the amount is a number from ₹1 to ₹100, the balance covers it and the day's total stays within ₹100; each failure (no recipient, below ₹1 or NaN, above ₹100, the balance short, the day's total exceeded) is reported exactly when the checks before it pass and it fails |
| Transfer.AcceptedTransferBounds | panel/js/pay_to_other.js:134-140 | an accepted transfer is positive, leaves the sender's balance non-negative and keeps the day's total within ₹100 |
| Transfer.TransferConserves | panel/js/pay_to_other.js:145-148 | moving an amount between two different slots keeps their sum and every other slot |
| Transfer.SentEntry | panel/js/pay_to_other.js:152 | the sender logs a debit of the amount, dated now |
| Transfer.ReceivedEntry | panel/js/pay_to_other.js:156 | the recipient logs a credit of the amount, dated now |
| Transfer.BulkNumbers | panel/js/pay_to_other.js:207-212 | every bulk number is a non-empty piece holding no separator |
| Transfer.BulkCheck | panel/js/pay_to_other.js:214-230 | a bulk transfer passes exactly when there is a number, the amount is at least ₹1 and the balance covers amount × count; each refusal comes exactly in its case: no numbers, then an amount that is NaN or below ₹1, then a balance short of amount × count |
| Transfer.Pay | panel/js/pay_to_other.js:144-159 | the writes of a transfer: the sender debited, the recipient credited, both histories extended, the day's counter increased |
| Transfer.TransferPage.constructor | panel/js/pay_to_other.js:29-33 | the page reads the session username and starts without a recipient |
| Transfer.TransferPage.LookupRecipient | panel/js/pay_to_other.js:169-197 | the recipient is the one the lookup finds, and never the sender |
| Transfer.TransferPage.Submit | panel/js/pay_to_other.js:125-166 | a rejection reports the first failing check; a rejection or a declined confirmation writes nothing; a transfer moves the amount from the sender's global slot to the recipient's slot, logs one debit and one credit, adds the amount to the day's counter and clears the recipient |
| Transfer.TransferPage.BulkSubmit | panel/js/pay_to_other.js:203-246 | a confirmed bulk transfer debits amount × count from the sender and writes nothing else; anything else writes nothing |
| BanList.Strings | panel/js/ban_numbers.js:22 | the loader keeps exactly the string entries of the stored list, in their order and with their repeats |
| BanList.Items | panel/js/ban_numbers.js:32 | the saved list is the page's numbers, one string entry each, in order |
| BanList.StringsOfItems | panel/js/ban_numbers.js:22-32 | a saved list of numbers loads back as the same numbers |
| BanList.LoadBansProps | panel/js/ban_numbers.js:18-29 | the loaded list holds no number twice and holds exactly the strings that were stored |
| BanList.SaveLoadRoundTrip | panel/js/ban_numbers.js:18-33 | saving a duplicate-free list and loading it again gives back the same list |
| BanList.ValidNumbers | panel/js/ban_numbers.js:72-78 | the numbers kept are exactly the pieces of the trimmed input that are ten characters forming a number; it is the input filtered by that test, so the order and the repeats of the kept elements are those of the input |
| BanList.MobilePieces | panel/js/ban_numbers.js:77-78 | the filter keeps exactly the pieces that are ten characters forming a number; it is the input filtered by that test, so the order and the repeats of the kept elements are those of the input |
| BanList.BanPage.constructor | panel/js/ban_numbers.js:127 | the page starts from the list as the loader reads it, which never repeats a number |
| BanList.BanPage.Load | panel/js/ban_numbers.js:18-29 | reloading sets the page's list to what the loader reads from storage |
| BanList.BanPage.Save | panel/js/ban_numbers.js:31-33 | the stored list is the page's list without duplicates, so it never repeats a number |
| BanList.BanPage.AddNumbers | panel/js/ban_numbers.js:69-98 | a blank trimmed input is ignored, and exactly then; an input without a valid number is refused; both write nothing; otherwise each valid number is appended when absent, the count is the number appended and the stored list is the new list |
| BanList.BanPage.AppendAll | panel/js/ban_numbers.js:85-94 | the loop appends each absent number in order, counts them, and the saved and reloaded list is the result, still without repetitions |
| BanList.BanPage.Remove | panel/js/ban_numbers.js:101-114 | a confirmed removal drops every copy of the number and stores the result; a declined one changes nothing |
| BanList.AddAgainChangesNothing | panel/js/ban_numbers.js:85-91 | submitting the same numbers twice bans nothing more |
| BanList.AddKeepsListSetLike | panel/js/ban_numbers.js:85-91 | adding keeps the list duplicate-free, keeps the old numbers first and holds exactly the old numbers and the valid new ones |
| BanList.AddPresentChangesNothing | panel/js/ban_numbers.js:85-91 | numbers that are all banned already add nothing |
| BanList.RemoveDeletesOnlyThat | panel/js/ban_numbers.js:107 | removal keeps every other number in its order; a number listed once is simply cut out |
| Telegram.AddCheck | panel/js/telegram_settings.js:72-92 | the add button's checks in order: a blank link, a full list of four, a link already present, then a link that is neither `@…` nor `https://t.me/…` and whose warning is declined; a link is added exactly when all these pass |
| Telegram.TelegramPage.constructor | panel/js/telegram_settings.js:23-32 | the page edits the stored channel list, or an empty list when the settings or the list are missing |
| Telegram.TelegramPage.Add | panel/js/telegram_settings.js:72-96 | an accepted trimmed link goes at the end of the list; every refusal leaves the list as it was |
| Telegram.TelegramPage.Remove | panel/js/telegram_settings.js:105-116 | a confirmed removal cuts out exactly the channel at that index; a declined one changes nothing |
| Telegram.TelegramPage.Save | panel/js/telegram_settings.js:34-37 | the edited list replaces `telegramChannels` and every other settings field is written back unchanged |
| Telegram.AddKeepsLimit | panel/js/telegram_settings.js:78-92 | an accepted add never makes the list longer than four or repeat a link |
| Telegram.RemoveKeepsLimit | panel/js/telegram_settings.js:108-110 | a removal keeps the list duplicate-free and below the limit |
| Telegram.SaveLoadRoundTrip | panel/js/telegram_settings.js:23-36 | the saved list is what the next page load edits, and the other settings survive the save |
| UserManager.Merge | panel/admin/js/user_manager.js:61 | the shallow merge sets the password only when one is given, always sets the status, plan and expiry, and keeps the username, name, email, mobile and trial flag |
| UserManager.ProfileUpdates | panel/admin/js/user_manager.js:187-205 | a password is updated exactly when the trimmed input is not blank; the status is always set; the plan `none` clears the plan and the expiry, any other plan sets both |
| UserManager.WithoutUser | panel/admin/js/user_manager.js:301 | the filter keeps exactly the users with another name; it is the input filtered by that test, so the order and the repeats of the kept elements are those of the input |
| UserManager.WithoutUserShorter | panel/admin/js/user_manager.js:300-308 | the filtered list is shorter exactly when some user has the name, so the delete reports success exactly then |
| UserManager.SearchUsers | panel/admin/js/user_manager.js:259-270 | the search lists exactly the users whose username, email or full name contains the query, ignoring case; it is the input filtered by that test, so the order and the repeats of the kept elements are those of the input |
| UserManager.EmptySearchListsAll | panel/admin/js/user_manager.js:259-270 | an empty query lists every user in stored order |
| UserManager.TargetBalanceKey | panel/admin/js/user_manager.js:70-98 | the key exists exactly when the user is stored, and it is then always the global key, because a found user's name is the name looked up |
| UserManager.AdjustmentEntry | panel/admin/js/user_manager.js:173-181 | the logged entry has the action's kind (`UNKNOWN` for another action), the amount and the date |
| UserManager.UpdateUser | panel/admin/js/user_manager.js:56-66 | the first user with the name gets the updates merged in and nobody else changes; without such a user nothing is written and the answer is false |
| UserManager.DeleteUser | panel/admin/js/user_manager.js:298-309 | the answer is true exactly when some user has the name; then every user with it is removed, otherwise nothing is written |
| UserManager.AdjustBalance | panel/admin/js/user_manager.js:152-183 | a debit above the balance writes nothing; otherwise the balance is adjusted and one entry of that kind and amount is logged; a positive adjustment raises the balance exactly when it logs a credit and lowers it exactly when it logs a debit, and a balance that was not negative never becomes negative |
| UserManager.SubmitEdit | panel/admin/js/user_manager.js:141-220 | an adjustment for a user who is not stored throws and an overdrawing debit aborts, and neither writes anything; otherwise the adjustment, if any, is applied and logged, and the profile updates are merged into the user record; whatever happens, a balance that was not negative stays not negative |
| Audit.Tagged | panel/admin/js/transaction_audit.js:56 | each entry of a user's history becomes one row carrying that user's name, in order |
| Audit.UserRowsTagged | panel/admin/js/transaction_audit.js:50-59 | every per-user row names a stored user whose own history holds the entry |
| Audit.AllHistoryStartsWithGlobal | panel/admin/js/transaction_audit.js:44-47 | the merged list starts with the global history, untagged and in order |
| Audit.UserRowsStep | panel/admin/js/transaction_audit.js:50-59 | each further user appends exactly that user's tagged history |
| Audit.LoadAllHistory | panel/admin/js/transaction_audit.js:39-65 | the loop builds the global history followed by each stored user's tagged history, in user order |
| Audit.ByType | panel/admin/js/transaction_audit.js:123-126 | the type filter keeps every row for `all`, and otherwise the rows of that type; it is the input filtered by that test, so the order and the repeats of the kept elements are those of the input |
| Audit.OfType | panel/admin/js/transaction_audit.js:125 | the filter keeps exactly the rows whose type name is the one chosen; it is the input filtered by that test, so the order and the repeats of the kept elements are those of the input |
| Audit.BySearch | panel/admin/js/transaction_audit.js:128-135 | an empty query keeps every row; otherwise the search keeps the rows whose txnId, note or source user contains the lower-cased query, ignoring case; it is the input filtered by that test, so the order and the repeats of the kept elements are those of the input |
| Audit.Mentioning | panel/admin/js/transaction_audit.js:130-134 | the filter keeps exactly the rows that mention the query; it is the input filtered by that test, so the order and the repeats of the kept elements are those of the input |
| Audit.Filtered | panel/admin/js/transaction_audit.js:121-135 | the type filter followed by the search is the single filter by both tests: it keeps exactly the rows passing both, in their order and with their repeats |
| Audit.SwapDown | panel/admin/js/transaction_audit.js:78 | one exchange of neighbours in the sort keeps the same rows |
| Audit.SinkNewer | panel/admin/js/transaction_audit.js:78 | one insertion step extends the newest-first prefix by one row, keeps the same rows, and leaves the rest of the array alone |
| Audit.SortNewestFirst | panel/admin/js/transaction_audit.js:77-78 | the in-place sort leaves the rows newest first and is a permutation of them |
| Audit.FirstPerKeyProps | panel/admin/js/transaction_audit.js:80-91 | the rows kept repeat no `txnId_type_amount` key, come from the input in order, and cover every key of the input |
| Audit.SubsequenceNewestFirst | panel/admin/js/transaction_audit.js:80-91 | keeping only some rows of a newest-first list, in order, leaves a newest-first list |
| Audit.UniqueRows | panel/admin/js/transaction_audit.js:80-91 | the loop with its `Set` of seen keys keeps exactly the first row of each key |
| Audit.RenderTable | panel/admin/js/transaction_audit.js:68-113 | the table shows some newest-first arrangement of the rows with one row per key, and the rows shown are themselves newest first; every key of the input appears, nothing else does, and the count shown is the number of rows |
| Audit.FilterAndSearch | panel/admin/js/transaction_audit.js:116-138 | the rows shown are newest first, every one comes from the merged histories and passes both filters, no key is shown twice, and every key among the filtered rows is shown |
| Dashboard.ActiveCount | panel/admin/js/admin_dashboard.js:45-50 | the number of active subscribers never exceeds the number of users |
| Dashboard.CalculateStats | panel/admin/js/admin_dashboard.js:34-65 | the stats are the number of users, the number of those with a plan and an expiry still in the future, and the sum of the UPI deposit credits in the global history |
| Dashboard.DepositAddsRevenue | panel/admin/js/admin_dashboard.js:53-59 | a deposit settled on the payment page raises the revenue by exactly its amount |
| Dashboard.OtherEntryKeepsRevenue | panel/admin/js/admin_dashboard.js:53-59 | any entry that is not a UPI deposit credit leaves the revenue unchanged |
| Dashboard.ActiveCountFalls | panel/admin/js/admin_dashboard.js:47 | as time passes the count of active subscriptions can only fall |
| Affiliate.WithdrawCheck | panel/js/affiliate.js:82-94 | the checks in order: an amount that is NaN or below ₹50, earnings below the amount, a blank UPI address; each is reported exactly when the checks before it passed and it fails |
| Affiliate.Withdraw | panel/js/affiliate.js:74-109 | a refused or declined request writes nothing; a confirmed one stores the earnings less the amount |
| Affiliate.WithdrawalKeepsEarningsCovered | panel/js/affiliate.js:82-100 | an accepted withdrawal takes at least ₹50 and never leaves negative earnings |
| InstantPanel.UnitPrice | panel/js/instant_panel.js:12-24 | the unit price is the stored `instantPanelPrice` unless it is missing or zero, then ₹5.00; it is never zero |
| InstantPanel.OrderCheck | panel/js/instant_panel.js:79-95 | the order is invalid exactly when the target is blank or the quantity is NaN or below one; short of funds exactly when it is valid and the balance is below quantity times unit price; an accepted order costs that product and the balance covers it |
| InstantPanel.ServiceEntry | panel/js/instant_panel.js:103-110 | the logged entry is a debit of the cost dated now |
| InstantPanel.Order | panel/js/instant_panel.js:84-111 | a refused order writes nothing; an accepted one lowers the wallet by the cost and appends one debit of that cost |
| InstantPanel.Submit | panel/js/instant_panel.js:76-111 | the form checks the trimmed target and the quantity as `parseInt` reads it, `0x` digits in base 16 included, then orders as above |
| InstantPanel.Estimate | panel/js/instant_panel.js:130-132 | `(parseInt(q) || 0) * PRICE_PER_UNIT`; its properties are the lemmas `ChargeIsEstimate` and `HexQuantityEstimate` |
| InstantPanel.ChargeIsEstimate | panel/js/instant_panel.js:130-132 | an accepted order is charged exactly the estimate shown under the form for the same quantity |
| InstantPanel.HexQuantityEstimate | panel/js/instant_panel.js:80-132 | a `0x` quantity is estimated and ordered in base 16: `0x10` units cost sixteen unit prices, and such an order is accepted when the target is set and the wallet covers it |
| InstantPanel.OrderCharges | panel/js/instant_panel.js:84-98 | with a positive unit price an accepted order costs at least one unit and leaves a non-negative wallet non-negative |
| Purchase.PairKey | panel/js/purchase.js:7 | the key of a pair holds no `=` |
| Purchase.PairValue | panel/js/purchase.js:7-8 | the value of a pair (`v \|\| ''`) holds no `=` |
| Purchase.ParseQuery | panel/js/purchase.js:4-9 | the loop over the `&`-separated pieces of the query skips empty pieces and lets a later key overwrite an earlier one |
| Purchase.PairsText | panel/js/purchase.js:45 | one `k=v` text per pair, in order |
| Purchase.PairOfText | panel/js/purchase.js:7-8 | a pair written from text without `&` or `=` reads back as its own key and value |
| Purchase.ParamsOfPairsText | panel/js/purchase.js:4-9 | reading written pairs back gives the parameters they mean, later keys winning |
| Purchase.EmptyQuery | panel/js/purchase.js:5-6 | an empty query has no parameters |
| Purchase.PairTextPlain | panel/js/purchase.js:5 | a pair written from plain text holds no `&` |
| Purchase.QueryRoundTrip | panel/js/purchase.js:4-9 | a query joined from written pairs parses back to exactly the parameters those pairs mean |
| Purchase.ParamOr | panel/js/purchase.js:11-12 | a present, non-empty parameter is used, otherwise the fallback; the result is non-empty when the fallback is |
| Purchase.UpiId | panel/js/purchase.js:16-44 | the stored UPI id, or `bharat-dass@ibl` when none is stored |
| Purchase.UpiUrlCarriesPayment | panel/js/purchase.js:44-45 | the QR code's link carries exactly the payee id, the name `NextEarnX`, the page's price and `INR` |
| Purchase.DepositEntry | panel/js/purchase.js:66-72 | the logged entry is a credit of the amount, with the entered transaction id, dated now, noted as a UPI deposit |
| Purchase.Deposit | panel/js/purchase.js:61-74 | the amount is added to the wallet and one credit of it is appended to the history |
| Purchase.Verdict | panel/js/purchase.js:52-93 | a missing id, an id that is not eight or more letters and digits, a deposit whose parsed price is not a number, a deposit, and a subscription carrying the feature to reopen, each exactly in its own case |
| Purchase.PurchasePage.constructor | panel/js/purchase.js:4-45 | the plan and price are the query's values or `N/A` and `0`; the price is parsed once as `parseFloat` reads it; the redirect is kept exactly when non-empty; the QR link is built from the UPI id and the price |
| Purchase.PurchasePage.Settle | panel/js/purchase.js:51-94 | a refused id writes nothing; a deposit credits the parsed price and logs it, leaving the subscription; any other plan stores the subscription with the plan's expiry and leaves the wallet |
| Purchase.PurchasePage.Confirm | panel/js/purchase.js:51-94 | the confirm button settles the trimmed transaction id |
| Plans.PlanDays | panel/js/subscription.js:119-120 | a plan lasts 30, 90, 180 or 7 days; the free trial lasts 7 and an unknown plan 30 |
| Plans.ExpiryOf | panel/js/subscription.js:119-122 | the expiry is the purchase time plus the plan's days in milliseconds, at least a week on |
| Plans.LoadSettings | panel/js/subscription.js:39-49 | without stored settings the page's default prices apply; stored prices replace the defaults wholesale, and missing ones keep them |
| Plans.CardPrice | panel/js/subscription.js:54-74 | a card's price is the settings price for its plan when the settings name it, except on the free-trial card, which keeps its own |
| Plans.SubscriptionEntry | panel/js/subscription.js:134-141 | the logged entry is a debit of the price with the transaction id, dated now |
| Plans.WithTrialTaken | panel/js/subscription.js:149 | the same user, now marked as having taken the free trial |
| Plans.Activate | panel/js/subscription.js:118-153 | the subscription record is written with the plan's expiry; a debit is logged only for a positive price; for the free trial the session user and the same user in the list are marked, and otherwise neither is touched |
| Plans.Select | panel/js/subscription.js:165-212 | a free plan after the trial was taken and a NaN price are refused, a paid plan the wallet does not cover goes to the wallet and a declined one stops, each writing nothing; a free plan activates at once without touching the wallet; a confirmed paid plan is debited from the wallet and activated; an activated free trial marks the session user, and the same user in the list, as having taken it, and every other outcome leaves the session and the users alone; only a positive price is logged |
| Plans.TrialOnlyOnce | panel/js/subscription.js:146-176 | after the free trial is selected with a session user, the next zero-price selection of any plan is refused as a used trial |
| Signup.UsernameHintFor | panel/js/signup.js:124-140 | the trimmed name is reported available exactly when it matches the username pattern and no stored user has it ignoring case, and invalid exactly when it does not match |
| Signup.SignupCheck | panel/js/signup.js:145-168 | the form passes exactly when the mobile was verified, the full name is present, the username, Gmail address and mobile match their patterns, the password has six or more UTF-16 code units, and neither the username nor the email is taken ignoring case; an unverified mobile is reported first |
| Signup.NewUser | panel/js/signup.js:171 | the new record carries the form's username, email, mobile and password, and no status, plan, expiry or trial flag |
| Signup.SignupPage.constructor | panel/js/signup.js:23-26 | the page starts with no code, no countdown and no verified mobile |
| Signup.SignupPage.Generate | panel/js/signup.js:35-66 | a new six-digit code valid for 60 seconds, with the countdown running |
| Signup.SignupPage.SendOtp | panel/js/signup.js:68-85 | an invalid trimmed mobile and a registered one are refused without change; otherwise a new code is sent, valid for 60 seconds, with the countdown running |
| Signup.SignupPage.Tick | panel/js/signup.js:40-53 | a countdown tick at or past the deadline drops the code and stops the countdown; any other tick changes nothing |
| Signup.SignupPage.Verify | panel/js/signup.js:90-120 | the trimmed entry is checked as no code, expired, mismatch or match; a match marks the mobile verified and stops the countdown, anything else changes nothing |
| Signup.SignupPage.Submit | panel/js/signup.js:142-176 | the trimmed form is checked; a refused form leaves the users, an accepted one appends exactly the new record |
| Signup.SignupPage.Register | panel/js/signup.js:145-172 | the checks on an already trimmed form, then the append |
| Signup.SignupKeepsNamesDistinct | panel/js/signup.js:167-171 | a signup the checks accept keeps usernames distinct ignoring case |
| Otp.NewOtp | panel/js/script.js:83 | a new code always has six digits |
| Otp.CheckOtp | panel/js/script.js:122-124 | no code, expired and match are each reported exactly in their case: a match needs a code, a time not past the deadline and an entry whose `Number` value equals the code |
| Otp.EnteredValue | panel/js/script.js:124 | `Number(entered)` as a whole number, when it is one; its properties are the lemmas `EnteredValueIsNumber` and `DigitEntryValue` to `BlankEntryFails` below |
| Otp.EnteredValueIsNumber | panel/js/script.js:124 | only an entry that `Number` reads as a number can equal a code |
| Otp.DigitEntryValue | panel/js/script.js:124 | a run of decimal digits reads as its value |
| Otp.DecimalEntry | panel/js/script.js:124 | an unsigned decimal literal, bare or after `+`, reads as its digits scaled by its power of ten, when that is a whole number |
| Otp.PointEntry | panel/js/script.js:124 | the code followed by a point reads as the code |
| Otp.PointZeroEntry | panel/js/script.js:124 | the code followed by `.0` reads as the code |
| Otp.PlusEntry | panel/js/script.js:124 | the code after a plus sign reads as the code |
| Otp.ExponentEntry | panel/js/script.js:124 | digits with the point moved left and an exponent moving it back read as all the digits |
| Otp.RadixEntry | panel/js/script.js:124 | a `0x`, `0o` or `0b` literal reads as its value in that base |
| Otp.OtherSpellingsMatch | panel/js/signup.js:103 | the entries `123456.`, `123456.0`, `+123456`, `1.23456e5`, `0x1E240` and `0o361100` all read as the code 123456 |
| Otp.BlankEntryFails | panel/js/script.js:120-124 | a blank entry reads as zero, which no six-digit code equals |
| Otp.TrimDigits | panel/js/script.js:120 | trimming leaves a text of digits as it is |
| Otp.SentCodeMatches | panel/js/signup.js:103 | typing the code that was sent, before its deadline, is a match |
| Otp.OtherCodeFails | panel/js/signup.js:103-118 | typing any other number before the deadline is a mismatch |
| Login.FindUserByLogin | panel/js/script.js:51-58 | the first stored user the login text names, by email when it holds `@` and by username otherwise, ignoring case; none exactly when no user is named |
| Login.Status | panel/js/script.js:102 | a missing or empty status reads as `active` |
| Login.LoginCheck | panel/js/script.js:92-111 | a missing field and an unknown user are reported exactly in their cases; a code is sent exactly when the named user's password matches and the account is neither banned nor frozen |
| Login.LoginPage.constructor | panel/js/script.js:40-43 | the page starts with no code and no waiting user |
| Login.LoginPage.Generate | panel/js/script.js:82-87 | a new six-digit code valid for five minutes |
| Login.LoginPage.Submit | panel/js/script.js:90-116 | the trimmed login is checked; a refused login changes nothing; an accepted one keeps the user found, whose password is the one typed, and sends a fresh code |
| Login.LoginPage.Verify | panel/js/script.js:119-135 | a blank entry is refused first, then the code is checked; only a match writes, and it stores as the session the waiting user, who may log in |
| Login.LoginPage.Resend | panel/js/script.js:138-141 | a code is resent exactly when a user is waiting, otherwise nothing changes |
| Login.LoginByUsernameFindsUser | panel/js/script.js:56 | with usernames distinct ignoring case, logging in with a user's own username finds that very user |
| Profile.Shown | panel/js/customise_profile.js:82-85 | an empty field is shown as `N/A`, any other as itself; what is shown is never empty |
| Profile.PasswordCheck | panel/js/customise_profile.js:250-267 | the change goes ahead exactly when the two entries agree, have six or more UTF-16 code units, a user is signed in and the password differs from the current one; a mismatch and a short password are each reported exactly in their case |
| Profile.ProfilePage.constructor | panel/js/customise_profile.js:48-57 | the page's user is the session record |
| Profile.ProfilePage.SaveFullname | panel/js/customise_profile.js:142-180 | a trimmed name that is non-empty and differs from the name shown replaces the full name in the session and in the same user of the list; otherwise nothing is written |
| Profile.ProfilePage.ChangePassword | panel/js/customise_profile.js:244-280 | the checks decide; only an accepted change writes, putting the new password in the session and in the same user of the list |
| Profile.LogOut | panel/js/index.js:45-50 | after logging out there is no session |
| Profile.FindIgnoresPasswords | panel/js/customise_profile.js:269-271 | changing a stored password does not change which user a login text finds |
| Profile.NewPasswordLogsIn | panel/js/customise_profile.js:269-273 | once the change reaches the user list, the new password gets the user a code and the old one is refused |
| Home.LiveSubscription | panel/js/index.js:21 | a subscription is live exactly when one is stored and the time has not passed its expiry, and then it is the stored one |
| Home.GetSubscription | panel/js/index.js:18-27 | an expired or missing record is removed and reads as none; a live one is returned and kept |
| Home.IsSubscribed | panel/js/index.js:29 | subscribed exactly when a live subscription exists, with the expired record removed |
| Home.LiveSubscriptionIdempotent | panel/js/index.js:18-27 | reading the subscription again finds what the first read left |
| Home.LiveSubscriptionEarlier | panel/js/index.js:21 | a subscription live at some time was live at every earlier time |
| Home.BoughtPlanIsLive | panel/js/subscription.js:118-122 | a plan bought at some time unlocks the features exactly for the plan's days, expiry included |
| Home.Capitalized | panel/js/index.js:78 | the name keeps its length, with its first character upper-cased and the rest unchanged |
| Home.LowerOfUpper | panel/js/index.js:78 | upper-casing a character and lower-casing it gives the lower-cased character |
| Home.GreetingNamesUser | panel/js/index.js:75-80 | the greeting differs from the username only in case |
| Home.LockState | panel/js/index.js:109-129 | the Telegram and Contact cards and cards without a badge are left alone; every other card is locked exactly when the user is not subscribed |
| Home.RefreshFeatureLocks | panel/js/index.js:106-130 | the loop gives every card, in page order, its lock state |
| Home.FeatureClick | panel/js/index.js:140-159 | a `#` link is under construction exactly when it is `#`; the click goes to the plans, with the feature as the redirect, exactly for an internal link while unsubscribed |
| Home.LockedCardGoesToPlans | panel/js/index.js:118-157 | a card shown locked sends its internal click to the plans |
| Home.SubscriberNeverGated | panel/js/index.js:154-157 | a subscriber's click is never sent to the plans |
| Home.FindCard | panel/js/index.js:172 | the first card of the feature, if any; none exactly when no card has it |
| Home.AutoOpen | panel/js/index.js:168-175 | the page opens a link exactly when an `open` parameter is given, the user is subscribed and a card of that feature exists, and the link is that card's |
| Wallet.MinDeposit | panel/js/wallet.js:12-21 | the stored minimum deposit, ₹60 when none is stored, and zero for a stored `null` |
| Wallet.DepositLink | panel/js/wallet.js:110-112 | the link is `purchase.html` followed by the deposit query |
| Wallet.DepositCheck | panel/js/wallet.js:100-113 | a NaN amount or one under the minimum is refused exactly in those cases; any other goes to the payment page with the deposit link |
| Wallet.AmountTextPlain | panel/js/wallet.js:110 | the text of an amount holds neither `&` nor `=` |
| Wallet.DepositSearchParams | panel/js/wallet.js:110-112 | the payment page reads the deposit query back as exactly plan `Deposit`, the amount's text and redirect `wallet` |
| Wallet.DepositPageFields | panel/js/wallet.js:110-112 | the payment page sees a `Deposit` plan, the amount's text as price, and the wallet as the place to return to |
| Wallet.DepositReachesPayment | panel/js/wallet.js:100-113 | an accepted deposit, once a valid transaction id is entered, is settled as a deposit of exactly the amount entered |
| Wallet.BalanceTextReadsBack | panel/js/wallet.js:54-56 | the balance shown reads back as the stored balance |
| Wallet.TxLineShowsAmount | panel/js/wallet.js:58-78 | each history line shows the entry's amount |
| Wallet.HistoryLines | panel/js/wallet.js:58-78 | one line per stored entry, newest first |
| GlobalSettings.LoadSettings | panel/admin/js/global_settings.js:58-65 | given complete defaults, the loaded settings always have a UPI id, a minimum deposit and prices; without stored settings they are the defaults object itself, otherwise the stored fields over the defaults |
| GlobalSettings.SavedSettingsReadBack | panel/admin/js/global_settings.js:58-69 | settings that have every default field load back unchanged |
| GlobalSettings.Stored | panel/admin/js/global_settings.js:132-147 | a parsed number is stored as itself and a NaN as `null`, exactly |
| GlobalSettings.GeneralUpdate | panel/admin/js/global_settings.js:129-134 | the held settings take the trimmed UPI id and the parsed minimum deposit and keep every other field of the loaded settings, so complete settings stay complete |
| GlobalSettings.PricesOfPlans | panel/admin/js/global_settings.js:143-148 | the new price map has exactly the plans of the price inputs |
| GlobalSettings.PricesOfLastWins | panel/admin/js/global_settings.js:145-148 | a plan takes the price of its last input |
| GlobalSettings.PriceUpdate | panel/admin/js/global_settings.js:142-153 | the held settings take the new price map and keep every other field of the loaded settings |
| GlobalSettings.PriceShown | panel/admin/js/global_settings.js:117-120 | a price box shows the stored price unless it is missing, `null` or zero, and then the default; it never shows zero |
| GlobalSettings.SettingsPage.constructor | panel/admin/js/global_settings.js:24-28 | the page starts with no code, no countdown and nothing pending |
| GlobalSettings.SettingsPage.Generate | panel/admin/js/global_settings.js:74-106 | a new six-digit code valid for five minutes, with the countdown running |
| GlobalSettings.SettingsPage.SubmitGeneral | panel/admin/js/global_settings.js:127-137 | the general update of the loaded settings is held and a code is sent; with nothing stored, the update is written into the defaults object the page loaded, so the defaults become the held settings |
| GlobalSettings.SettingsPage.SubmitPrices | panel/admin/js/global_settings.js:140-156 | the price update of the settings loaded over the current defaults is held and a code is sent; the defaults stay as they are |
| GlobalSettings.SettingsPage.Close | panel/admin/js/global_settings.js:160-167 | closing drops the held settings and stops the countdown |
| GlobalSettings.SettingsPage.Tick | panel/admin/js/global_settings.js:80-93 | a countdown tick at or past the deadline drops the code and stops the countdown; any other tick changes nothing |
| GlobalSettings.SettingsPage.Verify | panel/admin/js/global_settings.js:173-203 | the trimmed entry is checked; only a match writes, storing exactly the held settings and then dropping them; anything else changes nothing |
| GlobalSettings.ConfirmedSaveReadsBack | panel/admin/js/global_settings.js:188-191 | after a confirmed save the page loads back exactly what was held |
| GlobalSettings.GeneralSaveReadsBack | panel/admin/js/global_settings.js:127-191 | a confirmed general form reloads with the new UPI id and minimum deposit and the prices it had |
| GlobalSettings.PriceSaveReadsBack | panel/admin/js/global_settings.js:140-191 | a confirmed price form reloads showing, for each plan, the last non-zero price entered for it |
| GlobalSettings.UnconfirmedGeneralIsSaved | panel/admin/js/global_settings.js:127-191 | with nothing stored, a general form that is closed unconfirmed still reaches storage with the next confirmed price form: the saved settings carry its UPI id and minimum deposit next to the new prices |

## Left out

- Rendering is not modelled: the DOM, alerts, the clipboard, colours and message texts. A redirect is an outcome value and `confirm()` is a boolean argument.
- Timers are not modelled beyond one `Tick` per countdown. The countdown texts and the `setTimeout` processing delays are display only.
- `Date.now()` and `Math.random()` are parameters. The Lifafa and transaction ids built from them are not proved unique, because the source does not make them so.
- Floating point is not modelled: amounts are whole paise. The two-decimal texts written by `toFixed(2)` are modelled exactly for paise values; the rounding of values finer than a paisa, and amounts beyond 2^53, are not.
- `Number()` and `isNaN` follow the JavaScript number grammar (`NumberLike`, `NumberValue`): optionally signed decimal literals with a fraction and an exponent, `Infinity`, and unsigned `0x`/`0o`/`0b` literals, with blank text reading as zero. The value is kept exact, as digits and a power of ten, instead of being rounded to a double.
- Otp.EnteredValue: an entry matches when its exact decimal value is the code. An entry that only rounds to the code as a double, such as `123456.00000000000001`, is not matched, because doubles are not modelled.
- Common.ParseAmount: `Infinity` reads as not a number, because whole paise cannot hold an infinity; `parseFloat` gives Infinity. Digits finer than a paisa are dropped.
- Purchase.Verdict: a price of `Infinity` is refused as unreadable, since `ParseAmount` reads it as not a number; the source would credit or charge an infinite amount.
- Purchase.PurchasePage.Settle: a price of `Infinity` is refused as unreadable, as in `Verdict`; the source would store an infinite balance.
- Case is handled for ASCII letters only (`toLowerCase`/`toUpperCase`).
- `decodeURIComponent`, `encodeURIComponent` and `URLSearchParams` are not modelled. Keys and values are taken as written, and the `open` and `redirect` values of the home and plans pages are parameters.
- JSON is not modelled: every stored record is already a value, and a parse failure reads as the default the page uses.
- Concurrency is not modelled: handlers run one at a time, with no races between tabs.
- The admin session checks and admin logout are not modelled; they are a stored-flag compare plus a redirect. The admin login file is not part of this model.
- The Telegram alert bot, the separate login script that writes an unread `session` key, and the empty text helpers are not part of this model.
- The QR code library is not modelled. The payment page's UPI link is modelled; drawing it is not.
- The profile logo upload and reset are not modelled: they use the browser's file reader and only touch a display setting.
- The `btoa` short link of the refund page is not modelled: it is display only.
- Affiliate.ReferralLink: display only, so it carries no contract.
- Every user page has a logout handler. Each one removes the session, and this is modelled once as `Profile.LogOut`.
- The home page's balance display is not modelled separately: it is the wallet's text without the space (`Wallet.BalanceTextReadsBack`).
- On the plans page, hiding the used free-trial card and the discount tags are not modelled: they are display only. The trial gate itself is in `Plans.Select`.
- Wallet history lines show the kind and the amount. The date and the note of a line are not modelled.
- Purchase.PurchasePage.Confirm: a deposit whose price text is not a number is refused (`UnreadablePrice`). The source would add `NaN` to the balance and store it, which the integer model cannot represent.
- Audit.SortNewestFirst: states that the rows end newest first and are a permutation of the input. It does not state that rows with equal dates keep their order, which JavaScript's stable sort guarantees.
