# Gmail priority sorter: classifier and settings store

This project models the rule-based email classifier of a browser extension
that re-orders a Gmail inbox, together with the store that keeps the user's
settings. It also proves properties of both.

For each inbox row the classifier does four things:

- It picks a category by first-match-wins keyword tests, in this order: urgent, meeting, action, social, promotion, then newsletter/automated sender.
- It computes an urgency score. The score starts at 50 and adds a category adjustment, keyword counts, the unread, starred and attachment flags, the VIP, ignore-list and automated-sender adjustments and the user's custom rules. The result is clamped to 0..100.
- It maps the score to one of four priority bands.
- It builds a human-readable reason.

A batch is classified and sorted by score, highest first.

The settings store merges the saved settings over the defaults. It supports partial updates and reset, and it edits the VIP and ignore lists.

Modules:

- `Wrappers`: the `Option` type.
- `Text`: the string operations the extension's code relies on. These are lower-casing, substring, prefix and suffix tests, and joining.
- `EmailTypes`: the records and enumerations of `src/types/index.ts`.
- `Keywords`: the fixed keyword tables and the automated-sender patterns.
- `Classifier`:
  - Spec functions: `MatchCondition`, `Categorize`, `UrgencyScore`, `ScoreToPriority`, `Reason` and `ClassifyEmail`.
  - Imperative counterparts: `CalculateUrgencyScore` (the loop over custom rules) and `GenerateReason`/`CollectReasonClauses` (the push sequence). Each is proved equal to its spec function.
  - `ClassifyAndSortEmails`: classifies into an array, sorts it in place, and is proved to return a stable, sorted permutation of the classifications.
- `Storage`: `SettingsStore`, a class whose one field `stored` models the `settings` key of the browser's synchronised storage. It has the settings operations, with the defaults treated as an immutable value.
- `StorageAsWritten`: the same store with the object sharing of the extension's code kept (see Findings).

## Model

| member | source | states |
|---|---|---|
| Text.Lower | src/utils/classifier.ts:90-91 | lower-casing keeps the length and maps every character by the ASCII case fold |
| Text.LowerIdempotent | src/utils/classifier.ts:119-120 | lower-casing twice is lower-casing once |
| Text.Includes | src/utils/classifier.ts:96 | (definition) `includes`: the pattern occurs in the string at some offset, the end of the string included |
| Text.HasPrefix | src/utils/classifier.ts:98 | (definition) `startsWith`: the pattern is no longer than the string and is its leading part |
| Text.HasSuffix | src/utils/classifier.ts:100 | (definition) `endsWith`: the pattern is no longer than the string and is its trailing part |
| Text.Join | src/utils/classifier.ts:302 | joining one part gives that part; joining none gives the empty string |
| Text.JoinContainsSeparator | src/utils/classifier.ts:302 | joining two or more parts always leaves the separator in the result |
| Keywords.UrgentKeywords | src/utils/classifier.ts:18-23 | (definition) the 21 urgent keywords in source order, mixed-case duplicates kept (`URGENT` and `urgent`, `deadline` and `Deadline`) |
| Keywords.MeetingKeywords | src/utils/classifier.ts:28-33 | (definition) the 21 meeting keywords in source order, duplicates up to case kept |
| Keywords.ActionKeywords | src/utils/classifier.ts:38-43 | (definition) the 20 action keywords in source order, duplicates up to case kept |
| Keywords.NewsletterKeywords | src/utils/classifier.ts:48-52 | (definition) the 14 newsletter keywords in source order, duplicates up to case kept |
| Keywords.PromotionKeywords | src/utils/classifier.ts:54-59 | (definition) the 24 promotion keywords in source order, including the three spellings `sale`/`Sale`/`SALE` and `free`/`Free`/`FREE` |
| Keywords.SocialKeywords | src/utils/classifier.ts:64-70 | (definition) the 24 social keywords in source order, duplicates up to case kept |
| Keywords.LowPrioritySenderPatterns | src/utils/classifier.ts:75-85 | (definition) each case-insensitive pattern `/x@/i` becomes the lower-case literal `x@`; `notifications?@` becomes the two literals `notification@` and `notifications@` |
| Classifier.MatchCondition | src/utils/classifier.ts:90-113 | (definition) the field value and the pattern are lower-cased unless the condition is case-sensitive; `contains`, `startsWith`, `endsWith` and `exact` are substring, prefix, suffix and equality tests on them; `regex` compiles the original pattern through the engine (the `i` flag unless case-sensitive) and tests the original value, false if it does not compile; any other match type gives false |
| Classifier.MatchConditionFoldsCase | src/utils/classifier.ts:90-102 | a case-insensitive literal condition gives the same answer on the lower-cased value and with a lower-cased pattern |
| Classifier.RegexConditionUsesEngine | src/utils/classifier.ts:103-109 | a regex condition holds exactly when the engine, given the original value and the `i` flag unless case-sensitive, reports a match; a pattern that does not compile gives false |
| Classifier.UnrecognizedMatchTypeNeverMatches | src/utils/classifier.ts:110-111 | a match type outside the five known ones never matches |
| Classifier.MatchTypeStrength | src/utils/classifier.ts:94-102 | exact implies prefix and suffix, and prefix or suffix implies contains, for the same value and pattern |
| Classifier.KeywordMatches | src/utils/classifier.ts:119-120 | (definition) the lower-cased keyword occurs in the lower-cased text |
| Classifier.ContainsKeywords | src/utils/classifier.ts:118-121 | (definition) some entry of the list matches the text in that sense |
| Classifier.CountKeywordMatches | src/utils/classifier.ts:126-129 | the number of matching entries never exceeds the length of the list |
| Classifier.CountIsMatchingPositions | src/utils/classifier.ts:126-129 | the count is the number of list positions whose keyword occurs in the text, ignoring case; duplicates count separately |
| Classifier.CountPositiveIffContains | src/utils/classifier.ts:118-129 | the count is positive if and only if `containsKeywords` holds for the same list |
| Classifier.CaseVariantsCountTwice | src/utils/classifier.ts:126-129 | two entries equal up to case both count, so a text holding one scores at least two |
| Classifier.UrgentCountsBothSpellings | src/utils/classifier.ts:18-26 | a text holding "urgent" in any case matches both `URGENT` and `urgent`, so it counts at least 2 urgent keywords |
| Classifier.IsLowPrioritySender | src/utils/classifier.ts:75-86 | (definition) some automated-sender pattern occurs in the lower-cased sender |
| Classifier.LowSenderIgnoresCase | src/utils/classifier.ts:134-136 | whether a sender counts as automated does not depend on its letter case |
| Classifier.MixedCaseNoReplyIsAutomated | src/utils/classifier.ts:76 | `NoReply@shop.example.com` is recognised as automated despite its capitals |
| Classifier.CombinedText | src/utils/classifier.ts:142 | (definition) the subject and the snippet joined by one space, as in the template string (also lines 176 and 266) |
| Classifier.LooksUrgent | src/utils/classifier.ts:145 | (definition) an urgent keyword occurs in the combined text |
| Classifier.LooksLikeMeeting | src/utils/classifier.ts:148 | (definition) a meeting keyword occurs in the combined text |
| Classifier.NeedsAction | src/utils/classifier.ts:151 | (definition) an action keyword occurs in the combined text |
| Classifier.LooksSocial | src/utils/classifier.ts:154 | (definition) a social keyword occurs in the sender or in the subject; the snippet is not searched |
| Classifier.LooksPromotional | src/utils/classifier.ts:157 | (definition) a promotion keyword occurs in the combined text |
| Classifier.LooksLikeNewsletter | src/utils/classifier.ts:160 | (definition) a newsletter keyword occurs in the combined text, or the sender is automated |
| Classifier.Categorize | src/utils/classifier.ts:141-165 | the detector never yields `important` or `fyi` |
| Classifier.FirstMatch | src/utils/classifier.ts:141-165 | first-match-wins over a test table: the first test that fires names the result, and `Other` when none does |
| Classifier.CategorizeIsFirstMatch | src/utils/classifier.ts:141-165 | the category is the first firing test of the ordered table urgent, meeting, action, social (sender or subject), promotion, newsletter (keywords or automated sender) |
| Classifier.CategoryScore | src/utils/classifier.ts:179-190 | (definition) the table of base adjustments: urgent +30, important +20, meeting and action +15, fyi and other 0, newsletter -20, promotion -25, social -15 |
| Classifier.IsVip | src/utils/classifier.ts:214 | (definition) some VIP entry, lower-cased, occurs in the lower-cased sender |
| Classifier.IsIgnored | src/utils/classifier.ts:219 | (definition) some ignore-list entry, lower-cased, occurs in the lower-cased sender |
| Classifier.RuleMatches | src/utils/classifier.ts:232-235 | (definition) every condition of the rule holds for the email field it names |
| Classifier.RuleBoost | src/utils/classifier.ts:230-239 | (definition) an enabled rule whose conditions all hold adds its `scoreBoost`; any other rule adds 0 |
| Classifier.CustomRulesBoost | src/utils/classifier.ts:229-240 | (definition) the sum of the rule contributions over the list, in order |
| Classifier.RawUrgencyScore | src/utils/classifier.ts:175-240 | (definition) 50 plus the category adjustment, 10 per urgent and 5 per action keyword, 10/15/5 for unread/starred/attachment, +30 VIP, -40 ignored, -20 automated sender, plus the rule contributions |
| Classifier.CustomRulesBoostAppend | src/utils/classifier.ts:229-240 | rule contributions add up over concatenation, so no rule shadows another |
| Classifier.SingleRuleBoost | src/utils/classifier.ts:229-240 | one rule adds its boost exactly when it is enabled and every condition holds, and nothing otherwise |
| Classifier.DisabledRuleContributesNothing | src/utils/classifier.ts:230 | removing a disabled rule from anywhere in the list leaves the total unchanged |
| Classifier.EmptyRuleAlwaysMatches | src/utils/classifier.ts:232-235 | a rule without conditions matches every email (vacuous `every`) |
| Classifier.BadRegexRuleContributesNothing | src/utils/classifier.ts:103-109 | a rule with a regex condition that fails to compile adds nothing |
| Classifier.Clamp | src/utils/classifier.ts:243 | the result lies in 0..100; a raw value above 100 gives exactly 100, below 0 exactly 0, and in range is kept |
| Classifier.UrgencyScore | src/utils/classifier.ts:170-244 | the urgency score always lies in 0..100 |
| Classifier.AppendedRuleShiftsRawScore | src/utils/classifier.ts:229-240 | appending a rule shifts the raw score by exactly that rule's contribution |
| Classifier.TwoMatchingRulesAccumulate | src/utils/classifier.ts:229-240 | two enabled matching rules both apply: their boosts add up over the rule-free raw score |
| Classifier.SenderListsAreAdditive | src/utils/classifier.ts:213-221 | the VIP bonus of 30 and the ignore penalty of 40 are added to the score without the lists and cancel no other contribution |
| Classifier.EmptyVipEntryMatchesEverySender | src/utils/classifier.ts:214 | an empty VIP entry makes every sender a VIP |
| Classifier.CalculateUrgencyScore | src/utils/classifier.ts:170-244 | the step-by-step computation and its loop over custom rules give exactly the specified clamped score, in 0..100 |
| Classifier.ScoreToPriority | src/utils/classifier.ts:249-254 | critical iff score >= 80, high iff 60..79, medium iff 40..59, low iff below 40 |
| Classifier.ScoreToPriorityMonotone | src/utils/classifier.ts:249-254 | a higher score never gives a lower priority |
| Classifier.ScoreToPriorityEdges | src/utils/classifier.ts:249-254 | 39/40, 59/60 and 79/80 fall on either side of the low/medium, medium/high and high/critical edges |
| Classifier.FindVip | src/utils/classifier.ts:269-271 | no result iff no VIP entry occurs in the sender; a result is a list entry that matches, and is the head when the head matches |
| Classifier.FindVipIsFirst | src/utils/classifier.ts:269-271 | the result is the earliest matching entry: every entry before it fails |
| Classifier.VipClauses | src/utils/classifier.ts:269-274 | (definition) the VIP clause naming the first matching entry, only when that entry is not empty (an empty string is falsy) |
| Classifier.UrgentFires | src/utils/classifier.ts:277 | (definition) the category is urgent and an urgent keyword occurs in the combined text |
| Classifier.ReasonClauses | src/utils/classifier.ts:265-296 | (definition) in order: the VIP clause for a non-empty first matching entry, the urgent clause when the category is urgent and urgent keywords occur, the meeting and action clauses for those categories, then unread, starred and attachment |
| Classifier.ReasonParts | src/utils/classifier.ts:298-300 | (definition) the clauses, or the standard clause alone when there are none |
| Classifier.Reason | src/utils/classifier.ts:259-303 | (definition) the parts joined by " / " |
| Classifier.ReasonClauseMembership | src/utils/classifier.ts:265-296 | a clause is in the list iff it is the VIP clause or a fixed clause whose condition fires |
| Classifier.ReasonClausesTrackSignals | src/utils/classifier.ts:277-296 | each of the unread, starred, attachment, meeting, action and urgent clauses appears iff its condition holds |
| Classifier.VipClauseComesFirst | src/utils/classifier.ts:269-274 | a non-empty matched VIP entry gives the first clause, naming that entry |
| Classifier.StandardReasonIffNoClause | src/utils/classifier.ts:298-302 | the reason is the standard clause iff no clause fired |
| Classifier.CollectReasonClauses | src/utils/classifier.ts:265-296 | the pushes, in the source's order, give exactly the specified clause list |
| Classifier.GenerateReason | src/utils/classifier.ts:259-303 | the imperative builder with its fallback and join gives exactly the specified reason |
| Classifier.ClassifyEmail | src/utils/classifier.ts:308-328 | the identity fields are copied unchanged, and the score lies in 0..100; the result combines the detected category, that category's score, the band of that score and the reason |
| Classifier.UrgentClauseIffUrgentCategory | src/utils/classifier.ts:145-147 | in a classification the urgent clause appears iff the category is urgent |
| Classifier.VipAloneIsCritical | src/utils/classifier.ts:170-244 | a VIP `other` mail with no flags, not ignored and without rules scores exactly 80 and is critical |
| Classifier.UrgentActionUnreadIsCritical | src/utils/classifier.ts:141-244 | an unread mail holding an urgent and an action keyword is urgent (ordinary sender, not ignored, no rules); its raw score of at least 105 is clamped to exactly 100, it is critical, and its reason has the urgent and unread clauses |
| Classifier.AutomatedPromotionIsLow | src/utils/classifier.ts:141-244 | a promotion mail from an automated sender, with no other category keyword, is `promotion` rather than `newsletter` (no flags, not VIP or ignored, no rules); it scores exactly 5, is low and gets the standard reason |
| Classifier.ClassifyAll | src/utils/classifier.ts:337 | (definition) the classification of each email, position by position |
| Classifier.WithScore | src/utils/classifier.ts:340 | (definition) the subsequence of the entries with a given score, in their order |
| Classifier.SameOrderAmongEqualScores | src/utils/classifier.ts:340 | (definition) stability: for every score, the entries with that score stand in the same order in both sequences |
| Classifier.SameOrderTransitive | src/utils/classifier.ts:340 | keeping the order among equal scores composes over successive rearrangements |
| Classifier.WithScoreAppend | src/utils/classifier.ts:340 | the entries of one score in a concatenation are those of the first part followed by those of the second |
| Classifier.WithScoreCounts | src/utils/classifier.ts:340 | an entry occurs among the entries of its own score exactly as often as in the whole sequence |
| Classifier.SameOrderKeepsMultiset | src/utils/classifier.ts:340 | two sequences with the same order among equal scores are permutations of each other |
| Classifier.SwapOfUnequalScoresKeepsOrder | src/utils/classifier.ts:340 | exchanging two neighbours with different scores keeps the order among equal scores |
| Classifier.SwapWithPrevious | src/utils/classifier.ts:340 | exchanges an entry with its lower-scoring left neighbour; nothing else moves and the order among equal scores is kept |
| Classifier.InsertIntoSortedPrefix | src/utils/classifier.ts:340 | one insertion step: moves an entry into a prefix sorted by descending score, leaving the longer prefix sorted, with the order among equal scores kept |
| Classifier.SortByScoreDescending | src/utils/classifier.ts:340 | the array ends ordered by descending score, is a permutation of its old contents, and the sort is stable: equal scores keep their old order, as the comparator `b - a` returns 0 for them |
| Classifier.ClassifyAndSortEmails | src/utils/classifier.ts:333-341 | one result per email; the results are a permutation of the per-email classifications, highest score first, and emails with equal scores keep their input order |
| Classifier.SortedResultsAreClassifications | src/utils/classifier.ts:337-340 | every sorted result is the classification of some input email |
| Storage.DefaultSettings | src/utils/storage.ts:10-19 | (definition) every switch on, empty VIP, ignore and rule lists, automatic theme |
| Storage.Overlay | src/utils/storage.ts:29 | (definition) the object spread: each field present in the patch replaces the base field (also the update spread at line 57) |
| Storage.OverlayFieldwise | src/utils/storage.ts:29 | in the spread merge, each field present in the stored value replaces the default, and every absent field keeps it |
| Storage.OverlayAsPatch | src/utils/storage.ts:24-50 | a saved complete value reads back unchanged over any defaults |
| Storage.OverlayNoUpdates | src/utils/storage.ts:55-60 | an empty update changes nothing |
| Storage.OverlayThen | src/utils/storage.ts:55-60 | two successive partial updates equal one update by their combination |
| Storage.OverlayIdempotent | src/utils/storage.ts:55-60 | the same partial update applied twice equals once |
| Storage.AppendAbsentKeepsDistinct | src/utils/storage.ts:75-76 | appending an address not yet present keeps a list free of duplicates |
| Storage.RemoveAll | src/utils/storage.ts:87 | the address no longer occurs, every other entry survives as often as before, and the list never grows |
| Storage.RemoveAllAppend | src/utils/storage.ts:87 | the filter distributes over concatenation, so survivors keep their order |
| Storage.RemoveAllAbsent | src/utils/storage.ts:109 | removing an absent address leaves the list unchanged |
| Storage.RemoveAllKeepsDistinct | src/utils/storage.ts:109 | removing keeps a duplicate-free list duplicate-free |
| Storage.SettingsStore.Current | src/utils/storage.ts:24-35 | (definition) what reading the settings resolves to: the defaults when nothing is stored, else the stored value overlaid on them |
| Storage.SettingsStore.GetSettings | src/utils/storage.ts:24-35 | the defaults when nothing is stored, else the stored value merged over the defaults |
| Storage.SettingsStore.SaveSettings | src/utils/storage.ts:40-50 | stores the complete value, and reading back gives it unchanged |
| Storage.SettingsStore.UpdateSettings | src/utils/storage.ts:55-60 | the result is the old settings with exactly the given fields replaced; it is what is now stored and read back |
| Storage.SettingsStore.ResetSettings | src/utils/storage.ts:65-68 | saves and returns the defaults: all switches on, empty lists, automatic theme |
| Storage.SettingsStore.AddToVipList | src/utils/storage.ts:73-80 | a present address changes nothing, and the store is untouched; an absent one is appended and saved. Afterwards the address is listed and no duplicate appears |
| Storage.SettingsStore.RemoveFromVipList | src/utils/storage.ts:85-90 | every occurrence is removed, other fields are unchanged, and the result is saved |
| Storage.SettingsStore.AddToIgnoreList | src/utils/storage.ts:95-102 | as for the VIP list, on the ignore list |
| Storage.SettingsStore.RemoveFromIgnoreList | src/utils/storage.ts:107-112 | as for the VIP list, on the ignore list |
| Storage.ResetAfterFirstVipAdd | src/utils/storage.ts:65-80 | with immutable defaults, a reset after a first VIP add gives the defaults with an empty VIP list |
| StorageAsWritten.SharedDefaultsStore.Defaults | src/utils/storage.ts:10-19 | (definition) the default object as it now is: the fixed switches and theme with the current contents of its two list arrays |
| StorageAsWritten.SharedDefaultsStore.Current | src/utils/storage.ts:24-35 | (definition) the default object itself when nothing is stored, else the stored value overlaid on it |
| StorageAsWritten.SharedDefaultsStore.AddToVipList | src/utils/storage.ts:73-80 | as written: an absent address is appended to the handed-out list. When that list is the default object's own array, the defaults change as well |
| StorageAsWritten.SharedDefaultsStore.AddToIgnoreList | src/utils/storage.ts:95-102 | the same for the ignore list |
| StorageAsWritten.SharedDefaultsStore.RemoveFromVipList | src/utils/storage.ts:85-90 | as written: with nothing stored, the filtered list is assigned into the default object itself |
| StorageAsWritten.SharedDefaultsStore.RemoveFromIgnoreList | src/utils/storage.ts:107-112 | the same for the ignore list |
| StorageAsWritten.SharedDefaultsStore.ResetSettings | src/utils/storage.ts:65-68 | as written: saves and returns the default object in its current, possibly altered, state |
| StorageAsWritten.ResetAfterFirstVipAddKeepsAddress | src/utils/storage.ts:29-31 | as written: on a fresh store, a VIP add then a reset returns a VIP list holding the address, which is not the defaults |

## Left out

- `toLowerCase` is modelled for ASCII letters only. Other Unicode case mappings are not captured; the Japanese keywords have no case.
- Strings are sequences of characters; UTF-16 code units versus code points are not distinguished.
- Regular expressions are not implemented. User patterns go through a caller-supplied `RegexEngine` that either fails to compile or answers a test. The built-in automated-sender patterns are plain substrings with the `i` flag, so they are modelled as lower-cased substring tests, with `notifications?@` as the two literals `notification@` and `notifications@`.
- Scores and `scoreBoost` are integers. A fractional or non-finite boost from JavaScript numbers is not modelled.
- The `priority` and `category` fields of a custom rule are carried in the data but never read by the classifier. The model follows the code, which only adds `scoreBoost`.
- The unused `urgencyScore` parameter of `generateReason` is kept in `GenerateReason` and likewise does nothing.
- Promises, callbacks and `chrome.runtime.lastError` are left out, so saving always succeeds. The storage is synchronous and single-user.
- Serialisation of the stored value is not modelled. The model assumes every saved field comes back as saved, and that no field is explicitly `undefined` in an update.
- The DOM collection, the message passing and the UI files are not part of this model.

## Findings

| source | as written | input that shows it | evidently intended | confidence | as-written member | corrected member |
|---|---|---|---|---|---|---|
| src/utils/storage.ts:29-31 | `getSettings` returns the `DEFAULT_SETTINGS` object itself when nothing is stored, and the merged copy shares its list arrays when the stored value lacks a list; `addToVipList`/`addToIgnoreList` then `push` into the defaults' arrays (and, when nothing is stored, the removes assign into the defaults object) | on a fresh store call `addToVipList("boss@example.com")`, then `resetSettings()`: the reset returns and saves a VIP list `["boss@example.com"]` | reset restores the pristine defaults: empty VIP and ignore lists | not executed | StorageAsWritten.ResetAfterFirstVipAddKeepsAddress | Storage.ResetAfterFirstVipAdd |
