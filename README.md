# Spot search and account forms, modelled in Dafny

This project models the client-side logic of a small React application. The
application searches a hosted document store for "spots" (sightseeing places
with a name, an area, a URL and a list of categories), and it manages a user
account through a hosted identity provider.

The store and the provider are replaced by in-memory stand-ins:

- The `spots` collection is a sequence of `Spot` values in document-id order.
- The `area_list` and `category_list` lookups are maps from id to name. A
  missing key stands for a `getDoc` whose snapshot has no data.
- `Db.queriesSucceed` says whether `getDocs` resolves.
- Every provider call becomes a parameter `Ok | Err(code)`.

Three groups of logic are modelled.

- **Search result assembly**, in two variants that differ on purpose:
  - **Current dashboard** (`Dashboard`): the name search issues a prefix
    range ordered by name, or `name == null` for an empty query. The combined
    search takes per-area `==` queries and per-category `array-contains`
    queries, collects the area ids into a set, keeps category matches whose id
    is in that set, and drops repeated ids. With no category selected it
    concatenates the per-area matches. A record's category references are
    resolved into one string joined with `", "`.
  - **Older dashboard** (`DashboardBackup`): one `in` query and one
    `array-contains-any` query, intersected when both are set. Categories are
    joined with `","`. It adds the `spotsExist` flag, the search button's
    label and enable rule, and the split/trim/filter used to show categories.
  - **Shared by both:** checkbox toggling (`Selection`) and category
    resolution (`Resolution`).
- **Form reducers and enabling rules** for sign-up, login, password reset and
  profile update. Each reducer is a total function on a record, shown to
  write only the fields its action names. Each enable effect is a predicate on
  trimmed text. Each submit handler is a method that performs the source's
  dispatches in order. For the profile form, the model also states which
  provider updates a submission requests.
- **Provider error codes**, mapped to the message each form shows. Every
  map is total, with a default branch.

Assumptions the model rests on:

- `trim` removes the ECMAScript WhiteSpace and LineTerminator characters
  (`Text.IsWhitespace`).
- The store orders strings by code point, lexicographically (`Text.Le`).
- A query with no `orderBy` returns documents in store order. `orderBy("name")`
  is a stable sort by name over store order.

Behaviour of the code that the model keeps:

- **Category resolution.** One failed category reference empties the whole
  joined string to `""`, discarding the names already resolved
  (`Resolution.CategoryFieldAllOrNothing`).
- **Prefix range end.** The range ends at `q + ""` (U+F8FF), not U+FFFF.
  Names that continue with a character above U+F8FF are therefore not found
  (`SpotStore.PrefixRangeIff`).
- **Toggling twice.** Toggling an id twice restores the list only when the id
  was absent. When it was present, it comes back at the end of the list
  (`Selection.ToggleTwicePresent`).
- **Missing area document.** One missing area document makes the whole search
  fail. A failed name search leaves `searching` true, because nothing catches
  it.

## Model

| member | source | states |
|---|---|---|
| Text.Trim | src/components/Signup.js:94-96 | the result neither starts nor ends with white space |
| Text.TrimRemovesSurroundingWhitespace | src/components/Signup.js:94-96 | `trim()` returns a slice of the input with only white space cut off before and after it; with Text.Trim this fixes the result |
| Text.TrimEmptyIff | src/components/Signup.js:93-97 | a string trims to "" exactly when it has no character other than white space, so a `trim()` truthiness test is a test for a visible character |
| Text.Split | src/components/Dashboard_backup.js:547 | `split(',')` with a one-character separator: at least one part and no part holds the separator; Text.JoinSplit ties the parts to the input |
| Text.SplitJoin | src/components/Dashboard_backup.js:169 | splitting a join of separator-free parts on the separator gives the parts back |
| Text.JoinSplit | src/components/Dashboard_backup.js:547 | joining the parts of a split with the separator gives the string back, so the parts are exactly the pieces between separators |
| Text.Join | src/components/Dashboard.js:100 | `Array.prototype.join`: no parts give "" and one part gives that part; Text.SplitJoin and Text.JoinSplit relate it to Text.Split, and Resolution.CategoryFieldResolved uses it for the category string |
| Text.LeTotal | src/components/Dashboard.js:73 | the store's string order is total, so the name order used by `orderBy` is defined for every pair of names |
| Text.LeTransitive | src/components/Dashboard.js:73 | the string order is transitive |
| Text.LeAntisymmetric | src/components/Dashboard.js:73 | two names that are each at most the other are equal |
| Text.Le | src/components/Dashboard.js:73-75 | definition; no contract of its own. The code-point order by which `orderBy`, `startAt` and `endAt` compare names; Text.LeTotal, Text.LeTransitive and Text.LeAntisymmetric make it a total order, and SpotStore.PrefixRangeIff characterises the range it bounds |
| SpotStore.Filter | src/components/Dashboard_backup.js:238-239 | keeps exactly the documents that pass the test, and no more than it started with |
| SpotStore.FilterConcat | src/components/Dashboard_backup.js:238-239 | filtering splits over concatenation, so it keeps store order |
| SpotStore.FilterFilter | src/components/Dashboard_backup.js:238-239 | filtering a query's documents by a second test keeps, in store order, exactly what one filter by both tests keeps |
| SpotStore.Flatten | src/components/Dashboard.js:157-197 | a document is in the concatenation of snapshots exactly when some snapshot holds it |
| SpotStore.PrefixRangeIff | src/components/Dashboard.js:74-75 | a name is in [q, q + U+F8FF] exactly when it starts with q and then ends, continues with a character below U+F8FF, or is q followed by U+F8FF alone |
| SpotStore.InsertByName | src/components/Dashboard.js:73 | inserting into a name-sorted list keeps it sorted and adds exactly that document |
| SpotStore.SortByName | src/components/Dashboard.js:73 | `orderBy("name")` returns the documents sorted by name and is a permutation of them |
| SpotStore.PrefixRange | src/components/Dashboard.js:71-76 | the prefix query returns exactly the named documents inside the range, sorted by name |
| SpotStore.AreaEquals | src/components/Dashboard.js:131-133 | `where("area", "==", ref)`: exactly the store's documents whose area is that id, in store order |
| SpotStore.AreaIn | src/components/Dashboard_backup.js:211-216 | `where("area", "in", refs)`: exactly the store's documents whose area is one of the ids, in store order |
| SpotStore.CategoryContains | src/components/Dashboard.js:138-143 | `where("category", "array-contains", ref)`: exactly the store's documents whose category list holds that id, in store order |
| SpotStore.CategoryContainsAny | src/components/Dashboard_backup.js:219-224 | `where("category", "array-contains-any", refs)`: exactly the store's documents whose category list holds one of the ids, in store order |
| SpotStore.NullName | src/components/Dashboard.js:77-81 | `where("name", "==", null)`: exactly the store's documents with a null name, in store order |
| SpotStore.NameQuery | src/components/Dashboard.js:70-82 | definition; no contract of its own. The query chosen by the truthiness of the search text; Dashboard.NonEmptyQuerySelection, Dashboard.ExactNameFound, Dashboard.NameBelowQueryExcluded and Dashboard.EmptyQuerySelection characterise its result |
| Resolution.ResolveCategories | src/components/Dashboard.js:94-99 | the names resolve exactly when every reference is in the lookup, and then the k-th name is the k-th reference's name |
| Resolution.CategoryFieldAllOrNothing | src/components/Dashboard.js:101-104 | one failed reference makes the whole category string "", even when earlier names resolved |
| Resolution.CategoryFieldResolved | src/components/Dashboard.js:100 | when every reference resolves, the category string is the names joined with the separator in reference order |
| Resolution.CategoryField | src/components/Dashboard.js:94-104 | definition; no contract of its own. The category string of one record; Resolution.CategoryFieldAllOrNothing and Resolution.CategoryFieldResolved characterise it, and Resolution.JoinCategoryNames proves the loop equal to it |
| Resolution.JoinCategoryNames | src/components/Dashboard.js:94-104 | the `for` loop with its catch computes CategoryField of the references |
| Resolution.ResolveSpot | src/components/Dashboard.js:88-111 | a record resolves exactly when its area document exists, and then carries the document's id, name and URL, the area's name and the category string |
| Resolution.ResolveAll | src/components/Dashboard.js:86-113 | the whole list resolves exactly when every area document exists, and then it is resolved record by record in the same order |
| Resolution.ResolveAllKeepsDocuments | src/components/Dashboard.js:201-220 | a resolved list has the same ids, names and URLs as the documents, in order |
| Resolution.ResolveResults | src/components/Dashboard.js:201-220 | the loop over the documents computes ResolveAll |
| Selection.Without | src/components/Dashboard.js:316 | `filter(id => id !== x)` removes x and keeps every other id; a duplicate-free list stays so |
| Selection.Toggle | src/components/Dashboard.js:313-319 | after a toggle the id is present exactly when it was absent, every other id is unchanged, and no id repeats |
| Selection.ToggleTwiceAbsent | src/components/Dashboard_backup.js:478-485 | toggling an absent id twice gives back the original list |
| Selection.ToggleTwicePresent | src/components/Dashboard_backup.js:497-503 | toggling a present id twice keeps the same ids but moves that id to the end; the list is restored only when the id was last |
| Dashboard.QueryAfterSearch | src/components/Dashboard.js:119-120 | after a search the stored query is null exactly when it was "" or null; otherwise it is kept |
| Dashboard.NameSearch | src/components/Dashboard.js:66-117 | definition; no contract of its own. The records a name search publishes, or None when `getDocs` rejects; it is ResolveAll (Resolution.ResolveAll, Resolution.ResolveAllKeepsDocuments) over NameQuery, and Dashboard.DashboardView.HandleNameSearch publishes it |
| Dashboard.NonEmptyQuerySelection | src/components/Dashboard.js:70-76 | a non-empty query selects exactly the spots whose name lies between q and q + U+F8FF, sorted by name |
| Dashboard.ExactNameFound | src/components/Dashboard.js:70-76 | a spot named exactly q is found |
| Dashboard.NameBelowQueryExcluded | src/components/Dashboard.js:70-76 | no spot whose name is below q is found |
| Dashboard.EmptyQuerySelection | src/components/Dashboard.js:77-81 | an empty or null query selects exactly the spots with a null name, so a store where every name is present gives [] |
| Dashboard.AreaSpotIdsUnion | src/components/Dashboard.js:131-133 | areaSpotIds holds exactly the ids of documents in some selected area |
| Dashboard.AreaSnapshots | src/components/Dashboard.js:131-137 | one snapshot per selected area, in selection order, the i-th holding exactly the store's documents in the i-th area |
| Dashboard.CategorySnapshots | src/components/Dashboard.js:136-145 | one snapshot per selected category, in selection order, the i-th holding exactly the store's documents listing the i-th category |
| Dashboard.Dedup | src/components/Dashboard.js:165-176 | the temporaryDataId bookkeeping keeps every id, adds no document and repeats no id |
| Dashboard.DedupTakesFirst | src/components/Dashboard.js:165-176 | the copy kept for an id is its first occurrence |
| Dashboard.DedupInFirstOrder | src/components/Dashboard.js:154-176 | the kept documents are in the order of their first occurrences: by selected category, then store order |
| Dashboard.CategoryBranchMembers | src/components/Dashboard.js:156-160 | with a category selected, every output document is in areaSpotIds and in some selected category, and no id repeats |
| Dashboard.CategoryOnlyFindsNothing | src/components/Dashboard.js:156-160 | categories selected with no area give [], because the area-id set is empty |
| Dashboard.CategoryBranch | src/components/Dashboard.js:154-176 | definition; no contract of its own. The category branch before resolution; Dashboard.CategoryBranchMembers and Dashboard.CategoryOnlyFindsNothing characterise it, Dashboard.DedupTakesFirst and Dashboard.DedupInFirstOrder its order, and Dashboard.MergeCategoryMatches proves the loop equal to it |
| Dashboard.CombinedDocs | src/components/Dashboard.js:154-199 | definition; no contract of its own. The category branch when a category is selected, else the per-area snapshots concatenated; Dashboard.CategoryBranchMembers and Dashboard.AreaOnlyConcatenation characterise the two branches |
| Dashboard.AreaOnlyConcatenation | src/components/Dashboard.js:180-197 | with no category selected, the output is the per-area matches concatenated in selection order; with nothing selected the search gives [] |
| Dashboard.CollectAreaSpotIds | src/components/Dashboard.js:147-152 | the nested forEach adds exactly the ids of the area snapshots' documents |
| Dashboard.KeepNewMatches | src/components/Dashboard.js:157-176 | one category snapshot's filter and map appends exactly the matching documents whose id is new, and pushes their ids |
| Dashboard.MergeCategoryMatches | src/components/Dashboard.js:154-176 | the forEach over category snapshots computes the de-duplicated matches of the concatenated snapshots |
| Dashboard.ConcatAreaMatches | src/components/Dashboard.js:180-197 | the else branch concatenates the area snapshots |
| Dashboard.CombinedSearch | src/components/Dashboard.js:128-227 | definition; no contract of its own. The records a combined search publishes, or None when the catch runs; it is ResolveAll over CombinedDocs, Dashboard.AreaOnlyConcatenation gives its empty-selection value, and Dashboard.DashboardView.HandleCombinedSearch publishes it |
| Dashboard.DashboardView.constructor | src/components/Dashboard.js:24-30 | no spots, empty query and selections, not searching |
| Dashboard.DashboardView.EditSearchQuery | src/components/Dashboard.js:287 | only the query changes |
| Dashboard.DashboardView.ToggleArea | src/components/Dashboard.js:313-319 | the area selection becomes its toggle, stays duplicate-free, and nothing else changes |
| Dashboard.DashboardView.ToggleCategory | src/components/Dashboard.js:332-339 | the category selection becomes its toggle, stays duplicate-free, and nothing else changes |
| Dashboard.DashboardView.HandleNameSearch | src/components/Dashboard.js:63-123 | on success the spots are the search's records and searching ends; on failure the spots stay and searching stays true; the query is nulled when it was empty |
| Dashboard.DashboardView.HandleCombinedSearch | src/components/Dashboard.js:125-231 | searching ends either way; the spots become the combined search's records, or stay as they were when the catch block runs |
| DashboardBackup.SearchButtonFor | src/components/Dashboard_backup.js:106-125 | the button is enabled exactly when an area or a category is selected; the area label is shown exactly for areas alone, the category label exactly for categories alone |
| DashboardBackup.NameSearch | src/components/Dashboard_backup.js:135-191 | definition; no contract of its own. The records the older name search publishes, or None when `getDocs` rejects; the same NameQuery (Dashboard.NonEmptyQuerySelection, Dashboard.EmptyQuerySelection) resolved with the "," separator, published by DashboardBackup.BackupDashboardView.HandleNameSearch |
| DashboardBackup.CombinedDocs | src/components/Dashboard_backup.js:227-282 | definition; no contract of its own. The intersection, one query's documents, or [] by selection; DashboardBackup.BothFiltersIntersect, DashboardBackup.BothFiltersByDocument and DashboardBackup.SingleFilterResults characterise it |
| DashboardBackup.CombinedSearch | src/components/Dashboard_backup.js:204-318 | definition; no contract of its own. The records the older combined search publishes, or None when the catch runs; it is ResolveAll over CombinedDocs, published by DashboardBackup.BackupDashboardView.HandleCombinedSearch |
| DashboardBackup.BothFiltersIntersect | src/components/Dashboard_backup.js:230-251 | with both filters the output holds the category-query documents whose id the area query also returned, and it is in store order: one pass over the store keeping the documents with a selected category whose id the area query returned |
| DashboardBackup.SingleFilterResults | src/components/Dashboard_backup.js:252-281 | with areas only the output is the area-query documents, with categories only the category-query documents, and with neither [] |
| DashboardBackup.BothFiltersByDocument | src/components/Dashboard_backup.js:236-239 | with unique store ids, the intersection holds exactly the documents in a selected area and a selected category |
| DashboardBackup.NonEmpty | src/components/Dashboard_backup.js:549 | keeps exactly the non-empty parts |
| DashboardBackup.TrimAll | src/components/Dashboard_backup.js:548 | definition; no contract of its own. `map(category => category.trim())`; DashboardBackup.TrimAllTrimmed shows it is the identity on trimmed parts and Text.TrimRemovesSurroundingWhitespace characterises each part |
| DashboardBackup.DisplayCategories | src/components/Dashboard_backup.js:546-549 | definition; no contract of its own. `split(',')`, then trim, then drop empty parts; DashboardBackup.DisplayJoinedCategories and DashboardBackup.FailedCategoryDisplaysNothing characterise it |
| DashboardBackup.TrimAllTrimmed | src/components/Dashboard_backup.js:548 | trimming parts that are already trimmed changes nothing |
| DashboardBackup.DisplayJoinedCategories | src/components/Dashboard_backup.js:546-549 | displaying a `","`-joined string of non-empty, comma-free, trimmed names gives the names back in order |
| DashboardBackup.FailedCategoryDisplaysNothing | src/components/Dashboard_backup.js:170-173 | a category string of "" (a failed reference) displays no category |
| DashboardBackup.BackupDashboardView.constructor | src/components/Dashboard_backup.js:66-82 | empty selections, button disabled with the combined label, spotsExist true |
| DashboardBackup.BackupDashboardView.UpdateSearchButton | src/components/Dashboard_backup.js:106-125 | the label and enabled flag become SearchButtonFor of the selections |
| DashboardBackup.BackupDashboardView.EditSearchQuery | src/components/Dashboard_backup.js:444 | only the query changes; the invariant holds |
| DashboardBackup.BackupDashboardView.ToggleArea | src/components/Dashboard_backup.js:478-485 | the area selection becomes its toggle and the button is recomputed |
| DashboardBackup.BackupDashboardView.ToggleCategory | src/components/Dashboard_backup.js:497-503 | the category selection becomes its toggle and the button is recomputed |
| DashboardBackup.BackupDashboardView.HandleNameSearch | src/components/Dashboard_backup.js:132-198 | on success spots are the records and spotsExist is false exactly when they are empty; on failure both stay and searching stays true |
| DashboardBackup.BackupDashboardView.HandleCombinedSearch | src/components/Dashboard_backup.js:201-318 | searching ends; on success spots and spotsExist follow the records; the catch leaves both unchanged |
| DashboardBackup.BackupDashboardView.NameSearchButtonDisabled | src/components/Dashboard_backup.js:452 | the name-search button is disabled exactly when the query is empty or null or a search is running |
| AuthProvider.KeyPressAsWritten | src/components/Signup.js:173-177 | as written, Enter with the button enabled calls the handler without an event, which fails at once; a key press never submits |
| AuthProvider.KeyPress | src/components/Signup.js:173-177 | as intended, a key press submits exactly when it is Enter (keyCode or which 13) and the button is enabled |
| AuthProvider.EnterNeverSubmitsAsWritten | src/components/Login.js:170-174 | the two versions differ exactly on the presses that should submit |
| Signup.Reduce | src/components/Signup.js:40-82 | every field an action does not name is unchanged; each set action writes its value; success and failure set the helper text with isError false and true; an unknown action changes nothing |
| Signup.ButtonDisabledFor | src/components/Signup.js:92-108 | the button is enabled exactly when e-mail, password and confirmation all have a visible character |
| Signup.MismatchedPasswordsEnable | src/components/Signup.js:92-108 | a password and confirmation that differ can still enable the button |
| Signup.ErrorFor | src/components/Signup.js:138-163 | a code falls to the default branch exactly when it is not one of the five known codes; otherwise the branch is the one for that code |
| Signup.ErrorForCodeOf | src/components/Signup.js:139-157 | each known branch is selected by its own code, so the map from branch to code is undone by ErrorFor |
| Signup.SignupForm.constructor | src/components/Signup.js:22-29 | the initial state, which agrees with the enable rule |
| Signup.SignupForm.Dispatch | src/components/Signup.js:86 | the state becomes the reducer's result |
| Signup.SignupForm.ApplyEnableRule | src/components/Signup.js:92-108 | only the disabled flag changes, to ButtonDisabledFor |
| Signup.SignupForm.ChangeEmail | src/components/Signup.js:179-186 | the e-mail changes and the flag follows the rule |
| Signup.SignupForm.ChangePassword | src/components/Signup.js:188-195 | the password changes and the flag follows the rule |
| Signup.SignupForm.ChangePasswordConfirm | src/components/Signup.js:197-204 | the confirmation changes and the flag follows the rule |
| Signup.SignupForm.HandleSignup | src/components/Signup.js:110-170 | signs up with the e-mail and the confirmation field; success sets the success helper text, isError false and the success message, and redirects to /dashboard; failure sets the message of the code's branch and leaves isError; the button ends enabled either way |
| Signup.SignupForm.HandleKeyPress | src/components/Signup.js:173-177 | submits exactly when KeyPress says so, sending the e-mail and the confirmation; a submitting press leaves the state, messages and redirect HandleSignup gives for the outcome; otherwise nothing changes |
| Login.Reduce | src/components/Login.js:42-86 | every field an action does not name is unchanged; loginSuccess and loginFailed set the helper text with isError false and true; an unknown action changes nothing |
| Login.ButtonDisabledFor | src/components/Login.js:96-110 | the button is enabled exactly when the e-mail and the password have a visible character |
| Login.ConfirmationIgnored | src/components/Login.js:96-110 | the confirmation field plays no part in the rule |
| Login.ErrorFor | src/components/Login.js:137-160 | a code falls to the default branch exactly when it is not one of the five known codes; otherwise the branch is one that code selects |
| Login.ErrorForCodesOf | src/components/Login.js:146-151 | each code of a branch leads back to that branch; invalid-email and wrong-password share one |
| Login.CredentialErrorsIndistinguishable | src/components/Login.js:146-154 | a malformed e-mail and a wrong password show the same message, different from the disabled-account message |
| Login.LoginForm.constructor | src/components/Login.js:22-29 | the initial state, which agrees with the enable rule |
| Login.LoginForm.Dispatch | src/components/Login.js:90 | the state becomes the reducer's result |
| Login.LoginForm.ApplyEnableRule | src/components/Login.js:96-110 | only the disabled flag changes, to ButtonDisabledFor |
| Login.LoginForm.ChangeEmail | src/components/Login.js:176-183 | the e-mail changes and the flag follows the rule |
| Login.LoginForm.ChangePassword | src/components/Login.js:185-192 | the password changes and the flag follows the rule |
| Login.LoginForm.HandleLogin | src/components/Login.js:112-167 | logs in with the e-mail and the password; success sets the helper text, isError false and the success message, and navigates to /dashboard; failure sets the message of the code's branch; the button ends enabled either way |
| Login.LoginForm.HandleKeyPress | src/components/Login.js:170-174 | submits exactly when KeyPress says so, sending the e-mail and the password; a submitting press leaves the state, messages and redirect HandleLogin gives for the outcome; otherwise nothing changes |
| ForgotPassword.Reduce | src/components/ForgotPassword.js:57-89 | the five actions write only their fields, and anything else leaves the state unchanged |
| ForgotPassword.ButtonDisabledFor | src/components/ForgotPassword.js:98-112 | the button is enabled exactly when the e-mail has a visible character |
| ForgotPassword.ErrorFor | src/components/ForgotPassword.js:139-159 | a code falls to the default branch exactly when it is not one of the four known codes; otherwise the branch is one that code selects |
| ForgotPassword.ErrorForCodesOf | src/components/ForgotPassword.js:145-150 | each code of a branch leads back to that branch; invalid-email and wrong-password share one |
| ForgotPassword.WeakPasswordIsUnexpected | src/components/ForgotPassword.js:154-158 | unlike the other forms, a weak-password code falls to the default branch |
| ForgotPassword.ForgotPasswordForm.constructor | src/components/ForgotPassword.js:43-48 | the initial state, which agrees with the enable rule |
| ForgotPassword.ForgotPasswordForm.Dispatch | src/components/ForgotPassword.js:93 | the state becomes the reducer's result |
| ForgotPassword.ForgotPasswordForm.ApplyEnableRule | src/components/ForgotPassword.js:98-112 | only the disabled flag changes, to ButtonDisabledFor |
| ForgotPassword.ForgotPasswordForm.ChangeEmail | src/components/ForgotPassword.js:175-182 | the e-mail changes and the flag follows the rule |
| ForgotPassword.ForgotPasswordForm.HandleForgotPassword | src/components/ForgotPassword.js:114-166 | asks for a reset of the form's e-mail; success sets the helper text, isError false and the success message; failure sets the message of the code's branch; the button ends enabled either way |
| ForgotPassword.ForgotPasswordForm.HandleKeyPress | src/components/ForgotPassword.js:169-173 | submits exactly when KeyPress says so, sending the e-mail; a submitting press leaves the state and the success or error message HandleForgotPassword gives for the outcome; otherwise nothing changes |
| UpdateProfile.Reduce | src/components/UpdateProfile.js:38-85 | every field an action does not name is unchanged; each set action writes its value; signupSuccess and signupFailed set the helper text with isError false and true; an unknown action changes nothing |
| UpdateProfile.InitialState | src/components/UpdateProfile.js:90-99 | the e-mail is the user's; the display name is the user's when present and non-empty, else ""; the rest is blank and the button disabled |
| UpdateProfile.ButtonDisabledFor | src/components/UpdateProfile.js:106-132 | disabled exactly when the trimmed password and confirmation differ, the e-mail has no visible character, or the e-mail changes while a password is typed |
| UpdateProfile.DisplayNameIgnored | src/components/UpdateProfile.js:133 | the display name plays no part in the rule |
| UpdateProfile.BlankConfirmationAccepted | src/components/UpdateProfile.js:107 | the comparison is on trimmed text, so a confirmation of blanks matches an empty password |
| UpdateProfile.RequestedUpdates | src/components/UpdateProfile.js:148-166 | a password update exactly when a password is typed, an e-mail update exactly when the e-mail changed, a profile update exactly when the display name differs from the user's; nothing else, each once, in that order |
| UpdateProfile.EnabledNeverUpdatesBoth | src/components/UpdateProfile.js:126-132 | with the button enabled, a submission never requests both a password and an e-mail change |
| UpdateProfile.UntouchedFormRequestsNothing | src/components/UpdateProfile.js:151-166 | the untouched form of a user with an e-mail and a display name is enabled and requests nothing |
| UpdateProfile.AbsentNameRequestsProfileUpdate | src/components/UpdateProfile.js:159-166 | for a user without a display name, the untouched form still requests a profile update to "" |
| UpdateProfile.FirstRejection | src/components/UpdateProfile.js:168-184 | Promise.all succeeds exactly when every outcome resolves (so it succeeds with no requests); otherwise it fails with the first rejection |
| UpdateProfile.ErrorFor | src/components/UpdateProfile.js:187-221 | a code falls to the default branch exactly when it is not one of the six known codes; otherwise the branch is the one for that code |
| UpdateProfile.ErrorForCodeOf | src/components/UpdateProfile.js:188-215 | each known branch is selected by its own code |
| UpdateProfile.RedirectFor | src/components/UpdateProfile.js:204-212 | a rejection redirects, to /login, exactly when its code is auth/requires-recent-login |
| UpdateProfile.ProfileForm.constructor | src/components/UpdateProfile.js:87-133 | the initial state after one run of the effect, with the flag and the error the effect computes |
| UpdateProfile.ProfileForm.Dispatch | src/components/UpdateProfile.js:96 | the state becomes the reducer's result |
| UpdateProfile.ProfileForm.DispatchButtonDisabled | src/components/UpdateProfile.js:109-112 | only the disabled flag changes |
| UpdateProfile.ProfileForm.ApplyEnableRule | src/components/UpdateProfile.js:106-133 | the flag becomes ButtonDisabledFor, and the error is the conflict message exactly when the e-mail changes while a password is typed, else "" |
| UpdateProfile.ProfileForm.ChangeEmail | src/components/UpdateProfile.js:237-244 | the e-mail changes and the effect runs |
| UpdateProfile.ProfileForm.ChangePassword | src/components/UpdateProfile.js:246-253 | the password changes and the effect runs |
| UpdateProfile.ProfileForm.ChangePasswordConfirm | src/components/UpdateProfile.js:255-262 | the confirmation changes and the effect runs |
| UpdateProfile.ProfileForm.ChangeDisplayName | src/components/UpdateProfile.js:264-271 | only the display name changes; the flag still agrees with the rule |
| UpdateProfile.ProfileForm.CollectRequests | src/components/UpdateProfile.js:148-166 | the pushes onto the promises list build RequestedUpdates |
| UpdateProfile.ProfileForm.HandleUpdateProfile | src/components/UpdateProfile.js:135-235 | requests exactly RequestedUpdates; success sets the success message and redirects to /dashboard; failure sets the first rejection's message and redirects to /login only for an expired session; the button ends enabled either way |

## Left out

- The document store and the identity provider are foreign services. They
  become the `Db` value and `AuthResult` parameters. Document references are
  modelled by the referenced ids.
- `Promise.all` fan-out and async interleaving are left out, including two
  searches overlapping, whose results arrive last-write-wins. Every handler
  runs to completion in sequence.
- UpdateProfile.FirstRejection: outcomes are given in the order they settle.
  Which request rejects first is left to the caller.
- The UpdateProfile provider calls are not modelled as changing the user
  record. Only which calls are made and how their outcome is shown are
  modelled.
- `setTimeout` redirects and the immediate `history.push` appear only as the
  target route a handler returns. The delay and the later navigation are not
  modelled.
- The result records are mutated in place in the source. The model builds the
  resolved records as a new sequence (`Resolution.ResolveResults`), which
  leaves out aliasing between records.
- A document whose `category` field is missing stands in the model for a
  document with no category references. It is not modelled as a loop over
  undefined that throws.
- A missing `name` field is modelled as null. The store's `where("name", "==",
  null)` does not return a document that lacks the field, but
  `SpotStore.NullName` (and so `Dashboard.EmptyQuerySelection`) does.
- Every spot is assumed to have an `area` reference (`Spot.areaId`). A document
  without one, on which `docData.area.id` throws, is not modelled.
- Firestore limits how many values an `in` or `array-contains-any` list may
  hold. That limit, and byte-level string ordering, are not modelled.
- JSX rendering, Material-UI, console logging, and the option lists fetched
  for the checkboxes (`areaOptions`, `categoryOptions`) are left out.
- These handlers are left out: logout, sending a verification e-mail,
  accordion toggling, and the `isError`-driven field styling.
- `src/contexts/AuthContext.js`, `src/components/App.js`,
  `src/components/AuthFirebaseRoute.js`, `src/components/Home.js`,
  `src/style/Styles.js` and `src/components/Dashboard copy.js` are not part of
  this model. They are routing, rendering, styling, thin SDK wrappers, or a
  copy of the dashboard.
- The Japanese messages are kept as constants. What is proved concerns which
  constant a code selects, not the wording.
- SpotStore.SortByName: states sorted and permutation. It does not prove that
  equal names keep store order.
- Selection.ToggleTwicePresent: toggling a present id twice does not restore
  the list in general. The model proves what the code does instead.

## Findings

| source | as written | input that shows it | evidently intended | confidence | as-written member | corrected member |
|---|---|---|---|---|---|---|
| src/components/Signup.js:173-177 | `handleSignup()` is called with no event, and its first statement `event.preventDefault()` throws, so Enter never signs up | Enter (keyCode 13) in any field with all three fields filled | Enter submits when the button is enabled | not executed | AuthProvider.KeyPressAsWritten | AuthProvider.KeyPress |
| src/components/Login.js:170-174 | `handleLogin()` is called with no event and throws at its first statement, so Enter never logs in | Enter in the e-mail field with both fields filled | Enter submits when the button is enabled | not executed | AuthProvider.KeyPressAsWritten | AuthProvider.KeyPress |
| src/components/ForgotPassword.js:169-173 | `handleForgotPassword()` is called with no event and throws at its first statement, so Enter never requests a reset. The `<form>` at lines 184-219 has one text field and no submit button, so Enter also triggers the browser's implicit form submission, which reloads the page (not modelled) | Enter in the e-mail field with an e-mail typed | Enter submits when the button is enabled | not executed | AuthProvider.KeyPressAsWritten | AuthProvider.KeyPress |

`AuthProvider.EnterNeverSubmitsAsWritten` exhibits the discrepancy on
`KeyEvent(13, 13)` with the button enabled. The forms' `HandleKeyPress`
methods follow the corrected `KeyPress`.
