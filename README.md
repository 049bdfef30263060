# Feedback feature and backend validators of the AI petition system

This project is a Dafny model of the feedback feature of the AI petition
management application, together with the request validators and builders
of its Flask backend.

**The React client.**
- **Feedback cards.** A card shows an entry's Pros, Cons and Additional Comments sections only when they are non-empty. The rating is drawn with a read-only five-star widget.
- **Star widget.** Hovering over the widget previews a rating. Clicking a star sets the rating, unless the widget is read-only.
- **Entry form.** The form refuses a blank name, then a missing rating. Otherwise it hands a new item to its parent exactly once.
- **Paginated list.** The list shows six cards per page, with guarded previous and next buttons.
- **Feedback page.**
  - It holds a `view` tab and a `submit` tab.
  - It shows summary statistics with rounded percentages.
  - It sends submissions through a mutation that invalidates two cache keys.
- **Store client.** It maps every failure of the hosted table to a safe value: `[]`, `null`, `false` or zero statistics.
- **HTTP client.** It builds the `/feedback` URLs, including the filter query string of `getFeedback`.

**The Flask backend.**
- The upload extension allow-list (`allowed_file`) and the attachment summary.
- Both `token_required` decorators. Routes declared before the second one use the first.
- The required-field loops of `register`, `create_grievance` and `create_feedback`.
- The rating and category checks.
- The WHERE clauses and parameters of `get_feedback`.
- The update set and UPDATE statement of `update_feedback`.
- The owner-or-privileged permission rule of the per-id feedback routes, and the staff-or-submitter rule of `update_grievance`.
- The filter and paging parameters of the grievance listings.
- The `Category:` and `Priority:` line parser of the analysis endpoint.

**How the model is built.**
- **Python and JavaScript semantics.** These are written out where the code depends on them:
  - truthiness;
  - `len`;
  - chained comparisons that raise on non-numbers;
  - `str.split` and `str.rsplit`;
  - ASCII `lower`;
  - `int()` on decimal numerals;
  - `trim`, `Math.round`, `Math.ceil` and `Array.prototype.slice`.
- **Outside effects become parameters.**
  - The database, the hosted table and JWT verification.
  - The uuid generator and the clock.
  - The react-query cache, which appears only as the set of invalidated keys.
- **Stateful components become classes.** The four React components with state are classes whose methods are the event handlers. Callbacks and toasts are recorded in sequence fields.
- **Cross-layer lemmas.** These connect what the client sends to what the backend checks.

Three places where the code behaves differently from what its surroundings suggest are modelled as the code has them:
- **A failed submission is reported as a success.** `addFeedback` catches every error and answers `null`, so the mutation of the feedback page always resolves. Its `onSuccess` runs, announces success and switches to the list even when the insert failed; `onError` is never reached from a submit (`Pages.FeedbackPage.SettleMutation`).
- **Three routes cannot run.** `get_db_connection` is called unqualified at backend/app.py:872, 952 and 991, and no such name is defined in the file. `create_feedback` and `get_feedback` are modelled only up to those calls: their validation and query building. The statistics route is not modelled.
- **Issued tokens do not open the feedback routes.** `generate_token` (backend/app.py:179-185) puts only `user_id` and `exp` in a token. The second `token_required`, which guards every feedback route, reads `id`, `name`, `email` and `role` from it (backend/app.py:812-817) without catching the KeyError, so every token register or login issues gets a 500 there (`Auth.IssuedTokenCrashesFeedbackRoutes`). The client-server lemmas below (`ClientServer.SubmitReachesCreate` and the others) are about routing and validation, and hold for a token that carries those four claims.

## Model

| member | source | states |
|---|---|---|
| StarRatings.LitStars | ai_petition/src/components/ui/StarRatings.tsx:40-51 | five stars at positions 1..5; star i is filled exactly when i is at most the hover value, or, with no hover, at most the rating |
| StarRatings.LitIsPrefix | ai_petition/src/components/ui/StarRatings.tsx:49 | the filled stars form a prefix: a filled star has every star to its left filled |
| StarRatings.CountLitIsShown | ai_petition/src/components/ui/StarRatings.tsx:40-51 | the number of filled stars among the first n is the displayed value clamped to 0..n |
| StarRatings.StarRating.constructor | ai_petition/src/components/ui/StarRatings.tsx:12-18 | the hover value starts at 0 and no rating has been set |
| StarRatings.StarRating.HandleClick | ai_petition/src/components/ui/StarRatings.tsx:20-24 | `setRating(i)` is called exactly when the widget is editable and has a setter; nothing else changes |
| StarRatings.StarRating.HandleMouseEnter | ai_petition/src/components/ui/StarRatings.tsx:26-30 | hover becomes i unless read-only, where it is unchanged |
| StarRatings.StarRating.HandleMouseLeave | ai_petition/src/components/ui/StarRatings.tsx:32-36 | hover becomes 0 unless read-only, where it is unchanged |
| StarRatings.StarRating.ReceiveRating | ai_petition/src/components/ui/StarRatings.tsx:12-17 | a new rating prop keeps the hover value and the widget invariant |
| StarRatings.StarRating.ReadOnlyShowsRating | ai_petition/src/components/ui/StarRatings.tsx:26-49 | in read-only mode hover stays 0, so the filled stars are exactly those up to the rating |
| Cards.RenderCard | ai_petition/src/components/ui/FeedbackCard.tsx:25-54 | title and time come from the item; the stars are those of a read-only widget; each of Pros, Cons, Additional Comments appears exactly when its text is non-empty, and no other section appears |
| Cards.SectionOrder | ai_petition/src/components/ui/FeedbackCard.tsx:36-55 | for every item, at most three sections are shown, and a Pros section precedes a Cons section, which precedes an Additional Comments section |
| Cards.CardStarsShowRating | ai_petition/src/components/ui/FeedbackCard.tsx:33 | star i of a card is filled exactly when i is at most the item's rating |
| Forms.Validate | ai_petition/src/components/ui/FeedbackForm.tsx:27-48 | a name that trims to "" is refused first, then a rating of 0; otherwise the item carries the untrimmed name, the draft's other fields, the fresh id and the current time |
| Forms.SubmitIff | ai_petition/src/components/ui/FeedbackForm.tsx:27-35 | a draft is submitted exactly when its name has a character that is not white space and a rating was chosen |
| Forms.BlankNameRefused | ai_petition/src/components/ui/FeedbackForm.tsx:27-30 | for every draft `d`, whatever its rating: a name that is all white space is refused with the name notice, and any other name never is |
| Forms.RatingLabelReadsBack | ai_petition/src/components/ui/FeedbackForm.tsx:82 | "Select rating" for no rating; otherwise the caption ends in " star" exactly for rating 1 and " stars" otherwise, and the text before that suffix reads back as the rating |
| Forms.FeedbackForm.constructor | ai_petition/src/components/ui/FeedbackForm.tsx:17-22 | empty fields, rating 0, not submitting, no notices, nothing submitted |
| Forms.FeedbackForm.SetUserName | ai_petition/src/components/ui/FeedbackForm.tsx:72 | only the name changes |
| Forms.FeedbackForm.SetRating | ai_petition/src/components/ui/FeedbackForm.tsx:80 | only the rating changes, to the clicked star |
| Forms.FeedbackForm.SetPros | ai_petition/src/components/ui/FeedbackForm.tsx:93 | only the pros text changes |
| Forms.FeedbackForm.SetCons | ai_petition/src/components/ui/FeedbackForm.tsx:104 | only the cons text changes |
| Forms.FeedbackForm.SetComment | ai_petition/src/components/ui/FeedbackForm.tsx:115 | only the comment changes |
| Forms.FeedbackForm.HandleSubmit | ai_petition/src/components/ui/FeedbackForm.tsx:24-53 | the draft is unchanged and not submitting afterwards; a refused draft adds exactly its notice and submits nothing; an accepted one adds exactly one item, the one `Validate` builds, and no notice |
| Pagination.TotalPages | ai_petition/src/components/ui/FeedbackList.tsx:17 | the page count is the least p with n <= p * k |
| Pagination.NoPagesIff | ai_petition/src/components/ui/FeedbackList.tsx:17 | there are no pages exactly when there are no items |
| Pagination.JsSlice | ai_petition/src/components/ui/FeedbackList.tsx:19 | the slice is a contiguous run of the list starting at the resolved start index |
| Pagination.JsSliceSpec | ai_petition/src/components/ui/FeedbackList.tsx:19 | in-range indices give `s[start..end]`; a negative index counts from the end; an end past the length is the length; a start at or past the length, or an end at or before the start, gives []; the length is the clamped difference |
| Pagination.VisiblePage | ai_petition/src/components/ui/FeedbackList.tsx:18-19 | page p of 1..totalPages is items[(p-1)k .. min(pk, n)], with 1 to k items |
| Pagination.PastLastPageEmpty | ai_petition/src/components/ui/FeedbackList.tsx:18-19 | a page after the last is empty |
| Pagination.ItemPage | ai_petition/src/components/ui/FeedbackList.tsx:17-19 | item i is on page i / k + 1 at position i % k |
| Pagination.PagesUpToPrefix | ai_petition/src/components/ui/FeedbackList.tsx:18-19 | the first m pages together are the first min(mk, n) items |
| Pagination.PagesCoverList | ai_petition/src/components/ui/FeedbackList.tsx:17-19 | pages 1..totalPages read in order give back the whole list |
| Pagination.RenderCards | ai_petition/src/components/ui/FeedbackList.tsx:46-52 | one card per visible item, in order |
| Pagination.FeedbackList.constructor | ai_petition/src/components/ui/FeedbackList.tsx:11-15 | the list starts on page 1 |
| Pagination.FeedbackList.HandleNextPage | ai_petition/src/components/ui/FeedbackList.tsx:21-26 | the page advances, with one scroll, exactly when it is before the last; the page stays in range |
| Pagination.FeedbackList.HandlePrevPage | ai_petition/src/components/ui/FeedbackList.tsx:28-33 | the page goes back, with one scroll, exactly when it is after the first; the page stays in range |
| Pagination.FeedbackList.ReceiveItems | ai_petition/src/components/ui/FeedbackList.tsx:11-17 | new items keep the page number, which stays in range when the list does not shrink |
| Pagination.FeedbackList.Render | ai_petition/src/components/ui/FeedbackList.tsx:35-79 | placeholder exactly for an empty list; otherwise the cards of the current page, with controls exactly when there is more than one page, previous disabled on page 1 and next on the last |
| Pagination.FeedbackList.ControlsMatchHandlers | ai_petition/src/components/ui/FeedbackList.tsx:55-79 | on a page in range the grid is non-empty and a button is enabled exactly when its handler changes the page |
| Pages.DefaultIsZero | ai_petition/src/components/pages/Feedback.tsx:25 | the statistics shown before data arrives are total 0, average 0, counts [0,0,0,0,0] |
| Pages.CalculatePercentage | ai_petition/src/components/pages/Feedback.tsx:57-63 | 0 without reviews; otherwise `Math.round(100 * count / total)`, stated as the integer p with p - 1/2 <= 100 * count / total < p + 1/2 |
| Pages.PercentageUnique | ai_petition/src/components/pages/Feedback.tsx:57-63 | that rounding condition has only one solution |
| Pages.PercentageBounds | ai_petition/src/components/pages/Feedback.tsx:57-63 | for 0 <= count <= total the result is in 0..100 |
| Pages.PercentageEnds | ai_petition/src/components/pages/Feedback.tsx:57-63 | a count of 0 gives 0 and a count equal to the total gives 100 |
| Pages.BarFor | ai_petition/src/components/pages/Feedback.tsx:103-107 | a bar reads `ratingCounts[rating - 1]` |
| Pages.DistributionBars | ai_petition/src/components/pages/Feedback.tsx:101-110 | five bars for ratings 5, 4, 3, 2, 1 in that order |
| Pages.BarsWithinRange | ai_petition/src/components/pages/Feedback.tsx:101-110 | counts within the total give bars between 0% and 100% |
| Pages.StripIds | ai_petition/src/components/pages/Feedback.tsx:49-52 | the forwarded record has the item's five other fields unchanged |
| Pages.StripIdsRoundTrip | ai_petition/src/components/pages/Feedback.tsx:49-51 | putting back id and createdAt rebuilds the item |
| Pages.FormDraftReachesStore | ai_petition/src/components/pages/Feedback.tsx:49-52 | what the form submits reaches the store as the typed draft |
| Pages.FeedbackPage.constructor | ai_petition/src/components/pages/Feedback.tsx:15-28 | the tab starts on "view", with no items and the default statistics, and both queries have their first fetch due |
| Pages.MountAndLoad | ai_petition/src/components/pages/Feedback.tsx:15-28 | once a newly mounted page completes its first fetches, it shows the converted stored rows and the store's statistics, on tab "view" with nothing more due |
| Pages.FeedbackPage.SetTab | ai_petition/src/components/pages/Feedback.tsx:117 | a tab click selects that tab and changes nothing else |
| Pages.FeedbackPage.OnSuccess | ai_petition/src/components/pages/Feedback.tsx:33-43 | both 'feedback' and 'feedbackStats' are invalidated, one success notice, tab "view" |
| Pages.FeedbackPage.OnError | ai_petition/src/components/pages/Feedback.tsx:44-46 | one error notice; tab and cache unchanged |
| Pages.FeedbackPage.HandleFeedbackSubmit | ai_petition/src/components/pages/Feedback.tsx:49-52 | `mutate` starts: the stripped record is sent once and joins the in-flight mutations; nothing else changes |
| Pages.FeedbackPage.SettleMutation | ai_petition/src/components/pages/Feedback.tsx:31-46 | one in-flight mutation settles: its record goes to the store, and whatever the store answers the success path runs; it leaves the in-flight list, and every in-flight record has been sent |
| Pages.FeedbackPage.Refetch | ai_petition/src/components/pages/Feedback.tsx:18-28 | exactly the invalidated queries take the client functions' results |
| SupabaseService.TextOrEmpty | ai_petition/src/service/supabaseFeedbackService.ts:10-12 | a null text column becomes "" |
| SupabaseService.ConvertToFeedbackItem | ai_petition/src/service/supabaseFeedbackService.ts:6-14 | `user_name` becomes `userName`, `created_at` becomes `createdAt`, and falsy texts become "" |
| SupabaseService.ConvertAll | ai_petition/src/service/supabaseFeedbackService.ts:29 | one item per row, in store order |
| SupabaseService.GetAllFeedback | ai_petition/src/service/supabaseFeedbackService.ts:17-34 | [] on error, exception or null data, otherwise the converted rows |
| SupabaseService.InsertPayload | ai_petition/src/service/supabaseFeedbackService.ts:41-47 | the insert carries exactly user_name, rating, pros, cons, comment from the input |
| SupabaseService.AddFeedback | ai_petition/src/service/supabaseFeedbackService.ts:37-60 | null exactly on error or exception, otherwise the converted stored row |
| SupabaseService.InsertRoundTrip | ai_petition/src/service/supabaseFeedbackService.ts:6-47 | converting the stored insert gives back the input's five fields with the table's id and time |
| SupabaseService.AddFeedbackRoundTrip | ai_petition/src/service/supabaseFeedbackService.ts:37-60 | a store that keeps what it is sent makes `addFeedback` return the caller's record |
| SupabaseService.DeleteFeedback | ai_petition/src/service/supabaseFeedbackService.ts:64-76 | true exactly when the store reports no error |
| SupabaseService.GetFeedbackStats | ai_petition/src/service/supabaseFeedbackService.ts:79-100 | the zero statistics on error or exception, otherwise the store data unchanged |
| FeedbackApi.CategoryRoundTrip | ai_petition/src/lib/feedbackApi.ts:10 | each of the five categories reads back from its spelling, and only those spellings parse |
| FeedbackApi.Serialize | ai_petition/src/lib/feedbackApi.ts:60 | the query string is empty exactly when there are no parameters |
| FeedbackApi.GetFeedback | ai_petition/src/lib/feedbackApi.ts:48-65 | the URL built step by step is `FeedbackUrl`, requested with GET |
| FeedbackApi.FeedbackParamsSpec | ai_petition/src/lib/feedbackApi.ts:52-58 | the category is sent exactly when it is set, non-empty and not "all"; the rating, as a numeral, exactly when it is non-zero; category before rating |
| FeedbackApi.FeedbackUrlShape | ai_petition/src/lib/feedbackApi.ts:49-62 | '?' occurs exactly when a parameter is sent; with none the URL is exactly `/feedback` |
| FeedbackApi.CategoryOnlyUrl | ai_petition/src/lib/feedbackApi.ts:52-62 | a category alone gives `/feedback?category=<name>` |
| FeedbackApi.ItemPath | ai_petition/src/lib/feedbackApi.ts:77 | `/feedback/` followed by the id |
| FeedbackApi.ItemPathsAgree | ai_petition/src/lib/feedbackApi.ts:76-89 | the three per-item calls share one path, from which the id is recovered |
| Uploads.AllowedFileIff | backend/app.py:173-174 | a file is allowed exactly when it ends in '.' and a dot-free extension whose lower-case form is one of txt, pdf, png, jpg, jpeg, doc, docx |
| Uploads.AfterLastOf | backend/app.py:174 | the text after the last '.' of `stem.ext` is `ext` |
| Uploads.UpperCaseExtensionAllowed | backend/app.py:174 | `.PDF` is accepted |
| Uploads.NoExtensionRefused | backend/app.py:174 | a name ending in '.' is refused |
| Uploads.ProcessAll | backend/app.py:35-55 | at most one summary per attachment |
| Uploads.ProcessAttachments | backend/app.py:35-55 | the loop produces the summaries of the attachments whose payload decodes, in order |
| Uploads.ProcessAllSizes | backend/app.py:41-52 | every summary comes from an attachment with a decodable payload of that size |
| Uploads.ProcessAllConcat | backend/app.py:35-55 | processing two lists one after the other gives the summaries of the first followed by those of the second |
| Uploads.ProcessAllSummaries | backend/app.py:35-55 | the summaries are those before attachment i, then attachment i's own (none or one), then those after it: order is kept |
| Uploads.ProcessAllComplete | backend/app.py:35-55 | every attachment whose payload decodes has its summary in the result |
| Auth.TokenIff | backend/app.py:797-807 | a token t is extracted exactly when the header is "Bearer " + t with t non-empty and space-free, then the end or a space |
| Auth.TokenVersionsAgree | backend/app.py:191-198 | both decorators extract the same token from every header |
| Auth.EmptyBearerMissing | backend/app.py:195-198 | "Bearer " alone is a missing token |
| Auth.TokenRequiredV1 | backend/app.py:187-215 | no token gives 401 "Token is missing"; an expired token 401 "Token has expired"; an undecodable one 401 "Invalid token"; claims without user_id crash; an unknown user gives 404 "User not found"; a known user is authorized as that record; a call goes through exactly in that last case |
| Auth.TokenRequiredV2 | backend/app.py:792-831 | no token gives 401 "Token is missing"; an expired token 401 "Token has expired"; an undecodable one 401 "Invalid token"; claims with id, name, email and role authorize the user they make; claims missing one of them crash |
| Auth.IssuedClaims | backend/app.py:179-185 | a token this backend issues carries exactly the claims `user_id` and `exp` |
| Auth.IssuedTokenCrashesFeedbackRoutes | backend/app.py:179-185 | such a token gets a crash (500) from the second decorator, while the first authorizes it for a known user |
| RequestValidation.FirstFailingIff | backend/app.py:226-228 | the loop reports field f exactly when f fails and every earlier field passes |
| RequestValidation.FirstFailingNoneIff | backend/app.py:226-228 | the loop reports nothing exactly when every field passes |
| RequestValidation.FindFirstFailing | backend/app.py:226-228 | the loop returns the first failing field |
| RequestValidation.Register | backend/app.py:223-230 | the validation loop and length check give `RegisterVerdict` |
| RequestValidation.RegisterReportsFirstMissing | backend/app.py:223-228 | the first absent or falsy field in the order name, email, password, role, department is reported |
| RequestValidation.RegisterProceedIff | backend/app.py:223-230 | registration proceeds exactly when all five fields are supplied and the password has length >= 8 |
| RequestValidation.ShortPasswordRefused | backend/app.py:229-232 | for every body with all fields supplied: a password of length below 8 is refused with 400, and one of length 8 or more passes |
| RequestValidation.CreateGrievance | backend/app.py:295-298 | the loop gives `CreateGrievanceVerdict` |
| RequestValidation.CreateGrievanceIff | backend/app.py:295-298 | proceeds exactly when all four fields are supplied; otherwise the first unsupplied is reported |
| RequestValidation.CreateFeedback | backend/app.py:842-863 | the loop and checks give `CreateFeedbackVerdict` |
| RequestValidation.CreateFeedbackReportsFirstMissing | backend/app.py:842-848 | the first absent key among message, rating, category is reported |
| RequestValidation.CreateFeedbackProceedIff | backend/app.py:842-863 | proceeds exactly when the three keys are present, 1 <= rating <= 5 and the category is one of the five words |
| RequestValidation.CreateFeedbackRatingFirst | backend/app.py:850-863 | the rating is checked before the category; a non-numeric rating gives the 500 reply |
| FeedbackRoutes.AccessVerdict | backend/app.py:1058-1069 | 404 for a missing row first, then allowed exactly for admin, manager or the owner, else 403 |
| FeedbackRoutes.ViewOmitsUpdatedAt | backend/app.py:1071-1081 | the reply object shows every column of the row except `updated_at`: two rows give the same reply exactly when they differ at most in `updated_at` |
| FeedbackRoutes.GetFeedbackById | backend/app.py:1047-1081 | the row's seven-column view (no `updated_at`) is returned exactly when the row exists and the user may see it; a missing row gives 404 "Feedback not found", and a present row a denied user asks for gives 403 "Permission denied" |
| FeedbackRoutes.DeleteFeedback | backend/app.py:1196-1220 | success exactly when permitted, and then only that row is removed; a missing row gives 404 "Feedback not found", and a denied user 403 "Permission denied"; on failure the table is unchanged |
| FeedbackRoutes.BuildFeedbackQuery | backend/app.py:919-949 | the step-by-step builder produces `FeedbackQuery` |
| FeedbackRoutes.FilterInclusion | backend/app.py:923-939 | category filter exactly for a set non-"all" category; rating filter exactly for a set rating; owner filter exactly for non-privileged roles; there is one parameter per clause, every clause is one of the three, and each clause's `?` is bound to its own value: the category name, the rating's integer, the user's id; fails only for a non-numeral rating |
| FeedbackRoutes.FilterPresence | backend/app.py:923-939 | each of the three clauses appears exactly under its condition; the route fails exactly for a set rating that is not a numeral |
| FeedbackRoutes.FilterBindings | backend/app.py:919-939 | the parameter at each clause's position is that clause's value |
| FeedbackRoutes.ThenBinds | backend/app.py:919-939 | appending in-step filter lists keeps each clause bound to its value |
| FeedbackRoutes.QueryShape | backend/app.py:941-949 | the statement starts with the select, ends with " ORDER BY created_at DESC", and has a WHERE part exactly when some filter applies |
| FeedbackRoutes.SelectSqlShape | backend/app.py:941-949 | the same shape for any clause list |
| FeedbackRoutes.PlaceholdersMatchParams | backend/app.py:923-949 | the number of '?' equals the number of parameters |
| FeedbackRoutes.SelectSqlPlaceholders | backend/app.py:941-946 | the statement's '?' count is the sum over its clauses |
| FeedbackRoutes.FiltersWellFormed | backend/app.py:923-939 | each clause has one '?' and one parameter |
| FeedbackRoutes.UnfilteredQuery | backend/app.py:919-949 | a privileged user with no filters gets the whole table, newest first, with no parameters |
| FeedbackRoutes.PresentKeys | backend/app.py:1121-1144 | the reference list of updatable keys the body carries |
| FeedbackRoutes.PendingUpdatesSpec | backend/app.py:1121-1146 | the update set is exactly the present keys among message, rating, category, in order, with the body's values; refused exactly for a bad rating or category, rating first; a rating that cannot be compared gives 500 "Failed to update feedback", one out of range 400, then a bad category 400 |
| FeedbackRoutes.NoChangesIff | backend/app.py:1147-1153 | the update set is empty exactly when the body has none of the three keys |
| FeedbackRoutes.AddIfPresentSpec | backend/app.py:1124-1144 | each step adds the key when the body has it |
| FeedbackRoutes.UpdateFeedbackSpec | backend/app.py:1094-1192 | a missing row gives 404 and a user neither privileged nor the owner 403; any outcome past those has the row present and the user permitted; a refused update set gives its 400/500; "No changes made" exactly when the update set is empty; a value the driver cannot bind gives 500; an update happens exactly when the set is non-empty and bindable; every outcome other than an update leaves the table unchanged |
| FeedbackRoutes.UpdateFeedback | backend/app.py:1094-1192 | the imperative route gives `UpdateFeedbackSpec` |
| FeedbackRoutes.UpdatedRowSpec | backend/app.py:1155-1164 | an update changes exactly the fields in the body plus updated_at, and no other row |
| FeedbackRoutes.UpdateStatementSpec | backend/app.py:1155-1164 | the statement is "UPDATE feedback SET ", one `key = ?` per key joined by ", ", then " WHERE id = ?", where the keys are the body's updatable keys in order followed by `updated_at`; it has as many '?' as parameters, and the parameters are the values in key order, then the timestamp, then the id |
| FeedbackRoutes.StampedKeys | backend/app.py:1154-1160 | the SET clause's keys are the present updatable keys in order, then `updated_at` |
| FeedbackRoutes.UpdateSqlSpec | backend/app.py:1158-1161 | one placeholder per assignment and one for the id |
| FeedbackRoutes.Assignments | backend/app.py:1159 | one `key = ?` per update key |
| FeedbackRoutes.ApplyAppend | backend/app.py:1164 | the assignments apply in order |
| GrievanceRoutes.CollectFilters | backend/app.py:340-343 | a parameter becomes a filter exactly when it is one of the five names and has a non-empty value, which it keeps |
| GrievanceRoutes.PageWindow | backend/app.py:346-347 | limit and offset are read with defaults 50 and 0; the route fails when either is not a numeral |
| GrievanceRoutes.PageWindowDefaults | backend/app.py:328-329 | absent parameters give (50, 0), and numerals read back as their integers |
| GrievanceRoutes.UpdateGrievanceAccess | backend/app.py:388-396 | 404 for a missing grievance first, then allowed exactly for the submitter or a lower-cased admin, manager or staff role, else 403 |
| GrievanceRoutes.RoleCaseIgnored | backend/app.py:394-395 | "Manager" may update anything; without a role only the submitter may |
| GrievanceRoutes.FirstWithPrefix | backend/app.py:138-139 | nothing is found exactly when no line has the prefix |
| GrievanceRoutes.FirstLineDecides | backend/app.py:138-139 | the first line with the prefix decides the result |
| GrievanceRoutes.FirstAt | backend/app.py:138-139 | the same, for the first line given by its position |
| GrievanceRoutes.WellFormedLine | backend/app.py:138 | `Name: v` yields v |
| GrievanceRoutes.AnalysisFound | backend/app.py:137-142 | well-formed first Category and Priority lines give both values |
| GrievanceRoutes.MalformedCategoryDiscardsBoth | backend/app.py:137-142 | a first Category line without ": " makes both results None |
| ClientServer.CategoriesAgree | backend/app.py:858-859 | the client's categories are exactly the backend's valid categories |
| ClientServer.FormJson | ai_petition/src/lib/feedbackApi.ts:40-41 | the submitted body has exactly the keys message, rating, category |
| ClientServer.SubmittedFormAccepted | backend/app.py:842-863 | a client form passes `create_feedback`'s validation exactly when its rating is in 1..5, else 400 on the rating |
| ClientServer.PartialJson | ai_petition/src/lib/feedbackApi.ts:82-83 | a partial update body has exactly the fields that are set |
| ClientServer.PartialUpdateRefusal | backend/app.py:1121-1146 | a client's partial update is refused only for a rating outside 1..5 |
| ClientServer.PartialUpdateKeys | backend/app.py:1121-1146 | the server updates exactly the fields the client sent, in order |
| ClientServer.PartialUpdateBindable | backend/app.py:1164-1192 | every value of a client's partial update can be bound, so the 500 for an unbindable value never comes from this client |
| ClientServer.ClientArgs | ai_petition/src/lib/feedbackApi.ts:52-62 | the server reads back the category and rating numeral exactly as the client sent them |
| ClientServer.ServerAppliesClientFilters | backend/app.py:919-933 | the server applies a category or rating filter exactly when the client sent one, binds the `category = ?` placeholder to the client's category and the `rating = ?` placeholder to the client's integer, and never fails on the client's numeral |
| ClientServer.ServeBelowCollection | backend/app.py:834-1194 | a request for `/feedback` plus a '?'-free tail is dispatched on that tail under `/api/feedback` |
| ClientServer.SubmitReachesCreate | ai_petition/src/lib/feedbackApi.ts:40-41 | `submitFeedback` posts the form to the `create_feedback` route, whose validation it passes exactly when the rating is 1..5 |
| ClientServer.StatisticsReachesRoute | ai_petition/src/lib/feedbackApi.ts:70-71 | `getFeedbackStatistics` reaches the statistics route |
| ClientServer.ListReachesRoute | ai_petition/src/lib/feedbackApi.ts:48-65 | `getFeedback` reaches `get_feedback` with or without filters |
| ClientServer.ItemCallsReachRoutes | ai_petition/src/lib/feedbackApi.ts:76-89 | for a one-segment id, the update and delete calls reach their routes with that id, and the get call does too unless the id is "statistics", which reaches the statistics route |
| Strings.TrimEmptyIff | ai_petition/src/components/ui/FeedbackForm.tsx:27 | `trim()` gives "" exactly for all-white-space text |
| Strings.ParseIntToString | backend/app.py:935 | `int()` reads back the numeral of every integer |
| Strings.JoinSplit | backend/app.py:137 | joining the pieces of a split gives back the text |
| PyValue.InRange | backend/app.py:851 | `lo <= v <= hi` raises exactly for values that are neither numbers nor booleans, and holds exactly for those whose number is in range |
| PyValue.Get | backend/app.py:342-343 | `data.get(key)` is the stored value, or None for a missing key |
| PyValue.Len | backend/app.py:229 | `len` is defined exactly for strings, lists and dicts |
| Strings.Split | backend/app.py:137 | `str.split` always yields at least one piece |
| Strings.SplitPiecesFree | backend/app.py:137 | with a one-character separator, no piece contains the separator |
| Strings.AfterLast | backend/app.py:174 | `rsplit('.', 1)[1]` is the dot-free text after the last dot |
| Strings.ToLower | backend/app.py:174 | `lower()` maps each character and keeps the length |
| Strings.NatToStringValue | ai_petition/src/lib/feedbackApi.ts:57 | the decimal numeral of n reads back as n |

## Left out

- JWT encoding and verification: `jwt.decode` is a parameter (`JwtResult`). Expiry and signatures are not modelled.
- The database module (`db.*`), the hosted table client, axios and the react-query cache are parameters or answers. The cache is only the set of invalidated keys. The store's ordering by `created_at` is taken as given.
- `get_db_connection` (backend/app.py:872, 952, 991) is not defined in the file. The insert of `create_feedback`, the execution of `get_feedback` and the statistics route `get_feedback_statistics` are not modelled.
- Gemini calls, the SMTP sender, DOMPurify and Chatbot.tsx are foreign libraries and network I/O.
- Base64 decoding in `process_attachments` is a parameter. The filesystem checks of the upload and image routes are not modelled.
- Floating point: `toFixed(1)` and Python's `round(avg, 1)` are not modelled. JSON numbers are reals, and the percentage uses exact integer arithmetic. A NaN percentage, shown when a rating count is missing, is `None`.
- The clock, `uuidv4()` and `datetime.now()` are parameters. ISO date strings are not parsed: a stored `created_at` is already an instant.
- `formatDistanceToNow` text, toasts (kept as notice values), `window.scrollTo` (kept as a counter), CSS and animation are not modelled.
- `URLSearchParams` percent-encoding is not modelled: values are taken as needing no escaping. Nor is Flask's query-string decoding. `ArgsOf` keeps the first value of a repeated key.
- Python `int()` accepts surrounding white space and `_` separators; `ParseDecimal` accepts only an optional sign followed by ASCII digits. Python `str.lower` and JavaScript `trim` are modelled on ASCII and the JavaScript white-space set, without Unicode case mapping.
- A request body that is not a JSON object is not modelled: `request.json` is a map.
- A user record whose `role` is present but null is not modelled. There, `user.get('role', '').lower()` raises.
- Pagination.FeedbackList.constructor: requires `itemsPerPage >= 1`. The component does not check this: a zero or negative page size makes `Math.ceil` yield Infinity or a negative number.
- Forms.FeedbackForm.SetRating: requires a star 1..5, the only values the embedded widget passes.
- Forms.RatingLabelReadsBack: `Number.prototype.toString` is modelled for integers only.
- The base URL of the axios instance (`api.ts`) is not part of this model; it is taken to serve the Flask routes under `/api`. Flask's 404/405 answers for paths and verbs no feedback rule takes are one value, `NoFeedbackRoute`.
- Pages.FeedbackPage.SettleMutation: which in-flight mutation settles next is a parameter; the order in which the store answers is not modelled.
- FeedbackApi.GetFeedback, FeedbackApi.FeedbackFormData, FeedbackApi.PartialFormData, ClientServer.SubmittedFormAccepted, ClientServer.PartialUpdateRefusal, ClientServer.SubmitReachesCreate: the rating is an integer, while the TypeScript type is `number`. A fractional or NaN rating is outside the model.
- FeedbackRoutes.Bindable: JSON numbers are reals, so the model cannot tell a Python int from a float. sqlite3 raises OverflowError for an int outside 64 bits (for example a message of 9223372036854775808), which the route answers with 500 "Failed to update feedback"; the model treats every number as bindable and answers `Updated` there.
- `Feedback.tsx` line 54 (`console.log`) and the static parts of every component are not modelled.
- Testimonial.tsx and App.tsx are static content and routing; they are not part of this model.
