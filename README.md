# Stock management client pages, modelled in Dafny

This project models the pages of the stock management web client. Each page is a React component that keeps a few pieces of state, reacts to the user and talks to the server.

- **Account pages.** Registration and its form rules. Verifying an emailed one-time code, with a countdown and resend. Verifying an email link token, once. The "email sent" page with its resend button. Resetting a password with a confirmation field.
- **Product pages.**
  - Home is the filtered, debounced listing. Its request parameters are built from the filters.
  - The product list is paginated, with a search box and a bin view. It comes in two builds: `AsWritten` follows the component line by line, and `Corrected` repairs the three defects listed under Findings. The correctness lemmas are proved for `Corrected`; the defects are shown on `AsWritten`.
  - The product detail page shows an image, decides ownership and runs lifecycle calls (move to trash, restore, delete forever).
  - Three product forms: add product, edit product, and the older combined create/edit form. They cover validation rules, image drag and drop, previews, and the `FormData` they send.

Each page follows the same pattern.
- A pure `Page` value and its invariant `Valid`.
- `Mount`, the page after its first render and effects.
- An `Event` datatype and a transition function `Step(p, e)` that is proved to keep `Valid`.
- `Run` over event sequences, so properties over several steps are lemmas.
- A class whose fields are the component's state. Each handler is a method whose postcondition is `State() == Step(old(State()), e)`.

Once a page has navigated away it is unmounted and ignores every later event.

Server replies, the user's answers to `window.confirm` and timer firings are parameters or events. The server itself is not modelled: `Backend` lists the requests the pages make, and each page's `requests` field is the log of what it asked.

Shared modules:
- `Platform`: JavaScript behaviour the pages rely on, such as `||` on strings, `startsWith`, `trim`, and decimal `toString`.
- `Backend`: the records and the requests.
- `FormRules`: react-hook-form's rule order, where the first failing rule's message is shown.
- `EmailAddress`: the registration email pattern.
- `QueryString`: how a server reads `?a=b&c=d`.
- `ProductFields`: what the add and edit pages share.

## Model

| member | source | states |
|---|---|---|
| Platform.Or | client/src/pages/VerifyEmail.jsx:29 | `a \|\| fallback` is the value when it is a non-empty string, and the fallback otherwise |
| Platform.NatToString | client/src/pages/VerifyOTP.jsx:47-49 | `toString` of a whole number is a non-empty string of decimal digits |
| Platform.DecimalValueOfNatToString | client/src/pages/VerifyOTP.jsx:47-49 | reading the digits `toString` writes gives the number back |
| Platform.TrimHasNoOuterSpace | client/src/pages/Home.jsx:44 | the trimmed text is a contiguous piece of the original that neither starts nor ends with white space |
| Platform.TrimEmptyIffBlank | client/src/pages/Home.jsx:44 | `searchTerm.trim()` is falsy exactly when the term is all white space |
| Platform.TrimKeepsInner | client/src/pages/Home.jsx:44 | a term with no white space at its ends, between two runs of white space, comes back whole from trimming, white space inside it included |
| FormRules.FieldError | client/src/pages/Register.jsx:53-58 | the field shows no message exactly when every rule holds; any message shown is one of its rules' messages, and an empty required field shows the required message |
| FormRules.FormErrors | client/src/pages/Register.jsx:36 | a form has no messages exactly when every field satisfies its rules, with at most one message per field |
| FormRules.FieldMessagesListed | client/src/pages/Register.jsx:36 | every field with a message has that message listed under its name |
| FormRules.ListedAreFieldMessages | client/src/pages/Register.jsx:36 | every listed message is the message of some field, under that field's name |
| FormRules.FormErrorsInFieldOrder | client/src/pages/Register.jsx:36 | the messages of two runs of fields are those of the first run followed by those of the second, so they come in field order |
| FormRules.FormErrorsOfField | client/src/pages/Register.jsx:36 | one field contributes exactly its own message, or nothing when its rules hold |
| EmailAddress.IsValid | client/src/pages/Register.jsx:56 | the executable check: the cut at the first `@` and the last `.` has the pattern's parts; `IsValidIffMatches` proves it accepts exactly the pattern's strings |
| EmailAddress.IsValidIffMatches | client/src/pages/Register.jsx:56 | the executable check accepts exactly the strings `/^[A-Z0-9._%+-]+@[A-Z0-9.-]+\.[A-Z]{2,}$/i` matches |
| EmailAddress.ValidHasOneAt | client/src/pages/Register.jsx:56 | an accepted address holds exactly one `@` |
| Register.NoErrorsIffAcceptable | client/src/pages/Register.jsx:42-76 | the name, email and password rules pass exactly for a non-empty name, an address the pattern matches and a password of at least 6 characters |
| Register.Submit | client/src/pages/Register.jsx:18-26 | validation stops the submission with the fields' messages, or `registerUser` is called with the three values; only a successful call toasts "OTP sent to your email!" and moves on to `/verify-email` with the email |
| Register.SubmitSendsIffAcceptable | client/src/pages/Register.jsx:18-26 | a registration request is made exactly for acceptable forms, and a successful one toasts and leads to verification with that email |
| ResetPassword.ConfirmMessage | client/src/pages/ResetPassword.jsx:71-77 | the confirmation shows "Please confirm your password" when empty, the mismatch message when it differs from the password, and nothing otherwise |
| ResetPassword.Submit | client/src/pages/ResetPassword.jsx:21-27 | `resetPassword` is called, with the route's token and the password, exactly when the password has at least 6 characters and the confirmation equals it |
| VerifyOtp.PadStart2 | client/src/pages/VerifyOTP.jsx:47-49 | definition of `padStart(2, "0")`: shorter texts get zeros in front up to two characters, longer ones are kept; `PadStart2Keeps` states what it does to one or two digits |
| VerifyOtp.FormatTime | client/src/pages/VerifyOTP.jsx:44-50 | definition of `formatTime`: padded minutes, a colon, padded seconds; `FormatTimeRoundTrip` and `FormatTimeSecondsField` state what it shows |
| VerifyOtp.PadStart2Keeps | client/src/pages/VerifyOTP.jsx:47-49 | padding one or two digits gives two digits of the same value |
| VerifyOtp.FormatTimeRoundTrip | client/src/pages/VerifyOTP.jsx:44-50 | under 100 minutes the countdown reads `mm:ss` and parses back to the same number of seconds |
| VerifyOtp.FormatTimeSecondsField | client/src/pages/VerifyOTP.jsx:44-50 | at any length the display ends with a colon and the two digits of the seconds within the minute |
| VerifyOtp.FormatTimeExamples | client/src/pages/VerifyOTP.jsx:13 | the start value 179 shows as `02:59`, a resent code's 60 as `01:00` |
| VerifyOtp.DigitsOnly | client/src/pages/VerifyOTP.jsx:110-112 | the input keeps only digits, each as often as typed, and never grows |
| VerifyOtp.DigitsOnlyAppend | client/src/pages/VerifyOTP.jsx:110-112 | filtering distributes over concatenation |
| VerifyOtp.DigitsOnlyKeepsDigits | client/src/pages/VerifyOTP.jsx:110-112 | a string of digits is left unchanged |
| VerifyOtp.Mount | client/src/pages/VerifyOTP.jsx:12-21 | empty code, 179 seconds, no resend, not verifying; the page redirects to registration exactly when there is no email |
| VerifyOtp.VerifyStep | client/src/pages/VerifyOTP.jsx:52-69 | dropped while verifying, a toast unless six characters, else one `verifyOtp` call with email and code |
| VerifyOtp.Step | client/src/pages/VerifyOTP.jsx:24-79 | every event keeps the invariant and the email, appends at most one request, and never starts a verification while one is in flight |
| VerifyOtp.CountdownRun | client/src/pages/VerifyOTP.jsx:24-35 | n ticks take n seconds off, stopping at zero, where resend is offered |
| VerifyOtp.ResendOfferedAfterCountdown | client/src/pages/VerifyOTP.jsx:13-35 | from mount, resend is offered exactly after 179 ticks |
| VerifyOtp.NavigatedAwayIsFinal | client/src/pages/VerifyOTP.jsx:17-21 | once the page has navigated away no event changes it |
| VerifyOtp.AutoSubmit | client/src/pages/VerifyOTP.jsx:37-42 | typing so that the filtered code becomes six new digits makes exactly one verification call carrying them |
| VerifyOtp.VerifyOutcome | client/src/pages/VerifyOTP.jsx:61-68 | success toasts "Email verified! Please login." and goes to `/login`; failure releases the guard, keeps the code and adds no toast |
| VerifyOtp.ResendOutcome | client/src/pages/VerifyOTP.jsx:71-79 | a successful resend restarts at 60 seconds and hides the button; a failed one changes neither |
| VerifyOtp.VerifyOtpPage.constructor | client/src/pages/VerifyOTP.jsx:12-21 | the fields start as `Mount` says |
| VerifyOtp.VerifyOtpPage.Tick | client/src/pages/VerifyOTP.jsx:24-35 | one interval callback and the effect it triggers, as `Step` |
| VerifyOtp.VerifyOtpPage.HandleVerify | client/src/pages/VerifyOTP.jsx:52-69 | the handler updates the fields as `VerifyStep` |
| VerifyOtp.VerifyOtpPage.OnChange | client/src/pages/VerifyOTP.jsx:110-112 | the field's change and the auto-submit effect, as `Step` |
| VerifyOtp.VerifyOtpPage.OnSubmit | client/src/pages/VerifyOTP.jsx:93 | form submission, as `Step` |
| VerifyOtp.VerifyOtpPage.OnVerifySettled | client/src/pages/VerifyOTP.jsx:61-68 | the settled call, as `Step` |
| VerifyOtp.VerifyOtpPage.HandleResend | client/src/pages/VerifyOTP.jsx:71-79 | the resend handler, as `Step` |
| VerifyEmail.Mount | client/src/pages/VerifyEmail.jsx:6-10 | the page starts verifying, with nothing posted |
| VerifyEmail.Effect | client/src/pages/VerifyEmail.jsx:12-34 | no token shows the no-token error; a latched page does nothing; otherwise the latch is set and one post with the token is made |
| VerifyEmail.Step | client/src/pages/VerifyEmail.jsx:12-34 | requests only grow, and once the latch is set no event posts again |
| VerifyEmail.AtMostOnePost | client/src/pages/VerifyEmail.jsx:7-20 | from mount, whatever events follow, at most one post is made, carrying a non-empty token that was the mount token or the value of a later change of the query string |
| VerifyEmail.PostCarriesUrlToken | client/src/pages/VerifyEmail.jsx:7-20 | a post made during a run carries the page's token or that of one of the run's query changes |
| VerifyEmail.LatchedRunPostsNothing | client/src/pages/VerifyEmail.jsx:19-20 | after the latch, later effect runs, a new token included, post nothing |
| VerifyEmail.DoubleMountPostsOnce | client/src/pages/VerifyEmail.jsx:19-20 | the effect run twice on mount posts the token once |
| VerifyEmail.SettleOutcome | client/src/pages/VerifyEmail.jsx:22-31 | success shows the server's data; failure shows its message or "Verification failed" |
| VerifyEmail.VerifyEmailPage.constructor | client/src/pages/VerifyEmail.jsx:6-10 | the fields start as `Mount` says |
| VerifyEmail.VerifyEmailPage.RunEffect | client/src/pages/VerifyEmail.jsx:12-34 | the effect body updates the fields as `Effect` |
| VerifyEmail.VerifyEmailPage.TokenChanged | client/src/pages/VerifyEmail.jsx:7 | a new query token and the effect it re-runs, as `Step` |
| VerifyEmail.VerifyEmailPage.Settle | client/src/pages/VerifyEmail.jsx:22-31 | the settled post, as `Step` |
| EmailSent.Mount | client/src/pages/EmailSent.jsx:11-17 | nothing sent; the page goes to `/forgot-password` exactly when there is no address |
| EmailSent.Step | client/src/pages/EmailSent.jsx:19-28 | a click while idle with an address sends one request and sets `sending`; any other click does nothing; the `finally` clears `sending` |
| EmailSent.OneOutstanding | client/src/pages/EmailSent.jsx:19-28 | over any events, the resends sent equal the settlements that end an outstanding resend plus the change in whether one is outstanding, so at most one is ever unsettled |
| EmailSent.NoAddressNoRequest | client/src/pages/EmailSent.jsx:20 | without an address no event sends anything |
| EmailSent.EmailSentPage.constructor | client/src/pages/EmailSent.jsx:11-17 | the fields start as `Mount` says |
| EmailSent.EmailSentPage.HandleResend | client/src/pages/EmailSent.jsx:19-23 | the synchronous part of the handler, as `Step` |
| EmailSent.EmailSentPage.ResendSettled | client/src/pages/EmailSent.jsx:25-27 | the `finally`, as `Step` |
| Home.Params | client/src/pages/Home.jsx:37-50 | definition of the request's parameters, the search term trimmed; `ParamsWithContents`, `ParamsAlwaysSent`, `ParamsSearch` and `ParamsCategory` state its contents |
| Home.ParamsWithContents | client/src/pages/Home.jsx:37-50 | the parameters object key by key: page, limit 12, sort, the three filters, search only when the trimmed term is non-empty, `isDeleted` for the bin, otherwise the category when one is chosen |
| Home.ParamsAlwaysSent | client/src/pages/Home.jsx:37-42 | page, limit, sort and the three filters are always sent unchanged |
| Home.ParamsSearch | client/src/pages/Home.jsx:44 | the search is sent exactly when the term is not blank, and then trimmed |
| Home.ParamsCategory | client/src/pages/Home.jsx:46-50 | the bin sends `isDeleted` and no category; another chosen category is sent as it is |
| Home.BuildParams | client/src/pages/Home.jsx:37-50 | the assignments build exactly `Params` |
| Home.Mount | client/src/pages/Home.jsx:13-29 | page 1 of 1, latest first, nothing filtered, loading, and a fetch scheduled |
| Home.Fetch | client/src/pages/Home.jsx:32-52 | loading is raised, the error cleared, and one request with the parameters of the current state is made |
| Home.Step | client/src/pages/Home.jsx:65-75 | a filter change that changes the filters sends the page to 1 and schedules a fetch, without requesting anything itself |
| Home.GoToPageKeepsFilters | client/src/pages/Home.jsx:222 | changing the page keeps the filters and schedules a fetch of that page |
| Home.RetryOnlyFromErrorBox | client/src/pages/Home.jsx:196-205 | Try Again refetches the current listing while an error is shown and nothing loads; otherwise there is no button and nothing changes |
| Home.ClearFiltersRestoresInitial | client/src/pages/Home.jsx:100-106 | clearing restores every filter, the sort and the search, and page 1 |
| Home.DebounceFiresFetches | client/src/pages/Home.jsx:65-71 | the timeout fires the fetch that was scheduled last, with the state it was scheduled in, and nothing without a schedule |
| Home.AfterFilterChange | client/src/pages/Home.jsx:65-75 | definition of the two effects a filter change triggers: the page goes back to 1 and a fetch is scheduled; `FilterBurst` and `BurstThenFetch` state their outcome |
| Home.FetchSettledOutcome | client/src/pages/Home.jsx:54-62 | a listing replaces the products (none when absent) and the page count (1 when absent or 0); a failure empties the list and shows the message or the fallback |
| Home.ForceDeleteNeedsConfirmation | client/src/pages/Home.jsx:90-98 | a declined confirmation makes no request; a confirmed one deletes and refetches on success |
| Home.RestoreRefetches | client/src/pages/Home.jsx:80-88 | restore asks nothing and refetches on success |
| Home.FilterBurst | client/src/pages/Home.jsx:65-75 | any burst of filter changes requests nothing by itself |
| Home.BurstThenFetch | client/src/pages/Home.jsx:65-75 | after a burst that changed the filters, the one fetch that fires carries page 1 and the final filters |
| Home.HomePage.constructor | client/src/pages/Home.jsx:13-29 | the fields start as `Mount` says |
| Home.HomePage.FiltersChanged | client/src/pages/Home.jsx:65-75 | the page-reset and debounce effects, as `AfterFilterChange` |
| Home.HomePage.HandleSearch | client/src/pages/Home.jsx:77 | as `Step` |
| Home.HomePage.HandleCategoryChange | client/src/pages/Home.jsx:78 | as `Step` |
| Home.HomePage.SetSort | client/src/pages/Home.jsx:161 | as `Step` |
| Home.HomePage.SetFilters | client/src/pages/Home.jsx:159 | as `Step` |
| Home.HomePage.SetPage | client/src/pages/Home.jsx:222 | as `Step` |
| Home.HomePage.HandleClearFilters | client/src/pages/Home.jsx:100-106 | as `Step` |
| Home.HomePage.FetchProducts | client/src/pages/Home.jsx:32-52 | the synchronous part of the fetch, as `Fetch` |
| Home.HomePage.DebounceFires | client/src/pages/Home.jsx:66-68 | as `Step` |
| Home.HomePage.Retry | client/src/pages/Home.jsx:196-205 | as `Step` |
| Home.HomePage.FetchSettled | client/src/pages/Home.jsx:54-62 | as `Step` |
| Home.HomePage.HandleRestore | client/src/pages/Home.jsx:80-88 | as `Step` |
| Home.HomePage.HandleForceDelete | client/src/pages/Home.jsx:90-98 | as `Step` |
| QueryString.Encode | client/src/pages/ProductList.jsx:18 | escaping leaves no reserved character in a value |
| QueryString.DecodeEncode | client/src/pages/ProductList.jsx:18 | decoding an escaped value gives the value back |
| QueryString.ParseJoin | client/src/pages/ProductList.jsx:18 | plain pairs joined with `&` are read back as the decoded pairs, in order |
| QueryString.ParseUrl | client/src/pages/ProductList.jsx:18 | a URL `path?pairs` whose parts hold no `#` is read as its pairs |
| QueryString.FragmentIgnored | client/src/pages/ProductList.jsx:18 | nothing after the first `#` reaches the server |
| ProductList.QueryAsWritten | client/src/pages/ProductList.jsx:18 | definition of the template literal as written, the search put in unescaped; `HashDropsBinFlag` and `AmpersandInjectsParameter` show what that does |
| ProductList.QueryRoundTrip | client/src/pages/ProductList.jsx:18 | with the search escaped, the server reads exactly page, limit 5, the search text and the view flag, whatever the search text |
| ProductList.HashDropsBinFlag | client/src/pages/ProductList.jsx:18 | as written, searching the bin for `#` sends no `isDeleted` at all |
| ProductList.AmpersandInjectsParameter | client/src/pages/ProductList.jsx:18 | as written, searching the active view for `x&isDeleted=true` adds an `isDeleted=true` ahead of the page's own |
| ProductList.NextEnabledAsWritten | client/src/pages/ProductList.jsx:162 | definition of the Next guard as written, `page !== totalPages`; `NextAsWrittenOvershoots` shows it lets a page past the last through |
| ProductList.NextEnabled | client/src/pages/ProductList.jsx:161-166 | Next is offered only before the last page |
| ProductList.NextAsWrittenOvershoots | client/src/pages/ProductList.jsx:161-167 | as written, on any page past the last (page 1 of an empty result, or a page beyond a count that shrank) Next moves one page further out and requests it; the corrected guard leaves the page as it is |
| ProductList.ListOwnerAsWritten | client/src/pages/ProductList.jsx:129 | definition of the owner test as written: the user's `id` strictly equal to the creator's `_id`, two missing ids being equal; `AnonymousOwnerAsWritten` shows what that grants |
| ProductList.AnonymousOwnerAsWritten | client/src/pages/ProductList.jsx:129 | as written, a visitor with no user owns any product whose creator is an unpopulated id |
| ProductList.AnonymousGetsOwnerButtons | client/src/pages/ProductList.jsx:129-141 | as written, a visitor with no user gets the owner's buttons on a product whose creator is an unpopulated id; the corrected build gives none |
| ProductList.OwnerIffSameId | client/src/pages/ProductList.jsx:129 | the owner test holds exactly for a signed-in user whose `id` is the populated creator's `_id` |
| ProductList.ListActions | client/src/pages/ProductList.jsx:129-141 | the build's owner gets exactly Edit and Delete in the list and exactly Restore and Delete Forever in the bin; anyone else gets no buttons |
| ProductList.OnlyRenderedButtonsAct | client/src/pages/ProductList.jsx:129-141 | a delete, a permanent delete or a restore asks the server something only for a product whose row shows that button |
| ProductList.ViewGatesLifecycle | client/src/pages/ProductList.jsx:129-141 | in the bin a move to trash does nothing; in the active view a permanent delete or a restore does nothing |
| ProductList.BinOffersNoCreation | client/src/pages/ProductList.jsx:95-99 | the bin view shows neither the add link nor an Edit button |
| ProductList.Fetch | client/src/pages/ProductList.jsx:16-18 | one request for the current page, search and view, at the URL of the page's build: the template as written, or with the search escaped |
| ProductList.CorrectedFetchReadsAsIntended | client/src/pages/ProductList.jsx:16-18 | in the corrected build the server reads each fetch as exactly the page, limit 5, the search text and the view |
| ProductList.Mount | client/src/pages/ProductList.jsx:9-28 | page 1 of 1, active view, empty search, and `/products?page=1&limit=5&search=&isDeleted=false` asked for, in either build |
| ProductList.LifecycleCall | client/src/pages/ProductList.jsx:30-60 | the request is made; success toasts the success text and refetches the same page at the build's URL, failure toasts the server's error or the fallback; page, search, view and products are unchanged |
| ProductList.Step | client/src/pages/ProductList.jsx:26-60 | every event keeps the invariant and the build, and only appends to the requests; a delete, permanent delete or restore acts only for a button the row shows |
| ProductList.ToggleBinResetsPage | client/src/pages/ProductList.jsx:86-89 | toggling flips the view, goes to page 1 and fetches that page of the other view at the build's URL |
| ProductList.DeletesNeedConfirmation | client/src/pages/ProductList.jsx:30-50 | a declined delete of either kind asks the server nothing |
| ProductList.DeleteOutcome | client/src/pages/ProductList.jsx:30-50 | a confirmed delete from a shown button sends its request; success toasts "Product moved to trash" and refetches the same page at the build's URL, failure reports the error or "Delete failed" |
| ProductList.RestoreOutcome | client/src/pages/ProductList.jsx:52-60 | restore from a shown button asks nothing; success toasts "Product restored" and refetches at the build's URL, failure reports the error or "Restore failed" |
| ProductList.PagingSteps | client/src/pages/ProductList.jsx:153-166 | on page 1 Prev changes nothing, elsewhere it goes one page back and fetches it at the build's URL; Next changes nothing unless the build offers it, and then goes one page on and fetches it |
| ProductList.PagingStaysInRange | client/src/pages/ProductList.jsx:153-166 | in the corrected build, paging from a page in range never leaves 1..totalPages, and each click makes at most one request |
| ProductList.ProductListPage.constructor | client/src/pages/ProductList.jsx:9-28 | the fields start as `Mount` says for the chosen build |
| ProductList.ProductListPage.FetchProducts | client/src/pages/ProductList.jsx:16-24 | as `Fetch` |
| ProductList.ProductListPage.OnSearchChange | client/src/pages/ProductList.jsx:83 | as `Step` |
| ProductList.ProductListPage.ToggleBin | client/src/pages/ProductList.jsx:86-89 | as `Step` |
| ProductList.ProductListPage.Prev | client/src/pages/ProductList.jsx:153-159 | as `Step` |
| ProductList.ProductListPage.Next | client/src/pages/ProductList.jsx:161-167 | as `Step` |
| ProductList.ProductListPage.FetchSettled | client/src/pages/ProductList.jsx:19-23 | as `Step` |
| ProductList.ProductListPage.Lifecycle | client/src/pages/ProductList.jsx:32-38 | as `LifecycleCall` |
| ProductList.ProductListPage.HandleDelete | client/src/pages/ProductList.jsx:30-39 | as `Step` |
| ProductList.ProductListPage.HandleForceDelete | client/src/pages/ProductList.jsx:41-50 | as `Step` |
| ProductList.ProductListPage.HandleRestore | client/src/pages/ProductList.jsx:52-60 | as `Step` |
| ProductDetail.ImageUrl | client/src/pages/ProductDetail.jsx:129-131 | the image shown is always an `http` URL: the stored one, or the placeholder |
| ProductDetail.ImageUrlIdempotent | client/src/pages/ProductDetail.jsx:129-131 | a stored `http` URL is shown as it is, and resolving a result again changes nothing |
| ProductDetail.DetailOwner | client/src/pages/ProductDetail.jsx:258-261 | definition of the owner test: a signed-in user, a creator present, and the user's `_id` or `id` equal, as text, to the creator's `_id` or bare id; `DetailOwnerPopulated` and `DetailOwnerBareId` state its cases |
| ProductDetail.DetailOwnerPopulated | client/src/pages/ProductDetail.jsx:258-261 | a visitor with no user owns nothing; a populated creator is owned by the user whose `_id` or `id` matches its `_id` |
| ProductDetail.DetailOwnerBareId | client/src/pages/ProductDetail.jsx:258-261 | a creator stored as a bare id is matched against the user's `_id` or `id` |
| ProductDetail.DetailActions | client/src/pages/ProductDetail.jsx:252-287 | Edit for everyone; Delete Forever exactly for the owner; Trash exactly for the owner of an active product, Restore exactly for the owner of a trashed one |
| ProductDetail.Mount | client/src/pages/ProductDetail.jsx:19-31 | loading, no error, and the product asked for |
| ProductDetail.Step | client/src/pages/ProductDetail.jsx:19-83 | every event keeps the invariant: the load is the first request and `deleting` is set exactly while a call is outstanding |
| ProductDetail.FetchOutcome | client/src/pages/ProductDetail.jsx:19-31 | the load clears `loading`; success shows the product, failure the message or "Failed to load product details" |
| ProductDetail.ConfirmationGate | client/src/pages/ProductDetail.jsx:48-83 | a declined confirmation sends nothing; restore sends whatever the answer |
| ProductDetail.OnlyOwnerActs | client/src/pages/ProductDetail.jsx:258-287 | only the owner can start a call, and none while another is outstanding |
| ProductDetail.SettleOutcome | client/src/pages/ProductDetail.jsx:33-83 | the call's end clears `deleting`; success alerts its message and goes home, failure alerts the server's message or the fallback |
| ProductDetail.OneCallAtATime | client/src/pages/ProductDetail.jsx:33-83 | over any events, the lifecycle calls made equal the settlements that end an outstanding call plus the change in whether one is outstanding, so at most one is ever unsettled |
| ProductDetail.ProductDetailPage.constructor | client/src/pages/ProductDetail.jsx:19-31 | the fields start as `Mount` says |
| ProductDetail.ProductDetailPage.FetchSettled | client/src/pages/ProductDetail.jsx:22-30 | as `Step` |
| ProductDetail.ProductDetailPage.Begin | client/src/pages/ProductDetail.jsx:48-53 | the confirmation, `setDeleting(true)` and the call, as `Step` |
| ProductDetail.ProductDetailPage.HandleSoftDelete | client/src/pages/ProductDetail.jsx:48-64 | as `Step` |
| ProductDetail.ProductDetailPage.HandleForceDelete | client/src/pages/ProductDetail.jsx:67-83 | as `Step` |
| ProductDetail.ProductDetailPage.HandleRestore | client/src/pages/ProductDetail.jsx:33-45 | as `Step` |
| ProductDetail.ProductDetailPage.Settled | client/src/pages/ProductDetail.jsx:55-63 | as `Step` |
| ProductDetail.ProductDetailPage.EditProduct | client/src/pages/ProductDetail.jsx:252-257 | navigates to the edit page of the product |
| ProductFields.Fields | client/src/pages/AddProduct.jsx:151-213 | definition of the four validated inputs, name, description, price and category, each with its rules; `NoErrorsIffAcceptable` states what they accept |
| ProductFields.NoErrorsIffAcceptable | client/src/pages/EditProduct.jsx:187-261 | the form shows no message exactly when the name has at least 3 characters, the description 10, the price is a number of at least 0 and a category is chosen |
| ProductFields.CategoryFromSelect | client/src/pages/AddProduct.jsx:212-225 | with the select's options, the category passes exactly when it is one of the seven categories |
| ProductFields.PreviewOf | client/src/pages/AddProduct.jsx:32-42 | there is a preview exactly when a file is chosen, and it is the first file |
| ProductFields.AfterDrop | client/src/pages/AddProduct.jsx:62-81 | definition of a drop: the first dropped file, when it is an image, becomes the chosen file; `DropOutcome` states it |
| ProductFields.DropOutcome | client/src/pages/AddProduct.jsx:62-81 | a drop changes only the image; an image file becomes the chosen file and preview; anything else leaves the values as they were |
| ProductFields.FormOf | client/src/pages/AddProduct.jsx:83-101 | definition of the submitted form: the five base parts and the image when one is chosen; `FormParts` states them part by part |
| ProductFields.FormParts | client/src/pages/AddProduct.jsx:83-101 | the form carries name, description, price, category and inStock in order and as entered, plus an `image` part exactly when a file is chosen: that file |
| ProductFields.DroppedImageIsUploaded | client/src/pages/EditProduct.jsx:85-131 | a dropped image is the file the next submission uploads |
| ProductFields.AssembleForm | client/src/pages/EditProduct.jsx:106-121 | the appends build exactly `FormOf` |
| AddProduct.DefaultsAreRejected | client/src/pages/AddProduct.jsx:20-26 | an example: the untouched form shows the four required messages, in form order (the all-inputs statement is `ProductFields.NoErrorsIffAcceptable`) |
| AddProduct.Mount | client/src/pages/AddProduct.jsx:20-26 | the defaults, no preview, nothing sent |
| AddProduct.Step | client/src/pages/AddProduct.jsx:32-108 | every event keeps the preview equal to the chosen file's |
| AddProduct.PreviewFollowsFile | client/src/pages/AddProduct.jsx:32-42 | the preview is cleared without a file, and shows the first chosen file otherwise |
| AddProduct.DropOnPage | client/src/pages/AddProduct.jsx:45-81 | drag-enter raises the flag, drag-leave and drop lower it; a refused drop alerts and keeps the values; an accepted one previews the file |
| AddProduct.SubmitCreates | client/src/pages/AddProduct.jsx:83-99 | an acceptable form is sent once to the create endpoint; an unacceptable one changes nothing |
| AddProduct.SubmittedOutcome | client/src/pages/AddProduct.jsx:99-108 | the end clears `isSubmitting`; success toasts and goes home, failure toasts the message or the fallback |
| AddProduct.AddProductPage.constructor | client/src/pages/AddProduct.jsx:20-26 | the fields start as `Mount` says |
| AddProduct.AddProductPage.Change | client/src/pages/AddProduct.jsx:32-42 | as `Step` |
| AddProduct.AddProductPage.HandleDragEnter | client/src/pages/AddProduct.jsx:45-49 | as `Step` |
| AddProduct.AddProductPage.HandleDragLeave | client/src/pages/AddProduct.jsx:51-55 | as `Step` |
| AddProduct.AddProductPage.HandleDrop | client/src/pages/AddProduct.jsx:62-81 | as `Step` |
| AddProduct.AddProductPage.Submit | client/src/pages/AddProduct.jsx:83-99 | as `Step`, with the form assembled by `AssembleForm` |
| AddProduct.AddProductPage.Settled | client/src/pages/AddProduct.jsx:99-108 | as `Step` |
| EditProduct.ResolveImage | client/src/pages/EditProduct.jsx:42-44 | a stored image always resolves to an `http` URL |
| EditProduct.ResolveImageProperties | client/src/pages/EditProduct.jsx:42-44 | URLs are kept, file names get the uploads folder in front, and resolving twice changes nothing |
| EditProduct.DisplayImage | client/src/pages/EditProduct.jsx:144 | the new file's preview wins; otherwise the stored image, when there is one |
| EditProduct.Mount | client/src/pages/EditProduct.jsx:31-52 | loading, and the product asked for |
| EditProduct.Step | client/src/pages/EditProduct.jsx:31-131 | every event keeps the invariant and the id |
| EditProduct.LoadValues | client/src/pages/EditProduct.jsx:36-40 | definition of the load's `setValues`: name, description, price, category and stock from the product, the chosen file kept; `LoadOutcome` states it field by field |
| EditProduct.LoadOutcome | client/src/pages/EditProduct.jsx:31-52 | the load fills every field but the file input and resolves the stored image; a failed load toasts and goes home |
| EditProduct.DragFlag | client/src/pages/EditProduct.jsx:68-83 | drag-enter raises the flag, drag-leave and drop lower it, drag-over changes nothing; none sends anything |
| EditProduct.DropOnPage | client/src/pages/EditProduct.jsx:85-104 | a refused drop keeps the values and toasts; an accepted one displays the dropped file |
| EditProduct.SubmitSendsUpdate | client/src/pages/EditProduct.jsx:106-123 | an acceptable form is sent once to the update endpoint of this id; without a new file it has no `image` part |
| EditProduct.SubmittedOutcome | client/src/pages/EditProduct.jsx:123-131 | the end clears `isSubmitting`; success toasts "Product updated successfully!" and goes to the product's page, failure toasts the message or the fallback |
| EditProduct.EditProductPage.constructor | client/src/pages/EditProduct.jsx:31-52 | the fields start as `Mount` says |
| EditProduct.EditProductPage.FetchSettled | client/src/pages/EditProduct.jsx:31-52 | as `Step` |
| EditProduct.EditProductPage.Change | client/src/pages/EditProduct.jsx:55-65 | as `Step` |
| EditProduct.EditProductPage.HandleDragEnter | client/src/pages/EditProduct.jsx:68-72 | as `Step` |
| EditProduct.EditProductPage.HandleDragLeave | client/src/pages/EditProduct.jsx:74-78 | as `Step` |
| EditProduct.EditProductPage.HandleDrop | client/src/pages/EditProduct.jsx:85-104 | as `Step` |
| EditProduct.EditProductPage.Submit | client/src/pages/EditProduct.jsx:106-123 | as `Step`, with the form assembled by `AssembleForm` |
| EditProduct.EditProductPage.Settled | client/src/pages/EditProduct.jsx:123-131 | as `Step` |
| ProductForm.IsEditMode | client/src/pages/ProductForm.jsx:9 | definition of edit mode: the route has a truthy `id`; `SubmitRequest`, `Mount` and `CreateModeOnlyCreates` state what follows from it |
| ProductForm.WithField | client/src/pages/ProductForm.jsx:36-39 | the named field takes the value and every other field is kept |
| ProductForm.WithFieldLastWins | client/src/pages/ProductForm.jsx:36-39 | the last edit of a field wins, and edits of different fields commute |
| ProductForm.FormDataOf | client/src/pages/ProductForm.jsx:49-55 | definition of the submitted form: name, description, price and the image when set; `FormDataParts` states it part by part |
| ProductForm.FormDataParts | client/src/pages/ProductForm.jsx:49-55 | the form carries name, description and price in order, plus an `image` part exactly when a file is set |
| ProductForm.BuildFormData | client/src/pages/ProductForm.jsx:49-55 | the appends build exactly `FormDataOf` |
| ProductForm.SubmitRequest | client/src/pages/ProductForm.jsx:57-64 | edit mode updates the product of the route's id, create mode creates one, both with the form data |
| ProductForm.Mount | client/src/pages/ProductForm.jsx:9-34 | empty record and preview; the product is asked for exactly in edit mode |
| ProductForm.Step | client/src/pages/ProductForm.jsx:19-69 | every event keeps the invariant: in create mode only creations are requested |
| ProductForm.MountLoadsOnlyInEditMode | client/src/pages/ProductForm.jsx:19-34 | create mode requests nothing on mount; edit mode asks for the product once |
| ProductForm.LoadOutcome | client/src/pages/ProductForm.jsx:22-30 | the load copies name, description and price, clears the file and previews the stored image; failure toasts and goes home |
| ProductForm.ImageChangeOnlyImage | client/src/pages/ProductForm.jsx:41-45 | choosing a file changes only the record's image and the preview, which shows that file |
| ProductForm.Filled | client/src/pages/ProductForm.jsx:78-105 | definition of what the `required` inputs let through: name, description and price are not empty; `SubmitEndpoint` states what a filled form sends |
| ProductForm.SubmitEndpoint | client/src/pages/ProductForm.jsx:47-69 | a filled form sends `SubmitRequest`; success toasts the mode's message and goes home, failure toasts the error or "Operation failed"; an unfilled form sends nothing |
| ProductForm.CreateModeOnlyCreates | client/src/pages/ProductForm.jsx:9-64 | whatever the user does, a form opened without an id only ever creates products |
| ProductForm.ProductFormPage.constructor | client/src/pages/ProductForm.jsx:9-34 | the fields start as `Mount` says |
| ProductForm.ProductFormPage.FetchSettled | client/src/pages/ProductForm.jsx:22-30 | as `Step` |
| ProductForm.ProductFormPage.HandleChange | client/src/pages/ProductForm.jsx:36-39 | as `Step` |
| ProductForm.ProductFormPage.HandleImageChange | client/src/pages/ProductForm.jsx:41-45 | as `Step` |
| ProductForm.ProductFormPage.HandleSubmit | client/src/pages/ProductForm.jsx:47-69 | as `Step`, with the data built by `BuildFormData` |

## Left out

- Login, Profile and ForgotPassword are not part of this model. The components the pages render (product cards, filter bar, pagination, sidebar) are not part of it either. Nor are the context and API modules the pages call.
- The server, the network and their timing. Every reply is a parameter or an event.
- `window.confirm` is a boolean parameter. Timers (`setInterval`, the 500 ms debounce) are tick and fire events.
- Toasts and alerts are messages appended to a log. Rendering, styling, password visibility toggles and `console.error` are not modelled.
- Asynchronous handlers that a flag guards are split into a start and a settlement.
  - The others run atomically, with the reply given: the list's lifecycle calls, Home's restore and force delete, the combined form's submission, the OTP resend, and the Register and ResetPassword submissions.
  - The interleavings this rules out for those handlers are not modelled.
- Stale closures over React state are not modelled. Each handler reads the state current when it runs.
- `FileReader` data URLs and `URL.createObjectURL` are not modelled. A preview is the file it shows. `createObjectURL(undefined)` throws, so clearing the combined form's file input leaves the preview unchanged.
- `DataTransfer` is not modelled. A drop is its list of files.
- Floating point, `toFixed` and `toLocaleDateString` are not modelled: prices are reals. An empty number input is "no number" and is sent as the text `NaN`.
- String lengths count characters, not UTF-16 code units.
- The browser's own `type="email"` check is left out. Only the registered pattern is modelled.
- `QueryString.Decode` reads `%XX` and `+` the way the server's parser does for well-formed input. Malformed escapes and multi-byte UTF-8 sequences are not modelled.
- ProductList.ListOwner: requires a product with a creator. The source throws while rendering when `createdBy` is missing, and that crash is not modelled.
- ProductForm.Step: the `loading` field records the outstanding fetch in edit mode. The source has no such state; it is there so the settlement can be matched to the fetch.
- VerifyOtp.Step: the `inFlight` field records that a `verifyOtp` call has been made and has not settled. The source has no such state; it is there so the settlement can be matched to the call.
- VerifyEmail.Step: the `inFlight` field records that the verification post has been made and has not settled. The source has no such state; it is there so the settlement can be matched to the post.
- ProductDetail.Step: the `pending` field records which lifecycle call is outstanding. The source has no such state; it is there so the settlement can be matched to the call and its messages.
- ProductList.Step: a delete, permanent delete or restore of a product whose row does not show that button is a no-op. The page never renders such a button, so the source has no such event to handle.
- Home.Step: `GoToPage(n)` takes any number. The Pagination component, which decides which pages can be chosen, is not part of this model, so the page keeps no bound such as `1 <= page <= totalPages`.
- The `Edit` event of the add and edit pages carries the form's whole new values rather than one keystroke. react-hook-form's uncontrolled inputs are not modelled.
- ProductDetail.ProductDetailPage.EditProduct: only the navigation is modelled. The edit page itself is EditProduct.
- The Back and Cancel buttons are not modelled: the add, edit and combined form pages and the detail page's Back, and the add and edit pages' Cancel, which is disabled while a submission is in flight. Each only navigates and changes no state.
- `Fail(message)` is the server's `response.data.error` on the product list and the combined form, and `response.data.message` on every other page. The model does not tell the two fields apart.

## Findings

| source | as written | input that shows it | evidently intended | confidence | as-written member | corrected member |
|---|---|---|---|---|---|---|
| client/src/pages/ProductList.jsx:18 | the search text goes into the URL unescaped | searching the bin for `#` sends no `isDeleted`; searching the active view for `x&isDeleted=true` adds `isDeleted=true` | the search escaped (`encodeURIComponent`), so the server reads exactly page, limit, search and view | high (not executed) | ProductList.HashDropsBinFlag | ProductList.QueryRoundTrip |
| client/src/pages/ProductList.jsx:162 | Next is disabled only when `page === totalPages` | page 1 of 0 pages (an empty result), or page 3 of 2 after a refetch shrank the list | Next disabled when `page >= totalPages` | high (not executed) | ProductList.NextAsWrittenOvershoots | ProductList.PagingStaysInRange |
| client/src/pages/ProductList.jsx:129 | `user?.id === product.createdBy._id` under strict equality | no user, and a creator stored as a bare id: both sides are `undefined`, so the visitor sees the owner's buttons | both ids present and equal | high (not executed) | ProductList.AnonymousGetsOwnerButtons | ProductList.OwnerIffSameId |
