# Wazzop broadcast console, modelled in Dafny

This project models the logic core of the Wazzop broadcast console. The console is a one-page web client for a WhatsApp gateway. It has two parts:

* **PhoneNumber** (`phone.dfy`): `formatPhoneNumber`. It keeps only the characters of `[0-9+]` and makes sure the number starts with `+`. A leading trunk `0` becomes the Indonesian country code `+62`.
* **The page's decision and state logic** (`src/pages/index.tsx`), in three modules:
  * **Gateway** (`gateway.dfy`): the request and response shapes and the two cookies.
    * The request interceptor attaches the HTTP Basic header of section 2 of RFC 7617 only when both cookies are non-empty.
    * The response interceptor removes both cookies on a 401.
    * A server-side reading of the user-pass string is included, to state what the header means.
  * **Broadcast** (`broadcast.dfy`): the destination text is split on `"\n"`, and one `POST /send` body is built per line.
  * **Page** (`page.dfy`) and **Console** (`console.dfy`): the page state is the cookies, the component state and the log of outgoing requests.
    * Page gives one pure transition per event handler and the properties the handlers promise.
    * `Console.HomePage` (the `Home` component) is a class whose fields are that state. Its methods update the fields step by step, in the order the handlers do.
    * Each method is proved to end in exactly the state its Page transition names, so every Page lemma holds for the methods too.

Every awaited network call is an argument of the handler: a `Response<T>`, either `Ok(data)` or `Err(HttpError(status))`. The browser's `btoa` is the parameter `base64` (the `base64` constant of the class). It is a function of which nothing is assumed.

Submitting a broadcast does not deduplicate numbers and does not normalise them, because `formatPhoneNumber` is never called by the page. It has no group modes, no media, no pacing and no progress counter: it posts one message per raw line. A 401 removes the cookies but leaves `isAuthenticated` set.

## Model

| member | source | states |
|---|---|---|
| PhoneNumber.Clean | src/lib/formatPhoneNumber.ts:2 | the filtered string is no longer than the input and holds only `[0-9+]` |
| PhoneNumber.FormatPhoneNumber | src/lib/formatPhoneNumber.ts:1-13 | the result always starts with `+`, holds only `[0-9+]`, and is at most two characters longer than the cleaned input |
| PhoneNumber.CleanAppend | src/lib/formatPhoneNumber.ts:2 | the filter works character by character: cleaning a concatenation concatenates the cleaned parts |
| PhoneNumber.CleanFixedPoint | src/lib/formatPhoneNumber.ts:2 | the filter leaves a string unchanged exactly when it holds only `[0-9+]` (both directions) |
| PhoneNumber.CleanIsSubsequence | src/lib/formatPhoneNumber.ts:2 | the cleaned string is a subsequence of the input: order is preserved |
| PhoneNumber.SubsequenceExtend | src/lib/formatPhoneNumber.ts:2 | a subsequence of the tail of a string is a subsequence of the string |
| PhoneNumber.SubsequenceTail | src/lib/formatPhoneNumber.ts:2 | dropping the first character of a subsequence keeps it a subsequence |
| PhoneNumber.CleanCounts | src/lib/formatPhoneNumber.ts:2 | every `[0-9+]` character occurs in the output as often as in the input, and every other character never occurs |
| PhoneNumber.KeepsInternationalNumber | src/lib/formatPhoneNumber.ts:4-12 | a cleaned number starting with `+` is returned unchanged |
| PhoneNumber.ReplacesTrunkZero | src/lib/formatPhoneNumber.ts:5-6 | a cleaned number starting with `0` becomes `"+62"` followed by the rest, two characters longer |
| PhoneNumber.PrependsPlus | src/lib/formatPhoneNumber.ts:7-8 | any other cleaned number gets `+` in front, one character longer |
| PhoneNumber.FormatIdempotent | src/lib/formatPhoneNumber.ts:1-13 | normalising a normalised number changes nothing |
| PhoneNumber.EmptyBecomesPlus | src/lib/formatPhoneNumber.ts:2-10 | an input without any `[0-9+]` character, the empty one included, yields `"+"` |
| PhoneNumber.LocalNumberExample | src/lib/formatPhoneNumber.ts:2-6 | `"0811-11"` becomes `"+6281111"` |
| Gateway.UserPass | src/pages/index.tsx:73-75 | the user-pass string is the user name, one colon, then the password |
| Gateway.AuthorizationHeader | src/pages/index.tsx:69-77 | a header is attached if and only if both cookies are set and non-empty, and it is `"Basic "` followed by the base64 of `username:password` |
| Gateway.CredentialsAfterError | src/pages/index.tsx:99-103 | a 401 removes both cookies, and any other failure keeps them |
| Gateway.FirstColon | src/pages/index.tsx:73-75 | reference definition, not page code: the index of the first colon of the string built at these lines, or its length when there is none |
| Gateway.ParseUserPass | src/pages/index.tsx:73-75 | reference definition, not page code: the server's reading of the string built at these lines (section 2 of RFC 7617) splits it at its first colon, and only a string without a colon fails to parse |
| Gateway.UserPassRoundTrip | src/pages/index.tsx:73-75 | a user name without a colon is recovered, with the password, from the header's user-pass string |
| Gateway.ColonInUsernameIsAmbiguous | src/pages/index.tsx:69-77 | two different logins (`a:b`/`c` and `a`/`b:c`) produce the same header |
| Gateway.UnauthorizedRevokesHeader | src/pages/index.tsx:99-103 | after a 401 no header is attached |
| Gateway.ErrorNeverChangesHeader | src/pages/index.tsx:97-114 | a failed call either keeps the header or removes it, and never changes it to another one |
| Broadcast.SplitLines | src/pages/index.tsx:215-216 | `split("\n")` gives at least one piece, and no piece holds a newline |
| Broadcast.JoinSplit | src/pages/index.tsx:215-216 | joining the pieces with newlines gives the text back |
| Broadcast.SplitPrefix | src/pages/index.tsx:215-216 | a newline-free prefix only extends the first piece |
| Broadcast.SplitJoin | src/pages/index.tsx:215-216 | newline-free lines survive a join then a split |
| Broadcast.LineCount | src/pages/index.tsx:215-216 | there is one piece per newline plus one, so blank lines are kept |
| Broadcast.SendPayloads | src/pages/index.tsx:215-224 | one body per line, each with the form's device id, the type `"person"` and the template unchanged |
| Broadcast.Destinations | src/pages/index.tsx:220 | one destination per body |
| Broadcast.DestinationsAreLines | src/pages/index.tsx:215-221 | the destinations are the lines, in order |
| Broadcast.PayloadsKeepText | src/pages/index.tsx:215-221 | the destinations joined with newlines are the destination text: nothing is dropped, trimmed, normalised or deduplicated |
| Broadcast.RepeatedNumbersAreSentTwice | src/pages/index.tsx:215-221 | `"081111\n081111\n082222"` posts to `081111` twice, as typed |
| Page.SendRequests | src/pages/index.tsx:217-224 | one `POST /send` request per body |
| Page.ConnectTarget | src/pages/index.tsx:300-313 | connect is called if and only if the created id is truthy or an existing device was selected, and the target is that id |
| Page.ConnectOutcome | src/pages/index.tsx:303-332 | every answer of `POST /device/connect` ends in one of the connect outcomes |
| Page.AddDeviceDecisionCases | src/pages/index.tsx:290-340 | create only for `"add-new-device"`; an error when no id is known; connect exactly when the guard holds; then the pairing code, the QR string or a refresh, each in both directions |
| Page.SubmitIgnoredWhileLoading | src/pages/index.tsx:203-205 | submitting while a call is in flight changes nothing |
| Page.SubmitWithoutSessionOpensLogin | src/pages/index.tsx:207-210 | without a session, submitting only opens the login dialog and sends nothing |
| Page.SubmitSendsOnePerLine | src/pages/index.tsx:212-229 | with a session, exactly one `POST /send` goes out per line, carrying the device, the raw line, `"person"`, the template and the current header; nothing else changes |
| Page.SubmitSendsTextVerbatim | src/pages/index.tsx:215-224 | the destinations sent, joined with newlines, are the destination text |
| Page.LoginIgnoredWhileLoading | src/pages/index.tsx:263-265 | login while a call is in flight changes nothing |
| Page.LoginStoresForm | src/pages/index.tsx:260-271 | login stores exactly the form's user name and password, the fetch that follows carries them, and they stay stored unless that fetch is answered with a 401 |
| Page.LogoutRemovesCredentials | src/pages/index.tsx:273-278 | logout removes both cookies and clears the session flag, so no later request carries a header; nothing else changes |
| Page.FetchSuccess | src/pages/index.tsx:237-252 | a successful fetch sends one `GET /device` with the current header, opens the session and hides the login dialog; a non-empty list replaces the devices and selects the first, an empty one changes neither; it clears the loading flag; no other state changes |
| Page.FetchFailure | src/pages/index.tsx:237-258 | a failed fetch changes only the cookies (a 401 removes them) and the request log, and clears the loading flag |
| Page.UnauthorizedFetchKeepsSession | src/pages/index.tsx:97-103 | after a 401 on the fetch the session flag stays set, and the next submission still goes out, without a header |
| Page.ConnectSteps | src/pages/index.tsx:303-332 | connect sends one `POST /device/connect` for the device; a failure applies the 401 rule to the cookies; it shows the pairing code or the QR string; only when connected does it refetch the list and close the device dialog, and otherwise the dialog stays as it was |
| Page.AddDeviceIgnoredWhileLoading | src/pages/index.tsx:283-285 | adding a device while a call is in flight changes nothing |
| Page.AddDeviceSteps | src/pages/index.tsx:280-344 | `POST /device` only for `"add-new-device"`, connect only for the guard's target, both with the starting header; without a target only the request log and (after a failed create) the cookies change; when it runs, the handler ends not loading |
| Console.HomePage.constructor | src/pages/index.tsx:59-154 | the page starts with the browser's cookies, no session, no devices and an empty form |
| Console.HomePage.Send | src/pages/index.tsx:67-86 | one request goes out, with the header the cookies allow |
| Console.HomePage.Reject | src/pages/index.tsx:97-114 | the response interceptor on a failed call |
| Console.HomePage.EditBroadcastForm | src/pages/index.tsx:178-184 | one field of the broadcast form is replaced |
| Console.HomePage.FetchDevices | src/pages/index.tsx:237-258 | `getDevicesData` ends in exactly `Page.Fetched` of the state it started in |
| Console.HomePage.SubmitBroadcast | src/pages/index.tsx:200-235 | the loop posts one body per line, and the handler ends in exactly `Page.Submitted` |
| Console.HomePage.Login | src/pages/index.tsx:260-271 | `handleLogin` ends in exactly `Page.LoggedIn` |
| Console.HomePage.Logout | src/pages/index.tsx:273-278 | `handleLogout` ends in exactly `Page.LoggedOut` |
| Console.HomePage.ConnectDevice | src/pages/index.tsx:303-332 | the connect step returns `Page.ConnectOutcome` and ends in `Page.AfterConnect` |
| Console.HomePage.ConnectCreated | src/pages/index.tsx:290-313 | after `POST /device` it returns `Page.CreateOutcome` and ends in `Page.AfterCreate` |
| Console.HomePage.AttemptAddDevice | src/pages/index.tsx:287-332 | the `try` block returns `Page.AddDeviceDecision` and ends in `Page.Attempted` |
| Console.HomePage.AddDevice | src/pages/index.tsx:280-344 | `handleAddDevice` returns `Busy` while loading, and otherwise the decision; it ends in exactly `Page.AddedDevice` |

## Left out

- Toasts, all rendering, the dialogs' open and close buttons, the OTP and QR widgets and the textarea auto-height (src/pages/index.tsx:186-198, 355-911) are presentation only. The add-device handler's toasts appear as its `AddDeviceOutcome`.
- The request interceptor's error branch (src/pages/index.tsx:87-94) only shows a toast and rejects. A request that never leaves is not modelled.
- The `useEffect` hooks and the 58-second timer that closes the QR dialog (src/pages/index.tsx:159-176) are lifecycle and timer behaviour. Their device fetch is the same `FetchDevices`.
- Concurrency is not modelled. Each handler runs to completion as one step, and other events cannot interleave with its awaits. The unawaited `forEach` posts of the submit handler are modelled as sent in order. Their failures reach only the response interceptor, and their cookie effect is not modelled: the handler ends before any answer arrives.
- React applies state updates at the next render; the model applies each one at once. No handler reads a value it has just set, so the final state is the same.
- `btoa` is an arbitrary function `base64`. Its failure on characters above U+00FF is not modelled.
- The axios instance, the transport and the 6-second timeout are not modelled. A timeout is an `Err` without a status.
- Malformed answers are not modelled: a device list that is not an array, a connect answer without fields, ids that are not strings. A missing created id is the `None` of `CreatedDevice`.
- The login and new-device forms are arguments of the handlers, because only the rendered inputs edit them.
- The form's own checks are not modelled: both text areas are `required` (src/pages/index.tsx:456, 472) and the submit button is disabled without devices (src/pages/index.tsx:480). `Page.Submitted` models the handler alone, so an empty destination text posts one message to the empty destination.
- `handleRegister` (src/pages/index.tsx:346-353) has its body commented out.
- src/components/custom/numbered-textarea.tsx and next.config.mjs are presentation and configuration and are not part of this model.
