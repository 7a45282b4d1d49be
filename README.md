# Sofia guardian portal — a Dafny model

The Sofia guardian portal is a Next.js web application. Parents sign in with
their national identity number (CIN) and see their children's activities,
timetable, absences, grades, invoices and messages, all read from an upstream
REST API. This project models the portal's logic, leaving out the rendering:

- the **route guard** that sends anonymous visitors to `/login` and signed-in
  ones away from it (`RouteGuard`);
- the **server gateway**: the generic `serverApi` call (`ServerApi`), the
  transport values it shares with the server actions (`Transport`), and the
  server actions themselves (`Actions`). These are the login action with its
  error classification and cookie writes, the data getters with their
  per-function envelopes, and the three mutations;
- the **client session**: the `AuthProvider` cookie session (`Session`) and the
  login form (`LoginPage`);
- the **client screens' list logic**: recipient selection and sending
  (`Messages`), the semester filter on grades (`Points`), the absence counts
  and labels (`Absences`), and the day filter and start-time sort of the
  timetable (`TimeSlots`);
- **small decision rules**: the profile screen's avatar and password handlers
  (`Profile`), the activity card's labels and attachment classes
  (`ActivityCard`), and translation and text direction (`Language`).

JavaScript values are modelled by `Js.Json`. An absent property reads as
`Undefined`. Reading a property off `null` or `undefined` is an explicit
`Threw` outcome (`Js.Prop`), because several handlers in the source fail that
way. Truthiness, `||` and `String(...)` are spelled out as `Truthy`, `Or` and
`JsString`. A serialised value (`JSON.stringify(v)`) is the opaque text
`JsonText(v)`, and parsing it gives `v` back (values holding `undefined` are
the exception in JavaScript; see "Left out"). The upstream's answer is a
`Transport.Reply`: either no response at all, or a status and a body. As in
axios, a status outside 2xx makes the call throw. A client-side call to a
server action ends as `Settled`: it is either rejected or resolved with the
action's envelope. Cookies live in a `Jar`, a map from names to texts. The
same jar type serves the server's request cookies and the browser's cookies.
Navigation is recorded as a list of pushed routes.

Stateful parts are classes whose methods update their fields:
`Actions.ServerCookies`, `Session.AuthProvider`, `LoginPage.LoginForm`,
`Messages.MessagesView`, `Points.PointsView`, `Absences.AbsencesView`,
`TimeSlots.TimeSlotsView`, `Profile.ProfileView` and
`Language.LanguageProvider`. Each method's postcondition ties the new state to
the functions the lemmas speak about. The timetable sort works in place on an
array.

Three behaviours of the server actions are easy to overlook:

- `getStudentFinalExam` and `getStudentStatistics` return the reply body as it
  is. They do not unwrap it like the list getters.
- A failed data getter carries no `message` field at all. A 401 on a data call
  therefore has no generic fallback text (`Actions.UnauthorizedGetter`).
- A successful envelope has no `message` field. The field is absent, not null.

## Model

| member | source | states |
|---|---|---|
| RouteGuard.AnyEntryMatches | middleware.ts:28-30 | true exactly when some table entry equals the path or, for a non-root entry, is a prefix of it |
| RouteGuard.AnyPrefix | middleware.ts:32 | true exactly when some auth entry is a prefix of the path |
| RouteGuard.Middleware | middleware.ts:4-56 | `/login` redirect iff there is no non-empty token and the path is protected; `/activities` redirect iff there is a token and the path is an auth path or the root; otherwise next. The three outcomes are exclusive, and the rules apply in source order |
| RouteGuard.ProtectedPathCharacterization | middleware.ts:9-30 | a path is protected iff it is `/`, or it starts with one of the twelve non-root entries |
| RouteGuard.NoTokenProtectedRedirectsToLogin | middleware.ts:28-39 | without a session, a path equal to an entry, or prefixed by a non-root entry, is sent to `/login` |
| RouteGuard.UnlistedPathPassesWithoutToken | middleware.ts:22-30 | `/foo` is not protected and passes without a token, because `/` matches only exactly |
| RouteGuard.PrefixQuirk | middleware.ts:29 | `/pointsX` counts as protected and is sent to `/login` without a token |
| RouteGuard.LoggedInLoginPrefixRedirects | middleware.ts:32-46 | with a token, every path starting with `/login` is sent to `/activities` |
| RouteGuard.LoginPrefixExamples | middleware.ts:32-46 | with a token, `/login/x` and `/loginX` are sent to `/activities` |
| RouteGuard.RootDecision | middleware.ts:35-53 | `/` goes to `/activities` with a token and to `/login` without one |
| RouteGuard.EmptyTokenIsNoSession | middleware.ts:5-53 | an empty token cookie decides exactly as a missing one |
| RouteGuard.NoRedirectLoop | middleware.ts:9-55 | `/login` without a token, and `/activities` with one, both pass, so no redirect target redirects again |
| RouteGuard.MenuNeedsSession | src/lib/navigation.ts:14-27 | every menu entry needs a session: it passes with a token and is sent to `/login` without one |
| Transport.BearerValue | src/app/actions.ts:61 | empty iff there is no token or it is empty; otherwise `Bearer ` followed by exactly the token, never `Bearer undefined` |
| Transport.AuthHeaders | src/app/actions.ts:55-62 | JSON content type and accept headers; the authorization header is always present: empty without a token or with an empty one, otherwise `Bearer ` followed by the token |
| Transport.FailureMessage | src/app/actions.ts:197 | the body's message when it is truthy, else the fallback; never falsy |
| ServerApi.BuildRequest | src/lib/server-api.ts:4-19 | the URL is the base address followed by exactly the given path; the method defaults to GET; the bearer header; the data as body |
| ServerApi.Call | src/lib/server-api.ts:21-27 | returns the reply body iff the status is 2xx; otherwise rethrows the same error, never an envelope |
| ServerApi.NoUnwrap | src/lib/server-api.ts:23 | a `{data: [...]}` body is returned whole, without a nested unwrap |
| ServerApi.NoSessionSendsEmptyAuthorization | src/lib/server-api.ts:6-16 | without a token the header is empty and the method is GET |
| Actions.LoginRequest | src/app/actions.ts:10-25 | POST to `/auth/guardian` with the CIN, the password and the fixed device token, and no authorization header |
| Actions.LoginFailure | src/app/actions.ts:35-47 | in order: no response gives the connection-error text, 404 the user-not-found text, 401 the wrong-password text, any other status the body's message or the login-failed text |
| Actions.LoginEnvelope | src/app/actions.ts:27-50 | success iff the status is exactly 200 and the body is readable; a success carries the body and no message; a 2xx other than 200 gives `Unknown error`; every failure has a truthy message and no data |
| Actions.WithLoginCookies | src/app/actions.ts:29-31 | writes `token` as text and `user` as JSON, both secure with no expiry; every other cookie is kept |
| Actions.ServerCookies.LoginAction | src/app/actions.ts:10-51 | the request, the envelope, and the cookie store: both cookies written on success, neither on any failure |
| Actions.ResourcePath | src/app/actions.ts:67-239 | every getter's path lies under `/guardian/` |
| Actions.ResourceRequest | src/app/actions.ts:55-70 | every getter sends a GET under `/guardian/` with the session's bearer header and no body |
| Actions.GroupsEnvelope | src/app/actions.ts:109-117 | a non-empty group list yields the first group's `sessions`, or fails if that group is null; a missing, null, falsy, empty or non-list `data` yields `{success: true, data: []}`, and a non-empty text yields undefined data; a null body fails with `[]` |
| Actions.Fetch | src/app/actions.ts:67-239 | never a message; a failure carries `[]`, or `null` for the final exam; unwrapping getters succeed iff the status is 2xx and the body is readable, and then return `data.data` unchanged; final exam and statistics succeed iff 2xx and return the body as is |
| Actions.UnwrapKeepsOrder | src/app/actions.ts:71 | a body `{data: [a, b]}` reaches the caller as the bare list `[a, b]` |
| Actions.UnauthorizedGetter | src/app/actions.ts:72-75 | a 401 on a data call gives failure, the empty default and no message |
| Actions.MutationResult | src/app/actions.ts:191-250 | success iff 2xx, returning the whole body; a failure has no data and the body's message or the call's own fallback |
| Actions.Mutate | src/app/actions.ts:185-250 | `sendMessage` always POSTs to `/guardian/messages`; a profile update without a truthy `user` cookie answers `User not found` without a request; it throws exactly when that cookie does not parse; a parsed null user answers the call's fallback text without a request; any other user gets a PUT to a URL built from its `id`, with the session header, the call's body and result |
| Actions.EnvelopeShapes | src/app/actions.ts:33-250 | a successful envelope never has a message; a failed getter carries only `[]` or `null`; a failed mutation carries no data |
| Session.RestoreOf | src/lib/auth.tsx:32-41 | nothing is restored unless both cookies are present and non-empty; otherwise the stored token, with the parsed user or a parse failure |
| Session.WithSession | src/lib/auth.tsx:44-45 | `token` as text and `user` as JSON, both for 365 days; every other cookie is kept |
| Session.WithoutSession | src/lib/auth.tsx:52-53 | both session cookies are gone and every other cookie is kept |
| Session.RestoreAfterLogin | src/lib/auth.tsx:33-47 | round trip: after `login(t, u)` the next mount restores exactly `t` and `u`, unless `t` is empty |
| Session.RestoreAfterLogout | src/lib/auth.tsx:36-55 | after `logout` nothing is restored, and logging out twice equals logging out once |
| Session.AuthProvider.constructor | src/lib/auth.tsx:27-29 | token and user null, loading |
| Session.AuthProvider.RestoreSession | src/lib/auth.tsx:32-41 | the session is restored only when both cookies are present; loading ends unless the stored user fails to parse; cookies and navigation are untouched |
| Session.AuthProvider.Login | src/lib/auth.tsx:43-49 | both cookies written, state set to exactly the given token and user, navigation to `/` |
| Session.AuthProvider.Logout | src/lib/auth.tsx:51-57 | both cookies removed, token and user null, navigation to `/login` |
| LoginPage.OutcomeOf | src/app/login/page.tsx:20-32 | a rejected call shows the unexpected-error text; a success signs in with exactly `data.token` and `data.user`; a failure shows the action's message or `Login failed`; a shown error is never empty |
| LoginPage.SubmitWithLoginAction | src/app/login/page.tsx:21-28 | with the login action, a 200 reply signs in with the body's token and user, and every other reply shows the action's own message |
| LoginPage.LoginForm.constructor | src/app/login/page.tsx:11-12 | not loading, no error |
| LoginPage.LoginForm.BeginSubmit | src/app/login/page.tsx:17-18 | loading on and error cleared before the action is called |
| LoginPage.LoginForm.FinishSubmit | src/app/login/page.tsx:20-34 | sign in through the session provider, or show the error without touching the session; loading ends on every path |
| Messages.Toggle | src/components/MessagesClient.tsx:123-127 | flips whether the id is selected, and keeps the other ids in their relative order |
| Messages.ToggleTwiceRestores | src/components/MessagesClient.tsx:125 | toggling an absent id twice restores the original selection |
| Messages.ToggleKeepsNoDup | src/components/MessagesClient.tsx:125 | a duplicate-free selection stays duplicate-free |
| Messages.SelectAll | src/components/MessagesClient.tsx:129-140 | when the group is all selected, the result is a subsequence of the selection; otherwise the old selection is kept as a prefix and followed by exactly the group's unselected ids in the group's order |
| Messages.SelectAllMembers | src/components/MessagesClient.tsx:131-138 | removes exactly the group's ids, or adds exactly the missing ones |
| Messages.SelectAllKeepsNoDup | src/components/MessagesClient.tsx:137-138 | with duplicate-free inputs the selection stays duplicate-free |
| Messages.NumList | src/components/MessagesClient.tsx:70 | the recipients as numbers, one per id, in order |
| Messages.SendPayload | src/components/MessagesClient.tsx:67-76 | title, body and recipients; `message_id` is present iff the reply id is truthy, and then equals it |
| Messages.ReplyPayload | src/components/MessagesClient.tsx:103-111 | nothing for an empty message; otherwise no recipients, the title or `Re:`, the message and the original id |
| Messages.ComposedMessageRequest | src/components/MessagesClient.tsx:67-90 | a composed message is posted to `/guardian/messages` with its recipients |
| Messages.MessagesView.constructor | src/components/MessagesClient.tsx:10-27 | the inbox tab, empty lists and an empty form |
| Messages.MessagesView.ToggleRecipient | src/components/MessagesClient.tsx:123-127 | the selection becomes `Toggle` of the old one and stays duplicate-free |
| Messages.MessagesView.ToggleSelectAll | src/components/MessagesClient.tsx:129-140 | the selection becomes `SelectAll` of the old one and stays duplicate-free |
| Messages.MessagesView.FetchRecipients | src/components/MessagesClient.tsx:39-46 | a successful load replaces the recipients, a failed one keeps them |
| Messages.MessagesView.FetchMessages | src/components/MessagesClient.tsx:48-56 | the list is cleared first, so a failed load leaves it empty |
| Messages.MessagesView.RunTabEffect | src/components/MessagesClient.tsx:29-37 | the create tab loads recipients; the inbox and sent tabs load their box; the form is untouched |
| Messages.MessagesView.SelectTab | src/components/MessagesClient.tsx:29-37 | clicking the active tab changes nothing; a new tab is set and its effect runs |
| Messages.MessagesView.HandleSend | src/components/MessagesClient.tsx:58-101 | an empty selection only alerts; otherwise the composed payload is sent; success clears title, body, selection and reply id; failure alerts with the message or `Failed to send` and keeps them |
| Messages.MessagesView.HandleReplySend | src/components/MessagesClient.tsx:103-120 | an empty reply sends nothing; success alerts and reloads the inbox; failure alerts with the message or `Failed to reply` |
| Points.ShownNotes | src/components/PointsClient.tsx:78-82 | a failed call shows nothing; semester 3 shows the fetched data unfiltered; any other semester shows only notes of that semester |
| Points.SemesterFilterExact | src/components/PointsClient.tsx:80 | the shown notes are a subsequence of the fetched ones, and each fetched note of the semester appears exactly as often as fetched |
| Points.FinalNoteOf | src/components/PointsClient.tsx:58-61 | null on failure or a null record, else the record's `semster_note` |
| Points.ShowsFinalAverage | src/components/PointsClient.tsx:163 | hidden for null and for the number 0; shown for any other number and for undefined, booleans, texts, lists and objects |
| Points.FinalAverageCases | src/components/PointsClient.tsx:163 | a failed call hides the average; a record without the note, or the text `0`, still shows it; the number 0 hides it |
| Points.SemesterName | src/components/PointsClient.tsx:92-96 | `First Semester` iff loosely 1, `Second Semester` iff loosely 2 and not 1, otherwise `Unknown` |
| Points.SemesterNameExamples | src/components/PointsClient.tsx:92-96 | 1 and `"1"` and `true` name the first semester, 2 the second, any other number or null is `Unknown` |
| Points.PointsView.constructor | src/components/PointsClient.tsx:32-34 | no notes, null final note, not loading |
| Points.PointsView.FetchData | src/components/PointsClient.tsx:49-90 | exam 7 calls the final-exam endpoint with the semester, any other exam the notes endpoint with the exam; both results reset first and only the called one set; loading ends |
| Absences.JustifiedCount | src/components/AbsencesClient.tsx:38 | zero for no records, at most the number of records |
| Absences.UnjustifiedCount | src/components/AbsencesClient.tsx:39 | zero for no records, at most the number of records |
| Absences.TotalCount | src/components/AbsencesClient.tsx:40 | zero for no records, at most the number of records |
| Absences.CountsAppend | src/components/AbsencesClient.tsx:38-40 | one more record adds one to the justified count iff its justification is not loosely null, to the unjustified count otherwise, and to the total iff its type is `absence` |
| Absences.CountsPartition | src/components/AbsencesClient.tsx:38-39 | the justified and unjustified counts add up to the list length |
| Absences.DelaysNotCounted | src/components/AbsencesClient.tsx:40 | a list holding a delay has a total below its length |
| Absences.SessionLabel | src/components/AbsencesClient.tsx:107 | `Matin` iff the session is strictly 1, otherwise `Soir` |
| Absences.TypeLabel | src/components/AbsencesClient.tsx:113 | `Delay` iff the type is strictly `delay`, otherwise `Absence` |
| Absences.JustificationLabel | src/components/AbsencesClient.tsx:128 | the justification when truthy, else `Sans justification` |
| Absences.EmptyJustificationQuirk | src/components/AbsencesClient.tsx:38-128 | an empty justification counts as justified yet shows `Sans justification` |
| Absences.AbsencesView.constructor | src/components/AbsencesClient.tsx:14-15 | empty list, not loading |
| Absences.AbsencesView.HandleStudentChange | src/components/AbsencesClient.tsx:23-36 | success replaces the list wholesale, failure keeps it; loading ends |
| TimeSlots.LexLeTotal | src/components/TimeSlotsClient.tsx:46 | the start-time order relates every two strings |
| TimeSlots.LexLeTransitive | src/components/TimeSlotsClient.tsx:46 | the start-time order is transitive |
| TimeSlots.LexLeReflexive | src/components/TimeSlotsClient.tsx:46 | the start-time order is reflexive |
| TimeSlots.LexLeAntisymmetric | src/components/TimeSlotsClient.tsx:46 | two start times ordered both ways are equal |
| TimeSlots.SortByStart | src/components/TimeSlotsClient.tsx:46 | the array ends sorted by start time and is a permutation of its old contents |
| TimeSlots.FilteredSessions | src/components/TimeSlotsClient.tsx:45-46 | nothing is shown iff some entry is null or undefined; otherwise every shown session is on the active day, the list is a permutation of that day's sessions, and it is sorted by start time |
| TimeSlots.ShownSessionCount | src/components/TimeSlotsClient.tsx:45 | a session of the day appears as often as in the groups; nothing of another day appears |
| TimeSlots.TimeSlotsView.constructor | src/components/TimeSlotsClient.tsx:13-19 | the tab starts as `Lundi`, one of the five days |
| TimeSlots.TimeSlotsView.SelectTab | src/components/TimeSlotsClient.tsx:76-79 | a day button sets the tab, which stays one of the five days |
| TimeSlots.TimeSlotsView.HandleStudentChange | src/components/TimeSlotsClient.tsx:30-43 | success replaces the groups, failure keeps them; loading ends and the tab is kept |
| Profile.IndexOf | src/components/ProfileClient.tsx:30 | the first position of the character, or -1 iff it is absent |
| Profile.UpTo | src/components/ProfileClient.tsx:30 | the longest prefix without the character |
| Profile.RawBase64 | src/components/ProfileClient.tsx:30 | undefined iff the data URL has no comma; otherwise a text without commas |
| Profile.RawBase64OfDataUrl | src/components/ProfileClient.tsx:30 | the payload of `header,payload` is exactly the part after the first comma, up to a second comma or the end |
| Profile.PasswordBody | src/components/ProfileClient.tsx:50 | the body carries `current_password` and `new_password` |
| Profile.ProfileView.constructor | src/components/ProfileClient.tsx:12-19 | the user's avatar, empty password fields, no message |
| Profile.ProfileView.HandleAvatarChange | src/components/ProfileClient.tsx:21-42 | no file changes nothing; otherwise the base64 part is sent; success shows the returned avatar or the data URL; failure keeps the avatar; loading ends unless the callback throws |
| Profile.ProfileView.HandlePasswordUpdate | src/components/ProfileClient.tsx:44-62 | message cleared and flag lowered before the call; success sets the flag, the fixed text and clears both fields; failure shows the message or the fallback and keeps them |
| Profile.PasswordFailureText | src/components/ProfileClient.tsx:59 | through the action, a failed update shows the upstream message or the fallback |
| ActivityCard.KindLabel | src/components/ActivityCard.tsx:60 | `Activité` iff the type is `activity`, `Annonce` for every other type |
| ActivityCard.Classify | src/components/ActivityCard.tsx:104-136 | image iff the type starts with `image/`; PDF iff not an image and exactly `application/pdf`; Word iff neither and it contains `wordprocessingml`; exactly one class |
| ActivityCard.ClassifyImageAndPdf | src/components/ActivityCard.tsx:104-105 | `image/png` is an image and `application/pdf` a PDF |
| ActivityCard.ClassifyWord | src/components/ActivityCard.tsx:106 | the Word document type is classed as Word |
| ActivityCard.GroupLine | src/components/ActivityCard.tsx:65-70 | shown iff there is a group; the names joined by `, ` in order, so a single group shows its name alone |
| ActivityCard.JoinAppend | src/components/ActivityCard.tsx:69 | a further group adds `, ` and its name at the end, so names keep their order |
| ActivityCard.JoinLength | src/components/ActivityCard.tsx:69 | the line is every name plus one separator between each pair |
| ActivityCard.ShownLinks | src/components/ActivityCard.tsx:83-85 | one link per entry, in order, none when the list is missing |
| Language.StoredLanguage | src/context/LanguageContext.tsx:20-25 | adopted iff the cookie holds `en`, `fr` or `ar`, and then it is that language |
| Language.Translate | src/context/LanguageContext.tsx:40-44 | the entry when present and non-empty, otherwise the key |
| Language.Dir | src/context/LanguageContext.tsx:46 | right-to-left iff the language is Arabic |
| Language.LanguageProvider.constructor | src/context/LanguageContext.tsx:18-38 | French, with the document attributes in step |
| Language.LanguageProvider.Mount | src/context/LanguageContext.tsx:20-38 | a valid stored language is adopted, any other value ignored; the document follows |
| Language.LanguageProvider.SetLanguage | src/context/LanguageContext.tsx:27-32 | the state, the `NEXT_LOCALE` cookie and the document take the same language |
| Language.SetThenRestore | src/context/LanguageContext.tsx:21-29 | round trip: the language `setLanguage` writes is the one the next mount adopts |

## Left out

- Transport and framework calls: axios, `cookies()` from `next/headers`, `js-cookie`, `NextResponse` and `router.push`. Their effects are the `Reply`, `Settled` and `Jar` values and the navigation list.
- The matcher regex at middleware.ts:67 belongs to the framework. Paths it excludes are assumed never to reach the guard.
- The guard reads only the token cookie's text. How the framework decodes cookie headers is not modelled.
- All markup, styling and icons, `src/components/Sidebar.tsx`, `src/components/Header.tsx` and `src/components/ReportClient.tsx`. The last averages with floating point and draws charts.
- Date formatting (`toLocaleDateString`, `date-fns`) depends on locale and clock libraries.
- `FileReader` is not modelled: `Profile.ProfileView.HandleAvatarChange` takes the data URL it would produce.
- JSON text is opaque: `JsonText(v)` stands for `JSON.stringify(v)`, and parsing returns `v`. A plain-text cookie that reaches `JSON.parse` is treated as malformed. In JavaScript it could parse as a number or a quoted string.
- The translation dictionaries are outside this model. `Language.Dictionaries` takes them as parameters.
- React effects and async interleaving are not modelled. Each handler runs to completion in one step, so two overlapping fetches cannot race. The state between `await`s is visible only where a rejected call stops a handler.
- `parseInt` of the selected student id is not modelled: the handlers take the integer id directly.
- Numbers are whole numbers. Fractions, `NaN` and number formatting beyond whole-number text are not modelled.
- Points.LooseEqualsInt: a string or array is loosely equal to a number only when its text is the number's canonical numeral. JavaScript also accepts spaces, leading zeros and forms such as `1.0`.
- Actions.GroupsEnvelope: an object with its own `length` property in place of the group list is treated like any other non-list value.
- Js.JsString: an object's text and non-string message values are modelled only as far as the handlers here need them.
- Absences.JustifiedCount, Absences.UnjustifiedCount and Absences.TotalCount read fields of a null record as undefined. JavaScript throws while rendering such a list.
- Absences.JustifiedCount, Absences.UnjustifiedCount and Absences.TotalCount take a list. A successful fetch whose body has no `data` list stores a non-list value as `absences`, and the render then throws on `absences.filter`. That case is not modelled.
- TimeSlots.StartAt: a session whose `session_start_at` is not text sorts as the empty string. JavaScript throws in `localeCompare`.
- TimeSlots.LexLe: `localeCompare` is modelled as code-point order, one fixed total order.
- Session.RestoreAfterLogin: the round trip is proved for every user value, but `JSON.stringify` loses `undefined`. A top-level `undefined` gives no text, and an object field holding `undefined` disappears. A 200 login reply without a `user` field reaches that case. `JsonText` keeps the value whole, so the model does not capture that loss.
- Actions.WithLoginCookies and Session.WithSession store a user holding `undefined` as `JsonText` of it, with the same caveat.
- TimeSlots.FilteredSessions works on the list of groups. A `groups` value that is not a list makes the render throw, and that case is not modelled.
- TimeSlots.SortByStart: the sort is not proved stable. Sessions with equal start times may be shown in either order.
- Session.AuthProvider.RestoreSession: when the stored user fails to parse, the effect stops with the token already set and loading still on. React's error handling after that is not modelled.
- Next.js serialises a non-text `data.token` into the `token` cookie in its own way. The model uses its JavaScript text.
- `src/lib/api.ts`, the client axios instance imported by `src/lib/auth.tsx`, is not part of this model.
