# Carrot Companion client controller, modelled in Dafny

A model of the browser client's own logic for Carrot Companion, a small
app where signed-in users post, edit and delete short "carrot facts"
tagged with a category. The backend is reached only through the Manifest
SDK. The model covers three parts:

- the `App` component's controller state: `user`, `facts`, `loading`,
  `error`, `backendConnected` and `connectionStatus`. Its handlers are
  session restore on mount, the connection-status effect, `login`,
  `signup`, `logout`, `loadFacts`, `createFact`, `updateFact`,
  `deleteFact`, and the loading/landing/dashboard render switch;
- the dashboard's local state: the new-fact draft, the single fact being
  edited, what each submit passes back, the ownership check that offers
  Edit/Delete, and the author-name fallback;
- the landing page's login/signup toggle and its submit dispatch.

Each SDK call is an input of the handler that awaits it, of type
`Settled<T>`: `Fulfilled(value)` or `Rejected(message)`, where the
message may be missing. The controller logs the backend calls it issues,
in order, in `calls`. That log is how the model states which calls
follow which, for example that `signup` calls `login` with the same
credentials. Each handler runs as one atomic step.

Modules:

- `records.dfy` (`Records`): fact records with optional attributes, users,
  drafts, `Settled`, and `Merge`, which is the object spread `{...f, ...p}`.
- `fact_list.dfy` (`FactList`): the update's `facts.map` merge by id and
  the delete's `facts.filter` by id, with their lemmas.
- `app.dfy` (`App`): the pure state transitions `AfterX` over a `View` of
  the controller's state, and the class `Controller`. Each of its methods
  is one handler and is proved to end in `AfterX(old state, ...)`.
- `dashboard.dfy` (`Dashboard`), `landing.dfy` (`Landing`): the two
  screens' local state as classes, with their pure decisions.

Behaviour of the code worth knowing:

- The code never cancels an earlier auto-clear timer. A stale timer
  therefore clears a newer authentication error early
  (`App.FirstTimerClearsSecondError`).
- Load and write errors schedule no auto-clear of their own, but a
  pending authentication timer still clears them.
- A rejected SDK logout escapes `logout` uncaught and leaves the state
  unchanged.
- Draft non-emptiness is enforced only by the form's `required` inputs.

## Model

| member | source | states |
|---|---|---|
| Records.Merge | frontend/src/App.jsx:128 | each attribute the returned record has overwrites; every attribute it lacks keeps the fact's value |
| Records.MergeExtremes | frontend/src/App.jsx:128 | spreading an empty object is the identity; spreading a record with every attribute yields that record |
| Records.MergeIdempotentAndAssociative | frontend/src/App.jsx:128 | merging a patch twice equals merging it once; two merges equal one merge of the combined patch |
| FactList.UpdateById | frontend/src/App.jsx:128 | the length is kept; the fact at each position whose id matches becomes the merge with the returned record; every other position is unchanged |
| FactList.UpdateByIdKeepsIds | frontend/src/App.jsx:128 | when the returned record omits the id or repeats it, every position keeps its id |
| FactList.RemoveById | frontend/src/App.jsx:138 | no length growth; a fact is in the result iff it was in the list and its id differs |
| FactList.RemoveByIdCounts | frontend/src/App.jsx:138 | every fact with another id is kept as often as it occurred; no fact with the id survives |
| FactList.RemoveByIdKeepsOrder | frontend/src/App.jsx:138 | the surviving facts are a subsequence of the list, so their relative order is kept |
| FactList.RemoveByIdConcat | frontend/src/App.jsx:138 | filtering a concatenation filters each part and concatenates the results |
| FactList.RemoveByIdAbsent | frontend/src/App.jsx:138 | deleting an id no fact carries leaves the list unchanged |
| FactList.RemoveByIdIdempotent | frontend/src/App.jsx:138 | removing an id twice equals removing it once |
| FactList.RemoveAfterUpdate | frontend/src/App.jsx:125-141 | when the returned record keeps the id, updating a fact and then deleting that id equals the delete alone |
| App.AuthErrorMessage | frontend/src/App.jsx:68-69 | the shown message is never empty; it is the error's message when that is present and non-empty, otherwise 'An authentication error occurred.' |
| App.AfterAuthError | frontend/src/App.jsx:68-71 | the shown error becomes `AuthErrorMessage` of the error's message and one more auto-clear is scheduled; user, facts, loading and the connection fields are unchanged |
| App.StatusLabel | frontend/src/App.jsx:42-61 | the label is 'Connection Failed' iff the probe failed, 'Connected' iff the probe succeeded and the SDK client was created, 'SDK Error' iff the probe succeeded and creating the client threw |
| App.PageOf | frontend/src/App.jsx:145-178 | the loading screen iff loading; otherwise the dashboard iff a user is set, else the landing page |
| App.AfterLoad | frontend/src/App.jsx:101-112 | success replaces the whole list with the response and keeps the error; failure keeps the list and sets 'Could not load carrot facts.'; nothing else changes |
| App.AfterRestore | frontend/src/App.jsx:20-31 | loading ends in every case; a truthy `me()` sets the user and the state is then exactly that of `loadFacts` with it; a null result changes nothing else; a rejection sets the user to null and changes nothing else |
| App.AfterLogin | frontend/src/App.jsx:73-83 | the error is cleared first; when sign-in and `me()` succeed the user is the `me()` result and facts are reloaded; when either fails the user and facts are kept and the error is that failure's message or the default |
| App.LoginCalls | frontend/src/App.jsx:73-83 | exactly these calls, in this order: login with the given email and password; then `me()` only after a successful sign-in; then `find` only after `me()` resolved |
| App.AfterSignup | frontend/src/App.jsx:85-93 | a successful registration ends exactly as `login` does; a failed one keeps the user, facts, loading and connection fields and shows the registration error's message |
| App.SignupCalls | frontend/src/App.jsx:85-93 | signup is called with name, email and password; only when it resolved do the login calls follow, with the same email and password |
| App.LoggedOut | frontend/src/App.jsx:95-99 | the user becomes null and the list empty; nothing else changes |
| App.LogoutIdempotent | frontend/src/App.jsx:95-99 | logging out twice gives the state of logging out once |
| App.AfterCreate | frontend/src/App.jsx:114-123 | success only reloads, so the list becomes the reload's response or stays as it was; failure keeps the list and sets the create message |
| App.CreateIgnoresReturnedRecord | frontend/src/App.jsx:114-118 | the record `create` returns has no influence on the resulting state |
| App.AfterUpdate | frontend/src/App.jsx:125-133 | the list length is kept; success applies the merge by id to the list; failure keeps the list and sets the update message |
| App.UpdateKeepsIdentity | frontend/src/App.jsx:125-128 | when the record the server returns omits author and creation time and omits or repeats the id, a successful update keeps every fact's id, author and creation time |
| App.AfterDelete | frontend/src/App.jsx:135-143 | success filters the list by id, so no fact with that id remains; failure keeps the list and sets the delete message |
| App.FailedOperationsKeepFacts | frontend/src/App.jsx:101-143 | a failed load, create, update or delete keeps the list, shows that operation's fixed message, and schedules no auto-clear |
| App.Controller.CurrentPage | frontend/src/App.jsx:145-178 | the dashboard is rendered iff loading is over and a user is set |
| App.Controller.constructor | frontend/src/App.jsx:10-15 | the initial state: no user, no facts, loading, no error, disconnected, status 'Testing...' |
| App.Controller.BeginConnectionTest | frontend/src/App.jsx:35-42 | the label becomes 'Testing connection...' and one probe with 3 attempts is issued |
| App.Controller.FinishConnectionTest | frontend/src/App.jsx:42-61 | `backendConnected` becomes the probe's success, and the label is set by the status mapping; the indicator stays consistent with the label |
| App.Controller.Restore | frontend/src/App.jsx:20-31 | the state becomes `AfterRestore` of the old state; `me()` is called, then `find` only for a truthy user |
| App.Controller.HandleAuthError | frontend/src/App.jsx:68-71 | the state becomes `AfterAuthError` of the old state; no backend call |
| App.Controller.ErrorTimerFires | frontend/src/App.jsx:70 | a pending auto-clear fires and empties the shown error, whatever it is |
| App.Controller.Login | frontend/src/App.jsx:73-83 | the state becomes `AfterLogin` of the old state; the calls issued are `LoginCalls` |
| App.Controller.Signup | frontend/src/App.jsx:85-93 | the state becomes `AfterSignup` of the old state; the calls issued are `SignupCalls` |
| App.Controller.Logout | frontend/src/App.jsx:95-99 | after a resolved SDK logout the state is `LoggedOut` of the old state; after a rejected one it is unchanged |
| App.Controller.LoadFacts | frontend/src/App.jsx:101-112 | the state becomes `AfterLoad` of the old state; one `find` is issued |
| App.Controller.CreateFact | frontend/src/App.jsx:114-123 | the state becomes `AfterCreate` of the old state; `create` is issued with the draft, then `find` only on success |
| App.Controller.UpdateFact | frontend/src/App.jsx:125-133 | the state becomes `AfterUpdate` of the old state; `update` is issued with the id and patch |
| App.Controller.DeleteFact | frontend/src/App.jsx:135-143 | the state becomes `AfterDelete` of the old state; `delete` is issued with the id |
| App.Mount | frontend/src/App.jsx:20-66 | after mounting, the dashboard is shown iff `me()` returned a user, otherwise the landing page, never the loading screen; the indicator reflects the probe |
| App.FirstTimerClearsSecondError | frontend/src/App.jsx:68-71 | timers are not cancelled: after two authentication errors, the first timer empties the second message while the second timer is still pending |
| Dashboard.Label | frontend/src/screens/DashboardPage.jsx:43-48 | every category's label is one of the four select options |
| Dashboard.LabelsAreTheOptions | frontend/src/screens/DashboardPage.jsx:43-48 | the labels are pairwise distinct, and every option is some category's label |
| Dashboard.ShowsControls | frontend/src/screens/DashboardPage.jsx:75-80 | Edit/Delete are offered iff the fact has an author whose id equals the user's id; a missing author means no controls |
| Dashboard.AuthorName | frontend/src/screens/DashboardPage.jsx:83 | the shown name is never empty; it is the author's name when present and non-empty, otherwise 'Unknown' |
| Dashboard.InEditMode | frontend/src/screens/DashboardPage.jsx:56 | a card is in edit mode iff a fact is being edited and its id equals the card's id |
| Dashboard.AtMostOneInEditMode | frontend/src/screens/DashboardPage.jsx:54-56 | in a list with distinct ids, at most one card shows the edit form |
| Dashboard.PatchOf | frontend/src/screens/DashboardPage.jsx:16 | the update patch carries exactly the edited title, content and category, and no id, author or creation time |
| Dashboard.DashboardState.constructor | frontend/src/screens/DashboardPage.jsx:5-6 | the draft starts as empty title and content with category 'Fun Fact'; nothing is being edited |
| Dashboard.DashboardState.SetDraftTitle | frontend/src/screens/DashboardPage.jsx:41 | only the draft's title changes |
| Dashboard.DashboardState.SetDraftContent | frontend/src/screens/DashboardPage.jsx:42 | only the draft's content changes |
| Dashboard.DashboardState.SetDraftCategory | frontend/src/screens/DashboardPage.jsx:43 | only the draft's category changes, to one of the options, so the draft's category is always an option |
| Dashboard.DashboardState.HandleCreateSubmit | frontend/src/screens/DashboardPage.jsx:8-12 | the current draft is passed on, with non-empty title and content; the draft is then reset to the initial one; the edit slot is untouched |
| Dashboard.DashboardState.StartEditing | frontend/src/screens/DashboardPage.jsx:20-22 | the edit slot holds a copy of the fact, and exactly the cards with that fact's id are in edit mode |
| Dashboard.DashboardState.SetEditTitle | frontend/src/screens/DashboardPage.jsx:58 | only the edited copy's title changes |
| Dashboard.DashboardState.SetEditContent | frontend/src/screens/DashboardPage.jsx:59 | only the edited copy's content changes |
| Dashboard.DashboardState.SetEditCategory | frontend/src/screens/DashboardPage.jsx:60-61 | only the edited copy's category changes, to one of the options |
| Dashboard.DashboardState.HandleUpdateSubmit | frontend/src/screens/DashboardPage.jsx:14-18 | the edited copy's id and `PatchOf` the copy are passed on; edit mode then ends |
| Dashboard.DashboardState.CancelEditing | frontend/src/screens/DashboardPage.jsx:65 | edit mode ends; nothing is passed on and the draft is untouched |
| Landing.Flipped | frontend/src/screens/LandingPage.jsx:19 | toggling always changes the mode |
| Landing.FlippedTwice | frontend/src/screens/LandingPage.jsx:18-23 | toggling twice returns to the original mode |
| Landing.LandingState.constructor | frontend/src/screens/LandingPage.jsx:4-7 | the page starts in login mode with empty name, email and password |
| Landing.LandingState.NameFieldShown | frontend/src/screens/LandingPage.jsx:32-41 | the name input is present iff the mode is signup |
| Landing.LandingState.SetName | frontend/src/screens/LandingPage.jsx:37 | only the name changes; the input exists only in signup mode |
| Landing.LandingState.SetEmail | frontend/src/screens/LandingPage.jsx:45 | only the email changes |
| Landing.LandingState.SetPassword | frontend/src/screens/LandingPage.jsx:53 | only the password changes |
| Landing.LandingState.ToggleMode | frontend/src/screens/LandingPage.jsx:18-23 | the mode flips and all three fields are cleared; in login mode the name stays empty |
| Landing.LandingState.HandleSubmit | frontend/src/screens/LandingPage.jsx:9-16 | login mode passes only email and password to the login callback; signup mode passes name, email and password to the signup callback |
| Landing.ToggleTwice | frontend/src/screens/LandingPage.jsx:18-23 | toggling twice restores the mode, with every field empty |

## Left out

- Manifest SDK calls (`me`, `login`, `signup`, `logout`, `find`, `create`, `update`, `delete`): they belong to a foreign library. Each is an input saying how it settled, plus an entry in the call log.
- `testBackendConnection` and `createManifestWithLogging`: `services/apiService.js` is not part of this model. The retries and attempt count are not modelled. Only the requested count (3) and the status mapping are: the probe's answer and whether creating the client threw are inputs.
- The 5000 ms `setTimeout`: wall-clock behaviour. Each scheduled clear is counted in `pendingClears` and fires as the event `ErrorTimerFires`. Timers fire in the order they were scheduled, with no deadlines.
- Async interleaving: each handler runs as one atomic step. The stale `facts` closure in `updateFact`/`deleteFact` is therefore not modelled; a handler uses the current list.
- The unawaited `loadFacts()` inside restore, `login` and `createFact` is modelled as completing within the same step.
- JavaScript objects: attributes other than id, title, content, category, author and createdAt are not modelled. An attribute present with the value `undefined` is treated as absent, so a spread never writes `undefined`.
- `null` attribute values: an attribute whose value is `null` is treated as absent. `{...f, ...updatedFact}` copies a returned `author: null` over the local value, but `Merge` keeps the local value.
- Users always carry an id, so a missing author never matches the user.
- Browser form validation: only the `required` attribute is modelled, as preconditions of the submit handlers. The `type="email"` format check is not modelled.
- Console logging, JSX markup and styling, the hero image, the admin link, the loading text, and the per-render `new Manifest(...)`: presentation only, with no effect on state.
