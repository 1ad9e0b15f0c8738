# Career-guidance wizard: the screen orchestrator

This project models the top-level React component of a client-side career-guidance
wizard (`App.tsx`). The component holds ten state fields: the current screen, the
chosen user type, the profile being filled in, the last recommendations, the last
error, the loading-message index and fade class, the signed-in user, the boot
configuration bundle and the boot data error. Its handlers move the user through the
screens: type selection, sign-in, profile building, an optional resume builder,
generating, and results. A reset leads back to the start.

Layout:

- `wrappers.dfy` — `Option` (a TypeScript `T | null`), `Result` and `Outcome` (a call that
  returns or throws with a message).
- `types.dfy` — the enumerations and records of `types.ts`. A `UserProfile` keeps `name` and
  `email` apart from every other field (`ProfileDetails`), so that "sign-in changes only
  name and email" can be stated.
- `app_spec.dfy` (module `AppSpec`) — the component as a state machine on values:
  - `ComponentState` holds the ten fields.
  - There is one transition function per handler or timer callback.
  - `Commit` models `setAppState` together with the loading-message effect, which reruns
    only when the screen changes.
  - `BootOutcome` and `OnBoot` model the boot loader.
  - `RenderContent` is the render dispatch, returning a view tag.
  - `Step` and `Run` apply events one by one.
- `app_component.dfy` (module `AppComponent`) — class `App`, whose fields are the state fields.
  It has one method per handler, and each method assigns the fields in the order the handler
  calls its setters. Each method is proved to perform exactly the matching `AppSpec` transition.
  Each handler method is also proved to keep the invariant `Inv`; `SetAppState`, the shared
  screen setter, is not, since setting SIGN_UP would break it.
- `app_properties.dfy` (module `AppProperties`) — properties of whole runs. They cover the
  invariant, SIGN_UP being unreachable, the loading-message cycle, boot being published once,
  timers being inert off the generating screen, profile preservation, the scenarios, and
  stale results.

Asynchronous handlers are split in two:

- The sign-in and sign-up calls change no state before they settle. Only their completion is
  modelled (`OnSignIn`, `OnSignUp`), with the service's outcome as a parameter. A failure
  there throws before any setter runs.
- `handleFormSubmit` has a synchronous start (`OnFormSubmit`) and a completion
  (`OnRecommendations`). The completion applies to whatever state exists when the service
  answers. No generation counter exists.

Three behaviours of the code that the model keeps:

- Stale results are not discarded. A recommendation result that arrives after a reset still
  takes effect. Two requests can be outstanding when the profile form completes twice before it
  is re-rendered; the user can then reset from the results screen of the first answer, and the
  second answer still moves the reset component to RESULTS: see `StaleResultAfterReset`.
- Completing the profile submits for any user type other than "in education", including
  when no type is chosen. Nothing at all is submitted while the configuration bundle has not
  loaded.
- No handler ever sets the sign-up screen, so it cannot be reached.

## Model

| member | source | states |
|---|---|---|
| `AppSpec.MessageOr` | App.tsx:171 | `message \|\| fallback`: an empty message is replaced by the fallback, a non-empty one is kept |
| `AppSpec.NextMessageIndex` | App.tsx:116 | the next loading-message index always lies in the list; it is the successor, except after the last message, where it wraps to 0 |
| `AppSpec.MessageAt` | App.tsx:231 | a message is shown exactly when the index lies in the list, and it is one of the loading messages |
| `AppSpec.Commit` | App.tsx:105-126 | setting the screen: the same screen changes nothing. A new screen cancels the pending advance. Entering Generating resets the cycler to message 0, fully visible. Leaving it, or staying off it, keeps index and fade. Nothing else changes |
| `AppSpec.OnUserTypeSelect` | App.tsx:128-131 | stores the chosen type and moves to SIGN_IN; nothing else changes apart from cancelling timers |
| `AppSpec.OnSignUp` | App.tsx:133-137 | a failed sign-up changes nothing; a successful one moves to SIGN_IN and changes nothing else |
| `AppSpec.OnSignIn` | App.tsx:139-144 | a failed sign-in changes nothing. A successful one stores the user and sets the profile's name and email from it, with every other profile field unchanged. It moves to PROFILE_BUILDING; no other field changes |
| `AppSpec.OnProfileEdit` | App.tsx:211 | the form's setter replaces the profile and nothing else |
| `AppSpec.OnFormSubmit` | App.tsx:155-159 | a no-op while the configuration is not loaded. Otherwise the screen becomes GENERATING and the error is cleared. The cycler restarts if the screen was not already GENERATING; if it was, the cycle goes on untouched. Nothing else changes |
| `AppSpec.OnRecommendations` | App.tsx:161-173 | success stores the recommendations and shows RESULTS. Failure stores the message, or the fallback when the message is empty, and returns to PROFILE_BUILDING. Profile, user type, user and boot data are untouched |
| `AppSpec.OnProfileComplete` | App.tsx:146-153 | always stores the profile. In education, it moves to RESUME_BUILDER and changes nothing else. Otherwise, even with no type chosen, it is exactly form submission of the stored profile |
| `AppSpec.OnResumeProceed` | App.tsx:176-179 | stores the updated profile. With the configuration loaded it then shows GENERATING with the error cleared, restarting the cycler if the screen was not already GENERATING and leaving the cycle untouched if it was; without it, it only stores the profile. No other field changes |
| `AppSpec.OnReset` | App.tsx:181-188 | goes to USER_TYPE_SELECTION with the initial profile, no user type, no recommendations, no error and no user. Boot data, boot error, message index and fade class are kept |
| `AppSpec.OnFadeOut` | App.tsx:113-115 | off GENERATING, nothing happens. On it, the message fades to opacity-0 and an advance is scheduled; nothing else changes |
| `AppSpec.OnAdvance` | App.tsx:115-118 | only a scheduled advance on GENERATING takes effect: next index, opacity-100, nothing pending. Otherwise nothing changes |
| `AppSpec.BootOutcome` | App.tsx:76-97 | the bundle exists exactly when both fetches settle, both are ok and both bodies parse. It then holds the embedded quiz data and both fetched documents. A non-ok status gives the critical-data message. Every failure message is non-empty |
| `AppSpec.OnBoot` | App.tsx:74-101 | publishes the bundle exactly when the boot outcome succeeds, and otherwise the error, never both. Nothing else changes |
| `AppSpec.RenderContent` | App.tsx:190-243 | the data error is shown exactly when it is a non-empty string. The spinner is shown exactly when there is no error and no bundle. Otherwise the view belongs to the current screen and carries exactly the props that screen is given: the user type (sign-in, sign-up, profile form), the profile, error and bundle (profile form), the profile (resume builder), the loading message and fade class (generating) or the recommendations (results) |
| `AppComponent.App.constructor` | App.tsx:60-69 | the mounted component is in the initial state and satisfies the invariant |
| `AppComponent.App.SetAppState` | App.tsx:105-126 | the fields change exactly as `Commit` says |
| `AppComponent.App.HandleUserTypeSelect` | App.tsx:128-131 | the fields change exactly as `OnUserTypeSelect` says, and the invariant is kept |
| `AppComponent.App.HandleSignUp` | App.tsx:133-137 | the fields change exactly as `OnSignUp` says, and the invariant is kept |
| `AppComponent.App.HandleSignIn` | App.tsx:139-144 | the fields change exactly as `OnSignIn` says, and the invariant is kept |
| `AppComponent.App.SetUserProfile` | App.tsx:211 | the fields change exactly as `OnProfileEdit` says, and the invariant is kept |
| `AppComponent.App.HandleProfileComplete` | App.tsx:146-153 | the fields change exactly as `OnProfileComplete` says, and the invariant is kept |
| `AppComponent.App.HandleFormSubmit` | App.tsx:155-159 | the fields change exactly as `OnFormSubmit` says, and the invariant is kept |
| `AppComponent.App.CompleteFormSubmit` | App.tsx:161-173 | the fields change exactly as `OnRecommendations` says, and the invariant is kept |
| `AppComponent.App.HandleResumeProceed` | App.tsx:176-179 | the fields change exactly as `OnResumeProceed` says, and the invariant is kept |
| `AppComponent.App.HandleReset` | App.tsx:181-188 | the fields change exactly as `OnReset` says, and the invariant is kept |
| `AppComponent.App.FadeOut` | App.tsx:113-115 | the fields change exactly as `OnFadeOut` says, and the invariant is kept |
| `AppComponent.App.Advance` | App.tsx:115-118 | the fields change exactly as `OnAdvance` says, and the invariant is kept |
| `AppComponent.App.CompleteBoot` | App.tsx:74-101 | the single boot settlement changes the fields exactly as `OnBoot` says, and the invariant is kept |
| `AppProperties.StepPreservesInv` | App.tsx:128-188 | every event keeps the invariant. The index stays within the list, an advance is pending only on GENERATING, the screen is never SIGN_UP, and bundle and error are never both set |
| `AppProperties.RunPreservesInv` | App.tsx:128-188 | every sequence of events keeps the invariant |
| `AppProperties.SignUpUnreachable` | App.tsx:60 | from the initial state no run reaches SIGN_UP, and the message index always stays below 7 |
| `AppProperties.BootPublishedOnce` | App.tsx:74-101 | once the bundle or the error is published, no later event changes either |
| `AppProperties.BootFailureIsFatal` | App.tsx:82-96 | after a failed boot the bundle is never published; from then on the data error is rendered |
| `AppProperties.NoScreenBeforeBoot` | App.tsx:190-197 | before the boot loader settles, only the spinner is rendered |
| `AppProperties.TicksInertOutsideGenerating` | App.tsx:122-125 | off the generating screen, any number of timer events changes nothing |
| `AppProperties.OneRound` | App.tsx:113-118 | a fade-out followed by its advance moves to the next message, fully visible, and changes nothing else |
| `AppProperties.CyclerAdvances` | App.tsx:109-119 | k timer periods move the index by k modulo 7, leave the message fully visible, and change nothing else |
| `AppProperties.GeneratingShowsMessages` | App.tsx:109-119 | after entering GENERATING and k periods, message k mod 7 is shown at full visibility, with the class "opacity-100" |
| `AppProperties.ProfileKept` | App.tsx:139-188 | events other than form edits, profile completion, resume proceed, sign-in and reset never change the profile (a failed generation in particular) |
| `AppProperties.ResetRestoresInitial` | App.tsx:181-188 | from any reachable state, reset gives the initial state except for the boot data, the message index and the fade class |
| `AppProperties.CompletedEducationScenario` | App.tsx:128-174 | boot, "completed education", sign-in, profile, two recommendations: the results screen shows exactly those two |
| `AppProperties.InEducationScenario` | App.tsx:128-153 | boot, "in education", sign-in, profile: the resume builder is shown with that profile, and proceeding leads to GENERATING |
| `AppProperties.InEducationWaitsForResume` | App.tsx:105-153 | after the same run, any number of timer events leaves the state unchanged on the resume builder |
| `AppProperties.GenerationFailureScenario` | App.tsx:146-173 | a rejection with a message, after any number of timer periods, returns to the profile form. The form shows that message and the profile exactly as submitted |
| `AppProperties.StaleResultAfterReset` | App.tsx:155-188 | two submissions from the profile form, the first answer (RESULTS with its recommendations), a reset from RESULTS, then the second answer: the reset component is moved back to RESULTS with the second recommendations |

## Left out

- JSX markup, CSS beyond the two fade tokens, the `alert` after sign-up, and the internals of the child screens (the selector, the forms, the resume builder, the results display) are not modelled. They are presentation. The profile form's field-by-field edits become one replacement event.
- `fetch` and `.json()` are I/O. `Promise.all` settling becomes one parameter: both responses, each with an ok flag and the outcome of parsing its body, or the rejection message. When both fetches reject, which rejection wins is up to timing; the parameter carries whichever one did.
- JSON documents, the embedded quiz dataset and the uploaded resume file are opaque tokens. Their contents are `any` data that the component only passes along.
- The authentication service and the recommendation service are foreign calls. Each is a parameter carrying success with its value, or failure with a message (possibly empty). Their inputs (credentials, `userType!`, the submitted profile, the quiz questions) only go to the service, so they are not modelled.
- The 1800 ms interval, the 300 ms timeout and their scheduling are timing. Only the discrete fade-out and advance events remain. One flag records that an advance has been scheduled and not yet fired or cleared, which is the effect's live `timeoutId`. A second fade-out before the first advance cannot happen with these durations, and the model keeps a single pending advance.
- `Step` does not limit an event to the screen that offers its handler: a reset, for one, is offered only on the results screen, but `Step` accepts it on every screen. The run lemmas therefore cover more runs than the user interface can produce, and their conclusions hold of those too.
- React's rendering is not modelled. All setter calls of one handler, or of one completion, apply as a single step, and the loading-message effect runs right after it.
- `AppComponent.App.CompleteBoot`: requires that nothing has been published yet. The loader effect runs only once, at mount; in `Step`, a second boot settlement has no effect.
