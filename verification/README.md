# SkillSwap core in Dafny

SkillSwap is a front-end mock-up of a peer skill-bartering app. This project models the parts of it that make decisions:

- **The matching service** (`services/geminiService.ts`).
  - It builds the candidate pool, excluding the current user.
  - It resolves the records the remote model returns against that pool, dropping any record whose id names nobody.
  - When the call fails, it falls back to a neutral ranking.
  - The bio helper degrades to the original bio.
- **The discovery page's people filter** (`components/Discover.tsx`): a case-insensitive search plus an optional exact skill filter, and the skill chips that toggle it.
- **The profile page** (`components/SelfProfile.tsx`).
  - The edit form with save and cancel.
  - The notifications centre with its request, review and project tabs.
  - The Projects counter.
- **The session overlay** (`components/CommunicationHub.tsx`): the chat transcript and send box, and the mute, mode, camera and screen-share toggles.
- **The sign-in flow** (`components/AuthScreen.tsx`): selection, registration and permission views, the processing flag and the permission flags.
- **The application shell** (`App.tsx`): the splash and sign-in gate, `renderContent`'s routing, selecting a profile and going back, opening and closing a session, and replacing the current user after a profile save.

Each component's local state is a datatype. Each handler is a pure function on it. The sign-in flow, the session overlay and the application shell also have a `Step` function over a datatype of user events and a `Run` function over event sequences, so properties about whole interactions can be stated.

Some things the model cannot compute are passed in as inputs:

- The remote model's reply.
- Whether the browser grants a device or accepts an e-mail address.

The registration `setTimeout` becomes an event of its own, which fires the timer. The login `setTimeout` is collapsed: the login callback runs at once.

The shared modules are:

- `Wrappers`: `Option`.
- `Seqs`: an order-preserving `Filter` with its subsequence, membership, multiplicity and count lemmas.
- `Text`: ASCII lower-casing, `includes`, and the ECMAScript `trim`.
- `Types`: the profile records.

The model follows the code on these points:

- A missing or empty `response.text` is read as `"[]"`, so the result is empty and the fallback does not run.
- The records are not validated beyond id resolution. Scores are copied verbatim and are not clamped to 0–100.
- The matching service has no learning-path operation.

## Model

| member | source | states |
|---|---|---|
| GeminiService.Pool | services/geminiService.ts:13 | the pool is an order-preserving subsequence of all users; a user is in it exactly when it is in the list and its id differs from the current user's |
| GeminiService.PoolKeepsEveryOccurrence | services/geminiService.ts:13 | a user other than the current one occurs in the pool as many times as in the list; the current user not at all |
| GeminiService.FindById | services/geminiService.ts:58 | `find` returns nothing exactly when no pool member has the id; otherwise it returns the first member with that id |
| GeminiService.SurvivingIsFilter | services/geminiService.ts:57-66 | the records that survive resolution are exactly the order-preserving filter of the reply by "its id names a pool member" |
| GeminiService.ResolveRecords | services/geminiService.ts:57-66 | resolution never produces more matches than records, and every match refers to a pool member |
| GeminiService.ResolveFollowsSurviving | services/geminiService.ts:57-66 | the matches correspond one to one and in order with the surviving records: same user id, score, reason and common ground; nothing is reordered or invented |
| GeminiService.ResolveUnfold | services/geminiService.ts:57-66 | a record whose id resolves becomes the first match, on the first pool member with that id; any other record is skipped |
| GeminiService.ConsCorresponds | services/geminiService.ts:57-66 | putting a record and the match it becomes in front of two corresponding lists keeps them corresponding |
| GeminiService.Fallback | services/geminiService.ts:71-76 | one result per pool member, each with score 50, the generic reason and the "Collaborative Learning" common ground |
| GeminiService.FallbackCoversPool | services/geminiService.ts:71-76 | the fallback names every pool member exactly once, in pool order |
| GeminiService.GetSmartMatches | services/geminiService.ts:8-78 | no result is the current user and every result is from the list; an absent reply text gives no matches; a parsed reply gives at most one match per record; a failure or an unparseable reply gives exactly the fallback ranking of the pool: the pool, in order, all at score 50 with the generic reason and common ground |
| GeminiService.FailureFallsBack | services/geminiService.ts:55-77 | a failed call, and a reply that cannot be parsed, both yield exactly the fallback ranking of the pool |
| GeminiService.ParsedReplyIsResolved | services/geminiService.ts:55-66 | a parsed reply yields exactly the resolution of its records against the pool, not the fallback |
| GeminiService.FullyResolvedReplyKeepsEveryRecord | services/geminiService.ts:57-66 | when every record names a pool member, the result has one match per record, in record order, with the ids and scores copied |
| GeminiService.DanglingRecordDropped | services/geminiService.ts:58-59 | a record whose id names nobody in the pool is dropped without affecting the rest |
| GeminiService.RankedReplyScenario | services/geminiService.ts:13-66 | a reply ranking two candidates at 90 and 20 comes back in that order, on the pool's own profiles, without the current user |
| GeminiService.ResolveTwo | services/geminiService.ts:57-66 | the two records of that scenario resolve to their two profiles, in order |
| GeminiService.DanglingIdScenario | services/geminiService.ts:57-66 | in a two-record reply whose first id is unknown, only the second record's match is returned |
| GeminiService.TransportFailureScenario | services/geminiService.ts:68-77 | a failed call with the current user second among four yields three neutral results for the other three, in list order |
| GeminiService.PoolSkipsCurrentUser | services/geminiService.ts:13 | the pool of that list is the other three users, in order |
| GeminiService.OthersSurvive | services/geminiService.ts:13 | filtering that list by "id differs from the current user's" keeps the other three, in order |
| GeminiService.FallbackOfThree | services/geminiService.ts:71-76 | the fallback of a three-member pool, element by element |
| GeminiService.GenerateBioImprovement | services/geminiService.ts:80-91 | a failed call, an absent text or an empty text gives back the bio; a non-empty text replaces it; a non-empty result is always either the bio or the reply text |
| Discover.FilteredUsers | components/Discover.tsx:15-25 | the listed users are an order-preserving subsequence of all users; a user is listed exactly when it matches both the search and the skill filter |
| Discover.FilteredUsersKeepEveryOccurrence | components/Discover.tsx:15-25 | a matching user is listed as many times as it occurs among all users; a non-matching one not at all |
| Discover.NoFilterListsEveryone | components/Discover.tsx:15-25 | with an empty search and no chip selected, everyone is listed in order |
| Discover.SkillFilterNarrows | components/Discover.tsx:20-22 | selecting a skill never adds a user to the list |
| Discover.TighterSearchNarrows | components/Discover.tsx:17-19 | a search term whose lower-cased form contains the previous one's never adds a user |
| Discover.SearchIgnoresCase | components/Discover.tsx:17-19 | terms that agree after lower-casing list the same users |
| Discover.SkillFilterIsCaseSensitive | components/Discover.tsx:17-22 | the skill filter compares names exactly ("React" is not "react") while the search ignores case |
| Discover.ToggleSkill | components/Discover.tsx:96 | a click deselects the chip exactly when it is the selected one, and otherwise selects it |
| Discover.ToggleTwiceRestores | components/Discover.tsx:96 | two clicks on one chip restore the selection when nothing or that chip was selected |
| Discover.ToggleTwiceFromOtherSkillClears | components/Discover.tsx:96 | from another selected chip, two clicks leave nothing selected |
| SelfProfile.Init | components/SelfProfile.tsx:11-19 | the page opens not editing, notifications closed on the received tab, with the form holding the profile's name, major, bio and avatar |
| SelfProfile.StartEditing | components/SelfProfile.tsx:202 | enters edit mode and keeps the form |
| SelfProfile.EditField | components/SelfProfile.tsx:166 | an edit handler sets its own field and leaves the other three and the page flags alone |
| SelfProfile.ApplyForm | components/SelfProfile.tsx:22-25 | the updated profile shows exactly the form's four values and agrees with the old profile everywhere else |
| SelfProfile.Save | components/SelfProfile.tsx:21-27 | the saved profile carries the four form values and agrees with the old profile everywhere else; edit mode ends |
| SelfProfile.Cancel | components/SelfProfile.tsx:199 | leaves edit mode and hands nothing back; the abandoned edits stay in the form |
| SelfProfile.SaveUntouchedIsIdentity | components/SelfProfile.tsx:14-27 | saving a form nobody touched gives back the same profile |
| SelfProfile.SaveThenReopenShowsSavedValues | components/SelfProfile.tsx:14-27 | a form opened on the saved profile shows the values that were saved |
| SelfProfile.EditThenSaveChangesOneField | components/SelfProfile.tsx:179-184 | editing one field and saving changes exactly that field of the profile |
| SelfProfile.ReceivedRequests | components/SelfProfile.tsx:65 | the received tab lists exactly the request notifications, in order, each as many times as it occurs |
| SelfProfile.NoPendingIffNoRequest | components/SelfProfile.tsx:78 | the "no pending requests" placeholder shows exactly when no notification is a request |
| SelfProfile.ReviewsTab | components/SelfProfile.tsx:103 | the reviews tab lists exactly the completed swaps, in order, each as many times as it occurs |
| SelfProfile.ProjectsTab | components/SelfProfile.tsx:117 | the projects tab lists exactly the joined projects, in order, each as many times as it occurs |
| SelfProfile.ProjectsCounter | components/SelfProfile.tsx:216 | the Projects number counts the joined-project entries and equals the number of cards on the projects tab |
| SelfProfile.OpenNotifications | components/SelfProfile.tsx:143 | opens the notifications centre and changes nothing else |
| SelfProfile.CloseNotifications | components/SelfProfile.tsx:38 | closes the notifications centre and changes nothing else |
| SelfProfile.SelectNotifTab | components/SelfProfile.tsx:54 | selects the tab and changes nothing else |
| CommunicationHub.Init | components/CommunicationHub.tsx:11-18 | the overlay opens in chat mode, unmuted, with the camera on and no screen shared, an empty box, and only the partner's greeting |
| CommunicationHub.Send | components/CommunicationHub.tsx:55-60 | a blank input changes nothing; otherwise the untrimmed input is appended as the user's message and the box is cleared |
| CommunicationHub.SetInput | components/CommunicationHub.tsx:145-146 | typing replaces the box's text and nothing else |
| CommunicationHub.ToggleMute | components/CommunicationHub.tsx:100 | the microphone button flips the mute flag and nothing else |
| CommunicationHub.ToggleVideo | components/CommunicationHub.tsx:24-36 | a camera that is on goes off; a camera that is off comes back only when the device is granted |
| CommunicationHub.ToggleMode | components/CommunicationHub.tsx:109 | video becomes voice and any other mode becomes video, and the same click toggles the camera, with the device's answer taken at the click |
| CommunicationHub.ScreenShare | components/CommunicationHub.tsx:38-53 | stops a running share; otherwise starts one only when the display is granted |
| CommunicationHub.ShareEnded | components/CommunicationHub.tsx:44-47 | the shared track ending stops the share and nothing else |
| CommunicationHub.StepKeepsTranscript | components/CommunicationHub.tsx:55-60 | one event keeps the transcript well formed, grows it by at most one message, and never edits shown messages |
| CommunicationHub.RunKeepsTranscript | components/CommunicationHub.tsx:15-18 | over any interaction, the transcript keeps the greeting first, holds only the user's non-blank messages after it, and only grows by appending |
| CommunicationHub.ReachableTranscriptsWellFormed | components/CommunicationHub.tsx:15-18 | every transcript reachable from the opening state is well formed |
| CommunicationHub.FirstModeClickTurnsCameraOff | components/CommunicationHub.tsx:109 | the first mode click enters video mode and, since the camera starts on, switches it off |
| AuthScreen.Init | components/AuthScreen.tsx:11-21 | the flow opens on the selection view, not processing, with an empty form and no permissions |
| AuthScreen.GrantPermission | components/AuthScreen.tsx:37-47 | a permission request sets its flag whatever the device answers and leaves the other flag, the view, the form, the processing flag and any pending registration alone |
| AuthScreen.Finalize | components/AuthScreen.tsx:49-54 | login starts processing and invokes the login callback without consulting any permission, and leaves the view, the permissions, the form and any pending registration alone |
| AuthScreen.Step | components/AuthScreen.tsx:23-54 | no event withdraws a granted permission or a requested login |
| AuthScreen.RunNeverRevokes | components/AuthScreen.tsx:37-54 | over any sequence of events, granted permissions and a requested login stay |
| AuthScreen.RegisterSubmitStartsProcessing | components/AuthScreen.tsx:27-35 | submitting a complete form on the registration view starts processing and the registration timer, keeping the view and the form; an incomplete form is not submitted and nothing changes |
| AuthScreen.CreateThenBackRestores | components/AuthScreen.tsx:23-25 | "Create Account" then "Back" returns to the same selection state |
| AuthScreen.PermissionGrantedEitherWay | components/AuthScreen.tsx:37-47 | on the permission view, each request sets its flag whether the device is granted or refused |
| AuthScreen.LoginFromSelection | components/AuthScreen.tsx:76-77 | login is available on the first view without registering |
| AuthScreen.LoginFromPermissionsWithoutDevices | components/AuthScreen.tsx:27-35 | filling in the form, submitting and waiting reaches the permission view with no permission granted, and "Skip for now" still logs in |
| AuthScreen.BackDoesNotCancelRegistration | components/AuthScreen.tsx:27-35 | "Back" during registration shows the selection view, yet the pending timer still moves the flow to the permission view |
| App.Init | App.tsx:60-66 | the shell opens on the splash screen over the dashboard tab, signed out, with nothing selected and no session |
| App.RenderContent | App.tsx:81-119 | the profile page of the selection shows exactly when the tab is "profileDetail" and a profile is selected; each named tab shows its screen exactly when selected; anything else shows the dashboard |
| App.GateIsExclusive | App.tsx:124-132 | splash, sign-in screen or active main container: at least one is in front, and sign-in and main are never both active |
| App.SelectUser | App.tsx:68-71 | picking a user selects it, switches to its profile page, and changes nothing else |
| App.Step | App.tsx:60-145 | no event signs the user out or brings the splash screen back, and no event changes the current user beyond its four editable fields |
| App.RunNeverSignsOut | App.tsx:77-79 | over any sequence of events the user stays signed in and the splash stays gone |
| App.MainNeedsLogin | App.tsx:127-132 | without the login callback, no sequence of events activates the main container, changes the tab or changes the current user |
| App.SplashThenLoginShowsDashboard | App.tsx:65-66 | the end of the splash screen followed by a login shows the dashboard for the initial user |
| App.BackFromDetailShowsDiscover | App.tsx:87 | back from a profile page shows the discovery page and keeps the selection |
| App.SessionOpenThenClose | App.tsx:73-88 | a session opened from a profile page is with the profile shown there; closing it leaves no session and changes nothing else |
| App.ProfileSaveReplacesCurrentUser | App.tsx:113 | a save on the profile page replaces the current user with the profile `handleSave` builds, and the profile page then shows it |
| App.RunKeepsIdentity | App.tsx:113 | over any sequence of events the current user keeps its id, skills, credits, swaps, history and notifications; only name, major, bio and avatar can change |
| Text.LowerChar | components/Discover.tsx:17-19 | upper-case ASCII letters map to their lower-case letters; every other character is unchanged |
| Text.Lower | components/Discover.tsx:17-19 | lower-casing keeps the length and lower-cases each character in place |
| Text.LowerIdempotent | components/Discover.tsx:17-19 | lower-casing twice is the same as lower-casing once |
| Text.ContainsIffOccurs | components/Discover.tsx:17-19 | `includes` holds exactly when the term occurs at some position |
| Text.ContainsTransitive | components/Discover.tsx:17-19 | a string that includes a term includes every term that term includes |
| Text.TrimStart | components/CommunicationHub.tsx:57 | removes exactly a white-space prefix and stops at a non-white-space character |
| Text.TrimEnd | components/CommunicationHub.tsx:57 | removes exactly a white-space suffix and stops at a non-white-space character |
| Text.TrimEmptyIffBlank | components/CommunicationHub.tsx:57 | the trimmed input is empty exactly when every character is white space |
| Seqs.Filter | components/Discover.tsx:16 | `Array.prototype.filter` keeps no more elements than it is given, and each kept element satisfies the predicate |
| Seqs.SubsequenceReflexive | components/Discover.tsx:16 | every list is a subsequence of itself |
| Seqs.FilterIsSubsequence | components/Discover.tsx:16 | the filtered list keeps the original order |
| Seqs.FilterMembership | components/Discover.tsx:16 | an element is kept exactly when it is in the list and satisfies the predicate |
| Seqs.FilterMultiplicity | components/Discover.tsx:16 | a kept element keeps its number of occurrences; a rejected one has none |
| Seqs.FilterKeepsAll | components/Discover.tsx:16 | a predicate every element satisfies leaves the list unchanged |
| Seqs.FilterMonotone | components/Discover.tsx:16 | a stronger predicate keeps a subsequence of what a weaker one keeps |
| Seqs.FilterExtensional | components/Discover.tsx:16 | predicates that agree on the list keep the same elements |
| Seqs.FilterLengthIsCount | components/SelfProfile.tsx:216 | the length of a filtered list is the number of elements satisfying the predicate |

## Left out

- The prompt, the response schema, the model name and the client object of the matching service are not modelled. The remote reply is an input: a failed call, an absent text, a list of records, or text that cannot be parsed.
- GeminiService.GetSmartMatches: a JSON array whose elements are not objects, or lack `userId`, counts as unparseable or unresolvable. The model does not distinguish the ways `JSON.parse` or `.map` can throw, and `console.error` is not modelled.
- GeminiService.MatchRecord: the score is a `real` copied verbatim. Floating-point behaviour and the 0–100 range the prompt asks for are not modelled, because the code enforces neither.
- GeminiService.GenerateBioImprovement: the skills only shape the prompt, so they do not influence the result in the model.
- Text.Lower: folds ASCII letters only. JavaScript's `toLowerCase` also folds non-ASCII letters, so for non-ASCII text the search properties are stated for ASCII case folding only.
- Discover.ToggleSkill: the chips offer only the first six skills of the fixture list. The model accepts any skill name.
- The discovery page's people/groups view switch, the groups grid and the "Social Discoveries" bar are not modelled. They only choose what is displayed.
- SelfProfile: the "sent" tab shows a fixed placeholder and is modelled only as a tab value. Ratings, education, portfolio and time statistics are presentation and are not modelled.
- CommunicationHub.ToggleMode: each device request (`getUserMedia` in `toggleVideo`, and `getDisplayMedia` in `startScreenShare`) is modelled as answered before the next event. In the code the answer arrives later, so a second click while a request is pending sees the old flag and starts a second request. Such clicks are not modelled. For example, two quick mode clicks from camera-off can end with the camera on, but the model ends with it off. The same holds for CommunicationHub.ToggleVideo and CommunicationHub.ScreenShare.
- CommunicationHub: the media streams, video elements and track stopping are browser APIs and are not modelled. Each device request is represented by whether it was granted. A call passes the current mute flag as its audio constraint, which does not affect any modelled state.
- AuthScreen: whether the browser accepts the e-mail's syntax is an input of the submit event, not a model of HTML e-mail validation. Both one-second timers are collapsed into events: registration finishing is a separate event, and login is immediate.
- Pool: its own contract states order and membership only. That every occurrence of a candidate stays is stated by GeminiService.PoolKeepsEveryOccurrence, because a multiset clause in the function's contract makes every proof that mentions the pool much more expensive.
- FilteredUsers: its own contract states order and membership only. That every occurrence of a matching user stays is stated by Discover.FilteredUsersKeepEveryOccurrence, for the same reason.
- App.Step: while the splash or sign-in screen is in front, the main container is modelled as taking no input. The code hides it with `pointer-events-none`, which blocks the mouse but not keyboard focus, so keyboard activation of its hidden controls is not modelled. The session overlay, which covers the screen, is modelled as not blocking the main container: the shell's events stay enabled while a session is open.
- App.MainNeedsLogin: "tab and current user unchanged" holds under the same pointer-only assumption as App.Step.
- App.Step: a tab press accepts any tab name, as `setActiveTab` does. The navbar's and floating bar's own layouts, the dashboard, the profile detail page's contents and the splash animation are not modelled.
- The fixtures in `constants.ts`, the initial profile's literal contents, and types with no modelled behaviour (portfolio, education, groups, projects, course time) are not modelled.
- The learning-path operation and its step type are not part of this model. The matching service in the application has no such operation.
