# prompt-art-clash: role gating, forms and catalogue rules in Dafny

This project models the small deterministic rules inside prompt-art-clash. Prompt-art-clash is a web platform for "art battles": institutes host competitions, participants generate AI images from prompts and enter them, and the community votes.

The modelled rules cover:

- how the application shell guards its role pages;
- how the role selector stores a role;
- which links the navigation bar offers;
- how the competition form is validated and submitted;
- how a battle's time window is classified and joined;
- how the vote button toggles;
- how the profile page displays and edits a role;
- how the leaderboard ranks creators;
- how the image API selects, looks up and filters its predefined prompts, and how it fills its sample-image cache.

Each source file of the core has one Dafny module. Three modules are shared:

- `Common` holds `Option` and `Response`, ASCII case mapping, and JavaScript's `split(' ')` with the initials it yields.
- `Avatar` holds the avatar-initials rule. The navbar and the profile page both contain this rule, and it is defined once here.
- `BrowserStorage` holds the `localStorage` slot map.

Component state that the source updates in place is a `class`, and each event handler is a method. Pure rules are functions, and the properties that relate several calls are lemmas.

The database, the auth provider, the clock and the image model are parameters:

- a query's outcome is a `Response` or a small outcome datatype;
- a reading of the clock is an integer; a rule that reads it once takes it as `now`, and where one render reads it several times the readings are separate parameters;
- a `random.choice` is an index given in range;
- the image model is a function from prompt text to a result.

An `async` handler whose in-flight state can be seen is split into two methods, `Begin…` and `Finish…`. The `Finish…` half takes the values the handler captured at the click. The vote toggle, the competition join and the competition form's submit are handled this way, and the list fetch of the join page is split into `StartFetch` and `FinishFetch`.

Some of the code's behaviour is easy to misread. The model follows the code as written:

- There is no resolver that merges the stored role flag with the profile role. The guard in `src/App.tsx` reads only the stored flag and compares it for exact equality with `"institute"` or `"participant"`. The navbar reads only the profile role, whose values include "host" and "user".
- There is no `/create-competition` route; the create link goes to `/create-battle`.
- Selecting a participant navigates to `/participate`, not to the generation page.
- The participant pages (`/generate`, `/gallery`, `/leaderboard`) are not guarded. Only `/create-battle` and `/participate` are.
- The navbar's "Competitions" link goes to `/join-competition`, for which the shell declares no route, so it renders the not-found page.
- The role flag is read once, when the shell mounts, and is not re-read later. The first render has no role, so a direct load of a guarded page is redirected before the flag is read. These are the findings below.
- The router matches a location against its paths ignoring ASCII case and any trailing slashes, as React Router v6 does by default.
- Reading an existing sample image can raise outside the generator's own `try`. The exception ends the start-up fill early, and a partly filled cache is never filled again, because only an empty cache triggers a fill. A fill cut short before it cached anything is run again by the next request.

## Model

| member | source | states |
|---|---|---|
| Common.UpperChar | src/components/Navbar.tsx:52 | an ASCII lower-case letter maps to its upper-case letter; every other character is unchanged |
| Common.LowerChar | backend/main.py:271 | an ASCII upper-case letter maps to its lower-case letter; every other character is unchanged |
| Common.Upper | src/components/Navbar.tsx:52-54 | `toUpperCase` keeps the length and maps each character by `UpperChar` |
| Common.Lower | backend/main.py:271 | `lower()` keeps the length and maps each character by `LowerChar` |
| Common.LowerIdempotent | backend/main.py:271 | lower-casing twice is lower-casing once |
| Common.SplitOnSpace | src/components/Navbar.tsx:52 | `split(' ')` yields one more piece than there are spaces, and no piece contains a space |
| Common.SplitJoinRoundTrip | src/components/Navbar.tsx:52 | joining the pieces of `split(' ')` with single spaces gives back the original string |
| Common.FirstCharsOfSplit | src/components/Navbar.tsx:52 | the first characters of the non-empty pieces are exactly the characters that start a word, meaning they come first or follow a space |
| Avatar.AvatarFallback | src/components/Navbar.tsx:50-55 | a truthy full name gives the upper-cased word initials; otherwise a truthy email gives its upper-cased first character; no email gives "U"; an empty email with no name throws |
| Avatar.SingleWordInitial | src/pages/Profile.tsx:146-151 | a non-empty name without spaces gives its first character upper-cased |
| Avatar.TwoWordInitials | src/pages/Profile.tsx:146-151 | "First Last" with two non-empty space-free words gives the two upper-cased initials, whatever the email |
| Avatar.WordStartsAppend | src/components/Navbar.tsx:52 | when the first part does not end in a space, the word initials of a concatenation are those of the first part followed by those of the second |
| Avatar.NoSpaceWordStarts | src/components/Navbar.tsx:52 | a space-free string that continues a word starts no new word |
| BrowserStorage.Lookup | src/App.tsx:31 | `getItem` gives Some exactly when the key is stored, and then the stored value |
| BrowserStorage.LocalStorage.constructor | src/App.tsx:31 | storage starts with the slots saved by earlier visits |
| BrowserStorage.LocalStorage.GetItem | src/App.tsx:31 | reading a slot gives `Lookup` of the current slots and changes nothing |
| BrowserStorage.LocalStorage.SetItem | src/RoleSelector.tsx:7 | writing a slot overwrites that key and leaves every other key unchanged |
| AppRoutes.CommonView | src/App.tsx:44-54 | each common path renders its own page, and none of them is a redirect or not-found |
| AppRoutes.StripTrailingSlashes | src/App.tsx:43-77 | dropping trailing slashes gives a prefix of the location that is empty or does not end in "/", and everything dropped is "/" |
| AppRoutes.RouteKey | src/App.tsx:43-77 | the key of a location is no longer than it, is empty only for the empty location, and holds no upper-case letter |
| AppRoutes.RouteKeyMatches | src/App.tsx:43-77 | for a lower-case pattern without a trailing slash, a location is keyed to that pattern iff it spells the pattern up to ASCII case and continues with slashes only |
| AppRoutes.LowerOfLowerCase | src/App.tsx:43-77 | a string without upper-case letters is its own lower-cased form |
| AppRoutes.PlainPatternIsKey | src/App.tsx:43-77 | a lower-case path without a trailing slash is its own key |
| AppRoutes.PatternsAreKeys | src/App.tsx:44-74 | every declared path is its own key, so a link to it reaches its route |
| AppRoutes.PatternsWellFormed | src/App.tsx:44-74 | every declared path is lower case, non-empty, and ends in "/" only when it is the root |
| AppRoutes.KeyFollowsMatcher | src/App.tsx:43-77 | a location is keyed to a declared path exactly when the router's rule matches it against that path |
| AppRoutes.GuardedPathsAreKeys | src/App.tsx:55-74 | `/create-battle` and `/participate` are their own keys |
| AppRoutes.RouteOnKey | src/App.tsx:43-77 | for key `/create-battle` the page renders iff the role is exactly "institute"; for `/participate` iff it is exactly "participant"; otherwise both redirect to `/select-role`; a common key renders its own page whatever the role; NotFound iff the key is no declared path |
| AppRoutes.Route | src/App.tsx:43-77 | a location that matches a declared path under the router's rule renders that path's table entry for the role; a location that matches none renders NotFound |
| AppRoutes.GuardedRoutes | src/App.tsx:55-74 | the two guarded paths as linked render their page for exactly their role and redirect to `/select-role` for every other role, including none |
| AppRoutes.AtMostOneGuardedPage | src/App.tsx:55-74 | no role value renders both guarded pages, however the two locations are spelled |
| AppRoutes.CommonRoutesIgnoreRole | src/App.tsx:44-54 | a location keyed to a common path renders the same view under any two roles |
| AppRoutes.HostIsRedirected | src/App.tsx:55-74 | "host", "user" and no role are all redirected from any location keyed to a guarded path |
| AppRoutes.AppShell.constructor | src/App.tsx:28 | the shell's role starts as null |
| AppRoutes.AppShell.Mount | src/App.tsx:30-33 | after mounting, the role is whatever the "role" slot held at that moment |
| AppRoutes.AppShell.Show | src/App.tsx:55-77 | a location matching `/create-battle` renders the page iff the shell's role is exactly "institute", one matching `/participate` iff it is exactly "participant", and both otherwise redirect to `/select-role`; a location matching no declared path renders NotFound |
| AppRoutes.SelectRoleIsKey | src/App.tsx:54 | `/select-role` is its own key |
| AppRoutes.SelectRoleEntry | src/App.tsx:54 | the table entry of `/select-role` is the role selector, whatever the role |
| AppRoutes.SelectRoleRendersSelector | src/App.tsx:54 | a redirect to `/select-role` renders the role selector, whatever the role |
| AppRoutes.DirectLoad | src/App.tsx:28-74 | as written: a direct load of a location matching either guarded page renders a redirect first, and ends on the role selector whatever role is stored |
| AppRoutes.DirectLoadReadingFirst | src/App.tsx:28-74 | corrected: a shell that reads the stored role before its first render shows each guarded page on a direct load when its role is stored |
| RoleSelection.NavigationTarget | src/RoleSelector.tsx:8-12 | "institute" navigates to `/create-battle`; every other string navigates to `/participate` |
| RoleSelection.HandleSelect | src/RoleSelector.tsx:6-13 | the role is stored in the "role" slot, other slots are unchanged, and the target is `NavigationTarget` |
| RoleSelection.SelectTwice | src/RoleSelector.tsx:7 | selecting a role twice leaves the same storage as selecting it once: the slot holds the role and other slots keep their values |
| RoleSelection.ChoiceTargetAcceptsChoice | src/RoleSelector.tsx:18-20 | with the role just chosen in effect, each button's target renders its page rather than a redirect |
| RoleSelection.SelectAfterMount | src/App.tsx:28-33 | as written: after a selection, the shell shows the route for the role it read at mount; with nothing stored, every choice is redirected back to `/select-role` |
| RoleSelection.SelectThenRereadRole | src/RoleSelector.tsx:6-13 | corrected: when the guard sees the newly stored role, both choices reach their page whatever was stored before |
| Navigation.ShowsParticipantLinks | src/components/Navbar.tsx:81 | a falsy role always shows the participant links, and they never show together with the create link |
| Navigation.ShowsCreateLink | src/components/Navbar.tsx:109 | the create link shows only for a truthy role |
| Navigation.Render | src/components/Navbar.tsx:81-174 | the participant links show iff the role is "user", "participant" or falsy; the create link shows iff the role is "host" or "institute"; the two sets never show together; with no profile only the participant links show; the profile menu shows iff a user is signed in, with the avatar fallback |
| Navigation.UnknownRoleShowsNoRoleLinks | src/components/Navbar.tsx:81-109 | a non-empty role outside both vocabularies, such as "admin", shows no links at all |
| Navigation.HostSeesCreateLinkButIsRedirected | src/components/Navbar.tsx:109-116 | with profile role "host" the navbar offers `/create-battle`, and the shell's guard redirects that role away from it |
| Navigation.CompetitionsLinkIsKey | src/components/Navbar.tsx:99 | `/join-competition` is its own key |
| Navigation.CompetitionsLinkUndeclared | src/App.tsx:43-77 | the shell declares no route for `/join-competition`, so its table entry is not-found |
| Navigation.CompetitionsLinkIsDead | src/components/Navbar.tsx:99 | the participant links include `/join-competition`, which renders the not-found page under every role |
| Navigation.Navbar.constructor | src/components/Navbar.tsx:20 | no profile is loaded at first |
| Navigation.Navbar.FetchProfile | src/components/Navbar.tsx:29-47 | the profile is replaced only when a user is present and the query succeeds; otherwise it is kept |
| CreateBattlePage.TrimStart | src/pages/CreateBattle.tsx:41 | the result is empty or starts with a non-whitespace character |
| CreateBattlePage.TrimEnd | src/pages/CreateBattle.tsx:41 | the result is empty or ends with a non-whitespace character |
| CreateBattlePage.Trim | src/pages/CreateBattle.tsx:41 | `trim()` is empty or starts and ends with a non-whitespace character |
| CreateBattlePage.TrimStartSpec | src/pages/CreateBattle.tsx:41 | removing leading whitespace gives a suffix of the input that is empty or starts with a non-whitespace character, and everything removed is whitespace |
| CreateBattlePage.TrimEndSpec | src/pages/CreateBattle.tsx:41 | removing trailing whitespace gives a prefix of the input that is empty or ends with a non-whitespace character, and everything removed is whitespace |
| CreateBattlePage.TrimEmptyIffBlank | src/pages/CreateBattle.tsx:41-52 | `trim()` is empty exactly when every character is JavaScript whitespace |
| CreateBattlePage.ValidateForm | src/pages/CreateBattle.tsx:40-70 | no error iff every check passes; a reported error is a failing check, and every check ranked before it passes |
| CreateBattlePage.ReportedErrorIsFirstFailure | src/pages/CreateBattle.tsx:41-67 | the error reported is the first failing check in source order, and its message is the source's text |
| CreateBattlePage.ValidIffWellFormed | src/pages/CreateBattle.tsx:40-70 | for any form, including unparseable inputs: valid iff title, description and theme are not blank, both times are non-empty, two parsed times have the start before the end, and a numeric count lies in 1..1000 |
| CreateBattlePage.ValidIffWellFormedParsed | src/pages/CreateBattle.tsx:40-70 | with parsed times and a numeric count: valid iff the texts are not blank, the start is before the end and the count lies in 1..1000 |
| CreateBattlePage.EqualTimesRejected | src/pages/CreateBattle.tsx:61-63 | with valid text fields, equal start and end times are rejected with "End time must be after start time" |
| CreateBattlePage.ParticipantBoundsInclusive | src/pages/CreateBattle.tsx:65-67 | 1 and 1000 participants pass, while 0 and 1001 fail with the bounds message |
| CreateBattlePage.UnparseableTimeSkipsOrdering | src/pages/CreateBattle.tsx:61-63 | when either time is unparseable (an Invalid Date), the ordering error is never reported, whatever the count |
| CreateBattlePage.NaNCountSkipsBounds | src/pages/CreateBattle.tsx:65-67 | a count that is NaN never gets the bounds error, whatever the times |
| CreateBattlePage.UnparseableInputsPassComparisons | src/pages/CreateBattle.tsx:61-67 | a form with non-blank texts, an unparseable start, a non-empty end and a NaN count is valid |
| CreateBattlePage.ApplyChange | src/pages/CreateBattle.tsx:33-38 | an input change sets only the named field |
| CreateBattlePage.CreateBattleForm.constructor | src/pages/CreateBattle.tsx:21-30 | the form starts empty with 50 participants, not loading and without an error |
| CreateBattlePage.CreateBattleForm.HandleInputChange | src/pages/CreateBattle.tsx:33-38 | the form becomes `ApplyChange` of the old form; loading and error are unchanged |
| CreateBattlePage.CreateBattleForm.BeginSubmit | src/pages/CreateBattle.tsx:72-80 | the error is cleared and the form validated; an invalid form shows its first error and nothing is submitted; a valid form is captured for the insert and the button shows "Creating..."; the form is unchanged |
| CreateBattlePage.CreateBattleForm.FinishSubmit | src/pages/CreateBattle.tsx:81-123 | without a user nothing is sent and "Authentication Required" is shown; otherwise the row sent is the captured form plus the creator and status "upcoming"; success gives "Success!" and resets the current form, failure keeps it and shows the message or the default; loading ends |
| CreateBattlePage.CreateBattleForm.HandleSubmit | src/pages/CreateBattle.tsx:72-124 | with nothing typed during the request: an invalid form shows the first error and sends nothing; a valid form without a user sends nothing and gives "Authentication Required"; otherwise the row sent is the form plus the creator and status "upcoming"; success gives "Success!" and resets the form to empty with 50 participants; failure keeps the form and shows the message or the default |
| CreateBattlePage.EditWhileCreating | src/pages/CreateBattle.tsx:72-124 | an edit typed while a valid submission is in flight: the button shows "Creating...", the row sent is the form as it was at the click, and the edit is wiped on success and kept on failure |
| JoinCompetitionPage.BadgeFor | src/pages/JoinCompetition.tsx:130-142 | Upcoming iff now < start; Active iff start ≤ now ≤ end; Ended iff now ≥ start and now > end |
| JoinCompetitionPage.IconFor | src/pages/JoinCompetition.tsx:144-156 | a clock iff now < start; a target iff start ≤ now ≤ end; a check mark iff now ≥ start and now > end |
| JoinCompetitionPage.IconAgreesWithBadge | src/pages/JoinCompetition.tsx:130-156 | computed at one instant, the icon shows the same phase as the badge |
| JoinCompetitionPage.BadgeNeverBehindIcon | src/pages/JoinCompetition.tsx:130-156 | with the badge's clock reading no earlier than the icon's, the badge never shows an earlier phase than the icon |
| JoinCompetitionPage.ClockReadsMayDisagree | src/pages/JoinCompetition.tsx:130-172 | separate clock readings can disagree: a window closing between the icon and the badge gives a target icon beside "Ended", and one opening between the badge and the button gives "Upcoming" beside "Join" |
| JoinCompetitionPage.StatusColumnIgnored | src/pages/JoinCompetition.tsx:130-156 | changing the stored status column changes neither the badge nor the icon |
| JoinCompetitionPage.IsJoinable | src/pages/JoinCompetition.tsx:167-172 | joinable iff the badge is Active and the battle has fewer participants than its maximum |
| JoinCompetitionPage.JoinableIsActive | src/pages/JoinCompetition.tsx:130-172 | at one instant, a joinable battle is shown as Active |
| JoinCompetitionPage.ButtonFor | src/pages/JoinCompetition.tsx:327-355 | "Already Joined" iff the id is in the joined set; "Join" iff not joined and joinable, showing "Joining..." iff this battle is being joined; otherwise "Not Started" iff before the start, else "Ended" |
| JoinCompetitionPage.FullRunningBattleShowsEnded | src/pages/JoinCompetition.tsx:327-355 | a full battle inside its window shows the Active badge but the "Ended" button |
| JoinCompetitionPage.JoinableBattles | src/pages/JoinCompetition.tsx:205 | the filter never yields more battles than the list holds |
| JoinCompetitionPage.JoinableBattlesSpec | src/pages/JoinCompetition.tsx:205 | the filter keeps only joinable battles from the list, and keeps every joinable one |
| JoinCompetitionPage.JoinableBattlesAppend | src/pages/JoinCompetition.tsx:205 | the filter of a concatenation is the concatenation of the filters |
| JoinCompetitionPage.JoinableCount | src/pages/JoinCompetition.tsx:204-205 | the "Ready to join" count equals the number of positions in the list whose battle is joinable |
| JoinCompetitionPage.TotalParticipantsAppend | src/pages/JoinCompetition.tsx:221 | the participant sum of a concatenation is the sum of the two sums |
| JoinCompetitionPage.TotalBoundsEach | src/pages/JoinCompetition.tsx:221 | with no negative counts, the total is at least each battle's count |
| JoinCompetitionPage.TotalParticipants | src/pages/JoinCompetition.tsx:221 | with no negative counts, the total is not negative |
| JoinCompetitionPage.JoinCompetitionState.constructor | src/pages/JoinCompetition.tsx:36-40 | the page starts loading, with no battles, no error, nothing being joined and no participations |
| JoinCompetitionPage.JoinCompetitionState.StartFetch | src/pages/JoinCompetition.tsx:48-50 | starting a fetch sets loading and clears the error, and keeps the list, the joining mark and the joined set |
| JoinCompetitionPage.JoinCompetitionState.FinishFetch | src/pages/JoinCompetition.tsx:51-63 | when the query answers, success replaces the list, failure keeps it and shows the message or the default, and loading ends |
| JoinCompetitionPage.JoinCompetitionState.FetchBattles | src/pages/JoinCompetition.tsx:48-64 | success replaces the list and clears the error; failure keeps the list and shows the message or the default; loading ends either way |
| JoinCompetitionPage.JoinCompetitionState.FetchUserParticipations | src/pages/JoinCompetition.tsx:66-82 | with a user and a successful query the set becomes the fetched ids; otherwise it is kept |
| JoinCompetitionPage.JoinCompetitionState.BeginJoin | src/pages/JoinCompetition.tsx:85 | the battle is marked as being joined; nothing else changes |
| JoinCompetitionPage.JoinCompetitionState.FinishJoin | src/pages/JoinCompetition.tsx:86-127 | the battle id captured at the click is added, and a refresh is started, iff a user is present and the insert succeeded; the refresh puts the page back into loading with no error at once; no user gives "Authentication Required"; code 23505 gives "Already Joined"; another error gives its message or the default; without a refresh, loading and error are unchanged; the joining mark is cleared and the list is kept |
| JoinCompetitionPage.JoinCompetitionState.JoinBattle | src/pages/JoinCompetition.tsx:84-128 | the joined set only grows, and it grows by exactly this battle iff a user is present and the insert succeeded |
| JoinCompetitionPage.JoinCompetitionState.StatsAt | src/pages/JoinCompetition.tsx:204-237 | a spinner iff loading; otherwise exactly the number of joinable battles, the participant total and the size of the joined set |
| JoinCompetitionPage.OverlappingJoins | src/pages/JoinCompetition.tsx:84-128 | two overlapping joins that both succeed leave both battles joined, and the first completion clears the "Joining..." mark while the second is in flight |
| JoinCompetitionPage.JoinThenRefresh | src/pages/JoinCompetition.tsx:48-128 | straight after a successful join the statistic cards show spinners; once the refreshed list arrives they count its joinable battles and participants and the one joined battle |
| Voting.AfterVote | src/components/VotingSystem.tsx:62-102 | a success flips `hasVoted` and moves `votes` by one toward the new state; a failure changes nothing |
| Voting.ToggleTwiceRestores | src/components/VotingSystem.tsx:62-95 | two successful toggles restore the original `(votes, hasVoted)` |
| Voting.VoteCountTracksOwnVote | src/components/VotingSystem.tsx:62-102 | if the count is the other voters plus this user's vote, it stays so after any request |
| Voting.VotingSystem.constructor | src/components/VotingSystem.tsx:15-17 | votes start at `initialVotes`, or 0 when it is falsy; nothing is voted or loading |
| Voting.VotingSystem.CheckUserVote | src/components/VotingSystem.tsx:27-47 | with a user, a found row sets `hasVoted`, PGRST116 (zero or several rows) clears it, and any other failure keeps it |
| Voting.VotingSystem.BeginVote | src/components/VotingSystem.tsx:49-59 | without a user no request starts and nothing changes; otherwise loading is set; the click-time `hasVoted` is returned for the completion |
| Voting.VotingSystem.FinishVote | src/components/VotingSystem.tsx:61-105 | a success deletes or inserts by the click-time `hasVoted`, moving `votes` by one and setting `hasVoted` to its negation; a failure changes nothing; with an unchanged flag this is `AfterVote`; the toast is chosen the same way; loading is cleared |
| Voting.VotingSystem.HandleVote | src/components/VotingSystem.tsx:49-106 | without a user only "Authentication required" is shown; otherwise the state moves by `AfterVote`, and the button is enabled again afterwards |
| Voting.RecheckDuringInsert | src/components/VotingSystem.tsx:27-95 | a vote lookup answering while an insert is in flight does not divert it: the count still rises by one, `hasVoted` is set and the toast is "Vote added" |
| PromptCatalogue.IdsArePositions | backend/main.py:35-126 | there are 15 predefined prompts, and each one's id equals its position |
| PromptCatalogue.SelectPrompt | backend/main.py:172-180 | a non-empty custom prompt wins, with id None and category and style "custom"; otherwise an index in range selects that entry; otherwise the random pick is used |
| PromptCatalogue.SelectedPromptIsListedUnlessCustom | backend/main.py:172-180 | the selection has no id iff the custom prompt is non-empty, and any id it has names the list entry it equals |
| PromptCatalogue.IndexedSelectionIsDeterministic | backend/main.py:175-177 | an index in range decides the prompt whatever the random pick, even next to an empty custom prompt |
| PromptCatalogue.GenerateImage | backend/main.py:169-196 | success iff the model succeeds on the selected text; the response carries the image, the text, its prompt data and "Image generated from prompt: '…'"; a failure carries the exception text |
| PromptCatalogue.GenerateRandom | backend/main.py:218-239 | success iff the model succeeds on the picked entry; the response carries the model's image, the entry's text and data and "Random image generated from: '…'"; a failure carries the exception text |
| PromptCatalogue.Digits | backend/main.py:259 | a non-negative number's decimal form is a non-empty string of digits |
| PromptCatalogue.DigitsRoundTrip | backend/main.py:259 | reading the decimal form back gives the number |
| PromptCatalogue.Attach | backend/main.py:206-210 | each prompt is copied in order with its cached sample, or "" when none is cached |
| PromptCatalogue.PromptById | backend/main.py:244-260 | success iff 0 ≤ id < 15, returning that entry with its sample or ""; otherwise "Prompt ID <id> not found" |
| PromptCatalogue.UnknownIdIsNamed | backend/main.py:257-260 | the not-found message for an id of 15 or more holds that id in decimal, and it reads back |
| PromptCatalogue.NegativeIdIsNamed | backend/main.py:257-260 | the not-found message for a negative id holds a minus sign and then digits that read back as the id's magnitude |
| PromptCatalogue.InCategory | backend/main.py:271 | a prompt is in its own category, and a match ignoring case needs equal lengths |
| PromptCatalogue.MatchingPrompts | backend/main.py:269-274 | the filter never yields more entries than the list holds |
| PromptCatalogue.MatchingPromptsSpec | backend/main.py:269-274 | the category filter keeps exactly the entries whose category equals the query ignoring case, and only entries from the list |
| PromptCatalogue.CategoryQueryIgnoresCase | backend/main.py:271 | querying a category or its lower-cased form gives the same entries |
| PromptCatalogue.Filled | backend/main.py:149-162 | the fill never removes an id from the cache |
| PromptCatalogue.FilledKeepsCached | backend/main.py:155 | the cache fill keeps every cached entry with its value |
| PromptCatalogue.AbortIsFinal | backend/main.py:151-162 | once an exception has ended the loop, the later entries change nothing |
| PromptCatalogue.NoRaiseNoAbort | backend/main.py:133-158 | when no sample read raises, the loop is never cut short |
| PromptCatalogue.FilledStaysInList | backend/main.py:152-158 | the fill adds no id outside the entries it has visited |
| PromptCatalogue.FilledAddsMissing | backend/main.py:152-158 | for a list whose ids are its positions, a fill that was not cut short holds every visited id, and each id that was missing holds the generator's output for its prompt |
| PromptCatalogue.FillEmptyIsFull | backend/main.py:149-158 | filling an empty cache adds only ids of the list, and all of them unless a sample read raises |
| PromptCatalogue.FillEmptyPredefined | backend/main.py:35-158 | filling the empty cache over the fifteen predefined prompts gives ids 0..14 only, and all fifteen unless a sample read raises |
| PromptCatalogue.FillLoop | backend/main.py:151-162 | the loop over the list leaves exactly `Filled` of the starting cache, stopping at the first exception |
| PromptCatalogue.AttachSamples | backend/main.py:206-210 | the append loop builds exactly `Attach` of the list |
| PromptCatalogue.FilterByCategory | backend/main.py:269-274 | the append loop builds exactly `Attach` of the matching entries, in list order |
| PromptCatalogue.PromptService.constructor | backend/main.py:129 | the cache starts empty |
| PromptCatalogue.PromptService.PreGenerate | backend/main.py:149-162 | the cache becomes `Filled` of the old cache over all 15 prompts; the exception that cuts the loop short is swallowed |
| PromptCatalogue.PromptService.EnsureSamples | backend/main.py:202-203 | only an empty cache is filled, and then with ids of the list only; an empty or full cache is full afterwards unless a sample read raises; a partly filled cache is kept as it is |
| PromptCatalogue.PromptService.Startup | backend/main.py:297-300 | startup runs the fill, so an empty cache becomes full unless a sample read raises |
| PromptCatalogue.PromptService.RequestAfterStartup | backend/main.py:202-203 | after a start-up fill, the next request that ensures samples keeps the start-up cache whenever it holds anything, even when that fill was cut short, and runs the fill again only when it cached nothing |
| PromptCatalogue.PromptService.GetPredefinedPrompts | backend/main.py:198-216 | every prompt in order with its sample, and count 15 |
| PromptCatalogue.PromptService.GetPromptById | backend/main.py:241-260 | the cache is filled only for an id in range, and the answer is `PromptById` |
| PromptCatalogue.PromptService.GetPromptsByCategory | backend/main.py:262-281 | the matching prompts with their samples, in order, and a count equal to their number |
| PromptCatalogue.PromptService.GetAllSampleImages | backend/main.py:283-294 | the whole cache and its size, after filling an empty cache |
| ProfilePage.RoleBadgeVariant | src/pages/Profile.tsx:153-162 | default iff "institute", secondary iff "participant", outline for anything else including null |
| ProfilePage.RoleLabel | src/pages/Profile.tsx:229-230 | "Institute" iff "institute", "Participant" iff "participant", "User" for anything else |
| ProfilePage.LabelMatchesVariant | src/pages/Profile.tsx:228-230 | the label is "User" exactly when the badge is outline, and "host", "user" and null look alike |
| ProfilePage.DefaultTab | src/pages/Profile.tsx:327 | "hosting" iff the role is "institute", otherwise "battles" |
| ProfilePage.DefaultTabIsRendered | src/pages/Profile.tsx:327-334 | the default tab is always one of the two rendered triggers |
| ProfilePage.OrEmpty | src/pages/Profile.tsx:77-79 | `value \|\| ''` gives the value when truthy, otherwise "" |
| ProfilePage.EditFormFrom | src/pages/Profile.tsx:76-81 | null text fields become "", and a null or empty role becomes "user", so the form's role is never empty |
| ProfilePage.Updated | src/pages/Profile.tsx:111-119 | the update writes the full name, institute name, bio and role of the form, and leaves the avatar alone |
| ProfilePage.SaveUnchangedIsStable | src/pages/Profile.tsx:76-81 | loading, saving unchanged and loading again gives back the same form, and the stored role is no longer null |
| ProfilePage.SavedFormReloads | src/pages/Profile.tsx:111-130 | a saved form with a non-empty role comes back unchanged on reload |
| ProfilePage.EditableRolesAreDisplayed | src/pages/Profile.tsx:298-299 | both offered roles get their own badge and label, while the default "user" is not offered |
| ProfilePage.ApplyEdit | src/pages/Profile.tsx:277-308 | each input changes only its own field |
| ProfilePage.ProfileState.constructor | src/pages/Profile.tsx:42-51 | no profile, loading, not editing, and an empty form |
| ProfilePage.ProfileState.FetchProfile | src/pages/Profile.tsx:60-87 | without a user nothing changes, not even loading; otherwise loading ends, and success stores the row and refills the form, while failure keeps both |
| ProfilePage.ProfileState.ToggleEditing | src/pages/Profile.tsx:244 | editing flips, and nothing else changes |
| ProfilePage.ProfileState.EditField | src/pages/Profile.tsx:277-308 | the form becomes `ApplyEdit` of the old form |
| ProfilePage.ProfileState.HandleSave | src/pages/Profile.tsx:107-144 | without a user or a profile nothing happens; a failed or thrown update keeps editing, the data and loading; a successful one refetches, turns editing off, ends loading and reports success |
| ProfilePage.ProfileState.View | src/pages/Profile.tsx:172-230 | a placeholder iff loading; "Profile not found" iff loaded without a row; otherwise the role label, badge, default tab and avatar fallback of the row |
| LeaderboardPage.AssignRanks | src/pages/Leaderboard.tsx:34 | ranking keeps the length and gives the row at position i the rank i + 1, every other field unchanged |
| LeaderboardPage.RankFrom | src/pages/Leaderboard.tsx:34 | numbering keeps the length and sets only the rank of each row, to its position plus the start |
| LeaderboardPage.RanksAreConsecutive | src/pages/Leaderboard.tsx:34 | the ranks are 1..n in fetched order |
| LeaderboardPage.RankingKeepsRows | src/pages/Leaderboard.tsx:34 | ranking keeps every other field of every row, and ranking a ranked list changes nothing |
| LeaderboardPage.RankFromAppend | src/pages/Leaderboard.tsx:34 | ranking two parts numbers the second from where the first stops |
| LeaderboardPage.RankFollowsVotes | src/pages/Leaderboard.tsx:28-34 | for rows fetched in descending vote order, a better rank never has fewer votes |
| LeaderboardPage.RankIconFor | src/pages/Leaderboard.tsx:61-72 | crown iff rank 1, medal iff rank 2 or 3 (gray for 2, amber for 3), star otherwise |
| LeaderboardPage.RankStyle | src/pages/Leaderboard.tsx:74-85 | a special row style iff the rank is 1, 2 or 3 |
| LeaderboardPage.StyleClasses | src/pages/Leaderboard.tsx:74-85 | the class string is empty iff the style is the plain one |
| LeaderboardPage.StyleNonEmptyByRank | src/pages/Leaderboard.tsx:74-85 | ranks 1, 2 and 3 get a non-empty class string, and every other rank gets "" |
| LeaderboardPage.StyleMatchesIcon | src/pages/Leaderboard.tsx:61-85 | a row has a special style exactly when it has a crown or a medal |
| LeaderboardPage.PodiumIsTopThree | src/pages/Leaderboard.tsx:34-85 | in a ranked list, exactly the first three rows are styled |
| LeaderboardPage.Leaderboard.constructor | src/pages/Leaderboard.tsx:21 | the list starts empty |
| LeaderboardPage.Leaderboard.FetchLeaderboard | src/pages/Leaderboard.tsx:24-37 | success shows the fetched rows ranked; an error keeps the shown list |

## Left out

- Database and auth calls (Supabase queries, inserts, deletes, `auth.getUser`, the leaderboard's realtime channel) are external services. Their outcomes are parameters, and a realtime notice is one more `FetchLeaderboard` call.
- Image generation (the Stable Diffusion pipeline, PNG and base64 encoding, the sample-image files) is foreign code and file I/O. It is a parameter function, `model` or `generate`, and `random.choice` is an index in range.
- The HTTP call from the image-generator component to the back end is network I/O and is not part of this model.
- Date handling is reduced to integer timestamps. This covers `new Date(...)` parsing, locale formatting and the minimum-date helpers; an unparseable date is the `BadTime` variant.
- The toasts of the vote button, the join button, the profile save and the competition form are modelled as notice datatypes, not as their text. Console logging and the `print` calls of the back end are left out.
- Page rendering beyond the modelled decisions is left out: layout, icons' CSS classes, and the list of competitions on the profile page (`fetchCompetitions`), whose result is only displayed.
- The `Participate` and `NotFound` pages are not part of this model. They appear only as views.
- AppRoutes.Route models React Router's matching of these static paths as ASCII case-insensitive with any number of trailing slashes. It does not model percent-decoding of the location or Unicode case folding.
- Common.UpperChar, Common.LowerChar, Common.Upper and Common.Lower: JavaScript `toUpperCase` and Python `lower()` are modelled on ASCII letters only, because Unicode case mapping has no counterpart here. Strings are sequences of characters, while JavaScript's `n[0]` and `email[0]` take one UTF-16 code unit, which differs for characters outside the Basic Multilingual Plane.
- PromptCatalogue.PromptService.EnsureSamples promises a full cache only when no sample read raises. A read error on an existing file ends the fill early and leaves the cache partly filled, and the model states that such a cache is kept.
- PromptCatalogue.PromptService.Startup promises a full cache only when no sample read raises, for the same reason.
- The `GET /` health-check endpoint returns a fixed message and is left out.
- JoinCompetitionPage.IconAgreesWithBadge takes one clock reading for the icon and the badge. The card calls `new Date()` separately for each, so the two can straddle the end of the window; `ClockReadsMayDisagree` exhibits this and `BadgeNeverBehindIcon` bounds it.
- JoinCompetitionPage.JoinableIsActive takes one clock reading for `isBattleJoinable` and the badge. The card reads the clock separately for each, and the statistics, badges, icons and buttons of one render are each computed from a single `now` rather than from separate readings.
- The browser's native constraint validation of the competition form is not modelled. The `min` attributes of the two date inputs and `min={1} max={1000}` on the participant input (src/pages/CreateBattle.tsx:212-238) can block a submit before `handleSubmit` runs, so the 0 and 1001 cases of `CreateBattlePage.ParticipantBoundsInclusive` describe the handler's own checks, not what a user of a validating browser sees.

## Findings

| source | as written | input that shows it | evidently intended | confidence | as-written member | corrected member |
|---|---|---|---|---|---|---|
| src/App.tsx:28-33 with src/RoleSelector.tsx:7-11 | the shell reads the "role" slot only when it mounts, and the guard compares against that stale copy | nothing stored; click "I am an Institute" on `/select-role`; the selector stores "institute" and navigates to `/create-battle`, and the guard still sees null and redirects to `/select-role` (the same happens for "participant") | the guard should see the role just selected, so that each choice reaches its page | not executed | RoleSelection.SelectAfterMount | RoleSelection.SelectThenRereadRole |
| src/App.tsx:28-74 | the role starts as null and is read from storage only in the shell's mount effect, which runs after the guard's redirect has fired | "institute" stored; load or reload `/create-battle` directly; the first render sees null and redirects, so the page ends on `/select-role` (likewise `/participate` with "participant" stored) | a stored role should let a direct load or reload reach its page | not executed | AppRoutes.DirectLoad | AppRoutes.DirectLoadReadingFirst |
