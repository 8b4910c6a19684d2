# Influencer Radar — a verified model of the search and form logic

Influencer Radar is a React web application for finding social-media
influencers and organising marketing campaigns. Most of it is page layout
and calls to a hosted database. This project models the parts that hold
decisions of their own:

- the influencer search of the main page: a text search plus a filter
  record with platform, follower range, engagement range, niche and
  location;
- the filter sidebar that edits that record, one control per field, and
  its Reset Filters button;
- the search and platform filter of the saved-influencers page, with its
  count label and empty-state heading;
- the campaign search of the "My Campaigns" page and its empty-state heading;
- the count formatter (`formatNumber`) and platform badge colours of the
  influencer card;
- the profile page's lookup by route id, falling back to the first
  catalogue entry;
- the three-step campaign wizard, with its toggled platform and
  content-type lists;
- the account-settings profile record and its notification switches;
- the review, collaboration-request and invite dialogs: submit guards,
  disabled buttons and the resets after a call;
- the save button's `loading`/`isSaved` state machine.

Each source file is one Dafny module. Two helper modules sit beside them:
`Text` (ASCII lower-casing, substring search, `trim`, decimal strings) and
`Seqs` (an order-preserving `Filter`, standing for `Array.prototype.filter`,
and the subsequence lemmas about it). `Wrappers` holds `Option`.

Pure source code is written as datatypes, functions and lemmas. Index,
FilterSidebar, SavedInfluencers, the searches of MyCampaigns, InfluencerCard
and InfluencerProfile are of this kind. Components whose handlers update
state step by step are classes whose methods modify their fields: the
wizard, the settings page, the three dialogs and the save button.

A call into a backend hook is modelled as an entry appended to a `calls`
(or `saves`) field of the component. The hooks catch their own errors and
always return, so every handler is split in two:

- `StartX` is the part before the `await`: the guard, `loading := true`,
  and the call;
- `XReturned` is the part after it: the resets and `loading := false`.

`HandleX` runs both. The catalogue (`@/data/influencers`) is a parameter of
type `seq<Influencer>`.

The initial page with an empty search does not list every influencer. Besides
the search and the selectors, the code applies the initial follower range
[0, 10,000,000] and engagement range [0, 20] (src/pages/Index.tsx:35-43, 51-52),
so an influencer outside them is not listed; the model follows the code
(`IndexPage.InitialStateListing`).

## Model

| member | source | states |
|---|---|---|
| IndexPage.FilteredInfluencers | src/pages/Index.tsx:45-57 | the result holds exactly the catalogue entries that satisfy all six criteria, and is an order-preserving subsequence of the catalogue |
| IndexPage.FilteredInfluencersCounts | src/pages/Index.tsx:45-57 | a matching entry occurs in the result as often as in the catalogue; a non-matching one never occurs |
| IndexPage.EmptySearchMatchesAll | src/pages/Index.tsx:46-48 | the empty search term matches every influencer |
| IndexPage.SearchFields | src/pages/Index.tsx:46-48 | a term found, ignoring case, in the niche alone matches; location and platform never affect the search |
| IndexPage.FollowerBoundsInclusive | src/pages/Index.tsx:51 | both follower bounds are inclusive; one follower below the minimum or above the maximum is excluded |
| IndexPage.EngagementBoundsInclusive | src/pages/Index.tsx:52 | both engagement bounds are inclusive; a rate is accepted iff it lies within them |
| IndexPage.ChoiceSemantics | src/pages/Index.tsx:50-54 | `'all'` accepts any platform, niche or location; any other choice accepts exactly an equal, case-sensitive value |
| IndexPage.InitialStateListing | src/pages/Index.tsx:35-57 | with the initial filters and an empty term, an entry is listed iff its followers lie in [0, 10,000,000] and its engagement in [0, 20] |
| IndexPage.InvertedRangeIsEmpty | src/pages/Index.tsx:51-52 | a minimum above its maximum, for followers or engagement, yields an empty list |
| IndexPage.NarrowedMatch | src/pages/Index.tsx:45-57 | an influencer that passes tightened criteria also passes the looser ones |
| IndexPage.NarrowingNeverAdds | src/pages/Index.tsx:45-57 | tightening any criterion gives a subsequence of the previous result |
| IndexPage.ExtendingTermNarrows | src/pages/Index.tsx:46-48 | typing more characters after the term is a tightening |
| FilterSidebar.Apply | src/components/FilterSidebar.tsx:30-137 | a control event replaces exactly its own field and copies the other six; Reset installs the fixed record |
| FilterSidebar.ResetIsInitial | src/components/FilterSidebar.tsx:129-137 | Reset gives the page's initial filter state whatever came before, and resetting twice equals resetting once |
| FilterSidebar.LastWriteWins | src/components/FilterSidebar.tsx:53-62 | two events on the same field leave only the second value |
| FilterSidebar.DifferentFieldsCommute | src/components/FilterSidebar.tsx:30-116 | events on different fields give the same record in either order |
| FilterSidebar.SliderDomains | src/components/FilterSidebar.tsx:47-91 | follower slider values are multiples of 10,000 in [0, 10,000,000]; engagement values lie in [0, 20] |
| FilterSidebar.ControlsKeepFiltersInDomain | src/components/FilterSidebar.tsx:10-137 | any run of control events keeps every field at a value the controls offer; each option list starts with `'all'` |
| FilterSidebar.InitialWithinControls | src/pages/Index.tsx:35-43 | the initial filter state is one the sidebar's controls can show |
| FilterSidebar.MinAboveMaxAccepted | src/components/FilterSidebar.tsx:53-62 | nothing keeps the minimum follower slider at or below the maximum; the inverted range then lists nothing |
| SavedInfluencers.DisplayedSaved | src/pages/SavedInfluencers.tsx:14-24 | at most six entries, an order-preserving subsequence of the first six catalogue entries, holding exactly those that match search and platform, each as often as among the six |
| SavedInfluencers.UnfilteredShowsSaved | src/pages/SavedInfluencers.tsx:16-24 | with an empty term and `'all'`, the page shows the first six entries unchanged: no follower, engagement, niche or location criterion applies |
| SavedInfluencers.PlatformSelection | src/pages/SavedInfluencers.tsx:21 | a platform other than `'all'` keeps exactly the matching saved entries of that platform |
| SavedInfluencers.CountryIsNotSearched | src/pages/SavedInfluencers.tsx:17-19 | an influencer based in Canada is not found by the term "Canada", although the placeholder offers country search |
| SavedInfluencers.CountLabel | src/pages/SavedInfluencers.tsx:110 | the label is exactly the shortest decimal count (no leading zero), then " saved influencer", then "s" iff the count is not one; its leading digit block reads back as the count |
| SavedInfluencers.CountLabelInjective | src/pages/SavedInfluencers.tsx:110 | different counts give different labels, so the label always tells the number of listed entries |
| SavedInfluencers.EmptyStateHeading | src/pages/SavedInfluencers.tsx:121-124 | "No matching influencers found" iff the term is non-empty or the platform is not `'all'`; otherwise the "haven't saved" text |
| MyCampaigns.FilteredCampaigns | src/pages/MyCampaigns.tsx:85-89 | exactly the campaigns whose name, niche or country contains the term, ignoring case, each as often as in the input and in their original order |
| MyCampaigns.EmptyTermKeepsAll | src/pages/MyCampaigns.tsx:85-89 | the empty term keeps every campaign, unchanged |
| MyCampaigns.SearchedFields | src/pages/MyCampaigns.tsx:85-89 | a term in the country alone matches; platforms, budget and dates never affect the search |
| MyCampaigns.FilterKeepsNewestFirst | src/pages/MyCampaigns.tsx:85-89 | a list ordered newest first by creation time stays so after searching |
| MyCampaigns.EmptyStateHeading | src/pages/MyCampaigns.tsx:161 | "No matching campaigns found" iff the term is non-empty; otherwise the "haven't created" text |
| InfluencerCard.FormatNumber | src/components/InfluencerCard.tsx:10-14 | below 1,000 the plain decimal value; below a million whole thousands rounded half up with "K"; otherwise millions to one decimal with "M"; no leading zero except in "0" itself; the suffix tells which branch applied |
| InfluencerCard.ThousandsRoundHalfUp | src/components/InfluencerCard.tsx:12-13 | 1,499 shows as "1K", 1,500 as "2K", 999 as "999" and 1,000 as "1K" |
| InfluencerCard.ThousandKBelowAMillion | src/components/InfluencerCard.tsx:11-12 | every count from 999,500 to 999,999 shows as "1000K" |
| InfluencerCard.MillionsExamples | src/components/InfluencerCard.tsx:11 | 2,500,000 shows as "2.5M" and 1,000,000 as "1.0M" |
| InfluencerCard.PlatformColor | src/components/InfluencerCard.tsx:16-24 | the four known platforms get a class other than the gray default; every other string gets the gray default |
| InfluencerCard.PlatformColorsDistinct | src/components/InfluencerCard.tsx:16-24 | the four known platforms get four different classes |
| InfluencerProfile.FirstWithId | src/pages/InfluencerProfile.tsx:10 | the position of the first entry with the given id, or none when no entry has it |
| InfluencerProfile.LookupProfile | src/pages/InfluencerProfile.tsx:10 | the first entry with the route id; the first catalogue entry when none matches or the id is missing; nothing iff the catalogue is empty |
| InfluencerProfile.View | src/pages/InfluencerProfile.tsx:10-27 | "Influencer not found" iff the catalogue is empty; otherwise a catalogue entry, with "Yes" under Verified iff it is verified |
| InfluencerProfile.MissingIdShowsFirst | src/pages/InfluencerProfile.tsx:10 | a missing route id shows the first catalogue entry |
| CreateCampaign.Without | src/pages/CreateCampaign.tsx:34 | removes every occurrence of the value, keeps the order, and keeps every other value as often as before |
| CreateCampaign.Toggled | src/pages/CreateCampaign.tsx:33-35 | an absent value is appended at the end; a present value is removed everywhere, the rest kept in order |
| CreateCampaign.SubsequenceNoDuplicates | src/pages/CreateCampaign.tsx:34 | removing entries from a duplicate-free list leaves it duplicate-free |
| CreateCampaign.ToggleKeepsNoDuplicates | src/pages/CreateCampaign.tsx:33-35 | toggling keeps a duplicate-free list duplicate-free |
| CreateCampaign.ToggleAbsentTwice | src/pages/CreateCampaign.tsx:33-35 | toggling an absent value twice restores the exact list |
| CreateCampaign.TogglePresentTwice | src/pages/CreateCampaign.tsx:33-35 | toggling a present value twice keeps the same elements but moves the value to the end |
| CreateCampaign.SetText | src/pages/CreateCampaign.tsx:110-260 | an input changes only its own text field; the two lists are kept |
| CreateCampaign.CampaignWizard.constructor | src/pages/CreateCampaign.tsx:9-21 | the wizard starts at step 1 with an empty draft |
| CreateCampaign.CampaignWizard.NextStep | src/pages/CreateCampaign.tsx:48-50 | one step forward below step 3, no change at step 3 (exactly when "Create Campaign" is shown); the step stays in 1..3 and the draft is kept |
| CreateCampaign.CampaignWizard.PrevStep | src/pages/CreateCampaign.tsx:52-54 | one step back above step 1, no change at step 1 (exactly when "Previous" is disabled); the step stays in 1..3 and the draft is kept |
| CreateCampaign.CampaignWizard.TogglePlatform | src/pages/CreateCampaign.tsx:30-37 | only the platform list changes, to its toggled value, and stays duplicate-free |
| CreateCampaign.CampaignWizard.ToggleContentType | src/pages/CreateCampaign.tsx:39-46 | only the content-type list changes, to its toggled value, and stays duplicate-free |
| CreateCampaign.CampaignWizard.UpdateText | src/pages/CreateCampaign.tsx:110-260 | only the edited text field of the draft changes; the step is kept |
| CreateCampaign.CampaignWizard.PreviousDisabled | src/pages/CreateCampaign.tsx:274 | "Previous" is disabled iff the step is 1 |
| CreateCampaign.CampaignWizard.Primary | src/pages/CreateCampaign.tsx:281-296 | "Create Campaign" iff the step is 3; "Next" iff the step is 1 or 2 |
| AccountSettings.UpdateField | src/pages/AccountSettings.tsx:21-23 | the field takes the value; the other text fields and the notification flags are kept |
| AccountSettings.ToggleFlag | src/pages/AccountSettings.tsx:25-33 | exactly the named flag is negated |
| AccountSettings.ToggleTwice | src/pages/AccountSettings.tsx:25-33 | toggling the same flag twice restores the flags |
| AccountSettings.TogglesCommute | src/pages/AccountSettings.tsx:25-33 | toggling two flags gives the same result in either order |
| AccountSettings.SmsFlagNeverChanges | src/pages/AccountSettings.tsx:217-255 | no run of edits and rendered switch clicks changes the SMS flag, so from the initial profile it stays off |
| AccountSettings.SettingsPage.constructor | src/pages/AccountSettings.tsx:9-19 | initial flags: email on, SMS off, campaigns on, new influencers off |
| AccountSettings.SettingsPage.HandleProfileUpdate | src/pages/AccountSettings.tsx:21-23 | the profile becomes the updated record; notifications untouched |
| AccountSettings.SettingsPage.HandleNotificationToggle | src/pages/AccountSettings.tsx:25-33 | only the notification flags change, by negating the one flag |
| ReviewDialog.ReviewInfluencerDialog.constructor | src/components/ReviewInfluencerDialog.tsx:17-20 | the dialog starts closed, with rating 0, empty text, not loading and no calls |
| ReviewDialog.ReviewInfluencerDialog.SetOpen | src/components/ReviewInfluencerDialog.tsx:41 | opening or closing changes only `open` |
| ReviewDialog.ReviewInfluencerDialog.EditReview | src/components/ReviewInfluencerDialog.tsx:80 | typing changes only the review text |
| ReviewDialog.ReviewInfluencerDialog.SelectStar | src/components/ReviewInfluencerDialog.tsx:56-60 | a star click sets the rating to that star, always in 1..5 |
| ReviewDialog.ReviewInfluencerDialog.StarFilled | src/components/ReviewInfluencerDialog.tsx:65 | star k is filled iff k is at most the rating |
| ReviewDialog.ReviewInfluencerDialog.FilledStars | src/components/ReviewInfluencerDialog.tsx:56-65 | of the five stars, exactly `rating` are drawn filled |
| ReviewDialog.ReviewInfluencerDialog.SubmitDisabled | src/components/ReviewInfluencerDialog.tsx:92 | submit is disabled iff the rating is 0 or a call is in flight |
| ReviewDialog.ReviewInfluencerDialog.StartReview | src/components/ReviewInfluencerDialog.tsx:24-28 | with rating 0 no call and no state change; otherwise loading is set and one call with the current rating and text is issued; an enabled submit button always starts a call |
| ReviewDialog.ReviewInfluencerDialog.ReviewReturned | src/components/ReviewInfluencerDialog.tsx:29-36 | after the call: closed, rating 0, empty text, not loading |
| ReviewDialog.ReviewInfluencerDialog.HandleReview | src/components/ReviewInfluencerDialog.tsx:23-38 | with rating 0 nothing happens; otherwise exactly one call is recorded and the dialog is closed, cleared and not loading, whatever the call's outcome |
| ReviewDialog.SubmitScenario | src/components/ReviewInfluencerDialog.tsx:23-38 | submitting without a star issues no review; after choosing five stars, one |
| CollaborationDialog.CampaignArgument | src/components/CollaborationRequestDialog.tsx:34 | an empty campaign selection is passed as no campaign; any other is passed unchanged |
| CollaborationDialog.BlankMessageIff | src/components/CollaborationRequestDialog.tsx:30 | a message is blank iff every character is whitespace |
| CollaborationDialog.BlankMessageExamples | src/components/CollaborationRequestDialog.tsx:30 | the empty message and one of spaces, a newline and a tab are blank; " hi " is not |
| CollaborationDialog.CollaborationRequestDialog.constructor | src/components/CollaborationRequestDialog.tsx:23-26 | the dialog starts closed, with no campaign, an empty message, not loading and no calls |
| CollaborationDialog.CollaborationRequestDialog.SetOpen | src/components/CollaborationRequestDialog.tsx:47 | opening or closing changes only `open` |
| CollaborationDialog.CollaborationRequestDialog.SelectCampaign | src/components/CollaborationRequestDialog.tsx:61 | choosing a campaign changes only the selection |
| CollaborationDialog.CollaborationRequestDialog.EditMessage | src/components/CollaborationRequestDialog.tsx:80 | typing changes only the message |
| CollaborationDialog.CollaborationRequestDialog.SendDisabled | src/components/CollaborationRequestDialog.tsx:93 | send is disabled iff the trimmed message is empty or a call is in flight |
| CollaborationDialog.CollaborationRequestDialog.StartRequest | src/components/CollaborationRequestDialog.tsx:30-34 | a blank message makes no call and changes nothing; otherwise one call with the untrimmed message and the campaign argument; an enabled send button always starts a call |
| CollaborationDialog.CollaborationRequestDialog.RequestReturned | src/components/CollaborationRequestDialog.tsx:35-42 | after the call: closed, no campaign, empty message, not loading |
| CollaborationDialog.CollaborationRequestDialog.HandleRequest | src/components/CollaborationRequestDialog.tsx:29-44 | a blank message changes nothing; otherwise exactly one call is recorded and the dialog is closed, cleared and not loading |
| InviteDialog.InviteInfluencerDialog.constructor | src/components/InviteInfluencerDialog.tsx:24-27 | the dialog starts closed, with no campaign, empty notes, not loading and no calls |
| InviteDialog.InviteInfluencerDialog.SetOpen | src/components/InviteInfluencerDialog.tsx:48 | opening or closing changes only `open` |
| InviteDialog.InviteInfluencerDialog.SelectCampaign | src/components/InviteInfluencerDialog.tsx:62 | choosing a campaign changes only the selection |
| InviteDialog.InviteInfluencerDialog.EditNotes | src/components/InviteInfluencerDialog.tsx:81 | typing changes only the notes |
| InviteDialog.InviteInfluencerDialog.SendDisabled | src/components/InviteInfluencerDialog.tsx:93 | send is disabled iff no campaign is selected or a call is in flight |
| InviteDialog.InviteInfluencerDialog.StartInvite | src/components/InviteInfluencerDialog.tsx:31-35 | with no campaign, no call and no change; otherwise loading is set and one call with the notes as typed, empty or not; an enabled send button always starts a call |
| InviteDialog.InviteInfluencerDialog.InviteReturned | src/components/InviteInfluencerDialog.tsx:36-44 | after the call: closed, no campaign, empty notes, not loading |
| InviteDialog.InviteInfluencerDialog.HandleInvite | src/components/InviteInfluencerDialog.tsx:30-45 | with no campaign nothing happens; otherwise exactly one call is recorded and the dialog is closed, cleared and not loading |
| SaveButton.SaveInfluencerButton.constructor | src/components/SaveInfluencerButton.tsx:14-15 | the button starts unsaved, not loading, with no saves issued |
| SaveButton.SaveInfluencerButton.SavedStatusArrived | src/components/SaveInfluencerButton.tsx:21-36 | the saved status is taken over only with a user and an id; a failed check arrives as `Some(false)` (the hook answers `false` on error) and clears it; `None`, the effect's own never-taken error branch, changes nothing; it may arrive after any step |
| SaveButton.SaveInfluencerButton.StartSave | src/components/SaveInfluencerButton.tsx:41-49 | while loading or without a user nothing happens; otherwise loading is set and one save call is issued |
| SaveButton.SaveInfluencerButton.SaveReturned | src/components/SaveInfluencerButton.tsx:50-56 | after the call the button is saved and not loading, whatever the hook reported |
| SaveButton.SaveInfluencerButton.HandleSave | src/components/SaveInfluencerButton.tsx:38-57 | a blocked click changes nothing; otherwise exactly one save is recorded and the button ends saved and not loading |
| SaveButton.SaveInfluencerButton.View | src/components/SaveInfluencerButton.tsx:59-73 | nothing is rendered without a user; otherwise disabled iff loading or saved, captioned "Saving...", "Saved" or "Save" |
| SaveButton.DoubleClickScenario | src/components/SaveInfluencerButton.tsx:41-55 | a second click during a save in flight issues no second call and the button is then disabled; a later check answering "not saved" enables it again, and the next click issues a second call |

## Left out

- The backend hooks (`src/hooks/useSavedInfluencers.tsx`, `useCollaborationRequests.tsx`, `useCampaignInvites.tsx`, `useInfluencerReviews.tsx`) are network clients. Each call is recorded as a call value, and the hook is taken to always return because it catches its own errors. Two consequences are not modelled: `saveInfluencer` ignores the error of its existence lookup (src/hooks/useSavedInfluencers.tsx:89-94), and its check-then-insert is not atomic.
- Loading and deleting campaigns (src/pages/MyCampaigns.tsx:32-83) is network I/O. In that code `if (!user) return;` comes before the try/finally, so `loading` is never cleared when there is no user.
- `src/hooks/useAuth.tsx` is left out. Sessions, URL-hash token exchange and sign-in belong to the browser and the auth library. The signed-in user is a constructor parameter of the save button.
- `supabase/functions/bulk-invite-influencers/index.ts` is an HTTP handler doing remote writes. Its ownership check only tests that the campaign exists; it never compares the owner with the caller.
- `src/integrations/supabase/types.ts` declares name, niche and country of a campaign as nullable. `MyCampaigns.Campaign` holds plain strings, i.e. it assumes they are present.
- Presentation-only files and markup are left out: the landing, auth and routing files, the search header, the grid, the user menu, and the wizard's progress-bar width.
- `handleSubmit` of the wizard only logs and shows an alert. The `onReview`/`onRequest`/`onInvite` parent callbacks, the toasts and the console logging are side effects outside the model.
- InfluencerCard.FormatNumber: the source divides binary floats and calls `toFixed(1)`. For a count exactly halfway between two tenths of a million (n % 100000 == 50000), it may round down where the model rounds half up. Above 2^53 a count is no longer an exact JavaScript number, so the float division may also round away from the model's digits there. From 10^27 on, the M branch's quotient reaches 10^21 and `toFixed` switches to exponential notation (n = 10^27 renders as "1e+21M"), which the model does not produce: it always writes plain digits. The K branch only sees counts below a million and is exact. Below 2^53, other than those halfway counts, the model gives the source's digits. Negative and fractional counts are outside the model (`nat`).
- src/pages/SavedInfluencers.tsx and src/pages/InfluencerProfile.tsx carry copies of both `formatNumber` and `getPlatformColor`; src/components/FilterSidebar.tsx carries a copy of `formatNumber` only. Every copy is character-for-character equal to the card's, so each helper is modelled once, in `InfluencerCard`.
- SaveButton.SavedStatusArrived: the effect that calls it depends on `checkIfSaved`, which the hook re-creates on every render, so the check may run after any step. The method may be called between any two steps; renders, and how often the check runs, are not modelled.
- `toLowerCase` is modelled as ASCII lower-casing. Unicode case mapping is not modelled.
- Engagement rates and slider values are exact `real` numbers. The float rounding of `parseFloat` on a slider position such as 0.3 is not modelled. Slider events carry the slider position, not the DOM string.
- The catalogue data (`@/data/influencers`) is not part of this model. It is a parameter.
