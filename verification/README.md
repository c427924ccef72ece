# Console model

A Dafny model of the parts of this repository that hold state, loops and arithmetic, with proofs of what
they promise. It covers

- the console's URL: printing the navigation state into the query string, parsing it back, the history
  machine that keeps store and location in step, deep links, the repair of a saved store on load, and the
  first sync after it (`UrlParams`, `Navigation`, `NavigationLaws`, `UrlSync`, `DeepLinks`, `Rehydration`,
  `FirstSync`), and what every location says and every state prints, key by key (`NavigationReading`);
- the store's own small machines: recent and favourite settings pages, the two experience modes, and shell
  navigation with its return page (`StoreSetters`, `PageNavigation`);
- date windows and counters, over a full proleptic Gregorian calendar (`Calendar`, `ExecutionStats`), and
  the grouping and summary of refusals (`Refusals`, `RefusalSummary`);
- the SVG scrubber, a recursive in-place procedure over a heap of elements (`SvgScrub`), and what it lets
  through, in terms of names and texts (`SvgRules`);
- the incremental machines: terminal output, the event-stream loop, browser notifications
  (`TerminalView`, `EventStream`, `Notifications`);
- the two HTML escapers (`EscapeHtml`).

`Sequences` holds what they share: filtering, stable sorting, removal of repetitions.

Code that edits objects step by step is modelled by classes and loops, each proved equal to a specification
function; the laws are then proved about those functions, for all inputs and all runs. `dafny verify
dfyconfig.toml` checks everything.

## How to read it

A query string is the ordered list of its pairs. `Printed(search, s)` is the query string that state `s`
leaves when it is printed over `search`; `Parsed(search)` is the patch read from it; `Applied(s, p)` is `s`
under patch `p`. In `UrlSync` a history entry also has a spelling, because replacing a location compares
texts: spelling `0` is the serialiser's own.

A state is `Canonical` when its ids are trimmed and not empty, its application id is that of its run, task
mode, view and area are the defaults where the URL does not carry them, the settings dialog is open where the
section implies it, and its planning filters are trimmed, with a due filter other than `month` and `quarter`.
It is `Tidy` when what it prints reads back as what it prints.

Dates are day numbers from 1970-01-01; `DaySlice` is the ten-character text that
`toISOString().slice(0, 10)` gives, which for years outside 0000 to 9999 is a sign, six digits of the year
and the month only.

## Where the code and its documentation part, and exact conditions

- `due=month` and `due=quarter` are legal and printed, but parse back to `all`; so such a store does not
  survive a reload (`NavigationLaws.ReloadKeeps`) and one sync does not settle the URL. When one sync does is
  stated exactly by `NavigationLaws.OneSyncSettles`, with `OneSyncIsNotEnough` as a failing input.
- docs/engineering/P4_WEB_URL_NAVIGATION.md says that missing parameters clear stale values. The settings,
  planning and external-tab fields are left alone instead. So going back does not close the settings
  dialog, and the address may not show the store: `UrlSync.BackRestores` and `UrlSync.PopStateInStep` give
  the exact conditions, `UrlSync.BackLeavesDialogOpen` the family where they fail.
- The hook comment in use-page-navigation.ts says that returning restores the active context. The task area
  is reset when the page is `task`, and the return does not close the dialog for `me` and the pages of the
  settings model (`PageNavigation.ReturnTrip`).
- `merge` does not make every field well-typed. A settings category that is falsy but not `null` comes
  through, and so does any object or list as planning filters, although their type has four text fields;
  fields without a guard come through as they are (`Rehydration.MergeInRange`, `SlipsThrough`). It also tests
  the locale of the blob rather than of the merged store, and does not reconcile the two modes that every
  setter keeps in step (`Rehydration.ModesReconciled` against `StoreSetters.ModesAgree`).
- With a window of zero or fewer days, the window test selects rows it should not exactly when the cutoff passes
  year 9999 (`ExecutionStats.WindowTestExact`); series dates repeat once two days of the window precede year
  0000 (`ExecutionStats.SeriesDatesDistinct`); the refusal trend is right for all rows exactly in years 0000
  to 9999 (`RefusalSummary.TrendExact`).
- Notifications and read marks behave as intended up to 500 distinct ids and not beyond
  (`Notifications.RepeatIsSilent`, `StoredForgets`, `ReloadKeepsMarks`).
- A terminal record that arrives late is written last, not in its place: `TerminalView.WrittenInOrder` says
  exactly when a run writes in order of time, `LateArrival` shows a run that does not.
- A daily series loses the rows that a later row of the same day overrides: `ExecutionStats.SeriesEqualsWindow`
  says exactly when it still adds up to the window.
- The two escapers differ exactly on strings with an apostrophe (`EscapeHtml.EscapersAgree`).

## Model

| member | source | states |
|---|---|---|
| UrlParams.TrimLaws | apps/web/src/store/ui-store.ts:274-277 | trimming is idempotent and leaves alone exactly the trimmed texts |
| UrlParams.SetLaws | apps/web/src/store/ui-store.ts:399-437 | after `set` the key has exactly one pair, with the new value, and all other pairs are as before, in order |
| UrlParams.SetPresent | apps/web/src/store/ui-store.ts:399-437 | a key that is there is replaced where it first occurs and its later pairs go |
| UrlParams.GetCollect | apps/web/src/store/ui-store.ts:399-437 | after a run of appends under distinct keys each key reads back its own value and no other key reads any |
| UrlParams.DeleteLaws | apps/web/src/store/ui-store.ts:397-398 | after `delete` the key is gone and every other key has the same pairs, in order |
| UrlParams.TrimAround | apps/web/src/store/ui-store.ts:274-277 | `trim` takes blanks off both ends of a text and nothing else |
| UrlParams.SpaceCodes | apps/web/src/store/ui-store.ts:274-277 | the characters that `trim` removes, by code point (sections 12.2 and 12.3 of ECMA-262) |
| Navigation.NavigationFromSearch | apps/web/src/store/ui-store.ts:284-346 | the step-by-step parse gives the field-by-field patch, empty when no navigation key is present |
| Navigation.UiState.ApplyUrlNavigation | apps/web/src/store/ui-store.ts:352-371 | applying a patch in place overwrites exactly the fields that the patch has |
| Navigation.DeleteNavigationKeys | apps/web/src/store/ui-store.ts:397-398 | deleting all navigation keys leaves the foreign parameters, in order and multiplicity |
| Navigation.SearchFromNavigationState | apps/web/src/store/ui-store.ts:377-439 | the branching printer gives the foreign parameters followed by one pair for each key that the state gives a value, in print order |
| Navigation.PrintOrder | apps/web/src/store/ui-store.ts:399-437 | printing visits every navigation key, each once, and nothing else |
| NavigationReading.SilentLocation | apps/web/src/store/ui-store.ts:284-287 | a location without navigation keys gives no field at all |
| NavigationReading.ParsedIds | apps/web/src/store/ui-store.ts:289-313 | on every location with some navigation key, with or without a section, each selected id is the text between the blanks of its own key's first value, and is cleared when that is missing or blank |
| NavigationReading.ParsedRun | apps/web/src/store/ui-store.ts:308-310 | a run is selected exactly when application, routine and run all carry a text, and is cleared otherwise |
| NavigationReading.ParsedSection | apps/web/src/store/ui-store.ts:279-282 | a section is taken if it is one of the pages and ignored otherwise |
| NavigationReading.ParsedTask | apps/web/src/store/ui-store.ts:314-321 | mode, view and area of a task are words of their lists or the default |
| NavigationReading.ParsedGroups | apps/web/src/store/ui-store.ts:321-344 | exactly when a location gives the external tab, the settings and the planning fields; each of their keys alone, without a section, gives its whole group, and `settingsOpen` only as `true` |
| NavigationReading.ParsedSettings | apps/web/src/store/ui-store.ts:321-330 | tab, category and query of those groups: words of their lists, or `issue`, none and the empty text |
| NavigationReading.ParsedPlanning | apps/web/src/store/ui-store.ts:331-344 | project, view and filters of planning, with only three of the six due words |
| NavigationReading.ParsedLocally | apps/web/src/store/ui-store.ts:284-346 | two speaking locations that agree on a field's own keys give it the same value, whatever else they say |
| NavigationReading.SingleId | apps/web/src/store/ui-store.ts:289-313 | a location with one id, and nothing else, selects that id |
| NavigationReading.PrintedPairs | apps/web/src/store/ui-store.ts:397-438 | printing gives the parameters of other keys, in order, then one pair for each field that is set, group after group, in terms of the fields |
| NavigationLaws.PrintKeepsForeign | apps/web/src/store/ui-store.ts:397-438 | printing keeps all parameters that navigation does not own, with order and multiplicity |
| NavigationLaws.PrintTwice | apps/web/src/store/ui-store.ts:397-438 | the last print wins: an earlier print of any state leaves no trace |
| NavigationLaws.GetPrinted | apps/web/src/store/ui-store.ts:399-437 | every key of a printed location reads back as the value that the state gives it |
| NavigationLaws.PrintedSame | apps/web/src/store/ui-store.ts:377-439 | two states print the same location if and only if they give every key the same value |
| NavigationLaws.ParsedPrinted | apps/web/src/store/ui-store.ts:284-439 | the patch read from a printed state, for every state and every earlier query; tab, settings and planning fields are absent exactly when the section (or a closed dialog) implies none |
| NavigationLaws.LocationRestores | apps/web/src/store/ui-store.ts:284-439 | opening in any store a location printed from a state restores that state if and only if the state is canonical and the store agrees with it on what printing leaves out |
| NavigationLaws.ReloadKeeps | apps/web/src/store/ui-store.ts:284-439 | a reload of its own location keeps a state if and only if it is canonical |
| NavigationLaws.OwnLocationSettled | apps/web/src/store/ui-store.ts:284-439 | a sync leaves the state's own location alone if and only if the state is tidy |
| NavigationLaws.SectionMakesTidy | apps/web/src/store/ui-store.ts:284-371 | applying any location with a valid section leaves any store tidy |
| NavigationLaws.SyncSettlesWithSection | apps/web/src/app/url-navigation-sync.ts:30-41 | from any store and any location with a valid section, a second sync leaves the URL unchanged |
| NavigationLaws.SyncSettles | apps/web/src/app/url-navigation-sync.ts:30-41 | from any location and store the URL is unchanged from the third sync on, and store and URL together from the fourth |
| NavigationLaws.FixedUrlFixesStore | apps/web/src/app/url-navigation-sync.ts:30-41 | once a sync leaves the URL alone, the next one leaves the store alone too |
| NavigationLaws.OneSyncSettles | apps/web/src/store/ui-store.ts:284-439 | one sync settles the URL if and only if the location has a valid section; or it has other navigation keys and gives the planning fields or the store's are tidy; or it has none and the store is tidy |
| NavigationLaws.OneSyncIsNotEnough | apps/web/src/store/ui-store.ts:340-342 | a failing input of that condition: a planning store filtered by month on an empty location |
| UrlSync.UrlNavigationSync.constructor | apps/web/src/app/url-navigation-sync.ts:24-41 | mounting applies the location to the store and rewrites the current entry with the print of the result |
| UrlSync.UrlNavigationSync.ReplaceUrlSearch | apps/web/src/app/url-navigation-sync.ts:8-14 | the current entry is rewritten, or left alone if the text is the same |
| UrlSync.UrlNavigationSync.PushUrlSearch | apps/web/src/app/url-navigation-sync.ts:16-22 | a different text becomes a new entry after the current one, dropping later entries; the same text adds none |
| UrlSync.UrlNavigationSync.OnStoreChange | apps/web/src/app/url-navigation-sync.ts:43-53 | the subscriber does nothing while a location is being applied, pushes for the four kinds of navigating change, replaces otherwise |
| UrlSync.UrlNavigationSync.ApplyLocationToStore | apps/web/src/app/url-navigation-sync.ts:30-34 | applying the location changes the store as parsed and, thanks to the flag, no history entry |
| UrlSync.UrlNavigationSync.SetState | apps/web/src/app/url-navigation-sync.ts:43-53 | a setter call is one store-change step of the machine |
| UrlSync.UrlNavigationSync.Traverse | apps/web/src/app/url-navigation-sync.ts:54 | a browser move is one popstate step of the machine |
| UrlSync.PopStateKeepsHistory | apps/web/src/app/url-navigation-sync.ts:30-34 | popstate never adds, drops or rewrites an entry |
| UrlSync.StoreChangeIsLocal | apps/web/src/app/url-navigation-sync.ts:43-53 | a store change touches only the current entry or adds one after it that differs from it, and the current entry is then a fixed point of printing the store |
| UrlSync.PushesExactly | apps/web/src/app/url-navigation-sync.ts:43-53 | an entry is added exactly when section, task area or dialog change or a work item is newly selected, and the address changes with it; any other change keeps the length of the history and the place in it |
| UrlSync.NavigatingChangesPush | apps/web/src/app/url-navigation-sync.ts:46-51 | from an address that shows the store, a change of section, of the task area of a task, of the dialog on a page that does not imply it, and a newly selected work item each add an entry after the current one |
| UrlSync.BackFromSection | apps/web/src/app/url-navigation-sync.ts:30-53 | going back after a change of section leads to the earlier section, and after selecting a work item takes it away again |
| UrlSync.MountSettles | apps/web/src/app/url-navigation-sync.ts:30-41 | a second mount changes no entry if and only if location and store meet the condition for one sync to settle; a third one never does |
| UrlSync.RunKeepsForeign | apps/web/src/app/url-navigation-sync.ts:30-54 | in every run all entries keep the same foreign parameters |
| UrlSync.AddressAfterRun | apps/web/src/app/url-navigation-sync.ts:30-54 | from any tab whose entries share their foreign parameters, after any run that ends in a store change, the address is the store printed over the address of the start |
| UrlSync.HistoryGrowth | apps/web/src/app/url-navigation-sync.ts:30-54 | history grows by at most one entry for each store change and never by popstate |
| UrlSync.BackRestores | apps/web/src/app/url-navigation-sync.ts:30-54 | going back over a pushed entry restores the store if and only if that store was canonical and agrees with the later one on what its address leaves out |
| UrlSync.PopStateInStep | apps/web/src/app/url-navigation-sync.ts:30-34 | after a popstate to an entry written from a state, the address shows the store if and only if that state is tidy and no dialog stays open that the state does not show |
| UrlSync.RunWrites | apps/web/src/app/url-navigation-sync.ts:30-54 | every entry that a run can reach from a mount of a single-entry tab is written from some state, so the condition above covers every popstate of it |
| UrlSync.BackLeavesDialogOpen | apps/web/src/store/ui-store.ts:324-330 | a failing family: over every page that implies no settings, going back after the dialog was opened leaves it open and the address no longer shows the store |
| DeepLinks.WebDeepLink | apps/web/src/app/deep-links.ts:30-41 | a deep link is the given address with the target printed over its query; front and hash stay |
| DeepLinks.RunLinkRestores | apps/web/src/app/deep-links.ts:50-56 | in every console, following a run link selects section `applications`, and that run if and only if its three ids are trimmed and not empty |
| DeepLinks.IdLinksRestore | apps/web/src/app/deep-links.ts:43-63 | the same for invocation and evidence links; the evidence link also clears invocation and run |
| DeepLinks.WebNavigationLinkDeepLink | apps/web/src/app/deep-links.ts:65-79 | the two loops give the current query without the six link keys, followed by the link's own values |
| DeepLinks.LinkReadsBack | apps/web/src/app/deep-links.ts:65-79 | each link key reads back as the link's trimmed value whatever the address said; every other parameter reads as before |
| DeepLinks.LinkIdempotent | apps/web/src/app/deep-links.ts:65-79 | following a link twice gives the address of following it once |
| DeepLinks.TargetRestores | apps/web/src/app/deep-links.ts:30-41 | following a link to any target with clean ids selects its section and exactly its ids, the automation among them |
| DeepLinks.LinkKeys | apps/web/src/app/deep-links.ts:65-79 | a server-provided link sets exactly the six link keys and keeps all other parameters in order |
| DeepLinks.LinkedPairs | apps/web/src/app/deep-links.ts:65-79 | a linked address is the other parameters in order, then the link's texts for section, invocation, application, routine, run and evidence |
| Rehydration.Merge | apps/web/src/store/ui-store.ts:604-659 | the in-place repairs, in source order, followed by the patch of the URL, compute the merged store for any blob, field by field |
| Rehydration.RepairModes | apps/web/src/store/ui-store.ts:623-631 | colour mode, locale (tested in the blob), task mode, detail preference and the experience mode that depends on the repaired preference |
| Rehydration.MergeInRange | apps/web/src/store/ui-store.ts:604-659 | after `merge` of any blob a field has its declared type if and only if the URL gives it or its value is not one that slips through; those are a settings category that is falsy and not `null`, planning filters that are some other object or list, and an ill-typed value of a field without a guard |
| Rehydration.SlipsThrough | apps/web/src/store/ui-store.ts:642-655 | two values that come through ill-typed: filters without fields and an empty settings category |
| Rehydration.RestoresExactly | apps/web/src/store/ui-store.ts:570-659 | with no navigation in the URL, save and load bring back all persisted fields if and only if each holds a value the repair accepts |
| Rehydration.StaleWords | apps/web/src/store/ui-store.ts:617-646 | a stale word gives way to the default of its field: a section to the dashboard, a skin and a colour mode to their defaults, the experience mode to the one of the repaired preference |
| Rehydration.StaleValues | apps/web/src/store/ui-store.ts:611-645 | what replaces stale groups, category, scroll position and locale |
| Rehydration.StaleFilters | apps/web/src/store/ui-store.ts:653-655 | planning filters that are no object give way to the default filters |
| Rehydration.StaleLists | apps/web/src/store/ui-store.ts:647-652 | the two section lists keep their sections in order, the recent one the first five |
| Rehydration.WordTypes | apps/web/src/store/ui-store.ts:71-86 | the words of the closed types |
| Rehydration.SavedFields | apps/web/src/store/ui-store.ts:570-603 | which fields are saved, and that they are saved as they are |
| Rehydration.MergeIdempotent | apps/web/src/store/ui-store.ts:570-659 | under a fixed URL, saving and loading a merged store again changes no persisted field, whatever the blob and whatever the new page starts with |
| Rehydration.ModesReconciled | apps/web/src/store/ui-store.ts:627-631 | after `merge` the two modes agree if and only if the saved experience mode had to be replaced or agreed already |
| FirstSync.LoadHoldsState | apps/web/src/store/ui-store.ts:604-659 | after a load the stored navigation fields hold a navigation state if and only if every one of them comes from the URL or ends in range, judged on blob, running store and URL |
| FirstSync.MergedIsApplied | apps/web/src/store/ui-store.ts:656-658 | the state held after `merge` under a URL is not changed by applying that URL again |
| FirstSync.FirstSyncAfterLoad | apps/web/src/app/url-navigation-sync.ts:30-41 | the first sync after a load leaves the store as `merge` made it and prints it over the location; that settles the URL if and only if the state is tidy |
| StoreSetters.RecentIsLastVisited | apps/web/src/store/ui-store.ts:531-533 | after any run of visits the bounded recent list is the first five of the unbounded list of pages by last visit, without repetition |
| StoreSetters.CutThenMove | apps/web/src/store/ui-store.ts:531-533 | cutting to five before or after moving a page to the front makes no difference |
| StoreSetters.FavoriteIsOdd | apps/web/src/store/ui-store.ts:534-538 | after any run of toggles a page is a favourite if and only if it was toggled an odd number of times, and favourites are distinct |
| StoreSetters.ModesAgree | apps/web/src/store/ui-store.ts:502-525 | over any run of setters, experience mode is professional if and only if the detail preference is expert |
| StoreSetters.ToggleOrder | apps/web/src/store/ui-store.ts:534-538 | a new favourite comes last, and taking one away keeps the order of the others |
| StoreSetters.ItemOpens | apps/web/src/store/ui-store.ts:502-512 | an item opens on its overview in the preferred mode unless the caller says otherwise; closing it keeps its mode |
| StoreSetters.ExperienceSets | apps/web/src/store/ui-store.ts:514-523 | the experience mode sets preference and item mode, and the ordinary one goes back to the task overview; setting the preference leaves the open item alone |
| PageNavigation.ShellStore.Navigate | apps/web/src/hooks/use-page-navigation.ts:21-42 | the sequence of setter calls gives the next shell state of the transition function |
| PageNavigation.ShellStore.Return | apps/web/src/components/layout/context-navigation.tsx:43-52 | the return action navigates to the stored page and then drops it, when another page is stored |
| PageNavigation.ReturnIsEntry | apps/web/src/hooks/use-page-navigation.ts:32-36 | in every run the stored return page is absent or an entry page |
| PageNavigation.OverlaysKeepReturn | apps/web/src/hooks/use-page-navigation.ts:21-42 | while overlay pages are visited from an open dialog, return page, task area and dialog stay |
| PageNavigation.ReturnTrip | apps/web/src/hooks/use-page-navigation.ts:21-42 | from any entry page with the dialog closed, any visits to overlay pages and then the return action lead back with dialog closed and no return page if and only if the page is neither `me` nor in the settings model; the task area survives unless the page is `task` |
| PageNavigation.PageTables | apps/web/src/app/sections.ts:135-160 | every page is on exactly one surface, and there is no other section |
| PageNavigation.SettingsModel | apps/web/src/features/settings/my-settings-model.ts:15-24 | which pages belong to which category of the settings model |
| PageNavigation.RecentOfNavigations | apps/web/src/hooks/use-page-navigation.ts:26-41 | after any navigations from a fresh store the recent list is that of the visited settings-model pages |
| PageNavigation.CategoryFollows | apps/web/src/hooks/use-page-navigation.ts:26-38 | in the open dialog the category follows the visited page, entering `settings` from elsewhere clears it, and nothing else changes it |
| PageNavigation.OrdinaryNavigation | apps/web/src/hooks/use-page-navigation.ts:32-41 | an entry page opened outside the dialog closes it and drops the return page, but for the run set-up of a task |
| PageNavigation.RunSetupTrip | apps/web/src/hooks/use-page-navigation.ts:24-41 | the trip from a task to its run set-up and back ends on the task with no return page left |
| Calendar.DayOfCivilOfDay | apps/web/src/features/applications/application-executions.ts:81 | every day number is the number of the valid date it converts to |
| Calendar.CivilOfDayNumber | apps/web/src/features/applications/application-executions.ts:81 | every valid date is the date of its own day number, so the conversion is a bijection |
| Calendar.CalendarSuccessor | apps/web/src/features/applications/application-executions.ts:81 | day 0 is 1970-01-01 and each day has the date after that of the day before, by month lengths of 30, 31 and 28 or 29 days |
| Calendar.DateCharacters | apps/web/src/features/applications/application-executions.ts:81 | the ten characters of a date of years 0000 to 9999 are its year, month and day in decimal digits between hyphens |
| Calendar.ExtendedCharacters | apps/web/src/features/applications/application-executions.ts:114 | the ten characters of any other day are a sign, six digits of the year, a hyphen and the month |
| Calendar.DateOrder | apps/web/src/features/applications/application-executions.ts:81-82 | the order of dates is the order of day numbers |
| Calendar.TextOrder | apps/web/src/features/applications/application-executions.ts:82 | in years 0000 to 9999 the string order of date texts is the order of days, and texts are equal only for equal days |
| Calendar.DateTextBijection | apps/web/src/features/applications/application-executions.ts:81 | in years 0000 to 9999 the ten-character slice of a day parses back to that day |
| Calendar.DateTextParse | apps/web/src/features/applications/application-executions.ts:81 | a text that parses as a date is the text of that date |
| Calendar.ExtendedSliceFirst | apps/web/src/features/applications/application-executions.ts:81-82 | the slice of a day outside years 0000 to 9999 sorts before every four-digit date |
| Calendar.SameMonthSlice | apps/web/src/features/applications/application-executions.ts:114 | outside years 0000 to 9999 all days of a month share their slice |
| ExecutionStats.WindowTest | apps/web/src/features/applications/application-executions.ts:81-82 | for every `today`, every window of at least one day and every canonical row date, the string test holds if and only if the row's day is one of the last `days` days |
| ExecutionStats.WindowTestExact | apps/web/src/features/applications/application-executions.ts:81-82 | for every window length, also zero and negative, the test is right for all rows if and only if the cutoff does not pass year 9999 |
| ExecutionStats.WindowSums | apps/web/src/features/applications/application-executions.ts:75-89 | all three totals are sums over exactly the application's rows of the last `days` days |
| ExecutionStats.WindowTotals | apps/web/src/features/applications/application-executions.ts:75-89 | a window of at least one day fails exactly when it starts before the first valid date, and otherwise totals succeeded, failed and timed-out, and recovered runs over its days, row by row |
| ExecutionStats.EmptyWindowSelects | apps/web/src/features/applications/application-executions.ts:81-82 | a window of no days at 9999-12-31 selects a row of that day |
| ExecutionStats.DailyStatsSeries | apps/web/src/features/applications/application-executions.ts:103-122 | the countdown loop fails exactly when its first day is no valid date, and else yields one bar for each consecutive day from the cutoff, each from the last row of its date |
| ExecutionStats.MapHoldsLastRow | apps/web/src/features/applications/application-executions.ts:109-111 | looking a date up in the map built from the application's rows gives the last row of that application and date |
| ExecutionStats.SeriesDates | apps/web/src/features/applications/application-executions.ts:112-120 | bar `k` of a series has the date `days - 1 - k` days before `today`, the last one `today` itself |
| ExecutionStats.BarSays | apps/web/src/features/applications/application-executions.ts:112-119 | a bar has the counters of the last row of its application and date, or zeros, timed-out runs among the failed ones, and their sum as total |
| ExecutionStats.SeriesDatesDistinct | apps/web/src/features/applications/application-executions.ts:112-120 | the dates of a series are distinct if and only if at most one of its days precedes year 0000 |
| ExecutionStats.BarsCountLastRows | apps/web/src/features/applications/application-executions.ts:103-122 | the bars of any span add up to the application's rows of that span that no later row overrides |
| ExecutionStats.SeriesMatchesWindow | apps/web/src/features/applications/application-executions.ts:75-122 | series totals are the window totals of the rows not overridden; with one row a day they equal the window totals; with non-negative counters they never exceed them |
| ExecutionStats.SeriesEqualsWindow | apps/web/src/features/applications/application-executions.ts:75-122 | with non-negative counters the series adds up to the window if and only if no overridden row of the application in the window counts anything |
| Refusals.GroupRefusals | apps/web/src/lib/refusals.ts:66-97 | the loops over nested maps compute the groups defined category by category and code by code |
| Refusals.GroupingConserves | apps/web/src/lib/refusals.ts:66-97 | the rows of all groups are a permutation of the input |
| Refusals.GroupedCategories | apps/web/src/lib/refusals.ts:75-78 | the categories of the result are exactly those with rows, in evaluation order |
| Refusals.GroupedMembers | apps/web/src/lib/refusals.ts:75-95 | every group of the result is the group of its category, with a positive count, and every category with rows has its group there |
| Refusals.CountsAddUp | apps/web/src/lib/refusals.ts:80-93 | the counts of the groups add up to the number of rows |
| Refusals.GroupsDistinct | apps/web/src/lib/refusals.ts:68-74 | no code has two groups in a category |
| Refusals.GroupOrder | apps/web/src/lib/refusals.ts:86-87 | the code groups of a category come in non-increasing size, equally large ones in order of first appearance |
| Refusals.RowOrder | apps/web/src/lib/refusals.ts:68-84 | a code group holds exactly the rows of its normalised category and its code, at least one, newest first, equal times in input order |
| Refusals.CategoriesInOrder | apps/web/src/lib/refusals.ts:67-78 | the categories of the result are those of `not_granted`, `policy`, `state` and `human`, in this order, that some row belongs to, rows of any other category belonging to `policy` |
| Refusals.GroupsInOrder | apps/web/src/lib/refusals.ts:79-87 | in group sizes and collated times: larger groups first, rows newest first, and each group exactly the rows of its category and code |
| RefusalSummary.ZeroBuckets | apps/web/src/lib/refusals.ts:141-148 | the countdown fails exactly when some day of the window is no valid date, and else gives the zeroed days in order and the last position of each text |
| RefusalSummary.SummarizeRefusals | apps/web/src/lib/refusals.ts:133-167 | one pass with counters gives the summary that is defined by independent counting of the rows |
| RefusalSummary.TrendCountsDays | apps/web/src/lib/refusals.ts:141-159 | in years 0000 to 9999 bucket `j` counts exactly the rows of its own UTC day |
| RefusalSummary.TrendExact | apps/web/src/lib/refusals.ts:121-159 | for every window of valid dates the trend is right for all rows if and only if the window is empty or lies in years 0000 to 9999 |
| RefusalSummary.TrendInDays | apps/web/src/lib/refusals.ts:141-159 | in days and milliseconds: one bucket for each day up to today, oldest first, labelled with its date, and in years 0000 to 9999 with the rows whose time falls on that day |
| RefusalSummary.SummaryTotals | apps/web/src/lib/refusals.ts:137-166 | total, counts by category and the loop flag in terms of the rows |
| RefusalSummary.ShiftLimits | apps/web/src/lib/refusals.ts:145 | a window fails exactly when one of its days is more than 8.64e15 ms from 1970 |
| RefusalSummary.CountedCodes | apps/web/src/lib/refusals.ts:155 | a code is counted if and only if it occurs, with its number of rows |
| RefusalSummary.TopCodesAreTop | apps/web/src/lib/refusals.ts:161-164 | the listed codes are the first `topN` by count and then collation, ties by first appearance; no code left out precedes a listed one |
| RefusalSummary.TopCodesByCount | apps/web/src/lib/refusals.ts:155-164 | in row counts and collation: each listed code has its number of rows, more frequent ones come first and equal ones by collation, and no code left out has more rows than a listed one, or as many and an earlier name |
| RefusalSummary.TopCodesLength | apps/web/src/lib/refusals.ts:161-164 | how many codes are listed, for every `topN`, also beyond the number of codes and negative |
| RefusalSummary.CodeCountIsGroupSizes | apps/web/src/lib/refusals.ts:66-167 | the count of every listed code is the sum of the sizes of its groups over all categories of the grouped rows |
| RefusalSummary.CountsAgree | apps/web/src/lib/refusals.ts:66-167 | a category has a group exactly when the summary counts it above zero, with that count, and the group counts add up to the summary's total |
| SvgScrub.Element.constructor | apps/server/src/workers/cad-preview.py:39 | an element over disjoint valid trees is a valid tree with these trees as its children |
| SvgScrub.Build | apps/server/src/workers/cad-preview.py:39 | every tree with distinct attribute keys can be built out of new heap elements, so the procedures below apply to all of them |
| SvgScrub.Element.ScrubChildren | apps/server/src/workers/cad-preview.py:43-49 | the loop over a snapshot, removing from the live list and recursing, leaves the filtered forest of the old children |
| SvgScrub.Element.ScrubAttributes | apps/server/src/workers/cad-preview.py:50-61 | deleting keys while walking a snapshot leaves exactly the attributes that pass, in order |
| SvgScrub.Element.Scrub | apps/server/src/workers/cad-preview.py:43-66 | the in-place recursion on any finite tree of heap elements computes the top-down filter of the tree it had |
| SvgScrub.ScrubIn | apps/server/src/workers/cad-preview.py:49 | scrubbing one child leaves its siblings alone |
| SvgScrub.SanitizeSvg | apps/server/src/workers/cad-preview.py:38-70 | a text that does not parse or whose root is not `svg` is refused; any other is built, scrubbed in place, and written as the filter of the parsed tree |
| SvgScrub.ScrubFixed | apps/server/src/workers/cad-preview.py:43-66 | the scrub leaves a tree alone if and only if every element below the root, attribute and style text passes its test |
| SvgScrub.ScrubSatisfies | apps/server/src/workers/cad-preview.py:43-66 | the result of a scrub passes every test |
| SvgScrub.ScrubIdempotent | apps/server/src/workers/cad-preview.py:43-66 | scrubbing twice is scrubbing once |
| SvgScrub.ScrubKeepsSurvivors | apps/server/src/workers/cad-preview.py:43-66 | a node survives if and only if every tag on the way down to it is on the list; survivors keep document order, and each is cleaned on its own |
| SvgRules.ChildRule | apps/server/src/workers/cad-preview.py:44-49 | among any siblings a child is kept, and scrubbed, if and only if its name after an optional namespace is one of the fifteen words |
| SvgRules.NamespacedChild | apps/server/src/workers/cad-preview.py:45 | a namespace in braces makes no difference to that rule |
| SvgRules.ElementRule | apps/server/src/workers/cad-preview.py:50-66 | an element keeps exactly the attributes of listed names that start no handler and whose values hold none of the five texts, an `href` only to a fragment, and its text unless it is a style sheet with one of the three texts |
| SvgRules.ScrubbedObeys | apps/server/src/workers/cad-preview.py:43-66 | whatever tree comes in, what is left obeys all these rules, and exactly the trees that obey them are left alone |
| TerminalView.TerminalSurface.RenderTerminalEmulator | apps/web/public/app/terminal-surface.js:58-93 | a render changes session, shown ids and screen as the pure step says, with resets on a change of session |
| TerminalView.TerminalSurface.WriteUnseen | apps/web/public/app/terminal-surface.js:87-91 | the loop appends exactly the records whose id is not shown, the first of each id |
| TerminalView.TerminalSurface.RenderTerminalSurface | apps/web/public/app/terminal-surface.js:12-44 | the surface renders the first session of the state with its own records, or the first eight records without a session |
| TerminalView.WrittenOnce | apps/web/public/app/terminal-surface.js:87-91 | what one render writes has distinct ids, none shown before, and afterwards every id is shown |
| TerminalView.ShownRecords | apps/web/public/app/terminal-surface.js:84-86 | with a session, of all records of the state just its own of kind `terminal_output_chunk` are looked at, in order of time |
| TerminalView.FirstSessionShown | apps/web/public/app/terminal-surface.js:137-139 | the first session of the state is the one shown, and none without sessions |
| TerminalView.AllShown | apps/web/public/app/terminal-surface.js:87-91 | after a render each of them is shown |
| TerminalView.SingleRecord | apps/web/public/app/terminal-surface.js:87-91 | a record puts its output on a fresh screen, nothing if it has none; without a session the first eight records are looked at |
| TerminalView.RunWritesOnce | apps/web/public/app/terminal-surface.js:58-93 | over any run of renders of any sessions the screen reads the records written since the last reset, which have distinct ids, one for each shown id |
| TerminalView.FilterSort | apps/web/public/app/terminal-surface.js:84-91 | selecting the unseen records and sorting by time commute |
| TerminalView.AppendingIsSorting | apps/web/public/app/terminal-surface.js:84-91 | writing late records after early ones keeps the order of time if and only if none of them is older than an early one |
| TerminalView.RedrawIsRender | apps/web/public/app/terminal-surface.js:78-91 | a first render of a session is a full redraw |
| TerminalView.RenderIsRedraw | apps/web/public/app/terminal-surface.js:84-91 | on a redrawn screen, rendering evidence with distinct ids whose new records are not older than those shown gives the redraw of all records seen |
| TerminalView.RunIsRedraw | apps/web/public/app/terminal-surface.js:58-93 | over any run of renders of a session whose records arrive in order, the screen is the full redraw of everything seen, which is one render of it all on a reset screen |
| TerminalView.RunWrites | apps/web/public/app/terminal-surface.js:58-93 | over any run of renders of a session, in whatever order records arrive, the screen reads the new records of each render, each render's own in order of time |
| TerminalView.WrittenInOrder | apps/web/public/app/terminal-surface.js:84-91 | what a run writes is the time-ordered list of all records seen if and only if no record arrives after a later one was shown |
| TerminalView.LateArrival | apps/web/public/app/terminal-surface.js:84-91 | a record older than one already shown is appended all the same, where a redraw would put it first |
| TerminalView.PlaceholderOnce | apps/web/public/app/terminal-surface.js:65-76 | without a session the screen reads the placeholder exactly once, from every view that renders can reach |
| TerminalView.FramesReachable | apps/web/public/app/terminal-surface.js:58-93 | every run of renders stays among those views |
| EventStream.StreamFlag.SetConnected | apps/web/src/data/control-plane-stream.ts:8-12 | setting the flag tells all listeners, and only about a change |
| EventStream.ListenersHearChanges | apps/web/src/data/control-plane-stream.ts:8-19 | in every run each listener hears an alternating sequence that ends in the current value |
| EventStream.FlagIsSet | apps/web/src/data/control-plane-stream.ts:8-12 | the flag takes every value set, and each listener hears a change once |
| EventStream.MountEffect | apps/web/src/app/use-control-plane-events.ts:10-18 | mounting opens one connection from the stored cursor and reports nothing |
| EventStream.MessageEffect | apps/web/src/app/use-control-plane-events.ts:20-33 | an id, if it has text, moves both cursors; `ready` clears the attempts and raises the flag; nothing else changes |
| EventStream.EndEffect | apps/web/src/app/use-control-plane-events.ts:37-40 | the end of an open stream lowers the flag and schedules one retry after the wait of its attempt |
| EventStream.RetryEffect | apps/web/src/app/use-control-plane-events.ts:16-18 | a fired retry opens one connection from the cursor, reported after a failure |
| EventStream.TeardownEnds | apps/web/src/app/use-control-plane-events.ts:43-48 | after teardown nothing is open, pending or connected, whatever follows |
| EventStream.ReadyRecovers | apps/web/src/app/use-control-plane-events.ts:25-28 | after any run that ends in `ready` on an open stream the flag is up and the next failure waits one second |
| EventStream.ReceivesArrived | apps/web/src/app/use-control-plane-events.ts:20-24 | the ids received in a run are exactly those with text that arrive while a stream is open |
| EventStream.DelayTable | apps/web/src/app/use-control-plane-events.ts:39 | the waits of 1, 2, 4, 8 and 16 seconds, and 30 from the sixth failure on |
| EventStream.ControlPlaneEvents.OnMessage | apps/web/src/app/use-control-plane-events.ts:20-33 | a message stores a non-empty id in both cursors; `ready` resets the attempts and raises the flag |
| EventStream.ControlPlaneEvents.OnEnd | apps/web/src/app/use-control-plane-events.ts:37-40 | the end of a stream lowers the flag and schedules one retry, unless torn down |
| EventStream.ControlPlaneEvents.OnTimer | apps/web/src/app/use-control-plane-events.ts:16-18 | a fired retry opens one connection from the cursor and reports the reconnect |
| EventStream.ControlPlaneEvents.Teardown | apps/web/src/app/use-control-plane-events.ts:43-48 | teardown aborts the connection, clears the timer and lowers the flag |
| EventStream.RunKeepsInvariant | apps/web/src/app/use-control-plane-events.ts:10-48 | in every run at most one of connection and pending retry exists, exactly one before teardown; the flag is down while a retry is pending; reports are one less than connections; both cursors are the last id received |
| EventStream.NothingAfterTeardown | apps/web/src/app/use-control-plane-events.ts:43-48 | after teardown no event has any effect |
| EventStream.ResumesFromLast | apps/web/src/app/use-control-plane-events.ts:33 | every new connection resumes from the last id received before it |
| EventStream.WaitsFollowBackoff | apps/web/src/app/use-control-plane-events.ts:37-40 | until the stream reports ready, the waits of a run are the backoff table from the current attempt on, one for each stream that ends while open |
| EventStream.RunBackoff | apps/web/src/app/use-control-plane-events.ts:37-40 | a run of `n` failures after a ready stream and without another waits 1000 * (2^n - 1) ms in all up to five failures and 31000 + 30000 * (n - 5) ms from five on |
| EventStream.TotalBackoff | apps/web/src/app/use-control-plane-events.ts:39 | the sums of the backoff table for every number of failures |
| Notifications.NotificationDelivery.Deliver | apps/web/src/components/layout/notification-center.tsx:153-185 | the delivery effect counts exactly the ids that the stored baseline lacks and replaces the baseline |
| Notifications.StoredKeepsLast | apps/web/src/components/layout/notification-center.tsx:39-45 | the stored baseline keeps exactly the ids that fewer than 500 distinct ids follow |
| Notifications.StoredForgets | apps/web/src/components/layout/notification-center.tsx:39-45 | storing forgets no id if and only if there are at most 500 distinct ones |
| Notifications.AnnouncesTheNew | apps/web/src/components/layout/notification-center.tsx:153-185 | after a snapshot of at most 500 ids, the first one included, the next announces exactly its ids that the snapshot lacked |
| Notifications.EnableTakesBaseline | apps/web/src/components/layout/notification-center.tsx:263-287 | turning delivery on announces nothing and takes the present ids as known, so the next snapshot announces exactly the ids beyond them; while it is off nothing is announced or stored |
| Notifications.RepeatIsSilent | apps/web/src/components/layout/notification-center.tsx:153-185 | rendering the same ids again announces nothing if and only if they are at most 500 |
| Notifications.FirstRuns | apps/web/src/components/layout/notification-center.tsx:129-158 | a first snapshot is stored and not announced; without stored marks the present completions count as read, with stored marks exactly the others are unread |
| Notifications.PresentIdAnnouncedOnce | apps/web/src/components/layout/notification-center.tsx:153-185 | over any run of snapshots of at most 500 ids and switches of delivery an id present throughout is announced at most once, and never once the baseline knows it |
| Notifications.CompletionMarks.Load | apps/web/src/components/layout/notification-center.tsx:129-136 | the first effect run takes the stored marks, or takes and stores the present completions |
| Notifications.CompletionMarks.MarkResultsRead | apps/web/src/components/layout/notification-center.tsx:257-261 | marking adds the present completions to the marks, keeping all in memory and the last 500 in storage |
| Notifications.NothingUnread | apps/web/src/components/layout/notification-center-model.ts:123-125 | nothing is unread if and only if every completion is marked |
| Notifications.MarkingReads | apps/web/src/components/layout/notification-center.tsx:257-261 | after marking, no completion of that model is unread |
| Notifications.ReloadKeepsMarks | apps/web/src/components/layout/notification-center.tsx:129-136 | a reload keeps every mark if and only if at most 500 ids were seen |
| Notifications.ReloadReads | apps/web/src/components/layout/notification-center.tsx:129-136 | so then nothing is unread after the reload |
| EscapeHtml.FourPassIsPerCharacter | docs/design/prototypes/managed-session-context-rail.js:118-124 | on every string the four sequential replacements are one substitution per character |
| EscapeHtml.EscapersAgree | apps/multi-terminal/public/app.js:2 | the two escapers agree on a string if and only if it has no apostrophe |
| EscapeHtml.EntityTable | docs/design/prototypes/managed-session-context-rail.js:118-124 | what each escaper puts for each of the five characters and for any other |
| EscapeHtml.DecodeFourPass | docs/design/prototypes/managed-session-context-rail.js:118-124 | decoding entities undoes the four replacements on every string |
| EscapeHtml.DecodeOnePass | apps/multi-terminal/public/app.js:2 | decoding entities undoes the five-character escaper on every string |
| EscapeHtml.EscapeInjective | docs/design/prototypes/managed-session-context-rail.js:118-124 | strings that escape alike, by either escaper, are equal |
| EscapeHtml.EscapedIsInert | docs/design/prototypes/managed-session-context-rail.js:118-124 | escaped text has no raw angle bracket or double quote, and every ampersand in it starts an entity |

## Left out

- Rehydration.Merge: a saved number is a `real`, so a literal that parses to infinity is not modelled, and the loop over the patched fields stands for seventeen assignments of the same form (Navigation.UiState.ApplyUrlNavigation has them one by one).
- ExecutionStats.WindowTest: row dates and `today` are canonical `YYYY-MM-DD`; for other texts `Date.parse` is left to the implementation by ECMA-262. Counters and window lengths are integers.
- TerminalView.RunIsRedraw: times are integers; a record whose time does not parse makes the comparator return NaN, for which the order of a sort is left to the implementation.
- RefusalSummary.TopCodesAreTop: `localeCompare` is the order of an arbitrary collation key, not a particular locale's table.
- SvgScrub.SanitizeSvg: the XML parser, the serialiser and Python's `str.lower` are arbitrary functions; the parser is only taken to give distinct attribute keys.
- Notifications.NotificationDelivery.Deliver: storage works and permission is granted; failing storage and the click on a notification are not modelled.
- EventStream.RunKeepsInvariant: the transport is the environment; it delivers nothing after an abort.
- Percent-encoding: serialising and parsing a query string are taken to be inverse on lists of pairs.
- Strings are sequences of Unicode scalar values; lone UTF-16 surrogates are not modelled.
- React scheduling, the DOM and xterm: effects are atomic steps over explicit state, and the terminal is the text written to it.
- Rounded success rates (`durableSuccessRate`, `applicationExecutionDigest`): they divide totals that are modelled and round the quotient.
- Labels, hints and titles, in refusals, notifications and navigation: finite tables.
- `deriveNotificationCenterModel`: which event ids a console state has; the delivery laws hold for any ids.
- `webNavigationStateFromLink`: the link keys read into a patch as `navigationFromSearch` reads them.
- Collapsing of navigation groups, skin and locale setters, selection setters without invariants: each is one assignment.
- The rendering of DXF files around the scrubber, the multi-terminal portfolio and its event handlers: foreign libraries and the DOM.
