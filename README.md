# cekpondok dashboard: a Dafny model of its core logic

cekpondok is a read-only React dashboard for a pesantren (an Islamic boarding
school). It reads a remote JSON API and shows the school's dashboard, academic
progress, the santri (student) and alumni directories, a santri's profile, the
inventory, and the santri feedback table. Below the markup sits a small amount
of logic, and this project models it:

- **`useApi` hook.** Each resource is bound to one URL and runs fetch cycles
  that move its `data`, `loading` and `error` state. `UseApi` models this as
  pure transitions over `HookState` and as the class `ApiResource`, whose
  methods update its fields.
- **Precedence rule.** Every panel applies the same rule to its hooks: while
  any resource loads, show the spinner; otherwise show the first failed
  resource, in declaration order, with its retry; otherwise show the content.
  This is `Precedence.Merge`, and each panel instantiates it (`DirectoryScreen`,
  `DetailScreen`, `AcademicScreen`, `InventoryScreen`, `DashboardScreen`,
  `MasukanScreen`).
- **Lookups and searches.** The lookups fall back to the raw id or to "N/A".
  The searches are order-preserving, case-insensitive substring filters
  (`SantriRecords`, `InventoryList`, `AcademicProgress`).
- **Pagination.** Alumni paging is server-side: the page number is part of the
  URL, and Previous/Next are clamped. Inventory paging is a client-side window,
  whose page resets to 1 on every new search (`Paging`, `AlumniDirectory`,
  `InventoryList`).
- **Label and class mappers.** These cover attendance status, daily-report
  status, project progress, complaint status, the team "first three +
  overflow" strip, and the `value || fallback` display rules
  (`Dashboard`, `Projects`, `MasukanSantri`, `Display`).
- **Application shell.** The intro-dialog flag lives in the browser's
  key-value store, and the tab id dispatches to a panel (`App`).

The network is a parameter. What a request for a URL brings back is an
`Outcome` the caller supplies: a response with a status and a decoded or
malformed body, or a rejection with a thrown value. The component state that
handlers update is modelled as classes: `AlumniDirectory.AlumniPanel`,
`SantriDirectory.SantriPanel`, `InventoryList.InventoryPanel`, `App.Shell` and
`App.KeyValueStore`. What each panel renders is a pure function of that state
and of its hooks' states.

JavaScript truthiness is modelled where the code relies on it:

- `if (error)` treats an empty message as no error (`Precedence.Failed`).
- `if (selectedSantriId)` treats the empty id as no selection.
- `x || 0` and `x || 'N/A'` fall back on absent, empty and zero values.
- `list?.map(...) || placeholder` shows the placeholder only when the list is
  absent, because an empty array is truthy (`MasukanSantri.TableOf`,
  `Projects.ProjectCards`, `AcademicProgress.MusyrifCards`).

Three behaviours of the code are easy to overlook; the model follows the code in each:

- The panels test `error` for truthiness, so an empty error message shows the
  content instead of the error view.
- `useApi` has no guard against stale responses. An older request that
  completes last wins, so only sequential cycles are modelled.
- The default branch of `renderContent` renders the dashboard without its
  tab-change handler. `App.NavigationReachesOwnPanels` shows that the
  navigation bar never reaches that branch.

## Model

| member | source | states |
|---|---|---|
| UseApi.NormalizeUrl | src/hooks/useApi.ts:13 | the URL is kept when it starts with "http" or "/api", else "/api" is prepended; the result starts with one of the two and ends with the input |
| UseApi.NormalizeUrlIdempotent | src/hooks/useApi.ts:13 | normalising twice equals normalising once |
| UseApi.HttpErrorMessageNamesStatus | src/hooks/useApi.ts:17 | the HTTP error message is "HTTP error! status: " followed by the status, which reads back from the message; it is never empty |
| UseApi.HttpErrorMessage | src/hooks/useApi.ts:17 | the HTTP error message begins with "HTTP error! status: " and carries something after it |
| UseApi.ThrownMessage | src/hooks/useApi.ts:23 | an Error contributes its own message, any other thrown value the fixed "Terjadi kesalahan saat memuat data" |
| UseApi.FailureOf | src/hooks/useApi.ts:16-23 | the try block runs through (no message) exactly for a 2xx response with a decoded body; a non-2xx status gives the HTTP message, a malformed body its parse error, a rejection the thrown message |
| UseApi.Initial | src/hooks/useApi.ts:4-6 | the hook starts with no data, loading, and no error |
| UseApi.Begin | src/hooks/useApi.ts:10-11 | starting a cycle sets loading, clears the error and keeps the data |
| UseApi.Complete | src/hooks/useApi.ts:14-27 | every completion clears loading; a non-2xx status stores the HTTP message and keeps the data; a decoded body replaces the data; a malformed body or a rejection stores its message and keeps the data |
| UseApi.Cycle | src/hooks/useApi.ts:8-28 | a whole cycle ends not loading, with an error exactly when the outcome failed, the new data on success and the old data on failure |
| UseApi.CycleIdempotent | src/hooks/useApi.ts:34-36 | a refetch that receives the same outcome leaves the state as the first cycle did |
| UseApi.ReportedFailuresAreNonEmpty | src/hooks/useApi.ts:16-23 | an HTTP failure or a non-Error throw is always reported by a non-empty message, so the panels' truthiness test sees it |
| UseApi.InitialExclusive | src/hooks/useApi.ts:4-6 | the initial state does not have loading and an error at once |
| UseApi.RunKeepsExclusive | src/hooks/useApi.ts:10-26 | under any sequence of cycle starts and completions, loading and an error are never both set |
| UseApi.RunNeverClearsData | src/hooks/useApi.ts:20-23 | once data has arrived, no later start or completion removes it |
| UseApi.ApiResource.constructor | src/hooks/useApi.ts:3-6 | a new hook is bound to its URL and is in the initial state |
| UseApi.ApiResource.StartCycle | src/hooks/useApi.ts:10-14 | the state becomes the start of a cycle, and the URL handed to fetch is the normalised one |
| UseApi.ApiResource.Settle | src/hooks/useApi.ts:16-27 | the state becomes the completion of the cycle with the given outcome |
| UseApi.ApiResource.ExecuteFetch | src/hooks/useApi.ts:8-28 | the state becomes one whole cycle against what the network returns for the normalised URL, and loading and error are not both set |
| UseApi.ApiResource.Refetch | src/hooks/useApi.ts:34-36 | refetch runs the identical cycle against the same URL |
| UseApi.ApiResource.Rerender | src/hooks/useApi.ts:30-32 | a render with a new URL starts exactly one cycle against it; a render with the same URL changes nothing |
| UseApi.Mount | src/hooks/useApi.ts:30-32 | a new hook is bound to its URL, and the first effect runs exactly one cycle from the initial state against the normalised URL |
| Precedence.Merge | src/components/alumni/AlumniDirectory.tsx:48-51 | spinner exactly when some resource loads; otherwise the error of the first failed resource, with its index; content exactly when all are settled |
| Precedence.LoadingOutranksErrors | src/components/santri/SantriDirectory.tsx:39-42 | a loading resource hides every error, wherever either stands in the order |
| Precedence.FirstErrorWins | src/components/santri_detail/SantriDetailView.tsx:32-35 | the error shown depends on the first failed resource alone, not on those after it |
| Endpoints.ApiUrl | src/components/santri/SantriDirectory.tsx:15-17 | each resource URL lies under the API root and starts with "http" |
| Endpoints.ApiUrlIsRequestedVerbatim | src/hooks/useApi.ts:13 | the hook requests the panels' absolute URLs unchanged |
| Endpoints.ApiUrlInjective | src/components/alumni/AlumniDirectory.tsx:18-24 | different endpoint paths are different URLs |
| Endpoints.PanelPhotoUrl | src/components/academic/AcademicProgress.tsx:42 | a photo address is the uploads folder (as the academic panel spells it) followed by the file name |
| Seqs.Find | src/components/santri/SantriDirectory.tsx:21 | `find` returns the first element satisfying the test, or nothing when none does |
| Seqs.Filter | src/components/santri/SantriDirectory.tsx:31 | `filter` keeps exactly the elements satisfying the test, as a sub-multiset of the input |
| Seqs.FilterConcat | src/components/santri/SantriDirectory.tsx:31 | filtering a concatenation filters each part in turn, so order is kept |
| Text.Lower | src/components/santri/SantriDirectory.tsx:32 | `toLowerCase` keeps the length, lowers each letter and leaves no upper-case letter |
| Text.Contains | src/components/santri/SantriDirectory.tsx:32 | `includes` holds exactly when the needle occurs at some position |
| Text.Split | src/components/santri_detail/SantriDetailView.tsx:122 | `split` gives at least one piece, no piece contains the separator, the whole text when the separator does not occur, and otherwise the text before its first occurrence as the first piece |
| Text.JoinSplit | src/components/santri_detail/SantriDetailView.tsx:122 | joining the pieces of a split with the same separator restores the string |
| Text.NatToString | src/components/alumni/AlumniDirectory.tsx:23 | the decimal text of a number is non-empty digits, without a leading zero |
| Text.ParseNatToString | src/components/alumni/AlumniDirectory.tsx:23 | a number's decimal text reads back as the number |
| Text.NatToStringInjective | src/components/alumni/AlumniDirectory.tsx:23 | different numbers have different decimal texts |
| Paging.PageCount | src/components/alumni/AlumniDirectory.tsx:46 | the page count is the ceiling of n/9: enough pages for n items and no empty last page; zero exactly for no items |
| Paging.SliceIndex | src/components/inventaris/InventoryList.tsx:50 | a slice index is clipped to the list, and a negative one counts from the end |
| Paging.JsSlice | src/components/inventaris/InventoryList.tsx:50 | `slice` is the stretch between the two clipped indices, or empty when they cross |
| Paging.PageSlice | src/components/inventaris/InventoryList.tsx:48-50 | the page holds at most 9 items, those from position (page-1)*9 on in order, and is non-empty exactly for pages 1 to the page count |
| Paging.PagesFromRest | src/components/inventaris/InventoryList.tsx:47-50 | the pages from a given one to the last hold exactly the items from that page's start on |
| Paging.PagesCoverAll | src/components/inventaris/InventoryList.tsx:47-50 | pages 1 to the page count, joined, are exactly the list |
| Display.TextOr | src/components/masukan/MasukanSantri.tsx:42 | `value \|\| fallback` gives the fallback for an absent or empty text, else the text |
| Display.NumberOrZero | src/components/dashboard/Dashboard.tsx:116-117 | `count \|\| 0` is 0 exactly for an absent or zero number, else the number |
| Display.LengthOrZero | src/components/masukan/MasukanSantri.tsx:19 | `list?.length \|\| 0` is the length, or 0 without a list |
| Display.ShownText | src/components/santri_detail/SantriDetailView.tsx:216-221 | `text && <element>` draws the text exactly when it is non-empty |
| Display.SectionRows | src/components/santri_detail/SantriDetailView.tsx:185 | a list section draws its rows exactly when the list is present and non-empty, else its empty notice |
| SantriRecords.KonsentrasiName | src/components/alumni/AlumniDirectory.tsx:26-30 | the raw id without a table or without a match, else the name of the first entry with that id |
| SantriRecords.AngkatanName | src/components/alumni/AlumniDirectory.tsx:32-36 | the raw id without a table or without a match, else the cohort of the first entry with that id |
| SantriRecords.RecordNamed | src/components/academic/AcademicProgress.tsx:20 | the first residence record with exactly the given name, or none |
| SantriRecords.MatchesSearch | src/components/santri/SantriDirectory.tsx:31-37 | every record matches the empty term |
| SantriRecords.FilterSantri | src/components/santri/SantriDirectory.tsx:31-37 | no data gives []; otherwise exactly the records whose five fields (two resolved through the lookups) contain the term ignoring case |
| SantriRecords.FilterSantriOrder | src/components/alumni/AlumniDirectory.tsx:38-44 | the filter keeps order: a list filters as its halves do, one after the other, and one record is kept exactly when it matches |
| SantriRecords.EmptyTermKeepsAll | src/components/alumni/AlumniDirectory.tsx:38-44 | an empty search term keeps every record in order |
| SantriRecords.SearchIgnoresTermCase | src/components/santri/SantriDirectory.tsx:32-36 | the result does not depend on the case of the term |
| SantriRecords.CardPhoto | src/components/santri/SantriDirectory.tsx:77-79 | a card has a photo exactly when the record names one, served from the uploads folder |
| SantriRecords.DirectoryScreen | src/components/santri/SantriDirectory.tsx:39-46 | spinner when any of the three loads; else the list's, then konsentrasi's, then angkatan's error with its own retry; else the selected santri's detail, and the list without a selection |
| AlumniDirectory.AlumniUrl | src/components/alumni/AlumniDirectory.tsx:22-24 | the URL is the alumni endpoint, then the page number (which reads back from the URL), then "&limit=9" |
| AlumniDirectory.AlumniUrlDeterminesPage | src/components/alumni/AlumniDirectory.tsx:22-24 | the alumni URL determines its page, so a page change changes the resource |
| AlumniDirectory.TotalAlumniPages | src/components/alumni/AlumniDirectory.tsx:46 | 0 without data, else the ceiling of count/9 |
| AlumniDirectory.PagerShown | src/components/alumni/AlumniDirectory.tsx:109 | the controls are shown only when there are at least two pages |
| AlumniDirectory.PreviousPage | src/components/alumni/AlumniDirectory.tsx:112 | one page back, and page 1 at the lowest |
| AlumniDirectory.NextPage | src/components/alumni/AlumniDirectory.tsx:120 | one page on, and the last page at the highest |
| AlumniDirectory.PreviousDisabled | src/components/alumni/AlumniDirectory.tsx:113 | Previous is disabled only where a click would not move the page |
| AlumniDirectory.NextDisabled | src/components/alumni/AlumniDirectory.tsx:121 | Next is disabled only where a click would not move the page |
| AlumniDirectory.ClampsKeepPageInRange | src/components/alumni/AlumniDirectory.tsx:109-121 | with the controls shown there are at least 2 pages, and Previous (max) and Next (min) keep a page in 1..total, moving by one inside the range |
| AlumniDirectory.FilteredAlumni | src/components/alumni/AlumniDirectory.tsx:38-44 | no data gives []; otherwise the matching alumni of the current page, all of them for an empty term |
| AlumniDirectory.AlumniPanel.constructor | src/components/alumni/AlumniDirectory.tsx:14-16 | an empty term, page 1, no selection |
| AlumniDirectory.AlumniPanel.SetSearchTerm | src/components/alumni/AlumniDirectory.tsx:70 | only the term changes |
| AlumniDirectory.AlumniPanel.ClickPrevious | src/components/alumni/AlumniDirectory.tsx:109-116 | with the control shown and enabled the page becomes max(1, p-1), otherwise it stays; the page stays at least 1, and a changed page changes the alumni URL |
| AlumniDirectory.AlumniPanel.ClickNext | src/components/alumni/AlumniDirectory.tsx:119-125 | with the control shown and enabled the page becomes min(total, p+1), otherwise it stays; the page stays at least 1, and a changed page changes the alumni URL |
| AlumniDirectory.AlumniPanel.SelectSantri | src/components/alumni/AlumniDirectory.tsx:79 | a click on a card selects that santri |
| AlumniDirectory.AlumniPanel.CloseDetail | src/components/alumni/AlumniDirectory.tsx:54 | closing the detail clears the selection and keeps page and term |
| SantriDirectory.ResourcesAreDistinct | src/components/santri/SantriDirectory.tsx:15-17 | the three resources have three different URLs |
| SantriDirectory.SantriPanel.constructor | src/components/santri/SantriDirectory.tsx:12-13 | an empty term and no selection |
| SantriDirectory.SantriPanel.Listed | src/components/santri/SantriDirectory.tsx:31-37 | no data gives []; otherwise exactly the records of the list that match the panel's term, all of them for an empty term |
| SantriDirectory.SantriPanel.SetSearchTerm | src/components/santri/SantriDirectory.tsx:61 | only the term changes |
| SantriDirectory.SantriPanel.SelectSantri | src/components/santri/SantriDirectory.tsx:75 | a click on a card selects that santri |
| SantriDirectory.SantriPanel.CloseDetail | src/components/santri/SantriDirectory.tsx:45 | closing the detail clears the selection and keeps the term |
| SantriDirectory.SelectionChoosesScreen | src/components/santri/SantriDirectory.tsx:44-46 | in a settled directory a non-empty selected id shows exactly that santri's detail, and no selection (or the empty id) shows the list |
| InventoryList.InventoryRows | src/components/inventaris/InventoryList.tsx:38 | a missing response is an empty inventory |
| InventoryList.ItemMatches | src/components/inventaris/InventoryList.tsx:40-45 | every item matches the empty query |
| InventoryList.FilterItems | src/components/inventaris/InventoryList.tsx:40-45 | exactly the items whose name, condition, ownership or description contains the query ignoring case |
| InventoryList.FilterItemsOrder | src/components/inventaris/InventoryList.tsx:40-45 | the filter keeps order |
| InventoryList.ItemMatchesIgnoresQueryCase | src/components/inventaris/InventoryList.tsx:41-44 | whether an item matches does not depend on the case of the query |
| InventoryList.EmptyQueryKeepsAll | src/components/inventaris/InventoryList.tsx:40-45 | an empty query keeps the whole inventory |
| InventoryList.InventoryScreen | src/components/inventaris/InventoryList.tsx:56-62 | spinner exactly while loading; then the error without a retry; content exactly when settled |
| InventoryList.InventoryPanel.constructor | src/components/inventaris/InventoryList.tsx:15-16 | page 1, empty query, no item open |
| InventoryList.InventoryPanel.TotalPages | src/components/inventaris/InventoryList.tsx:47 | enough pages of nine for every match, no empty last page, and none exactly when nothing matches |
| InventoryList.InventoryPanel.CurrentItems | src/components/inventaris/InventoryList.tsx:48-50 | at most nine cards, each an item of the inventory that matches the query; for a page p >= 1 they are exactly the filtered items from position (p-1)*9 on, in order, min(9, what remains) of them, and none past the end |
| InventoryList.InventoryPanel.ControlsShown | src/components/inventaris/InventoryList.tsx:102 | the controls are shown exactly when more than nine items match |
| InventoryList.InventoryPanel.SearchChange | src/components/inventaris/InventoryList.tsx:23-26 | a new query always resets the page to 1 |
| InventoryList.InventoryPanel.PageChange | src/components/inventaris/InventoryList.tsx:52-54 | the page is set as given, without clamping |
| InventoryList.InventoryPanel.ClickPrevious | src/components/inventaris/InventoryList.tsx:102-106 | with the controls shown and not on page 1 the page decreases by one, otherwise it stays; an in-range page stays in range |
| InventoryList.InventoryPanel.ClickNext | src/components/inventaris/InventoryList.tsx:120-122 | with the controls shown and not on the last page the page increases by one, otherwise it stays; an in-range page stays in range |
| InventoryList.InventoryPanel.ClickPageNumber | src/components/inventaris/InventoryList.tsx:111-119 | the button at index i (one per page, shown with the controls) selects page i+1; an in-range page stays in range |
| InventoryList.InventoryPanel.OpenItem | src/components/inventaris/InventoryList.tsx:30-32 | a click on a card opens it in the modal |
| InventoryList.InventoryPanel.CloseModal | src/components/inventaris/InventoryList.tsx:34-36 | closing the modal clears the open item |
| InventoryList.InRangePageIsNeverBlank | src/components/inventaris/InventoryList.tsx:47-50 | an in-range page shows at most 9 cards, and none only when nothing matches |
| InventoryList.EveryMatchIsOnSomePage | src/components/inventaris/InventoryList.tsx:47-50 | the pages of the panel, joined, are exactly the filtered items |
| SantriDetailView.DetailUrl | src/components/santri_detail/SantriDetailView.tsx:16 | the URL is the detail endpoint followed by exactly the santri id |
| SantriDetailView.DetailUrlDeterminesSantri | src/components/santri_detail/SantriDetailView.tsx:16 | the detail URL determines its santri |
| SantriDetailView.DetailScreen | src/components/santri_detail/SantriDetailView.tsx:32-39 | spinner when any of the three loads; else the detail's, konsentrasi's, then angkatan's error with its own retry; else the fixed not-found message (no retry) without a profile; content exactly when all are settled and a profile exists |
| SantriDetailView.ProfileOf | src/components/santri_detail/SantriDetailView.tsx:37 | the profile is present only when the response, its data and the profile all are |
| SantriDetailView.SectionsOf | src/components/santri_detail/SantriDetailView.tsx:104-239 | list sections draw only when non-empty; perizinan needs a non-empty riwayat_terakhir and hafalan a non-empty tahun_ini; attendance draws whenever present |
| SantriDetailView.JuzChips | src/components/santri_detail/SantriDetailView.tsx:122 | no list gives no chips; otherwise at least one chip, none containing ", " |
| SantriDetailView.JuzChipsRestoreList | src/components/santri_detail/SantriDetailView.tsx:122 | the chips joined with ", " are the list |
| SantriDetailView.EmptyJuzListGivesOneBlankChip | src/components/santri_detail/SantriDetailView.tsx:122 | an empty list text draws a single blank chip |
| SantriDetailView.ProfileCardOf | src/components/santri_detail/SantriDetailView.tsx:70-84 | a photo exactly when foto_santri is non-empty, that file under the uploads folder; the concentration and cohort are the raw ids without a table or a matching entry, else the first matching entry's name |
| AcademicProgress.AcademicScreen | src/components/academic/AcademicProgress.tsx:13-15 | spinner when either loads; else the academic error before the mondok error, each with its retry; else content |
| AcademicProgress.LeaderCardOf | src/components/academic/AcademicProgress.tsx:40-49 | a coordinator's photo only with a photo file; position and name fall back to "N/A" |
| AcademicProgress.SantriDomisili | src/components/academic/AcademicProgress.tsx:19-22 | the city of the first residence record with exactly that name, else "N/A" |
| AcademicProgress.MakassarEligible | src/components/academic/AcademicProgress.tsx:24-28 | an eligible santri has made at least 20 dawn recitations and is in the residence list |
| AcademicProgress.MakassarThresholdIsTwenty | src/components/academic/AcademicProgress.tsx:24-28 | for whole counts, setoran/20*100 >= 100 holds exactly when the count is at least 20 |
| AcademicProgress.UnlistedSantriNotEligible | src/components/academic/AcademicProgress.tsx:19-27 | a santri missing from the residence list is never eligible |
| AcademicProgress.MakassarSantriIzin | src/components/academic/AcademicProgress.tsx:24-28 | absent with the month's list; otherwise exactly the eligible rows, a sub-multiset of the list |
| AcademicProgress.MakassarSantriIzinOrder | src/components/academic/AcademicProgress.tsx:24-28 | the eligible rows keep the month's order |
| AcademicProgress.MakassarSectionNeedsEligibleSantri | src/components/academic/AcademicProgress.tsx:158 | the Makassar section appears exactly when some row of the month is eligible |
| AcademicProgress.OverallProgress | src/components/academic/AcademicProgress.tsx:83-117 | the first progress row with exactly that name; none (the block is omitted) exactly when no row has it |
| AcademicProgress.MusyrifPhoto | src/components/academic/AcademicProgress.tsx:193-198 | index 2 uses the fixed photo; otherwise the photo of the first residence record named like the musyrif, if it has one; otherwise none |
| AcademicProgress.MusyrifCards | src/components/academic/AcademicProgress.tsx:192-256 | absent (placeholder) without a list; otherwise min(4, n) cards, in order, each with its photo choice |
| AcademicProgress.MusyrifCardsArePrefix | src/components/academic/AcademicProgress.tsx:192 | at most four cards, the first four musyrif in order, and all of them when there are at most four |
| AcademicProgress.ProjectSection | src/components/academic/AcademicProgress.tsx:264-317 | the header is 0 exactly when total_proyek is absent or 0, else that number; no cards (the placeholder) exactly without daftar_proyek, else one card per project in order |
| Projects.ProgressBadgeClass | src/components/dashboard/Dashboard.tsx:335-341 | "Work in Progress" is yellow, "Completed" green, anything else blue |
| Projects.ProgressBadgeIdentifiesCase | src/components/academic/AcademicProgress.tsx:271-277 | each colour occurs for exactly its case, so the badge tells which case applied |
| Projects.TeamStripOf | src/components/dashboard/Dashboard.tsx:350-363 | the first min(3, n) members are drawn; "+(n-3) lainnya" exactly when n > 3; nothing without a team |
| Projects.TeamStripCountsEveryone | src/components/academic/AcademicProgress.tsx:299-312 | drawn avatars plus the overflow count make the team, and the members not drawn are those after the third |
| Projects.ProjectCards | src/components/dashboard/Dashboard.tsx:331-368 | absent (placeholder) without a list; otherwise one card per project, in order, with its badge and team strip |
| Projects.CardsDrawAtMostThreeAvatars | src/components/dashboard/Dashboard.tsx:350 | no project card draws more than three avatars |
| Dashboard.AttendanceKindOf | src/components/dashboard/Dashboard.tsx:15-44 | the lowered status "on-time", "telat" or "pertamax" gives its own kind; anything else, "absen" included, is absent |
| Dashboard.KindKeyRoundTrip | src/components/dashboard/Dashboard.tsx:15-37 | each kind is recognised by its own key |
| Dashboard.AttendanceIgnoresCase | src/components/dashboard/Dashboard.tsx:15 | the kind does not depend on the case of the status |
| Dashboard.TimeInfo | src/components/dashboard/Dashboard.tsx:14 | "00:00:00" reads "Tidak ada data", any other time is shown as it is |
| Dashboard.AttendanceCellOf | src/components/dashboard/Dashboard.tsx:13-46 | the absent tooltip is "Absen"; the others are the kind's label, ": " and the time text |
| Dashboard.AttendanceTitleShowsTime | src/components/dashboard/Dashboard.tsx:14-40 | the absent cell ignores the time; the other tooltips end with exactly the time text |
| Dashboard.AttendanceRow | src/components/dashboard/Dashboard.tsx:391-399 | five cells in column order; a cell is absent exactly when its session's lowered status is none of on-time, telat, pertamax; otherwise it shows the kind named by that status and the session's time |
| Dashboard.StatusClass | src/components/dashboard/Dashboard.tsx:48-61 | Selesai green, Belum Selesai yellow, Tidak Selesai red, Pending Besok blue, anything else gray, matched exactly |
| Dashboard.StatusClassIdentifiesStatus | src/components/dashboard/Dashboard.tsx:48-61 | each colour occurs for exactly its status, and gray exactly for an unknown (or differently cased) status |
| Dashboard.CounterText | src/components/dashboard/Dashboard.tsx:116-184 | each shown number is 0 exactly when it is missing or 0, and otherwise is the number the response carries |
| Dashboard.HafalanPanelOf | src/components/dashboard/Dashboard.tsx:204-250 | the two counts are the lengths or 0, and each avatar section draws only with a non-empty list |
| Dashboard.AvatarTitle | src/components/dashboard/Dashboard.tsx:224 | the tooltip is the name, or "Nama tidak tersedia" without one |
| Dashboard.ProjectSection | src/components/dashboard/Dashboard.tsx:328-368 | the header counts the projects, or 0; the cards come from the same list |
| Dashboard.DashboardScreen | src/components/dashboard/Dashboard.tsx:66-67 | spinner exactly while loading; then the error with its retry; content exactly when settled |
| Dashboard.SantriCardClick | src/components/dashboard/Dashboard.tsx:112 | the santri card requests the "santri" tab exactly when it has a tab handler |
| MasukanSantri.ComplaintStatusClass | src/components/masukan/MasukanSantri.tsx:44-52 | "belum diterima" red, "dipending" yellow, "diterima" blue, anything else gray |
| MasukanSantri.ComplaintStatusClassIdentifiesStatus | src/components/masukan/MasukanSantri.tsx:44-52 | each colour occurs for exactly its status, gray exactly for the rest |
| MasukanSantri.RowOf | src/components/masukan/MasukanSantri.tsx:42-56 | a null or empty target reads "N/A", a missing or empty response "Belum ada tanggapan", and the status colour follows the status |
| MasukanSantri.TableOf | src/components/masukan/MasukanSantri.tsx:19-64 | the header count is the length or 0; a row per complaint, and the placeholder row only without a list |
| MasukanSantri.EmptyListHasNoPlaceholder | src/components/masukan/MasukanSantri.tsx:33-58 | an empty list draws an empty body, not the placeholder |
| MasukanSantri.MasukanScreen | src/components/masukan/MasukanSantri.tsx:12-13 | spinner exactly while loading; then the error with its retry; content exactly when settled |
| App.KeyValueStore.constructor | src/App.tsx:19 | the store holds the given entries |
| App.KeyValueStore.GetItem | src/App.tsx:19 | the stored string of a key, or none for a missing key |
| App.KeyValueStore.SetItem | src/App.tsx:27 | writing a key changes that key alone |
| App.IntroOpensAtStartup | src/App.tsx:19-21 | on a first visit, with nothing stored, the intro opens |
| App.StoreAfterClose | src/App.tsx:26-28 | with the box ticked the flag reads "true"; otherwise the store is unchanged; no other key changes |
| App.CloseDecidesNextStartup | src/App.tsx:19-28 | after a close with the box ticked the next startup does not open the intro; without it the next startup is as before |
| App.StoreAfterCloseIdempotent | src/App.tsx:26-28 | closing again with the same choice writes nothing new |
| App.RenderContent | src/App.tsx:32-51 | a known tab id gives the panel with that id, an unknown one the dashboard without its handler; only the "dashboard" tab passes the handler |
| App.RenderContentInvertsTabId | src/App.tsx:33-47 | every panel the shell can show by id is reached by its own id |
| App.NavigationReachesOwnPanels | src/components/layout/Navigation.tsx:21-27 | every tab the navigation offers renders its own panel, never the handler-less dashboard |
| App.Shell.constructor | src/App.tsx:14-16 | tab "dashboard", intro closed, box unticked |
| App.Shell.Mount | src/App.tsx:18-23 | the intro opens exactly when the stored flag is not "true", and is never closed here |
| App.Shell.CloseIntro | src/App.tsx:25-30 | the intro closes, and the store becomes the store after close for the current box |
| App.Shell.SetDontShowAgain | src/App.tsx:58-59 | only the box changes |
| App.Shell.SetActiveTab | src/App.tsx:63 | only the tab changes |
| App.Shell.ClickSantriCard | src/App.tsx:35 | from the dashboard tab the click opens the santri directory; from the handler-less dashboard nothing changes |
| App.StartupCloseRestart | src/App.tsx:18-30 | a startup, a close with the box ticked and a second startup leave the flag stored and the intro closed the second time |

## Left out

- Rendering: all markup, styling, icons and the layout-only components (cards, header, navigation bar, intro dialog, inventory detail modal). What a panel renders is modelled only as far as the screen it chooses and the values it displays.
- The network and JSON decoding: `fetch` and `response.json()` are replaced by the `Outcome` a caller supplies. A decoded body is always a value (`Json(value)` is stored as `Some(value)`), so a JSON `null` body, which in the hook would set the data back to `null`, is not an input; `UseApi.RunNeverClearsData` relies on this. `console.error` is output and is left out.
- UseApi.Begin, UseApi.Complete: each applies the two or three state updates of its part of the cycle (lines 10-11, then 21 or 23 with 26) as one step. This assumes React batches those updates into one render. A render between `setError` and `setLoading(false)` would show both set, and `UseApi.RunKeepsExclusive` says nothing about such a render.
- Overlapping cycles: the hook has no sequence token or cancellation, so overlapping requests may complete in any order. Only sequential start/complete cycles are modelled (`UseApi.Run` takes any sequence of starts and completions, but completions carry no request identity).
- Floating point: `parseFloat`, `toFixed`, percentages as text, the musyrif trend arrows and `toLocaleString`, because they need IEEE arithmetic.
- AcademicProgress.MakassarEligible: the setoran count is restricted to whole numbers, with None standing for a NaN parse, and the division is exact real arithmetic rather than IEEE.
- Dates: `new Date`, `toLocaleDateString` and `calculateAge`, because the date utilities are not part of this model.
- HTML injection: fields shown through `dangerouslySetInnerHTML` are passed through verbatim, and there is no sanitiser to model.
- Text.Lower: `toLowerCase` is modelled on ASCII letters only, because Unicode case mapping is not modelled.
- The dormitory panel (`DormitoryManagement`): it is not part of this model. Its logic is currency formatting and sign colouring over floats.
- Printed-only fields: several datatypes keep payload fields that the panels only print, use as a list key, or do not read at all, and no contract speaks of them. Among them are the inventory item's picture, person in charge and timestamps; the complaint's id, date and text; the profile's permission and attendance counts; the tahfidz entry's photo and juz text; the progress row's santri id (rows are matched by name, not id), juz total and juz list; the musyrif's daily, monthly and yearly figures and increase percentage (the percentage feeds the trend arrows, left out under floating point); and the project's id and name.
- The lookup tables are inputs of the functions that use them, and are not kept in the panel classes. The hooks' `data` is passed as an `Option` of the list the panel reads.
- The empty-result notices of the two directories ("Tidak ada data … yang ditemukan.") are a rendering choice on an empty filtered list, and are left out.
