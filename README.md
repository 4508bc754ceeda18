# Devoxx conference app: data-layer service, sponsor codec and sponsor badge list

This project models in Dafny the core logic of the Devoxx mobile client (MyDevoxxGluon) and proves properties about it. The core has three parts:

- **`DevoxxService`**, the data-layer service of the app. It holds the selected conference, the linked CFP account (`cfpUserUuid`, where `""` means no account is linked), and the lists fetched from the CFP: sessions, speakers, tracks, session types, floor plans and favorite counts. It also holds the user's own lists: notes, badges, sponsor badges and favored sessions. It is modelled as the class `Service.DevoxxService`, with one field per piece of state the Java object changes.
  - Remote function calls are recorded, not made: each call is appended to `outbox` as a `RemoteCall` with its name and parameters. Its success and failure handlers are separate `On...` methods, called with the result.
  - Notifications to the notification service, and the caller's runnables that the service runs, are appended to `signals`.
  - The persistent settings are a map, and an exception that escapes an operation is returned as a `Fault`.
  - The pure helpers of the service are functions with lemmas: the CFP endpoint normalisation, the session-type projection, the https floor-plan filter, `findSession`, the vote-text lookup, `isNumber` and the merge-by-id of favorite counts. Where the Java code loops, a method with a loop is proved equal to the function.
- **`Sponsor`**: the three-field CSV encoding of a sponsor, the field-wise in-place `merge`, `equals` and the empty-keyword guard of `contains`. The split mimics Java's `String.split(",")`, which drops trailing empty fields.
- **`SponsorBadgePresenter.addBadge`**: a de-duplicating append on the sponsor's badge list, keyed by badge id, plus the filter that chooses which badges the screen shows.

Files:

- `wrappers.dfy`: `Option`, for Java's `null`.
- `java_strings.dfy`: the parts of `java.lang.String` the core uses (`startsWith`, `endsWith`, `trim`, `split`).
- `model.dfy`: the conference entities.
- `sponsor.dfy`, `sponsor_badges.dfy`: the sponsor record and the badge screen.
- `service_helpers.dfy`: the pure helpers.
- `service_calls.dfy`: the remote calls, signals and the favored-sessions listener's calls.
- `devoxx_service.dfy`: the service class, and the functions that state how the account and the user data change when a user is linked, the account is cleared or the conference switches.

## Model

| member | source | states |
|---|---|---|
| JavaStrings.Trim | DevoxxClientCommon/src/main/java/com/devoxx/model/Sponsor.java:94-96 | `trim()` yields a trimmed slice of its input, everything it cuts off on either side is a character up to U+0020, and an already trimmed string is kept |
| JavaStrings.Split | DevoxxClientCommon/src/main/java/com/devoxx/model/Sponsor.java:84 | no part of `split(",")` contains the separator; a string without the separator is its own only part; otherwise the last part is never empty |
| JavaStrings.SplitRejoins | DevoxxClientCommon/src/main/java/com/devoxx/model/Sponsor.java:84 | the parts, with the trailing empty fields that `split` dropped put back, joined by the separator give the input again: nothing else is lost |
| Sponsors.SafeStr | DevoxxClientCommon/src/main/java/com/devoxx/model/Sponsor.java:94-96 | null becomes `""`; a present field is trimmed; a trimmed field is kept; a comma-free field stays comma-free |
| Sponsors.ToCsv | DevoxxClientCommon/src/main/java/com/devoxx/model/Sponsor.java:73-79 | the comma-separated fields of the encoding are the safe id, name and slug, in this order, whenever none of them holds a comma |
| Sponsors.FieldsOfThree | DevoxxClientCommon/src/main/java/com/devoxx/model/Sponsor.java:73-85 | three comma-free strings joined by commas have exactly those three strings as raw fields |
| Sponsors.FromCsv | DevoxxClientCommon/src/main/java/com/devoxx/model/Sponsor.java:81-92 | null or empty input gives null; a sponsor is returned exactly when the split has 3 parts, and those parts become id, name and slug untrimmed, in order |
| Sponsors.SplitThree | DevoxxClientCommon/src/main/java/com/devoxx/model/Sponsor.java:84-85 | three comma-free fields joined by commas split back into those three fields when the last is non-empty, and into at most two when it is empty |
| Sponsors.RoundTrip | DevoxxClientCommon/src/main/java/com/devoxx/model/Sponsor.java:73-92 | `fromCSV(toCSV(s))` equals `s` when all fields are present, trimmed and comma-free and the slug is non-empty |
| Sponsors.EmptySlugIsLost | DevoxxClientCommon/src/main/java/com/devoxx/model/Sponsor.java:73-92 | with an empty or null slug, `fromCSV(toCSV(s))` is null: the trailing empty field is dropped |
| Sponsors.DecodeThenEncode | DevoxxClientCommon/src/main/java/com/devoxx/model/Sponsor.java:73-92 | `toCSV(fromCSV(csv))` equals `csv` when the decoded parts are trimmed and `csv` does not end in a comma |
| Sponsors.MergedFields | DevoxxClientCommon/src/main/java/com/devoxx/model/Sponsor.java:99-115 | after `merge`, the fields are those of `other`, and the result is true exactly when some field differed |
| Sponsors.MergeIdempotent | DevoxxClientCommon/src/main/java/com/devoxx/model/Sponsor.java:99-115 | a second `merge` with the same `other` returns false and changes nothing |
| Sponsors.Sponsor.ToCsvString | DevoxxClientCommon/src/main/java/com/devoxx/model/Sponsor.java:73-79 | the encoding of a sponsor with safe fields and a non-empty slug decodes back to that sponsor |
| Sponsors.Sponsor.Merge | DevoxxClientCommon/src/main/java/com/devoxx/model/Sponsor.java:99-115 | the in-place update: new fields and the returned flag are those of `MergedFields`, and afterwards `this.equals(other)` |
| Sponsors.Sponsor.Contains | DevoxxClientCommon/src/main/java/com/devoxx/model/Sponsor.java:117-125 | false for a null or empty keyword; true only if the name or the slug contains the lower-cased keyword |
| Sponsors.EqualsReflexive | DevoxxClientCommon/src/main/java/com/devoxx/model/Sponsor.java:127-135 | `equals` is reflexive |
| Sponsors.EqualsSymmetric | DevoxxClientCommon/src/main/java/com/devoxx/model/Sponsor.java:127-135 | `equals` is symmetric |
| Sponsors.EqualsIsFieldwise | DevoxxClientCommon/src/main/java/com/devoxx/model/Sponsor.java:127-135 | two sponsors are equal exactly when id, name and slug are pairwise equal |
| SponsorBadges.AddBadge | DevoxxClientMobile/src/main/java/com/devoxx/views/SponsorBadgePresenter.java:126-147 | a badge without an id leaves the list unchanged (bad QR); a badge whose id is already held by some entry leaves it unchanged (already scanned); otherwise the badge, with its sponsor set, is appended at the end |
| SponsorBadges.AddedBadges | DevoxxClientMobile/src/main/java/com/devoxx/views/SponsorBadgePresenter.java:126-141 | the list keeps its old entries as a prefix and grows by at most one; it grows exactly when the badge has an id that no entry holds, and the new entry is the badge with the sponsor set |
| SponsorBadges.AddKeepsIdsDistinct | DevoxxClientMobile/src/main/java/com/devoxx/views/SponsorBadgePresenter.java:126-141 | pairwise distinct badge ids stay pairwise distinct after `addBadge` |
| SponsorBadges.AddTwiceIsAddOnce | DevoxxClientMobile/src/main/java/com/devoxx/views/SponsorBadgePresenter.java:126-141 | scanning the same badge twice adds it once |
| SponsorBadges.Displayed | DevoxxClientMobile/src/main/java/com/devoxx/views/SponsorBadgePresenter.java:99-101 | the filtered list holds exactly the badges of the list that carry the current sponsor, and no more entries than the list |
| SponsorBadges.DisplayedAppend | DevoxxClientMobile/src/main/java/com/devoxx/views/SponsorBadgePresenter.java:99-101 | one more list entry is shown after the others exactly when it is a badge of the sponsor, so the filter keeps the order of the list |
| SponsorBadges.DisplayedCounts | DevoxxClientMobile/src/main/java/com/devoxx/views/SponsorBadgePresenter.java:99-101 | each badge of the sponsor is shown as many times as it is on the list, and no other badge is shown |
| SponsorBadges.AddedBadgeIsDisplayed | DevoxxClientMobile/src/main/java/com/devoxx/views/SponsorBadgePresenter.java:126-141 | a badge the sponsor adds appears at the end of the filtered list, which is otherwise unchanged; a refused scan changes nothing |
| SponsorBadges.OtherSponsorsBadgesHidden | DevoxxClientMobile/src/main/java/com/devoxx/views/SponsorBadgePresenter.java:99-101 | a badge added for another sponsor does not change what this sponsor's screen shows |
| ServiceHelpers.CfpEndpoint | DevoxxClientMobile/src/main/java/com/devoxx/service/DevoxxService.java:560-573 | `""` for a null URL; otherwise the result ends in `/api`, a URL ending in `/api` is returned unchanged, and the result extends the URL, or is the URL without the trailing slash of `/api/` |
| ServiceHelpers.CfpEndpointIdempotent | DevoxxClientMobile/src/main/java/com/devoxx/service/DevoxxService.java:560-573 | normalising a normalised endpoint changes nothing |
| ServiceHelpers.KeptTypes | DevoxxClientMobile/src/main/java/com/devoxx/service/DevoxxService.java:609-623 | the projected session types contain no pause, only names of the input, and no two entries with the same name |
| ServiceHelpers.DedupSessionTypes | DevoxxClientMobile/src/main/java/com/devoxx/service/DevoxxService.java:609-623 | the loop with the `dedup` set and the kept list computes `KeptTypes` of the whole list |
| ServiceHelpers.KeptTypesMembers | DevoxxClientMobile/src/main/java/com/devoxx/service/DevoxxService.java:609-623 | a type is kept exactly when it is the first of its name and not a pause |
| ServiceHelpers.KeptTypesPrefix | DevoxxClientMobile/src/main/java/com/devoxx/service/DevoxxService.java:609-623 | the kept list only grows at the end, so kept types follow first-occurrence order |
| ServiceHelpers.PauseShadowsName | DevoxxClientMobile/src/main/java/com/devoxx/service/DevoxxService.java:612-616 | a pause that is the first of its name suppresses every later type with that name, since the name is recorded before the pause check |
| ServiceHelpers.FirstOfNameUnique | DevoxxClientMobile/src/main/java/com/devoxx/service/DevoxxService.java:612-614 | two first occurrences of the same name are the same occurrence |
| ServiceHelpers.SecureFloorsMembers | DevoxxClientMobile/src/main/java/com/devoxx/service/DevoxxService.java:641-647 | the filtered floors are exactly the floors whose image URL starts with `https`, and there are no more of them than floors |
| ServiceHelpers.SecureFloors | DevoxxClientMobile/src/main/java/com/devoxx/service/DevoxxService.java:641-647 | no more floors than given are kept, and every kept floor has an image URL starting with `https` |
| ServiceHelpers.SecureFloorsAppend | DevoxxClientMobile/src/main/java/com/devoxx/service/DevoxxService.java:641-647 | the filter distributes over concatenation, so the floors keep their order |
| ServiceHelpers.SelectSecureFloors | DevoxxClientMobile/src/main/java/com/devoxx/service/DevoxxService.java:641-647 | the loop of the background task computes the filtered floors |
| ServiceHelpers.FindSession | DevoxxClientMobile/src/main/java/com/devoxx/service/DevoxxService.java:437-444 | a found session is one of the sessions, and its talk has the id |
| ServiceHelpers.FindSessionIsFirst | DevoxxClientMobile/src/main/java/com/devoxx/service/DevoxxService.java:437-444 | nothing is found exactly when no session's talk has the id; otherwise the first such session is returned |
| ServiceHelpers.VoteTexts | DevoxxClientMobile/src/main/java/com/devoxx/service/DevoxxService.java:837-844 | the texts of the first rating entry with the requested value, and an empty list when no entry has it |
| ServiceHelpers.IsNumber | DevoxxClientMobile/src/main/java/com/devoxx/service/DevoxxService.java:1030-1038 | a number is a digit, or a sign followed by at least one more character, and every character after the first is a digit |
| ServiceHelpers.DecimalDigitsValue | DevoxxClientMobile/src/main/java/com/devoxx/service/DevoxxService.java:1030-1038 | the decimal digits of a natural number read back as that number |
| ServiceHelpers.DecimalIsNumber | DevoxxClientMobile/src/main/java/com/devoxx/service/DevoxxService.java:1030-1038 | every 32-bit integer written in decimal is a number |
| ServiceHelpers.OutOfRangeIsNotNumber | DevoxxClientMobile/src/main/java/com/devoxx/service/DevoxxService.java:1030-1038 | no integer outside the 32-bit signed range, written in decimal, is a number: `Integer.parseInt` throws on it |
| ServiceHelpers.DecimalNumberRange | DevoxxClientMobile/src/main/java/com/devoxx/service/DevoxxService.java:1030-1038 | an integer written in decimal is a number exactly when it fits in a 32-bit signed int |
| ServiceHelpers.IndexOf | DevoxxClientMobile/src/main/java/com/devoxx/service/DevoxxService.java:899-905 | the inner scan stops at the first record with the id, or at the list's size when there is none |
| ServiceHelpers.MergeOne | DevoxxClientMobile/src/main/java/com/devoxx/service/DevoxxService.java:899-908 | one merge step keeps every old id at its position and makes the fetched id present; it grows the list only for an id that was not there, and then by exactly that id |
| ServiceHelpers.MergeFavorites | DevoxxClientMobile/src/main/java/com/devoxx/service/DevoxxService.java:898-909 | the merge never shrinks the list, keeps the id at every old position, makes every fetched id present, and appends only ids that were not there |
| ServiceHelpers.NewIds | DevoxxClientMobile/src/main/java/com/devoxx/service/DevoxxService.java:898-909 | the ids the merge appends are fetched ids that were not on the list, each once, and every fetched id that was not on the list is among them |
| ServiceHelpers.MergeIds | DevoxxClientMobile/src/main/java/com/devoxx/service/DevoxxService.java:898-909 | the ids after the merge are the old ids, in place, followed by the new ids in first-fetch order |
| ServiceHelpers.MergeKeepsOthers | DevoxxClientMobile/src/main/java/com/devoxx/service/DevoxxService.java:898-909 | a record that is not the first of its id, or whose id was not fetched, is left as it was |
| ServiceHelpers.MergeIsRefreshedThenAppended | DevoxxClientMobile/src/main/java/com/devoxx/service/DevoxxService.java:898-909 | the merged list is the old list with the last fetched count on the first record of each fetched id, followed by one record per new id, in first-fetch order, with that id's last fetched count |
| ServiceHelpers.NoNewIds | DevoxxClientMobile/src/main/java/com/devoxx/service/DevoxxService.java:898-909 | when every fetched id is already on the list, the merge appends nothing |
| ServiceHelpers.MergeOfKnownIds | DevoxxClientMobile/src/main/java/com/devoxx/service/DevoxxService.java:898-909 | when every fetched id is already present, the merge only sets the counts of the first record of each id to that id's last fetched count |
| ServiceHelpers.MergeOneShape | DevoxxClientMobile/src/main/java/com/devoxx/service/DevoxxService.java:899-908 | after one merge step the fetched record sits at the first index of its id (an old one, or the new last slot), and every other record is kept |
| ServiceHelpers.MergeOneAbsorbs | DevoxxClientMobile/src/main/java/com/devoxx/service/DevoxxService.java:898-909 | one more merge step extends absorption to the next fetched record |
| ServiceHelpers.MergeAbsorbs | DevoxxClientMobile/src/main/java/com/devoxx/service/DevoxxService.java:898-909 | the merged list holds every fetched id, with the last fetched count on the first record of each |
| ServiceHelpers.AbsorbedMergeIsIdentity | DevoxxClientMobile/src/main/java/com/devoxx/service/DevoxxService.java:898-909 | merging into a list that already absorbs the fetched records changes nothing |
| ServiceHelpers.MergeIdempotent | DevoxxClientMobile/src/main/java/com/devoxx/service/DevoxxService.java:898-909 | repeating the merge with the same fetched records changes nothing |
| ServiceHelpers.MergeUpdatesCounts | DevoxxClientMobile/src/main/java/com/devoxx/service/DevoxxService.java:898-909 | after the merge, the first record of each fetched id carries that id's last fetched count |
| ServiceCalls.SponsorBadgesKey | DevoxxClientMobile/src/main/java/com/devoxx/service/DevoxxService.java:950-956 | the sponsor badge list key is the conference id, `_`, the slug as Java prints it (`null` for a missing slug), `_sponsor_badges_` and the device id, each at its own place in the key |
| ServiceCalls.SponsorBadgesKeysDiffer | DevoxxClientMobile/src/main/java/com/devoxx/service/DevoxxService.java:950-956 | two devices, or two conferences with ids of the same length, never share the badge list of a sponsor |
| ServiceCalls.ListenerCalls | DevoxxClientMobile/src/main/java/com/devoxx/service/DevoxxService.java:725-756 | the listener makes one call per removed session and one per added session |
| ServiceCalls.ListenerCallsInOrder | DevoxxClientMobile/src/main/java/com/devoxx/service/DevoxxService.java:725-756 | the removals come first, one `favoredRemove` per removed session in order, then one `favoredAdd` per added session in order, each naming the endpoint, the user and the session's talk |
| ServiceCalls.TalkedPrefix | DevoxxClientMobile/src/main/java/com/devoxx/service/DevoxxService.java:729-746 | the number of leading sessions that have a talk: all of them exactly when every session has one, and otherwise the next session has none |
| ServiceCalls.ListenerRun | DevoxxClientMobile/src/main/java/com/devoxx/service/DevoxxService.java:725-756 | with every talk present, the calls are exactly those of `ListenerCalls`; a removed session without a talk stops the listener before all removals are sent; an added one stops it after all removals but before all additions |
| ServiceCalls.ListenerCallsOfAdditions | DevoxxClientMobile/src/main/java/com/devoxx/service/DevoxxService.java:725-756 | adding sessions one at a time makes the same calls as adding them all at once |
| ServiceCalls.FavoredAdditionsAppend | DevoxxClientMobile/src/main/java/com/devoxx/service/DevoxxService.java:725-756 | the listener's calls for additions `a + b` are its calls for `a` followed by its calls for `b`, and none when it is not attached |
| ServiceCalls.FoundSessions | DevoxxClientMobile/src/main/java/com/devoxx/service/DevoxxService.java:709-711 | the sessions added for the favored ids are sessions of the list, all have talks, and there are no more of them than ids |
| ServiceCalls.FoundSessionsStep | DevoxxClientMobile/src/main/java/com/devoxx/service/DevoxxService.java:709-711 | one more id adds the session it names, if any, at the end |
| ServiceCalls.FoundSessionsComplete | DevoxxClientMobile/src/main/java/com/devoxx/service/DevoxxService.java:709-711 | when every id names a session, exactly those sessions are added, in the order of the ids |
| ServiceCalls.AddEachFound | DevoxxClientMobile/src/main/java/com/devoxx/service/DevoxxService.java:709-711 | the loop appends the found sessions to the favored list and makes the listener's add calls for them |
| Service.SessionInformationOnce | DevoxxClientMobile/src/main/java/com/devoxx/service/DevoxxService.java:997-1009 | opening the session data a second time changes only the outbox, by one more `sponsors` fetch when the conference has badges: the lists are opened, and the favored sessions fetched, once |
| Service.SwitchedAccountForgets | DevoxxClientMobile/src/main/java/com/devoxx/service/DevoxxService.java:197-215 | a conference switch never keeps the old account: the favored sessions, the sponsor badges and the badge settings are gone; a custom login is linked to its own id and saved; any other user ends unlinked, without a saved account id, with notes, badges and favored list closed |
| Service.FirstLinkedKeeps | DevoxxClientMobile/src/main/java/com/devoxx/service/DevoxxService.java:210-215 | the first conference keeps a linked account and the user data as they are, links a signed-in user to a saved account id without any call, and never signals anything |
| Service.DevoxxService.constructor | DevoxxClientMobile/src/main/java/com/devoxx/service/DevoxxService.java:161-245 | nothing is selected or linked, the favorite counts may be fetched, and the conferences whose rating notification was already scheduled are those given. A numeric saved conference id is fetched; an id in the old format clears the account settings and is removed |
| Service.DevoxxService.LoadSavedConference | DevoxxClientMobile/src/main/java/com/devoxx/service/DevoxxService.java:233-244 | a saved conference id that is a number makes one `conference` call with it; one in the old format clears the account and is removed from the settings with the account and badge settings; without one nothing changes |
| Service.DevoxxService.SetCfpUserUuid | DevoxxClientMobile/src/main/java/com/devoxx/service/DevoxxService.java:189-195 | the uuid takes the value, and the favored-sessions listener is detached exactly when the uuid changes to `""` |
| Service.DevoxxService.ChangeFavored | DevoxxClientMobile/src/main/java/com/devoxx/service/DevoxxService.java:725-756 | the list always takes the edit. The attached listener makes the removals' calls, then the additions', and stops at the first session without a talk; the fault is reported exactly then. With every talk present there is exactly one call per removed and per added session |
| Service.DevoxxService.ClearCfpAccount | DevoxxClientMobile/src/main/java/com/devoxx/service/DevoxxService.java:1011-1024 | the account and user data become `ClearedAccount` of the old ones: uuid `""`, the user's lists forgotten, the favored list emptied, and the account and badge settings removed. Clearing a linked account detaches the listener first, so the emptying makes no remove call |
| Service.DevoxxService.UnlinkAccount | DevoxxClientMobile/src/main/java/com/devoxx/service/DevoxxService.java:1012-1016 | the uuid becomes `""`, detaching the listener when it was set; notes, badges, sponsor badges and the handed-out favored list are forgotten; nothing else changes |
| Service.DevoxxService.EmptyFavored | DevoxxClientMobile/src/main/java/com/devoxx/service/DevoxxService.java:1017-1023 | the favored list is emptied, with the attached listener's remove calls; the account and badge settings are removed; nothing else changes |
| Service.DevoxxService.RetrieveNotes | DevoxxClientMobile/src/main/java/com/devoxx/service/DevoxxService.java:759-769 | refused with an illegal-state error exactly when unauthenticated and notes are remote; otherwise the notes list is opened once under the user's key |
| Service.DevoxxService.RetrieveBadges | DevoxxClientMobile/src/main/java/com/devoxx/service/DevoxxService.java:772-782 | as `retrieveNotes`, for the badges list |
| Service.DevoxxService.RetrieveSponsorBadges | DevoxxClientMobile/src/main/java/com/devoxx/service/DevoxxService.java:785-792 | the sponsor badges list is opened once, on the device, under the conference, slug and device key |
| Service.DevoxxService.LogoutSponsor | DevoxxClientMobile/src/main/java/com/devoxx/service/DevoxxService.java:795-797 | the sponsor badges list is forgotten |
| Service.DevoxxService.RetrieveSponsors | DevoxxClientMobile/src/main/java/com/devoxx/service/DevoxxService.java:659-666 | one `sponsors` call for the selected conference; without a conference, a null dereference |
| Service.DevoxxService.InternalRetrieveFavoredSessions | DevoxxClientMobile/src/main/java/com/devoxx/service/DevoxxService.java:694-704 | refused unless authenticated; otherwise the fetching flag is raised and one `favored` call is made for the user |
| Service.DevoxxService.RetrieveFavoredSessions | DevoxxClientMobile/src/main/java/com/devoxx/service/DevoxxService.java:669-687 | refused unless authenticated; the first call fetches and starts the favorite-session notifications, later calls change nothing |
| Service.DevoxxService.FinishNotificationsPreloading | DevoxxClientMobile/src/main/java/com/devoxx/service/DevoxxService.java:1048-1053 | signals "done" exactly when neither sessions nor favored sessions are being fetched |
| Service.DevoxxService.OnFavoredSucceeded | DevoxxClientMobile/src/main/java/com/devoxx/service/DevoxxService.java:707-716 | the found sessions are appended to the favored list; a listener left attached by an earlier fetch makes one add call per session; the new listener is attached after the population; ready, flag lowered, preloading may finish |
| Service.DevoxxService.AttachFavoredListener | DevoxxClientMobile/src/main/java/com/devoxx/service/DevoxxService.java:712-715 | a new listener is attached, the service is ready, the fetching flag is lowered, and "done" is signalled unless sessions are still being fetched |
| Service.DevoxxService.AddFoundSessions | DevoxxClientMobile/src/main/java/com/devoxx/service/DevoxxService.java:709-711 | the found sessions are appended, with the attached listener's add calls |
| Service.DevoxxService.OnFavoredFailed | DevoxxClientMobile/src/main/java/com/devoxx/service/DevoxxService.java:717-720 | the fetching flag is lowered |
| Service.DevoxxService.ReloadSessionsFromCfp | DevoxxClientMobile/src/main/java/com/devoxx/service/DevoxxService.java:422-434 | for the favorites list with a listener: the listener is detached before the list is emptied, so no remove call is made, and the favored sessions are fetched again with their notifications preloaded for an authenticated user, or refused with an illegal-state fault otherwise. Without a listener only the handed-out list is forgotten, and nothing else changes. For any other list, or without a conference, nothing changes and the list is empty |
| Service.DevoxxService.RetrieveSessionsInternal | DevoxxClientMobile/src/main/java/com/devoxx/service/DevoxxService.java:451-479 | single flight: with a fetch in flight nothing changes and no call is made; otherwise flag raised, list emptied, one `sessionsV2` call, rating notifications preloaded when unauthenticated |
| Service.DevoxxService.RetrieveAuthenticatedUserSessionInformation | DevoxxClientMobile/src/main/java/com/devoxx/service/DevoxxService.java:997-1009 | for an authenticated user the user data become `SessionInformation`: notes opened; badges and one `sponsors` call when badges are active; the favored sessions when the conference has favorites, fetched only the first time. Nothing changes otherwise |
| Service.DevoxxService.OpenUserLists | DevoxxClientMobile/src/main/java/com/devoxx/service/DevoxxService.java:999-1003 | the user data become `ListsOpened`: the notes, and with badges the badges and one `sponsors` call |
| Service.DevoxxService.OpenFavored | DevoxxClientMobile/src/main/java/com/devoxx/service/DevoxxService.java:1005-1007 | the user data become `FavoredOpened`: when the conference has favorites the favored list is handed out, and fetched with its notifications preloaded the first time |
| Service.DevoxxService.AddLocalNotification | DevoxxClientMobile/src/main/java/com/devoxx/service/DevoxxService.java:1040-1046 | the rating notification of a conference is scheduled once, also across start-ups, since the set of conferences already notified is given to the constructor |
| Service.DevoxxService.OnSessionsSucceeded | DevoxxClientMobile/src/main/java/com/devoxx/service/DevoxxService.java:487-493 | the sessions are set and the flag lowered; the user data become `SessionInformation` for an authenticated user (notes and badges opened, the sponsors and favored fetches queued) and stay as they were otherwise; then "done" is signalled unless favored sessions are still being fetched, and the rating notification is scheduled once |
| Service.DevoxxService.AfterSessionsLoaded | DevoxxClientMobile/src/main/java/com/devoxx/service/DevoxxService.java:491-492 | "done" is signalled exactly when no sessions or favored sessions are being fetched, then the rating notification of the conference is scheduled unless it already was |
| Service.DevoxxService.OnSessionsFailed | DevoxxClientMobile/src/main/java/com/devoxx/service/DevoxxService.java:481-486 | the flag is lowered |
| Service.DevoxxService.RetrieveSpeakersInternal | DevoxxClientMobile/src/main/java/com/devoxx/service/DevoxxService.java:503-516 | the same single-flight guard, for the speakers |
| Service.DevoxxService.OnSpeakersSucceeded | DevoxxClientMobile/src/main/java/com/devoxx/service/DevoxxService.java:522-525 | the speakers are the fetched ones and the flag is lowered |
| Service.DevoxxService.OnSpeakersFailed | DevoxxClientMobile/src/main/java/com/devoxx/service/DevoxxService.java:518-521 | the flag is lowered |
| Service.DevoxxService.UpdateSpeakerDetails | DevoxxClientMobile/src/main/java/com/devoxx/service/DevoxxService.java:575-591 | every speaker with the uuid takes the details and is marked retrieved; every other speaker is unchanged; the list itself is not touched |
| Service.DevoxxService.RetrieveTracksInternal | DevoxxClientMobile/src/main/java/com/devoxx/service/DevoxxService.java:598-602 | the tracks are those of the conference when it has any, and unchanged otherwise |
| Service.DevoxxService.RetrieveSessionTypesInternal | DevoxxClientMobile/src/main/java/com/devoxx/service/DevoxxService.java:609-623 | the session types are the projection of the conference's types when it has any, and unchanged otherwise |
| Service.DevoxxService.RetrieveExhibitionMapsInternal | DevoxxClientMobile/src/main/java/com/devoxx/service/DevoxxService.java:635-657 | the exhibition maps are the conference's https floor plans, in order |
| Service.DevoxxService.RefreshFavorites | DevoxxClientMobile/src/main/java/com/devoxx/service/DevoxxService.java:890-896 | one `allFavorites` call exactly when a conference with favorite counts is set and the previous fetch succeeded or failed; no second call while one is in flight |
| Service.DevoxxService.OnAllFavoritesSucceeded | DevoxxClientMobile/src/main/java/com/devoxx/service/DevoxxService.java:897-911 | the favorites become the merge of the fetched records, and the fetch counts as succeeded |
| Service.DevoxxService.MergeFavorite | DevoxxClientMobile/src/main/java/com/devoxx/service/DevoxxService.java:899-908 | the first record with the fetched id takes its count, or the record is appended |
| Service.DevoxxService.OnAllFavoritesFailed | DevoxxClientMobile/src/main/java/com/devoxx/service/DevoxxService.java:890-893 | the fetch counts as failed, so a later refresh may try again |
| Service.DevoxxService.RunCallback | DevoxxClientMobile/src/main/java/com/devoxx/service/DevoxxService.java:968-970 | the user data become `AfterCallback`: unchanged without a callback; the caller's runnable signalled; for the service's own callback, the session data opened for an authenticated user |
| Service.DevoxxService.LinkAccount | DevoxxClientMobile/src/main/java/com/devoxx/service/DevoxxService.java:965-970 | the uuid is set, detaching the listener only when it becomes `""`, and saved; the rest of the account is unchanged; the callback then runs with its full effect |
| Service.DevoxxService.LoadCfpAccount | DevoxxClientMobile/src/main/java/com/devoxx/service/DevoxxService.java:958-995 | the account and user data become `CfpLinked`: nothing when a uuid is set; a saved account id reused with no call and no callback; a custom login linked to its own id, saved, and the callback run once; any other login exactly one `verifyAccount` call, the callback waiting for it, the uuid staying `""`. A null-pointer fault exactly when that call has no conference |
| Service.DevoxxService.OnVerifyAccountSucceeded | DevoxxClientMobile/src/main/java/com/devoxx/service/DevoxxService.java:979-987 | the call is forgotten; the verified uuid is linked and saved, detaching the listener only when it becomes `""`; that call's callback runs with its full effect on the user data |
| Service.DevoxxService.OnVerifyAccountFailed | DevoxxClientMobile/src/main/java/com/devoxx/service/DevoxxService.java:978-987 | there is no failure handler: the call is forgotten and nothing else changes |
| Service.DevoxxService.InternalLogOut | DevoxxClientMobile/src/main/java/com/devoxx/service/DevoxxService.java:317-324 | the user is signed out, and the account and user data become `ClearedAccount`: no uuid, the user's lists forgotten, the favored list emptied, and the account and badge settings removed |
| Service.DevoxxService.LogOut | DevoxxClientMobile/src/main/java/com/devoxx/service/DevoxxService.java:293-315 | logs out exactly when the dialog is confirmed, and reports it; a confirmed logout signs the user out and leaves the account and user data as `ClearedAccount`; otherwise nothing changes |
| Service.DevoxxService.OnAuthenticated | DevoxxClientMobile/src/main/java/com/devoxx/service/DevoxxService.java:258-265 | a user without an email is signed out again and the account and user data become `ClearedAccount`; otherwise the user is signed in and the account and user data become `CfpLinked` with the caller's runnable as callback, and the fault is that of `loadCfpAccount` |
| Service.DevoxxService.OnAuthenticationFailed | DevoxxClientMobile/src/main/java/com/devoxx/service/DevoxxService.java:266-270 | the caller's failure runnable runs, if there is one |
| Service.DevoxxService.SetConference | DevoxxClientMobile/src/main/java/com/devoxx/service/DevoxxService.java:327-329 | the conference is set. The same conference changes nothing. Any other runs the listener: on a switch the account and user data become `SwitchedAccount`, on the first conference `FirstLinked`; then the conference data are loaded as `ConferenceLoaded` states |
| Service.DevoxxService.ConferenceChanged | DevoxxClientMobile/src/main/java/com/devoxx/service/DevoxxService.java:197-231 | the listener: the account part (`SwitchedAccount` on a switch, `FirstLinked` on the first conference), then the fetches in order on the outbox, each fetch flag raised and its list emptied when fetched, tracks, session types and https floors derived, and the favorite counts emptied and refreshed |
| Service.DevoxxService.SwitchAccount | DevoxxClientMobile/src/main/java/com/devoxx/service/DevoxxService.java:199-204 | the account is cleared and a signed-in user linked again with the session data as callback: the account and user data become `SwitchedAccount`; the conference data are untouched |
| Service.DevoxxService.LinkFirstAccount | DevoxxClientMobile/src/main/java/com/devoxx/service/DevoxxService.java:210-215 | a signed-in user is linked without a callback: the account and user data become `FirstLinked`; the conference data are untouched |
| Service.DevoxxService.LoadConferenceData | DevoxxClientMobile/src/main/java/com/devoxx/service/DevoxxService.java:222-229 | both fetch flags raised and a list emptied where its fetch is issued; the sessions, speakers and favorite-count fetches in this order on the outbox, each only when its guard allows; rating notifications preloaded for an unauthenticated user whose sessions are fetched; tracks, session types and https floors derived; favorites emptied; the account untouched |
| Service.DevoxxService.FetchConferenceData | DevoxxClientMobile/src/main/java/com/devoxx/service/DevoxxService.java:222-229 | the calls made are the sessions fetch, then the speakers fetch, then the favorite-counts fetch, each only when its guard allows; favorites emptied |
| Service.DevoxxService.FetchSessionsAndSpeakers | DevoxxClientMobile/src/main/java/com/devoxx/service/DevoxxService.java:222-223 | the sessions fetch, then the speakers fetch, each only when none is in flight, with its flag raised and its list emptied |
| Service.DevoxxService.ResetFavorites | DevoxxClientMobile/src/main/java/com/devoxx/service/DevoxxService.java:228-229 | the favorite counts are emptied, and one `allFavorites` call is made exactly when they may be refreshed |
| Service.DevoxxService.DeriveConferenceLists | DevoxxClientMobile/src/main/java/com/devoxx/service/DevoxxService.java:224-226 | tracks, projected session types and https floors of the conference |
| Service.DevoxxService.RetrieveConference | DevoxxClientMobile/src/main/java/com/devoxx/service/DevoxxService.java:367-373 | not ready; one `conference` call with the id |
| Service.DevoxxService.OnConferenceLoaded | DevoxxClientMobile/src/main/java/com/devoxx/service/DevoxxService.java:378-383 | a null conference changes nothing. A returned one is selected and the service is ready; the same conference changes nothing else; otherwise the account and user data become `SwitchedAccount` or `FirstLinked` and the conference data are loaded as `ConferenceLoaded` states |
| Service.DevoxxService.PushNotificationReceived | DevoxxClientMobile/src/main/java/com/devoxx/service/DevoxxService.java:101-111 | the silent-push listener writes the reload marker file, so it exists afterwards |
| Service.DevoxxService.CheckIfReloadRequested | DevoxxClientMobile/src/main/java/com/devoxx/service/DevoxxService.java:389-402 | with a conference and the marker file: the file is deleted, then the sessions fetch and the speakers fetch are each issued when none is in flight, with its flag raised and its list emptied, and rating notifications preloaded for an unauthenticated user whose sessions are fetched; otherwise nothing changes |

## Left out

- Remote function execution, the cloud and local data clients, and the push client's subscribe and unsubscribe calls. Calls are recorded in `outbox`; results arrive through the `On...` methods.
- `AtomicBoolean` compare-and-set atomicity and the background thread of the floor maps. All operations are sequential, and the floor filter runs synchronously.
- Dates and time zones: `timeToZonedDateTime`, the start and end dates of sessions, and `showRatingDialog`, which depends on the current time and on helpers that are not part of this model.
- Dialogs, alerts, toasts, cookie handling and view switching. `LogOut` takes the dialog's answer as a parameter.
- The static file handling: `deleteOldFiles`, `delete`, and the location of the reload marker file. The marker is a boolean field.
- `retrieveSpeaker`, `voteTalk`, `saveSponsorBadge`, `sendFeedback`, `retrieveLocation`, `authenticateSponsor`, `retrievePastConferences` and `retrieveConferences`: outside the modelled core.
- The plain getters (`retrieveSessions`, `retrieveFavorites` and the like).
- Service.DevoxxService.OnFavoredSucceeded: does not model the separate listener instance created by each favored fetch. One attached listener is tracked, so a list with two listeners attached at once is not represented.
- Service.DevoxxService.SetConference: does not model `setConference(null)`. Conferences are compared by value, standing in for `Conference.equals`; Conference.java is not part of this model.
- Service.DevoxxService.ChangeFavored: the exception the listener throws is returned as `fault`; the uncaught-exception handler it reaches is not modelled.
- Service.DevoxxService.RetrieveFavoredSessions: the notification service and the settings service are taken to be present. When the service runs in the background, Java cannot instantiate the notifications: `retrieveFavoredSessions` then fetches nothing, leaves the flag down and returns null (DevoxxService.java:675-683), and the same failure escapes `retrieveSessionsInternal`, `finishNotificationsPreloading` and `addLocalNotification`. Without a settings service, `loadCfpAccount`, `clearCfpAccount` and the constructor skip the parts that read or write the settings. Platform service lookup is outside this model.
- Service.DevoxxService.RetrieveConference: does not model the branch where the returned object is already initialised and the conference is set at once. The result always arrives through `OnConferenceLoaded`.
- Service.DevoxxService.InternalLogOut: assumes the sign-out always succeeds, so the account is always cleared.
- Service.DevoxxService.CheckIfReloadRequested: the private storage directory is taken to exist. When the platform has no private storage, Java does nothing here; storage services are outside this model.
- ServiceHelpers.IsNumber: `Integer.parseInt` also accepts non-ASCII Unicode digits. The model accepts an optional sign followed by ASCII digits, with a value in the 32-bit signed range.
- Sponsors.Sponsor.Contains: lower-casing and `Searchable.containsKeyword` are not part of this model and are supplied as functions. Only the empty-keyword guard and the choice of fields are stated.
- `SponsorBadge(qr)`: the QR parsing constructor is not part of this model. A scanned badge arrives with its badge id already present or absent.
- `DevoxxSettings.conferenceHasFavoriteCount` and `conferenceHasFavorite` are not part of this model. They are the conference's `hasFavoriteCount` and `hasFavorite` flags.
- The identity of `Favorite` objects: the merge updates records as values. The aliasing of an appended fetched record with the fetch result is not represented.
- A null floor image URL or a null session id: the model's strings are never null there. Java would throw a NullPointerException.
