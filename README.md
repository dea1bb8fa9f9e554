# Lynx: a Dafny model of the feed, link-viewer and tag pages and the backend feed and key handlers

Lynx is a read-it-later service. Its web client talks to a PocketBase backend.
This project models five parts of it and proves what each part promises:

- **`FeedView.dfy`, the home feed page.** The filter is split between the address
  bar (`s` = search text, `t` = tag id) and local state (read state, sort order,
  page). The model covers how the page decodes and re-encodes that filter, the
  query it hands to the feed hook, how a filter change returns to page 1, and
  whether skeletons, cards with a paginator, or an alert are shown.
- **`LinkViewer.dfy`, the single-link query hook.** The model covers the
  request it sends (the expanded tags, a fixed list of fourteen fields, and an
  optional header asking the backend to record the view), how the response
  becomes a view, and the hook's loading/error/link state.
- **`TagSettings.dfy`, the tag settings page.** It models:
  - slug generation (lower-casing, deleting characters other than word
    characters, white space and `-`, then turning each white-space run into one
    `-`);
  - the sort toggle and the sorted copy of the tag list;
  - the create and delete flows.
- **`Feeds.dfy`, feed ingestion on the backend.** It models:
  - the conditional GET of section 3 of RFC 7232;
  - saving the items of a feed that are newer than a cutoff and not stored yet;
  - refreshing a stored feed;
  - subscribing to a new feed.
- **`Lynx.dfy`, the backend's own hooks and handlers.** The view hook stamps
  `last_viewed_at`. The API-key handler stores a random key that expires six
  calendar months later, as RFC 3339 text. The archive handler guards the
  background archiver.

The record store is a class whose tables are fields. The network, the feed
parser, the clock, the random key and the store's save errors are parameters of
the operations that use them. `Apis.dfy` holds the error type the backend handlers share.

Slugs are not trimmed: outer white space becomes a leading or trailing `-`
(`TagSettings.SlugExampleOuterSpace`).

## Model

| member | source | states |
|---|---|---|
| FeedView.NonEmpty | frontend/src/components/pages/Home.tsx:23 | `x \|\| undefined`: present exactly when given and non-empty, and then unchanged |
| FeedView.DecodeSearchText | frontend/src/components/pages/Home.tsx:22 | the search text is the value of `s`, or `""` when `s` is missing |
| FeedView.DecodeTagId | frontend/src/components/pages/Home.tsx:23 | a tag is read exactly when `t` is present and non-empty, and it is that value |
| FeedView.Encode | frontend/src/components/pages/Home.tsx:39-45 | the address bar always gets `s`; it gets `t` exactly when the tag is non-empty; no other key is written |
| FeedView.ComposeQuery | frontend/src/components/pages/Home.tsx:30-35 | the query takes the page as given, read state and sort from local state, and search text and tag from the address bar |
| FeedView.FromSearchParams | frontend/src/components/pages/Home.tsx:38 | local state keeps the read state and sort the search bar reported |
| FeedView.DecodeEncode | frontend/src/components/pages/Home.tsx:22-45 | decoding what the page encoded gives back the search text exactly, and the tag exactly when it is non-empty (an empty tag reads back as none) |
| FeedView.EncodeDecode | frontend/src/components/pages/Home.tsx:22-45 | re-encoding the decoded filter writes back the same query string, whatever the local read state and sort |
| FeedView.QueryAfterChange | frontend/src/components/pages/Home.tsx:30-46 | after a filter change the query is on page 1 and carries exactly the new filter |
| FeedView.HomePage.constructor | frontend/src/components/pages/Home.tsx:14-21 | first render: page 1, read state `all`, sort `added_to_library`, search text and tag from the address bar |
| FeedView.HomePage.HandleSearchParamsChange | frontend/src/components/pages/Home.tsx:37-47 | stores the new filter, rewrites the address bar with its encoding, resets the page to 1 whatever it was, and the next query carries the new filter |
| FeedView.HomePage.SetPage | frontend/src/components/pages/Home.tsx:66 | the paginator changes the page and nothing else |
| FeedView.RenderContent | frontend/src/components/pages/Home.tsx:49-87 | loading gives five skeletons; otherwise a non-empty page gives its items in order, with a paginator on (page, total) exactly when there is more than one page; otherwise an alert titled "Error" and destructive exactly when there is an error; never nothing |
| LinkViewer.BuildRequest | frontend/src/hooks/useLinkViewerQuery.tsx:82-101 | every request asks for link `id` in `links`, expands `tags`, names the fixed field list, and carries the `X-Lynx-Update-Last-Viewed: true` header exactly when asked to; otherwise no headers |
| LinkViewer.SplitJoin | frontend/src/hooks/useLinkViewerQuery.tsx:99 | splitting a comma-joined list at commas gives the list back when no element contains a comma |
| LinkViewer.RequestFields | frontend/src/hooks/useLinkViewerQuery.tsx:84-99 | the field list has fourteen entries, and the joined `fields` option splits back into exactly those |
| LinkViewer.ResolveTags | frontend/src/hooks/useLinkViewerQuery.tsx:110-117 | tags are `{id, name, slug}` of the expanded tags, same length and order; `[]` (never null) when the expansion is missing |
| LinkViewer.ParseOptionalDate | frontend/src/hooks/useLinkViewerQuery.tsx:104-109 | a date is null exactly when the raw value is null or empty, and is otherwise the parse of the raw value |
| LinkViewer.ToLinkView | frontend/src/hooks/useLinkViewerQuery.tsx:102-118 | every other field passes through unchanged; each date is null exactly when its raw text is null or empty, and is otherwise the parse of that text; the tags are resolved as above |
| LinkViewer.LinkViewerQuery.constructor | frontend/src/hooks/useLinkViewerQuery.tsx:39-41 | state starts with no link, loading, no error, nothing sent |
| LinkViewer.LinkViewerQuery.Result | frontend/src/hooks/useLinkViewerQuery.tsx:34-59 | without a session the hook returns not loading, no error, no result, no refetch; with one it exposes its state and always a refetch |
| LinkViewer.LinkViewerQuery.BeginFetch | frontend/src/hooks/useLinkViewerQuery.tsx:43-47 | loading on, error cleared, the request for the current id sent, the link shown so far kept |
| LinkViewer.LinkViewerQuery.CompleteFetch | frontend/src/hooks/useLinkViewerQuery.tsx:47-53 | success replaces the link; failure sets the error and keeps the previous link; loading ends either way |
| LinkViewer.LinkViewerQuery.FetchData | frontend/src/hooks/useLinkViewerQuery.tsx:43-54 | one request sent; afterwards not loading, with the link replaced and no error on success, or the error set and the link kept on failure |
| LinkViewer.LinkViewerQuery.Rerender | frontend/src/hooks/useLinkViewerQuery.tsx:29-57 | every render takes the current view-recording flag; the fetch re-runs, sending the current id and flag, exactly when the id or the session user's id changed; otherwise nothing is sent and the link, loading and error state is unchanged |
| LinkViewer.Mount | frontend/src/hooks/useLinkViewerQuery.tsx:33-59 | without a session nothing is sent and the unauthenticated result is returned; with one exactly one request is sent, a refetch is exposed, loading has ended, and the hook holds the link and no error on success, or no link and the error on failure |
| TagSettings.ToLower | frontend/src/components/pages/settings/Tags.tsx:52 | `toLowerCase` character by character; its properties are stated in `LowerStripShape`, `LowerFixed` and `LowerPlain` |
| TagSettings.StripDisallowed | frontend/src/components/pages/settings/Tags.tsx:53 | deletes every character outside `[A-Za-z0-9_]`, white space and `-`; its properties are stated in `StripAppend`, `LowerStripShape` and `StripFixed` |
| TagSettings.ReplaceSpaceRuns | frontend/src/components/pages/settings/Tags.tsx:54 | each maximal white-space run becomes one `-`; its properties are stated in `ReplaceShape` and `ReplaceFixed` |
| TagSettings.GenerateSlug | frontend/src/components/pages/settings/Tags.tsx:50-55 | the three steps in order; its properties are stated in `SlugShape`, `SlugIdempotent`, `SlugOfPlainName` and the three example lemmas |
| TagSettings.LowerChar | frontend/src/components/pages/settings/Tags.tsx:52 | lower-casing one character yields one or two characters; an ASCII capital becomes its lower-case letter, and any other word character, white space or `-` stays as it is |
| TagSettings.StripAppend | frontend/src/components/pages/settings/Tags.tsx:53 | deleting disallowed characters works character by character: it distributes over concatenation |
| TagSettings.LowerStripShape | frontend/src/components/pages/settings/Tags.tsx:52-53 | after lower-casing and deletion only `[a-z0-9_-]` and white space remain, and the text is no longer than the input |
| TagSettings.ReplaceShape | frontend/src/components/pages/settings/Tags.tsx:54 | replacing white-space runs leaves no white space and never lengthens the text |
| TagSettings.SlugShape | frontend/src/components/pages/settings/Tags.tsx:50-55 | a slug has only `[a-z0-9_-]` and is no longer than the name |
| TagSettings.LowerFixed | frontend/src/components/pages/settings/Tags.tsx:52 | text that lower-cases to itself character by character is unchanged |
| TagSettings.StripFixed | frontend/src/components/pages/settings/Tags.tsx:53 | text with no disallowed character is unchanged by the deletion |
| TagSettings.ReplaceFixed | frontend/src/components/pages/settings/Tags.tsx:54 | text without white space is unchanged by the run replacement |
| TagSettings.SlugIdempotent | frontend/src/components/pages/settings/Tags.tsx:50-55 | the slug of a slug is itself |
| TagSettings.SlugOfPlainName | frontend/src/components/pages/settings/Tags.tsx:50-55 | a name made of ASCII word characters and `-` keeps every character in its slug, with capitals lower-cased |
| TagSettings.LowerPlain | frontend/src/components/pages/settings/Tags.tsx:52 | such a name is lower-cased character by character, keeping its length |
| TagSettings.SlugExampleSymbols | frontend/src/components/pages/settings/Tags.tsx:52-54 | `"A & b!"` gives `"a-b"` |
| TagSettings.SlugExampleOuterSpace | frontend/src/components/pages/settings/Tags.tsx:53-54 | outer white space is not trimmed: `"  x  "` gives `"-x-"` |
| TagSettings.SlugExampleHyphens | frontend/src/components/pages/settings/Tags.tsx:53-54 | existing hyphens are not merged: `"a - b"` gives `"a---b"` |
| TagSettings.ClickSort | frontend/src/components/pages/settings/Tags.tsx:102-109 | the current field keeps its field and flips direction; another field is selected ascending |
| TagSettings.ClickTwice | frontend/src/components/pages/settings/Tags.tsx:103-104 | two clicks on the current field restore the sort state |
| TagSettings.Compare | frontend/src/components/pages/settings/Tags.tsx:112-123 | the sort comparator; its agreement with the sort key is stated in `CompareFollowsKey`, and its use in `SortSorted` |
| TagSettings.CompareFollowsKey | frontend/src/components/pages/settings/Tags.tsx:113-122 | the comparator (name by collation or link count, reversed for descending, 0 for any other field) orders two rows exactly as their sort key does |
| TagSettings.Insert | frontend/src/components/pages/settings/Tags.tsx:112 | inserting a row adds exactly that row |
| TagSettings.SortTags | frontend/src/components/pages/settings/Tags.tsx:111-124 | the sorted list is a permutation of the tags |
| TagSettings.InsertSorted | frontend/src/components/pages/settings/Tags.tsx:112 | inserting into a key-sorted list keeps it sorted |
| TagSettings.SortKeySorted | frontend/src/components/pages/settings/Tags.tsx:111-124 | the sorted list is in key order |
| TagSettings.SortSorted | frontend/src/components/pages/settings/Tags.tsx:111-124 | in the sorted list the comparator never puts a later row before an earlier one |
| TagSettings.InsertStable | frontend/src/components/pages/settings/Tags.tsx:112 | insertion keeps the relative order of rows with equal keys |
| TagSettings.SortStable | frontend/src/components/pages/settings/Tags.tsx:111-124 | rows with equal keys keep their input order (a stable sort) |
| TagSettings.UnknownFieldKeepsOrder | frontend/src/components/pages/settings/Tags.tsx:122 | for a field other than `name` and `link_count` the order is unchanged |
| TagSettings.TagsPage.constructor | frontend/src/components/pages/settings/Tags.tsx:43-47 | empty name, sorted by name ascending, no delete dialog, no tag chosen |
| TagSettings.TagsPage.SortedTags | frontend/src/components/pages/settings/Tags.tsx:111-124 | the view is a permutation of the tags, which stay as they were |
| TagSettings.TagsPage.SetNewTagName | frontend/src/components/pages/settings/Tags.tsx:43 | the name input changes the name and nothing else |
| TagSettings.TagsPage.HandleSort | frontend/src/components/pages/settings/Tags.tsx:102-109 | the sort state becomes `ClickSort` of the old one; nothing else changes |
| TagSettings.TagsPage.HandleSubmit | frontend/src/components/pages/settings/Tags.tsx:57-76 | creates `{name, slug of name, user}`; on success clears the name and re-fetches; on failure keeps the name; the toast is destructive exactly on failure |
| TagSettings.TagsPage.HandleDeleteClick | frontend/src/components/pages/settings/Tags.tsx:78-81 | remembers the tag and opens the dialog |
| TagSettings.TagsPage.HandleDeleteConfirm | frontend/src/components/pages/settings/Tags.tsx:83-100 | with no tag chosen nothing happens; otherwise it deletes by id, re-fetches only on success, toasts destructively exactly on failure, and always closes the dialog and clears the choice |
| Feeds.HeaderGet | backend/lynx/feeds/feeds.go:57-58 | a missing header reads as `""` |
| Feeds.ConditionalHeaders | backend/lynx/feeds/feeds.go:34-39 | `If-None-Match` exactly when the entity tag is non-empty, `If-Modified-Since` exactly when the time is not zero, no other header |
| Feeds.InterpretResponse | backend/lynx/feeds/feeds.go:41-60 | transport and parse errors are passed on; 304 gives no feed and empty validators; otherwise the parsed feed with the `ETag` and `Last-Modified` of the response |
| Feeds.LoadFeedFromURL | backend/lynx/feeds/feeds.go:25-61 | sends a GET with exactly the conditional headers and returns the interpreted response; a result without a feed is the empty result |
| Feeds.NewItemRecord | backend/lynx/feeds/feeds.go:78-85 | a new row copies user, feed, title, publication date, GUID, description and link |
| Feeds.SaveItems | backend/lynx/feeds/feeds.go:68-91 | the in-order walk over the items that the feed-item contracts are stated against; its properties are stated in `SaveItemsAppends`, `SaveItemsKeepsUnique`, `SaveItemsComplete`, `OldItemsSkipped`, `SaveItemsErrorOrigin` and `SaveItemsStopsAtFailure` |
| Feeds.SaveItemsAppends | backend/lynx/feeds/feeds.go:68-89 | saving only appends; each new row is a candidate item of the batch whose `(feed, guid)` no earlier row has, including rows added earlier in the same batch |
| Feeds.SaveItemsKeepsUnique | backend/lynx/feeds/feeds.go:72-85 | if the feed's GUIDs were unique before, they are unique after, even with duplicate GUIDs in the batch |
| Feeds.SaveItemsComplete | backend/lynx/feeds/feeds.go:68-91 | when no save fails, every candidate item has a row afterwards and no row is lost |
| Feeds.OldItemsSkipped | backend/lynx/feeds/feeds.go:69-71 | no row is added for an item dated at or before the cutoff; undated items are considered |
| Feeds.SaveItemsErrorOrigin | backend/lynx/feeds/feeds.go:86-88 | a failed batch fails with the store's error for the row of one of its candidate items |
| Feeds.SaveItemsStopsAtFailure | backend/lynx/feeds/feeds.go:86-88 | a failed batch stops at its first failing save: the items before it are walked without error, that item is a new candidate whose save fails, its row is not stored, the rows saved earlier in the batch stay, and the error is that save's |
| Feeds.SaveNewFeedItems | backend/lynx/feeds/feeds.go:63-92 | a missing collection is an error with nothing saved; otherwise the table and the error are exactly those of walking the items in order, the first failing save ending the walk with the earlier rows kept |
| Feeds.FindItem | backend/lynx/feeds/feeds.go:72-76 | finds a row exactly when one with that feed and GUID exists |
| Feeds.FetchNewFeedItems | backend/lynx/feeds/feeds.go:94-128 | a missing feed, a load error or a failed feed save changes nothing; a 304 changes nothing and succeeds; otherwise the feed gets the new validators and fetch time, and the items are saved against the fetch time read before it was overwritten |
| Feeds.SaveNewFeedGuard | backend/lynx/feeds/feeds.go:134-142 | no session gives Forbidden before an empty URL gives BadRequest; the guard passes exactly with a session and a URL |
| Feeds.NewFeedRecord | backend/lynx/feeds/feeds.go:154-165 | the new feed belongs to the user, has the URL, is named and described by the feed's title and description, has its image, validators and fetch time, and does not add its items to the library |
| Feeds.SaveNewFeed | backend/lynx/feeds/feeds.go:133-178 | guards first, then load, collection, feed save and item save in order; each failure gives its error, with nothing stored before the feed save; a 304 reaches the nil feed; on success the feed row exists under a fresh id and its items are saved with the zero cutoff |
| Lynx.DaysIn | backend/lynx/lynx.go:169 | month lengths of the Gregorian calendar: 31 days exactly for months 1, 3, 5, 7, 8, 10 and 12, 30 exactly for 4, 6, 9 and 11, February 29 days in leap years and 28 otherwise |
| Lynx.AddMonths | backend/lynx/lynx.go:169 | Go's `AddDate(0, k, 0)`: valid result, same clock, the month moved by `k` with the day kept, or spilled into the next month when the day does not exist; strictly later for `k > 0` |
| Lynx.PadDecimal | backend/lynx/lynx.go:180 | zero-padded decimal digits that read back as the number, of exactly the width when the number fits |
| Lynx.FormatRfc3339 | backend/lynx/lynx.go:126 | `Format(time.RFC3339)` of a UTC time, `YYYY-MM-DDTHH:MM:SSZ`; its read-back is stated in `ParseFormat` |
| Lynx.ParseFormat | backend/lynx/lynx.go:180 | the stored RFC 3339 text reads back as the same time |
| Lynx.OnLinkViewRequest | backend/lynx/lynx.go:120-135 | unless the header is exactly `true` nothing changes; otherwise `last_viewed_at` becomes the current time, the record is saved, and a save error is returned with the store unchanged |
| Lynx.WantsViewRecorded | backend/lynx/lynx.go:121-122 | the header `X-Lynx-Update-Last-Viewed` is exactly `true`; its use is stated in `OnLinkViewRequest` and `ViewerRequestRecordsView` |
| Lynx.ViewerRequestRecordsView | backend/lynx/lynx.go:121-124 | the backend records the view exactly when the viewer page asked for it |
| Lynx.GenerateKeyGuard | backend/lynx/lynx.go:156-164 | no session gives Forbidden before an empty name gives BadRequest; the guard passes exactly with both |
| Lynx.KeyExpiry | backend/lynx/lynx.go:168-169 | the expiry is a valid time after creation |
| Lynx.StoredExpiryIsLater | backend/lynx/lynx.go:169-180 | the stored expiry reads back as a time after creation, six or (when the day spills over) seven month-steps on |
| Lynx.HandleGenerateApiKey | backend/lynx/lynx.go:155-192 | a failed guard, a missing collection or a failed save gives its error with no key stored; otherwise the stored row and the response carry the same name, 32-character key, expiry and id; the new row takes a fresh id |
| Lynx.ArchiveGuard | backend/lynx/lynx.go:195-212 | checks in order: an empty id gives NotFound, no session Forbidden, an unknown link NotFound, another user's link Forbidden; passes exactly for the requester's own existing link |
| Lynx.HandleArchiveLink | backend/lynx/lynx.go:194-221 | archiving starts, with the success message, exactly when the guard passes |

## Left out

- The feed query hook, the search bar and the paginator are not part of this model. So the page-count arithmetic, the handling of stale responses and the search bar's own state are not modelled.
- `FeedView.RenderContent`: the components themselves (cards, skeleton keys, `onUpdate={refetch}`) are not modelled, only which content is chosen.
- `LinkViewer.ToLinkView`: the spread `...queryResult` also keeps `expand`; the view holds only the declared fields.
- `LinkViewer.ParseOptionalDate`: `new Date(...)` is a parameter, and invalid date text is not told apart.
- `LinkViewer.LinkViewerQuery.FetchData`: the asynchronous gap between sending and receiving is modelled only by `BeginFetch` and `CompleteFetch` as separate steps. Responses arriving out of order are not modelled.
- `LinkViewer.LinkViewerQuery.Rerender`: a component switching between having and not having a session on later renders is not modelled.
- `TagSettings.LowerChar`: models `toLowerCase` for ASCII capitals and for the two characters whose lower case contains an ASCII letter (U+0130, U+212A). Other characters are kept as they are: their real lower case is never kept by the next step, so the slug is the same.
- `TagSettings.LocaleCompare`: the locale's collation is a parameter `collate` whose integer order it follows.
- `TagSettings.SortTags`: `Array.prototype.sort` on a copy is modelled on values as a stable insertion sort, so the in-place sort of the copy is not shown. JavaScript's sort has been stable since ES2019, and permutation, order and stability together fix the result.
- `TagSettings.TagsPage.HandleSubmit`: the input's `required` attribute is not modelled, so an empty name can be submitted. The store outcome is a boolean parameter, and the current user's id a parameter.
- Fetching the tag list, the page title, toasts beyond their destructive flag, and console logging are not modelled.
- `Feeds.InterpretResponse`: the HTTP client and `gofeed` are the `Transport` parameter. An error building the request is folded into the transport's error, and the response's header keys are taken as already canonical (`ETag` is read as `Etag`).
- `Feeds.FindItem`: the source ignores a lookup error and then saves the item. The model's lookup cannot fail, so that path is not modelled.
- `Feeds.FetchNewFeedItems`: times are whole seconds, and `last_fetched_at` is stored as that instant rather than as RFC 3339 text. A `modified` value that does not parse is read as the zero time, as in the source. The wrapped Go errors are opaque strings.
- `Feeds.SaveNewFeed`: a 304 on the first load dereferences a nil feed in the source. The model ends with the `NilFeed` error, and the framework's recovery from the panic is not modelled. The request form and the JSON response are the parameters and the result.
- `FetchAllFeeds`, `MaybeConvertFeedItemToLink` and the API-key middleware are not part of this model.
- Route registration, the cron schedule, activity logging, and the background summarising and archiving are not modelled. Starting the archiver is the `archived` result of `Lynx.HandleArchiveLink`.
- `Lynx.HandleGenerateApiKey`: `security.RandomString(32)` and `time.Now()` are parameters. Its preconditions state what those sources guarantee: 32 alphanumeric characters, a valid time, and a record id the store has not given out yet (the same holds for `Feeds.SaveNewFeed`).
- `Lynx.ParseFormat`: covers four-digit years only. Sub-second precision and time zones other than UTC are not modelled.
- Logging in the view hook is not modelled.
