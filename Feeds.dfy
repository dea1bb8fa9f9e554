/** Feed ingestion: the conditional GET, saving the new items of a feed
    without duplicates, refreshing a stored feed, and subscribing to a new
    one. The record store is a class whose tables are fields; the network is
    a function from request to response, and clocks are parameters. */
module Feeds {
  import opened Wrappers
  import opened Apis

  /** A `time.Time`, as whole seconds counted from Go's zero time, so that
      `IsZero` is `== 0` and `After` is `>`. */
  type Instant = int

  const ZeroTime: Instant := 0

  datatype Item = Item(title: string, description: string, link: string, guid: string, published: Option<Instant>)

  /** A parsed feed; `image` is the image URL when the feed has one. */
  datatype Feed = Feed(title: string, description: string, image: Option<string>, items: seq<Item>)

  /** `FeedResult`; `feed` is `None` for a nil `Feed`. */
  datatype FeedResult = FeedResult(feed: Option<Feed>, etag: string, lastModified: string)

  datatype HttpRequest = HttpRequest(verb: string, url: string, headers: map<string, string>)

  /** A response; its header keys are in Go's canonical form, and `body` is
      what the feed parser makes of the body. */
  datatype HttpResponse = HttpResponse(status: int, headers: map<string, string>, body: Result<Feed, string>)

  /** The HTTP client: a request either fails or gets a response. */
  type Transport = HttpRequest -> Result<HttpResponse, string>

  const StatusNotModified := 304

  /** `Header.Get`: the empty string for a missing key. */
  function HeaderGet(headers: map<string, string>, key: string): (v: string)
    ensures key !in headers ==> v == ""
    ensures key in headers ==> v == headers[key]
  {
    if key in headers then headers[key] else ""
  }

  /** The validators of section 3 of RFC 7232 that a request carries:
      `If-None-Match` exactly when there is an entity tag, `If-Modified-Since`
      exactly when the time is not zero, and nothing else. */
  function ConditionalHeaders(etag: string, ifModifiedSince: Instant, httpDate: Instant -> string)
    : (h: map<string, string>)
    ensures "If-None-Match" in h <==> etag != ""
    ensures "If-None-Match" in h ==> h["If-None-Match"] == etag
    ensures "If-Modified-Since" in h <==> ifModifiedSince != ZeroTime
    ensures "If-Modified-Since" in h ==> h["If-Modified-Since"] == httpDate(ifModifiedSince)
    ensures h.Keys <= {"If-None-Match", "If-Modified-Since"}
  {
    var h1: map<string, string> := if etag != "" then map["If-None-Match" := etag] else map[];
    if ifModifiedSince != ZeroTime then h1["If-Modified-Since" := httpDate(ifModifiedSince)] else h1
  }

  /** What `LoadFeedFromURL` makes of the client's outcome. */
  function InterpretResponse(outcome: Result<HttpResponse, string>): (r: Result<FeedResult, string>)
    ensures outcome.Failure? ==> r == Failure(outcome.error)
    ensures outcome.Success? && outcome.value.status == StatusNotModified ==>
              r == Success(FeedResult(None, "", ""))
    ensures outcome.Success? && outcome.value.status != StatusNotModified && outcome.value.body.Failure? ==>
              r == Failure(outcome.value.body.error)
    ensures outcome.Success? && outcome.value.status != StatusNotModified && outcome.value.body.Success? ==>
              r == Success(FeedResult(Some(outcome.value.body.value), HeaderGet(outcome.value.headers, "Etag"),
                                      HeaderGet(outcome.value.headers, "Last-Modified")))
    ensures r.Success? && r.value.feed.Some? ==>
              outcome.Success? && outcome.value.status != StatusNotModified
              && outcome.value.body == Success(r.value.feed.value)
              && r.value.etag == HeaderGet(outcome.value.headers, "Etag")
              && r.value.lastModified == HeaderGet(outcome.value.headers, "Last-Modified")
  {
    match outcome
    case Failure(e) => Failure(e)
    case Success(resp) =>
      if resp.status == StatusNotModified then Success(FeedResult(None, "", ""))
      else match resp.body
        case Failure(e) => Failure(e)
        case Success(feed) =>
          // Go canonicalises "ETag" to "Etag".
          Success(FeedResult(Some(feed), HeaderGet(resp.headers, "Etag"), HeaderGet(resp.headers, "Last-Modified")))
  }

  /** `LoadFeedFromURL`: a GET carrying the validators, then the response
      read as a feed. */
  method LoadFeedFromURL(url: string, etag: string, ifModifiedSince: Instant,
                         httpDate: Instant -> string, transport: Transport)
    returns (request: HttpRequest, result: Result<FeedResult, string>)
    ensures request.verb == "GET" && request.url == url
    ensures request.headers == ConditionalHeaders(etag, ifModifiedSince, httpDate)
    ensures result == InterpretResponse(transport(request))
    ensures result.Success? && result.value.feed.None? ==> result.value == FeedResult(None, "", "")
  {
    request := HttpRequest("GET", url, ConditionalHeaders(etag, ifModifiedSince, httpDate));
    result := InterpretResponse(transport(request));
  }

  // ---------------------------------------------------------------------
  // Records
  // ---------------------------------------------------------------------

  /** A row of `feed_items`. */
  datatype FeedItemRecord = FeedItemRecord(
    user: string, feed: string, title: string, pubDate: Option<Instant>,
    guid: string, description: string, url: string)

  /** A row of `feeds`; `lastFetchedAt` is `ZeroTime` when unset. */
  datatype FeedRecord = FeedRecord(
    user: string, feedUrl: string, name: string, description: string,
    imageUrl: Option<string>, etag: string, modified: string,
    lastFetchedAt: Instant, autoAddFeedItemsToLibrary: bool)

  /** The part of the record store this file uses. */
  class FeedStore {
    var collections: set<string>
    var feeds: map<string, FeedRecord>
    var feedItems: seq<FeedItemRecord>

    constructor (collections: set<string>, feeds: map<string, FeedRecord>, feedItems: seq<FeedItemRecord>)
      ensures this.collections == collections && this.feeds == feeds && this.feedItems == feedItems
    {
      this.collections := collections;
      this.feeds := feeds;
      this.feedItems := feedItems;
    }
  }

  /** The item is considered: it has no date, or one after the cutoff. */
  predicate IsCandidate(item: Item, cutoff: Instant) {
    item.published.None? || item.published.value > cutoff
  }

  /** The filter `feed = {:feed} && guid = {:guid}` finds a row. */
  predicate HasItem(table: seq<FeedItemRecord>, feedId: string, guid: string) {
    exists i :: 0 <= i < |table| && table[i].feed == feedId && table[i].guid == guid
  }

  /** The row saved for a new item. */
  function NewItemRecord(item: Item, user: string, feedId: string): (r: FeedItemRecord)
    ensures r.user == user && r.feed == feedId && r.guid == item.guid
    ensures r.title == item.title && r.pubDate == item.published
    ensures r.description == item.description && r.url == item.link
  {
    FeedItemRecord(user, feedId, item.title, item.published, item.guid, item.description, item.link)
  }

  datatype SaveOutcome = SaveOutcome(table: seq<FeedItemRecord>, err: Option<string>)

  /** The `feed_items` table after the loop of `SaveNewFeedItems` over
      `items`, and its error. `saveError` is the store's answer to saving a
      row (`None` when the save succeeds). */
  function SaveItems(table: seq<FeedItemRecord>, items: seq<Item>, user: string, feedId: string,
                     cutoff: Instant, saveError: FeedItemRecord -> Option<string>): SaveOutcome
    decreases |items|
  {
    if items == [] then SaveOutcome(table, None)
    else
      var item := items[0];
      if !IsCandidate(item, cutoff) || HasItem(table, feedId, item.guid) then
        SaveItems(table, items[1..], user, feedId, cutoff, saveError)
      else
        var rec := NewItemRecord(item, user, feedId);
        if saveError(rec).Some? then SaveOutcome(table, saveError(rec))
        else SaveItems(table + [rec], items[1..], user, feedId, cutoff, saveError)
  }

  /** Saving only appends, and every appended row is a candidate item of
      this batch whose `(feed, guid)` no earlier row has: neither a row that
      was there before nor one appended earlier in the batch. */
  lemma {:induction false} SaveItemsAppends(table: seq<FeedItemRecord>, items: seq<Item>, user: string,
                                            feedId: string, cutoff: Instant,
                                            saveError: FeedItemRecord -> Option<string>)
    ensures var out := SaveItems(table, items, user, feedId, cutoff, saveError).table;
            |table| <= |out| && out[..|table|] == table
            && forall k :: |table| <= k < |out| ==>
                 out[k].feed == feedId && out[k].user == user
                 && !HasItem(out[..k], feedId, out[k].guid)
                 && exists item :: item in items && IsCandidate(item, cutoff)
                                   && out[k] == NewItemRecord(item, user, feedId)
    decreases |items|
  {
    if items != [] {
      var item := items[0];
      var rest := items[1..];
      forall it | it in rest ensures it in items {
      }
      if !IsCandidate(item, cutoff) || HasItem(table, feedId, item.guid) {
        SaveItemsAppends(table, rest, user, feedId, cutoff, saveError);
      } else {
        var rec := NewItemRecord(item, user, feedId);
        if saveError(rec).None? {
          var t2 := table + [rec];
          SaveItemsAppends(t2, rest, user, feedId, cutoff, saveError);
          var out := SaveItems(t2, rest, user, feedId, cutoff, saveError).table;
          assert out[..|table|] == t2[..|table|] == table;
          assert out[|table|] == rec;
          assert out[..|table|] == table;
        }
      }
    }
  }

  /** Whatever the batch, the table never holds two rows of this feed with
      the same GUID if it did not before. */
  predicate UniqueGuids(table: seq<FeedItemRecord>, feedId: string) {
    forall i, j :: 0 <= i < j < |table| && table[i].feed == feedId && table[j].feed == feedId ==>
      table[i].guid != table[j].guid
  }

  lemma SaveItemsKeepsUnique(table: seq<FeedItemRecord>, items: seq<Item>, user: string, feedId: string,
                             cutoff: Instant, saveError: FeedItemRecord -> Option<string>)
    requires UniqueGuids(table, feedId)
    ensures UniqueGuids(SaveItems(table, items, user, feedId, cutoff, saveError).table, feedId)
  {
    var out := SaveItems(table, items, user, feedId, cutoff, saveError).table;
    SaveItemsAppends(table, items, user, feedId, cutoff, saveError);
    forall i, j | 0 <= i < j < |out| && out[i].feed == feedId && out[j].feed == feedId
      ensures out[i].guid != out[j].guid
    {
      if j < |table| {
        assert out[i] == table[i] && out[j] == table[j];
      } else {
        assert out[..j][i] == out[i];
      }
    }
  }

  /** When no save fails, every candidate item of the batch ends up with a
      row for its `(feed, guid)`. */
  lemma {:induction false} SaveItemsComplete(table: seq<FeedItemRecord>, items: seq<Item>, user: string,
                                             feedId: string, cutoff: Instant,
                                             saveError: FeedItemRecord -> Option<string>)
    requires SaveItems(table, items, user, feedId, cutoff, saveError).err.None?
    ensures var out := SaveItems(table, items, user, feedId, cutoff, saveError).table;
            forall item :: item in items && IsCandidate(item, cutoff) ==> HasItem(out, feedId, item.guid)
    ensures var out := SaveItems(table, items, user, feedId, cutoff, saveError).table;
            forall g :: HasItem(table, feedId, g) ==> HasItem(out, feedId, g)
    decreases |items|
  {
    if items != [] {
      var item := items[0];
      var rest := items[1..];
      var out := SaveItems(table, items, user, feedId, cutoff, saveError).table;
      var next := if !IsCandidate(item, cutoff) || HasItem(table, feedId, item.guid) then table
                  else table + [NewItemRecord(item, user, feedId)];
      assert out == SaveItems(next, rest, user, feedId, cutoff, saveError).table;
      SaveItemsComplete(next, rest, user, feedId, cutoff, saveError);
      forall g | HasItem(table, feedId, g) ensures HasItem(next, feedId, g) {
        var i :| 0 <= i < |table| && table[i].feed == feedId && table[i].guid == g;
        assert next[i] == table[i];
      }
      if IsCandidate(item, cutoff) {
        if next != table {
          assert next[|table|].guid == item.guid;
        }
        assert HasItem(next, feedId, item.guid);
      }
      forall it | it in items && IsCandidate(it, cutoff) ensures HasItem(out, feedId, it.guid) {
        if it != item {
          assert it in rest;
        }
      }
    }
  }

  /** An item at or before the cutoff never adds a row, whatever else the
      batch holds. */
  lemma OldItemsSkipped(table: seq<FeedItemRecord>, items: seq<Item>, user: string, feedId: string,
                        cutoff: Instant, saveError: FeedItemRecord -> Option<string>)
    ensures var out := SaveItems(table, items, user, feedId, cutoff, saveError).table;
            forall k :: |table| <= k < |out| ==> out[k].pubDate.None? || out[k].pubDate.value > cutoff
  {
    SaveItemsAppends(table, items, user, feedId, cutoff, saveError);
  }

  /** A failed batch fails with the store's answer for the row of one of
      its candidate items. */
  lemma {:induction false} SaveItemsErrorOrigin(table: seq<FeedItemRecord>, items: seq<Item>, user: string,
                                                feedId: string, cutoff: Instant,
                                                saveError: FeedItemRecord -> Option<string>)
    requires SaveItems(table, items, user, feedId, cutoff, saveError).err.Some?
    ensures exists item :: item in items && IsCandidate(item, cutoff)
              && SaveItems(table, items, user, feedId, cutoff, saveError).err
                 == saveError(NewItemRecord(item, user, feedId))
    decreases |items|
  {
    var item := items[0];
    var rest := items[1..];
    if !IsCandidate(item, cutoff) || HasItem(table, feedId, item.guid) {
      SaveItemsErrorOrigin(table, rest, user, feedId, cutoff, saveError);
      var it :| it in rest && IsCandidate(it, cutoff)
                && SaveItems(table, rest, user, feedId, cutoff, saveError).err
                   == saveError(NewItemRecord(it, user, feedId));
      assert it in items;
    } else {
      var rec := NewItemRecord(item, user, feedId);
      if saveError(rec).None? {
        SaveItemsErrorOrigin(table + [rec], rest, user, feedId, cutoff, saveError);
        var it :| it in rest && IsCandidate(it, cutoff)
                  && SaveItems(table + [rec], rest, user, feedId, cutoff, saveError).err
                     == saveError(NewItemRecord(it, user, feedId));
        assert it in items;
      }
    }
  }

  /** A failed batch stops at its first failing save: the items before it
      are walked without error, the failing row is not stored, the rows
      saved earlier in the batch stay, and nothing after it is looked at. */
  lemma {:induction false} SaveItemsStopsAtFailure(table: seq<FeedItemRecord>, items: seq<Item>, user: string,
                                                   feedId: string, cutoff: Instant,
                                                   saveError: FeedItemRecord -> Option<string>)
    requires SaveItems(table, items, user, feedId, cutoff, saveError).err.Some?
    ensures exists i :: 0 <= i < |items|
              && var before := SaveItems(table, items[..i], user, feedId, cutoff, saveError);
                 var rec := NewItemRecord(items[i], user, feedId);
                 before.err.None? && IsCandidate(items[i], cutoff)
                 && !HasItem(before.table, feedId, items[i].guid) && saveError(rec).Some?
                 && SaveItems(table, items, user, feedId, cutoff, saveError)
                    == SaveOutcome(before.table, saveError(rec))
    decreases |items|
  {
    var item := items[0];
    var rest := items[1..];
    var rec := NewItemRecord(item, user, feedId);
    var skip := !IsCandidate(item, cutoff) || HasItem(table, feedId, item.guid);
    if !skip && saveError(rec).Some? {
      assert items[..0] == [];
      assert SaveItems(table, items[..0], user, feedId, cutoff, saveError) == SaveOutcome(table, None);
    } else {
      var next := if skip then table else table + [rec];
      SaveItemsStopsAtFailure(next, rest, user, feedId, cutoff, saveError);
      var j :| 0 <= j < |rest|
               && var before := SaveItems(next, rest[..j], user, feedId, cutoff, saveError);
                  var r := NewItemRecord(rest[j], user, feedId);
                  before.err.None? && IsCandidate(rest[j], cutoff)
                  && !HasItem(before.table, feedId, rest[j].guid) && saveError(r).Some?
                  && SaveItems(next, rest, user, feedId, cutoff, saveError)
                     == SaveOutcome(before.table, saveError(r));
      assert items[..j + 1][0] == item && items[..j + 1][1..] == rest[..j];
      assert SaveItems(table, items[..j + 1], user, feedId, cutoff, saveError)
             == SaveItems(next, rest[..j], user, feedId, cutoff, saveError);
      assert items[j + 1] == rest[j];
    }
  }

  /** `SaveNewFeedItems`: walk the items in order, skip old ones and those
      already stored, save the rest one by one; the first failing save ends
      the walk and its error is returned, the rows saved before it stay. */
  method SaveNewFeedItems(store: FeedStore, feed: Feed, user: string, feedId: string, cutoff: Instant,
                          saveError: FeedItemRecord -> Option<string>)
    returns (err: Option<string>)
    modifies store
    ensures store.collections == old(store.collections) && store.feeds == old(store.feeds)
    ensures "feed_items" !in store.collections ==>
              err == Some("collection not found") && store.feedItems == old(store.feedItems)
    ensures "feed_items" in store.collections ==>
              SaveOutcome(store.feedItems, err)
              == SaveItems(old(store.feedItems), feed.items, user, feedId, cutoff, saveError)
  {
    if "feed_items" !in store.collections {
      return Some("collection not found");
    }
    var i := 0;
    while i < |feed.items|
      invariant 0 <= i <= |feed.items|
      invariant store.collections == old(store.collections) && store.feeds == old(store.feeds)
      invariant SaveItems(old(store.feedItems), feed.items, user, feedId, cutoff, saveError)
                == SaveItems(store.feedItems, feed.items[i..], user, feedId, cutoff, saveError)
    {
      var item := feed.items[i];
      assert feed.items[i..][0] == item && feed.items[i..][1..] == feed.items[i + 1..];
      if item.published.Some? && !(item.published.value > cutoff) {
        i := i + 1;
        continue;
      }
      var found := FindItem(store.feedItems, feedId, item.guid);
      if !found {
        var rec := NewItemRecord(item, user, feedId);
        var e := saveError(rec);
        if e.Some? {
          return e;
        }
        store.feedItems := store.feedItems + [rec];
      }
      i := i + 1;
    }
    err := None;
  }

  /** `FindFirstRecordByFilter` on `feed_items`, as a search. */
  method FindItem(table: seq<FeedItemRecord>, feedId: string, guid: string) returns (found: bool)
    ensures found <==> HasItem(table, feedId, guid)
  {
    var i := 0;
    while i < |table|
      invariant 0 <= i <= |table|
      invariant forall j :: 0 <= j < i ==> !(table[j].feed == feedId && table[j].guid == guid)
    {
      if table[i].feed == feedId && table[i].guid == guid {
        return true;
      }
      i := i + 1;
    }
    return false;
  }

  // ---------------------------------------------------------------------
  // Refreshing and subscribing
  // ---------------------------------------------------------------------

  /** `FetchNewFeedItems`. `parseHttpDate` is `time.Parse(http.TimeFormat, _)`
      (`None` on a parse error, which Go turns into the zero time), `now` the
      clock, `feedSaveError` the store's answer to saving the feed row. */
  method FetchNewFeedItems(store: FeedStore, feedId: string,
                           httpDate: Instant -> string, parseHttpDate: string -> Option<Instant>,
                           transport: Transport, now: Instant, feedSaveError: Option<string>,
                           itemSaveError: FeedItemRecord -> Option<string>)
    returns (err: Option<string>)
    modifies store
    ensures store.collections == old(store.collections)
    ensures feedId !in old(store.feeds) ==>
              err.Some? && store.feeds == old(store.feeds) && store.feedItems == old(store.feedItems)
    ensures feedId in old(store.feeds) ==>
              var f := old(store.feeds)[feedId];
              var since := parseHttpDate(f.modified).GetOr(ZeroTime);
              var req := HttpRequest("GET", f.feedUrl, ConditionalHeaders(f.etag, since, httpDate));
              var loaded := InterpretResponse(transport(req));
              (loaded.Failure? ==>
                 err.Some? && store.feeds == old(store.feeds) && store.feedItems == old(store.feedItems))
              && (loaded.Success? && loaded.value.feed.None? ==>
                    err.None? && store.feeds == old(store.feeds) && store.feedItems == old(store.feedItems))
              && (loaded.Success? && loaded.value.feed.Some? && feedSaveError.Some? ==>
                    err.Some? && store.feeds == old(store.feeds) && store.feedItems == old(store.feedItems))
              && (loaded.Success? && loaded.value.feed.Some? && feedSaveError.None? ==>
                    store.feeds == old(store.feeds)[feedId := f.(etag := loaded.value.etag,
                                                                 modified := loaded.value.lastModified,
                                                                 lastFetchedAt := now)]
                    && ("feed_items" !in store.collections ==>
                          err.Some? && store.feedItems == old(store.feedItems))
                    && ("feed_items" in store.collections ==>
                          var saved := SaveItems(old(store.feedItems), loaded.value.feed.value.items,
                                                 f.user, feedId, f.lastFetchedAt, itemSaveError);
                          store.feedItems == saved.table && (err.None? <==> saved.err.None?)))
  {
    if feedId !in store.feeds {
      return Some("failed to find feed");
    }
    var feed := store.feeds[feedId];
    var lastModifiedTime := parseHttpDate(feed.modified).GetOr(ZeroTime);
    var _, feedResult := LoadFeedFromURL(feed.feedUrl, feed.etag, lastModifiedTime, httpDate, transport);
    if feedResult.Failure? {
      return Some("failed to load feed from URL: " + feedResult.error);
    }
    if feedResult.value.feed.None? {
      return None;
    }
    feed := feed.(etag := feedResult.value.etag, modified := feedResult.value.lastModified);
    var previousFetchTime := feed.lastFetchedAt;
    feed := feed.(lastFetchedAt := now);
    if feedSaveError.Some? {
      return Some("failed to update feed record: " + feedSaveError.value);
    }
    store.feeds := store.feeds[feedId := feed];
    var itemsErr := SaveNewFeedItems(store, feedResult.value.feed.value, feed.user, feedId,
                                     previousFetchTime, itemSaveError);
    if itemsErr.Some? {
      return Some("failed to save new feed items: " + itemsErr.value);
    }
    return None;
  }

  /** The guards `SaveNewFeed` checks before touching the network, in
      order: authentication first, then a non-empty URL. */
  function SaveNewFeedGuard(authUserId: Option<string>, url: string): (e: Option<ApiError>)
    ensures authUserId.None? ==> e == Some(Forbidden("Not authenticated"))
    ensures authUserId.Some? && url == "" ==> e == Some(BadRequest("URL is required"))
    ensures e.None? <==> authUserId.Some? && url != ""
  {
    if authUserId.None? then Some(Forbidden("Not authenticated"))
    else if url == "" then Some(BadRequest("URL is required"))
    else None
  }

  /** The row a new subscription stores. */
  function NewFeedRecord(user: string, url: string, feed: Feed, loaded: FeedResult, now: Instant): (r: FeedRecord)
    ensures !r.autoAddFeedItemsToLibrary && r.user == user && r.feedUrl == url && r.lastFetchedAt == now
    ensures r.etag == loaded.etag && r.modified == loaded.lastModified && r.imageUrl == feed.image
    ensures r.name == feed.title && r.description == feed.description
  {
    FeedRecord(user, url, feed.title, feed.description, feed.image, loaded.etag, loaded.lastModified, now, false)
  }

  /** `SaveNewFeed`. `newId` is the fresh id the store gives the new row,
      so no stored feed has it. On success the response carries that id. */
  method SaveNewFeed(store: FeedStore, authUserId: Option<string>, url: string,
                     httpDate: Instant -> string, transport: Transport, now: Instant, newId: string,
                     feedSaveError: Option<string>, itemSaveError: FeedItemRecord -> Option<string>)
    returns (result: Result<string, ApiError>)
    requires newId !in store.feeds
    modifies store
    ensures store.collections == old(store.collections)
    ensures SaveNewFeedGuard(authUserId, url).Some? ==>
              result == Failure(SaveNewFeedGuard(authUserId, url).value)
              && store.feeds == old(store.feeds) && store.feedItems == old(store.feedItems)
    ensures SaveNewFeedGuard(authUserId, url).None? ==>
              var loaded := InterpretResponse(transport(HttpRequest("GET", url, map[])));
              (loaded.Failure? ==>
                 result == Failure(BadRequest("Error parsing feed"))
                 && store.feeds == old(store.feeds) && store.feedItems == old(store.feedItems))
              && (loaded.Success? && "feeds" !in store.collections ==>
                    result == Failure(BadRequest("Failed to find feeds collection"))
                    && store.feeds == old(store.feeds) && store.feedItems == old(store.feedItems))
              && (loaded.Success? && "feeds" in store.collections && loaded.value.feed.None? ==>
                    result == Failure(NilFeed)
                    && store.feeds == old(store.feeds) && store.feedItems == old(store.feedItems))
              && (loaded.Success? && "feeds" in store.collections && loaded.value.feed.Some?
                  && feedSaveError.Some? ==>
                    result == Failure(BadRequest("Failed to save feed"))
                    && store.feeds == old(store.feeds) && store.feedItems == old(store.feedItems))
              && (loaded.Success? && "feeds" in store.collections && loaded.value.feed.Some?
                  && feedSaveError.None? ==>
                    store.feeds == old(store.feeds)[newId := NewFeedRecord(authUserId.value, url,
                                                    loaded.value.feed.value, loaded.value, now)]
                    && ("feed_items" !in store.collections ==>
                          result == Failure(BadRequest("Failed to save feed items"))
                          && store.feedItems == old(store.feedItems))
                    && ("feed_items" in store.collections ==>
                          var saved := SaveItems(old(store.feedItems), loaded.value.feed.value.items,
                                                 authUserId.value, newId, ZeroTime, itemSaveError);
                          store.feedItems == saved.table
                          && (saved.err.None? ==> result == Success(newId))
                          && (saved.err.Some? ==> result == Failure(BadRequest("Failed to save feed items")))))
    ensures result.Success? ==> result.value == newId && newId in store.feeds
                                && !store.feeds[newId].autoAddFeedItemsToLibrary
  {
    var guard := SaveNewFeedGuard(authUserId, url);
    if guard.Some? {
      return Failure(guard.value);
    }
    var _, feedResult := LoadFeedFromURL(url, "", ZeroTime, httpDate, transport);
    assert ConditionalHeaders("", ZeroTime, httpDate) == map[];
    if feedResult.Failure? {
      return Failure(BadRequest("Error parsing feed"));
    }
    if "feeds" !in store.collections {
      return Failure(BadRequest("Failed to find feeds collection"));
    }
    if feedResult.value.feed.None? {
      return Failure(NilFeed);
    }
    var feed := feedResult.value.feed.value;
    var record := NewFeedRecord(authUserId.value, url, feed, feedResult.value, now);
    if feedSaveError.Some? {
      return Failure(BadRequest("Failed to save feed"));
    }
    store.feeds := store.feeds[newId := record];
    var itemsErr := SaveNewFeedItems(store, feed, authUserId.value, newId, ZeroTime, itemSaveError);
    if itemsErr.Some? {
      return Failure(BadRequest("Failed to save feed items"));
    }
    return Success(newId);
  }
}
