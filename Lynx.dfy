/** The backend's own hooks and handlers: recording when a link is viewed,
    issuing API keys, and starting an archive of a link. Records live in a
    store class; the clock and the random key are parameters. */
module Lynx {
  import opened Wrappers
  import opened Apis
  import Feeds
  import LinkViewer

  // ---------------------------------------------------------------------
  // UTC civil time and its RFC 3339 text
  // ---------------------------------------------------------------------

  /** A UTC time to the second, in the Gregorian calendar. */
  datatype CivilTime = CivilTime(year: nat, month: nat, day: nat, hour: nat, minute: nat, second: nat)

  predicate IsLeap(y: nat) {
    y % 4 == 0 && (y % 100 != 0 || y % 400 == 0)
  }

  function DaysIn(y: nat, m: nat): (d: nat)
    requires 1 <= m <= 12
    ensures 28 <= d <= 31
    ensures d == 31 <==> m in {1, 3, 5, 7, 8, 10, 12}
    ensures d == 28 <==> m == 2 && !IsLeap(y)
    ensures d == 30 <==> m in {4, 6, 9, 11}
    ensures m == 2 && IsLeap(y) ==> d == 29
  {
    if m == 2 then (if IsLeap(y) then 29 else 28)
    else if m in {4, 6, 9, 11} then 30
    else 31
  }

  predicate ValidTime(t: CivilTime) {
    1 <= t.month <= 12 && 1 <= t.day <= DaysIn(t.year, t.month)
    && t.hour < 24 && t.minute < 60 && t.second < 60
  }

  /** Months counted from January of year 0. */
  function MonthIndex(t: CivilTime): int {
    t.year * 12 + t.month - 1
  }

  /** Chronological order of two times. */
  predicate Before(a: CivilTime, b: CivilTime) {
    a.year < b.year
    || (a.year == b.year && a.month < b.month)
    || (a.year == b.year && a.month == b.month && a.day < b.day)
  }

  lemma MonthIndexOrder(a: CivilTime, b: CivilTime)
    requires 1 <= a.month <= 12 && 1 <= b.month <= 12
    requires MonthIndex(a) < MonthIndex(b)
    ensures Before(a, b)
  {
  }

  /** `t.AddDate(0, k, 0)`: move the month by `k`, keep the day and the
      clock, and let a day past the end of the target month spill over into
      the next month, as Go's normalisation does. */
  function AddMonths(t: CivilTime, k: nat): (r: CivilTime)
    requires ValidTime(t)
    ensures ValidTime(r)
    ensures r.hour == t.hour && r.minute == t.minute && r.second == t.second
    ensures var target := CivilTime((MonthIndex(t) + k) / 12, (MonthIndex(t) + k) % 12 + 1, 1, 0, 0, 0);
            if t.day <= DaysIn(target.year, target.month) then
              MonthIndex(r) == MonthIndex(t) + k && r.day == t.day
            else
              MonthIndex(r) == MonthIndex(t) + k + 1 && r.day == t.day - DaysIn(target.year, target.month)
    ensures k > 0 ==> Before(t, r)
  {
    var mi := MonthIndex(t) + k;
    var y := mi / 12;
    var m := mi % 12 + 1;
    var r := if t.day <= DaysIn(y, m) then CivilTime(y, m, t.day, t.hour, t.minute, t.second)
             else
               var spill := t.day - DaysIn(y, m);
               CivilTime((mi + 1) / 12, (mi + 1) % 12 + 1, spill, t.hour, t.minute, t.second);
    if k > 0 then
      MonthIndexOrder(t, r);
      r
    else r
  }

  function DigitChar(d: nat): (c: char)
    requires d < 10
    ensures IsDigit(c) && c as int - '0' as int == d
  {
    ('0' as int + d) as char
  }

  predicate IsDigit(c: char) {
    '0' <= c <= '9'
  }

  predicate AllDigits(s: string) {
    forall i :: 0 <= i < |s| ==> IsDigit(s[i])
  }

  /** The number a string of decimal digits denotes. */
  function DecimalValue(s: string): nat
    requires AllDigits(s)
  {
    if s == [] then 0
    else DecimalValue(s[..|s| - 1]) * 10 + (s[|s| - 1] as int - '0' as int)
  }

  function Pow10(n: nat): (p: nat)
    ensures p >= 1
  {
    if n == 0 then 1 else 10 * Pow10(n - 1)
  }

  /** Go's zero-padded decimal of `n`, at least `width` digits long. */
  function PadDecimal(n: nat, width: nat): (s: string)
    ensures AllDigits(s) && |s| >= 1 && |s| >= width
    ensures DecimalValue(s) == n
    ensures n < Pow10(width) && width >= 1 ==> |s| == width
    decreases n + width
  {
    if n < 10 && width <= 1 then [DigitChar(n)]
    else
      var prefix := PadDecimal(n / 10, if width > 0 then width - 1 else 0);
      var s := prefix + [DigitChar(n % 10)];
      assert s[..|s| - 1] == prefix;
      s
  }

  /** `Format(time.RFC3339)` of a UTC time: `YYYY-MM-DDTHH:MM:SSZ`. */
  function FormatRfc3339(t: CivilTime): string {
    PadDecimal(t.year, 4) + "-" + PadDecimal(t.month, 2) + "-" + PadDecimal(t.day, 2) + "T"
    + PadDecimal(t.hour, 2) + ":" + PadDecimal(t.minute, 2) + ":" + PadDecimal(t.second, 2) + "Z"
  }

  /** The `n` characters of `s` from `i` on are digits. */
  predicate DigitsIn(s: string, i: nat, n: nat) {
    i + n <= |s| && forall k :: i <= k < i + n ==> IsDigit(s[k])
  }

  /** The number written by the `n` digits of `s` from `i` on. */
  function DigitsAt(s: string, i: nat, n: nat): nat
    requires DigitsIn(s, i, n)
  {
    if n == 0 then 0 else DigitsAt(s, i, n - 1) * 10 + (s[i + n - 1] as int - '0' as int)
  }

  /** Reading the stored text back: exactly the fixed layout that
      `FormatRfc3339` writes for a four-digit year. */
  function ParseRfc3339(s: string): (r: Option<CivilTime>)
    ensures r.Some? ==> |s| == 20
  {
    if |s| == 20 && s[4] == '-' && s[7] == '-' && s[10] == 'T' && s[13] == ':' && s[16] == ':' && s[19] == 'Z'
       && DigitsIn(s, 0, 4) && DigitsIn(s, 5, 2) && DigitsIn(s, 8, 2)
       && DigitsIn(s, 11, 2) && DigitsIn(s, 14, 2) && DigitsIn(s, 17, 2)
    then Some(CivilTime(DigitsAt(s, 0, 4), DigitsAt(s, 5, 2), DigitsAt(s, 8, 2),
                        DigitsAt(s, 11, 2), DigitsAt(s, 14, 2), DigitsAt(s, 17, 2)))
    else None
  }

  lemma PadTwo(n: nat)
    requires n < 100
    ensures PadDecimal(n, 2) == [DigitChar(n / 10), DigitChar(n % 10)]
  {
  }

  lemma PadFour(n: nat)
    requires n < 10000
    ensures PadDecimal(n, 4) == [DigitChar(n / 1000), DigitChar(n / 100 % 10), DigitChar(n / 10 % 10), DigitChar(n % 10)]
  {
    assert n / 10 / 10 == n / 100 && n / 100 / 10 == n / 1000;
    assert PadDecimal(n / 1000, 1) == [DigitChar(n / 1000)];
  }

  /** Two digits at `i` read back as the number they pad. */
  lemma ReadTwo(s: string, i: nat, n: nat)
    requires n < 100 && i + 2 <= |s|
    requires s[i] == DigitChar(n / 10) && s[i + 1] == DigitChar(n % 10)
    ensures DigitsIn(s, i, 2) && DigitsAt(s, i, 2) == n
  {
    forall k | i <= k < i + 2 ensures IsDigit(s[k]) {
    }
    assert DigitsIn(s, i, 1) && DigitsIn(s, i, 0);
    assert DigitsAt(s, i, 1) == n / 10;
  }

  lemma FourDigitSplit(n: nat)
    requires n < 10000
    ensures n / 100 == n / 1000 * 10 + n / 100 % 10
    ensures n / 10 == n / 100 * 10 + n / 10 % 10
    ensures n == n / 10 * 10 + n % 10
  {
  }

  /** Four digits at the start read back as the number they pad. */
  lemma ReadFour(s: string, n: nat)
    requires n < 10000 && 4 <= |s|
    requires s[0] == DigitChar(n / 1000) && s[1] == DigitChar(n / 100 % 10)
    requires s[2] == DigitChar(n / 10 % 10) && s[3] == DigitChar(n % 10)
    ensures DigitsIn(s, 0, 4) && DigitsAt(s, 0, 4) == n
  {
    forall k | 0 <= k < 4 ensures IsDigit(s[k]) {
    }
    assert DigitsIn(s, 0, 3) && DigitsIn(s, 0, 2) && DigitsIn(s, 0, 1) && DigitsIn(s, 0, 0);
    FourDigitSplit(n);
    assert DigitsAt(s, 0, 1) == n / 1000;
    assert DigitsAt(s, 0, 2) == n / 100;
    assert DigitsAt(s, 0, 3) == n / 10;
  }

  /** The text a valid time with a four-digit year is stored as reads back
      as that same time. */
  lemma ParseFormat(t: CivilTime)
    requires ValidTime(t) && t.year < 10000
    ensures |FormatRfc3339(t)| == 20
    ensures ParseRfc3339(FormatRfc3339(t)) == Some(t)
  {
    PadFour(t.year);
    PadTwo(t.month);
    PadTwo(t.day);
    PadTwo(t.hour);
    PadTwo(t.minute);
    PadTwo(t.second);
    var s := FormatRfc3339(t);
    assert |s| == 20;
    ReadFour(s, t.year);
    ReadTwo(s, 5, t.month);
    ReadTwo(s, 8, t.day);
    ReadTwo(s, 11, t.hour);
    ReadTwo(s, 14, t.minute);
    ReadTwo(s, 17, t.second);
  }

  // ---------------------------------------------------------------------
  // Records
  // ---------------------------------------------------------------------

  /** A row of `links`; `lastViewedAt` is the stored RFC 3339 text. */
  datatype LinkRow = LinkRow(user: string, lastViewedAt: string, otherFields: map<string, string>)

  /** A row of `api_keys`. */
  datatype ApiKeyRow = ApiKeyRow(user: string, apiKey: string, name: string, expiresAt: string)

  /** The part of the record store this file uses. */
  class LynxStore {
    var collections: set<string>
    var links: map<string, LinkRow>
    var apiKeys: map<string, ApiKeyRow>

    constructor (collections: set<string>, links: map<string, LinkRow>, apiKeys: map<string, ApiKeyRow>)
      ensures this.collections == collections && this.links == links && this.apiKeys == apiKeys
    {
      this.collections := collections;
      this.links := links;
      this.apiKeys := apiKeys;
    }
  }

  // ---------------------------------------------------------------------
  // Recording a view
  // ---------------------------------------------------------------------

  /** The record a single-link view request loaded, which the hook may
      change before it is sent back. */
  class RecordViewEvent {
    const id: string
    var record: LinkRow

    constructor (id: string, record: LinkRow)
      ensures this.id == id && this.record == record
    {
      this.id := id;
      this.record := record;
    }
  }

  /** The hook acts only on the exact header value `true`. */
  predicate WantsViewRecorded(headers: map<string, string>) {
    Feeds.HeaderGet(headers, LinkViewer.UpdateLastViewedHeader) == "true"
  }

  /** The `OnRecordViewRequest("links")` hook. `now` is the clock and
      `saveError` the store's answer to the save. */
  method OnLinkViewRequest(e: RecordViewEvent, headers: map<string, string>, now: CivilTime,
                           store: LynxStore, saveError: Option<string>)
    returns (err: Option<string>)
    modifies e, store
    ensures store.collections == old(store.collections) && store.apiKeys == old(store.apiKeys)
    ensures !WantsViewRecorded(headers) ==>
              err.None? && e.record == old(e.record) && store.links == old(store.links)
    ensures WantsViewRecorded(headers) ==>
              e.record == old(e.record).(lastViewedAt := FormatRfc3339(now))
              && (saveError.None? ==> err.None? && store.links == old(store.links)[e.id := e.record])
              && (saveError.Some? ==> err == saveError && store.links == old(store.links))
  {
    var updateHeader := Feeds.HeaderGet(headers, LinkViewer.UpdateLastViewedHeader);
    if updateHeader != "true" {
      return None;
    }
    e.record := e.record.(lastViewedAt := FormatRfc3339(now));
    if saveError.Some? {
      return saveError;
    }
    store.links := store.links[e.id := e.record];
    return None;
  }

  /** The viewer page and the hook agree: the backend records the view
      exactly when the page asked for it. */
  lemma ViewerRequestRecordsView(id: string, updateLastViewedAt: bool)
    ensures WantsViewRecorded(LinkViewer.BuildRequest(id, updateLastViewedAt).headers) <==> updateLastViewedAt
  {
  }

  // ---------------------------------------------------------------------
  // API keys
  // ---------------------------------------------------------------------

  const ApiKeyLength := 32
  const ApiKeyValidMonths := 6

  /** The alphabet of `security.RandomString`. */
  predicate IsAlphanumeric(s: string) {
    forall i :: 0 <= i < |s| ==> ('a' <= s[i] <= 'z' || 'A' <= s[i] <= 'Z' || '0' <= s[i] <= '9')
  }

  /** The JSON body of a successful request. */
  datatype ApiKeyResponse = ApiKeyResponse(name: string, apiKey: string, expiresAt: string, id: string)

  /** The checks before a key is made, in order: authentication, then a
      non-empty name. */
  function GenerateKeyGuard(authUserId: Option<string>, name: string): (e: Option<ApiError>)
    ensures authUserId.None? ==> e == Some(Forbidden("Not authenticated"))
    ensures authUserId.Some? && name == "" ==> e == Some(BadRequest("'name' parameter is required"))
    ensures e.None? <==> authUserId.Some? && name != ""
  {
    if authUserId.None? then Some(Forbidden("Not authenticated"))
    else if name == "" then Some(BadRequest("'name' parameter is required"))
    else None
  }

  /** When a key made at `now` expires. */
  function KeyExpiry(now: CivilTime): (t: CivilTime)
    requires ValidTime(now)
    ensures ValidTime(t) && Before(now, t)
  {
    AddMonths(now, ApiKeyValidMonths)
  }

  /** The stored expiry reads back as a time after the key was made,
      six calendar months on (a few days more when the day of the month
      does not exist six months later). */
  lemma StoredExpiryIsLater(now: CivilTime)
    requires ValidTime(now) && now.year < 9999
    ensures var e := ParseRfc3339(FormatRfc3339(KeyExpiry(now)));
            e.Some? && e.value == KeyExpiry(now) && Before(now, e.value)
            && MonthIndex(now) + 6 <= MonthIndex(e.value) <= MonthIndex(now) + 7
  {
    var t := KeyExpiry(now);
    assert MonthIndex(t) <= MonthIndex(now) + 7;
    assert t.year <= now.year + 1;
    ParseFormat(t);
  }

  /** `handleGenerateAPIKey`. `randomKey` is what `RandomString(32)`
      returned, `now` the clock, `newId` the fresh id the store gives the row,
      `saveError` its answer to the save. */
  method HandleGenerateApiKey(store: LynxStore, authUserId: Option<string>, name: string,
                              randomKey: string, now: CivilTime, newId: string, saveError: Option<string>)
    returns (result: Result<ApiKeyResponse, ApiError>)
    requires |randomKey| == ApiKeyLength && IsAlphanumeric(randomKey)
    requires ValidTime(now)
    requires newId !in store.apiKeys
    modifies store
    ensures store.collections == old(store.collections) && store.links == old(store.links)
    ensures GenerateKeyGuard(authUserId, name).Some? ==>
              result == Failure(GenerateKeyGuard(authUserId, name).value) && store.apiKeys == old(store.apiKeys)
    ensures GenerateKeyGuard(authUserId, name).None? && "api_keys" !in store.collections ==>
              result == Failure(BadRequest("Failed to find api_keys collection"))
              && store.apiKeys == old(store.apiKeys)
    ensures GenerateKeyGuard(authUserId, name).None? && "api_keys" in store.collections && saveError.Some? ==>
              result == Failure(BadRequest("Failed to save API key")) && store.apiKeys == old(store.apiKeys)
    ensures GenerateKeyGuard(authUserId, name).None? && "api_keys" in store.collections && saveError.None? ==>
              var expires := FormatRfc3339(KeyExpiry(now));
              store.apiKeys == old(store.apiKeys)[newId := ApiKeyRow(authUserId.value, randomKey, name, expires)]
              && result == Success(ApiKeyResponse(name, randomKey, expires, newId))
    ensures result.Success? ==>
              var r := result.value;
              |r.apiKey| == ApiKeyLength && IsAlphanumeric(r.apiKey)
              && r.id in store.apiKeys && store.apiKeys[r.id].name == r.name
              && store.apiKeys[r.id].apiKey == r.apiKey && store.apiKeys[r.id].expiresAt == r.expiresAt
  {
    var guard := GenerateKeyGuard(authUserId, name);
    if guard.Some? {
      return Failure(guard.value);
    }
    var apiKey := randomKey;
    var expiresAt := KeyExpiry(now);
    if "api_keys" !in store.collections {
      return Failure(BadRequest("Failed to find api_keys collection"));
    }
    var record := ApiKeyRow(authUserId.value, apiKey, name, FormatRfc3339(expiresAt));
    if saveError.Some? {
      return Failure(BadRequest("Failed to save API key"));
    }
    store.apiKeys := store.apiKeys[newId := record];
    return Success(ApiKeyResponse(name, apiKey, FormatRfc3339(expiresAt), newId));
  }

  // ---------------------------------------------------------------------
  // Archiving
  // ---------------------------------------------------------------------

  const ArchiveStartedMessage := "Archive process started"

  /** The checks before an archive is started, in order: a link id, then
      authentication, then the link's existence, then its ownership. */
  function ArchiveGuard(linkId: string, authUserId: Option<string>, links: map<string, LinkRow>)
    : (e: Option<ApiError>)
    ensures linkId == "" ==> e == Some(NotFound("Link ID is required"))
    ensures linkId != "" && authUserId.None? ==> e == Some(Forbidden("Not authenticated"))
    ensures linkId != "" && authUserId.Some? && linkId !in links ==> e == Some(NotFound("Link not found"))
    ensures linkId != "" && authUserId.Some? && linkId in links && links[linkId].user != authUserId.value ==>
              e == Some(Forbidden("You don't have permission to archive this link"))
    ensures e.None? <==>
              linkId != "" && authUserId.Some? && linkId in links && links[linkId].user == authUserId.value
  {
    if linkId == "" then Some(NotFound("Link ID is required"))
    else if authUserId.None? then Some(Forbidden("Not authenticated"))
    else if linkId !in links then Some(NotFound("Link not found"))
    else if links[linkId].user != authUserId.value then
      Some(Forbidden("You don't have permission to archive this link"))
    else None
  }

  /** `handleArchiveLink`. `archived` is the id handed to the background
      archiver, if any; the store is only read. */
  method HandleArchiveLink(store: LynxStore, linkId: string, authUserId: Option<string>)
    returns (result: Result<string, ApiError>, archived: Option<string>)
    ensures ArchiveGuard(linkId, authUserId, store.links).Some? ==>
              result == Failure(ArchiveGuard(linkId, authUserId, store.links).value) && archived.None?
    ensures ArchiveGuard(linkId, authUserId, store.links).None? ==>
              result == Success(ArchiveStartedMessage) && archived == Some(linkId)
    ensures archived.Some? <==>
              linkId != "" && authUserId.Some? && linkId in store.links
              && store.links[linkId].user == authUserId.value
  {
    var guard := ArchiveGuard(linkId, authUserId, store.links);
    if guard.Some? {
      return Failure(guard.value), None;
    }
    return Success(ArchiveStartedMessage), Some(linkId);
  }
}
