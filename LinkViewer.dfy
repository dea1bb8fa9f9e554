/** The link detail hook: with no session it sends nothing; otherwise it
    issues one fixed `getOne` request on the `links` collection and maps the
    raw record into a `LinkView`, keeping loading, error and result state. */
module LinkViewer {
  import opened Wrappers

  /** A point in time as produced by `new Date(...)`; the parser is opaque. */
  type Date = int

  datatype Tag = Tag(id: string, name: string, slug: string)

  /** A tag record as the expansion returns it: the three projected fields
      and whatever else the record carries. */
  datatype TagRecord = TagRecord(id: string, name: string, slug: string, otherFields: map<string, string>)

  /** `expand` of the raw record; `tags` may itself be missing. */
  datatype Expand = Expand(tags: Option<seq<TagRecord>>)

  /** The record as the server returns it. `null` is `None`. */
  datatype RawLink = RawLink(
    id: string,
    articleDate: Option<string>,
    author: Option<string>,
    excerpt: Option<string>,
    expand: Option<Expand>,
    headerImageUrl: Option<string>,
    hostname: Option<string>,
    lastViewedAt: Option<string>,
    readTimeDisplay: Option<string>,
    tags: seq<string>,
    cleanedUrl: Option<string>,
    articleHtml: Option<string>,
    readingProgress: Option<real>,
    title: Option<string>)

  datatype LinkView = LinkView(
    id: string,
    articleDate: Option<Date>,
    author: Option<string>,
    excerpt: Option<string>,
    headerImageUrl: Option<string>,
    hostname: Option<string>,
    lastViewedAt: Option<Date>,
    readTimeDisplay: Option<string>,
    tags: seq<Tag>,
    title: Option<string>,
    cleanedUrl: Option<string>,
    articleHtml: Option<string>,
    readingProgress: Option<real>)

  /** `client.collection(collection).getOne(id, {expand, fields, headers})`.
      `fields` holds the list before it is joined; `FieldsOption` is the
      string sent. */
  datatype GetOneRequest = GetOneRequest(
    collection: string,
    id: string,
    expand: string,
    fields: seq<string>,
    headers: map<string, string>)

  const UpdateLastViewedHeader := "X-Lynx-Update-Last-Viewed"

  /** The projection the request asks for, in the source's order. */
  const FieldList: seq<string> := [
    "id", "article_date", "author", "excerpt", "header_image_url", "hostname",
    "last_viewed_at", "read_time_display", "title", "tags", "cleaned_url",
    "article_html", "reading_progress", "expand.tags.*"]

  /** `parts.join(sep)`. */
  function Join(parts: seq<string>, sep: char): (s: string)
    decreases |parts|
  {
    if parts == [] then ""
    else if |parts| == 1 then parts[0]
    else parts[0] + [sep] + Join(parts[1..], sep)
  }

  /** `s.split(sep)`, which always yields at least one piece. */
  function Split(s: string, sep: char): (pieces: seq<string>)
    ensures |pieces| >= 1
    decreases |s|
  {
    if s == [] then [""]
    else
      var rest := Split(s[1..], sep);
      if s[0] == sep then [""] + rest else [[s[0]] + rest[0]] + rest[1..]
  }

  /** Splitting after a piece free of the separator extends that piece. */
  lemma {:induction false} SplitPrefix(x: string, t: string, sep: char)
    requires sep !in x
    ensures Split(x + t, sep) == [x + Split(t, sep)[0]] + Split(t, sep)[1..]
    decreases |x|
  {
    if x == [] {
      assert x + t == t;
      assert x + Split(t, sep)[0] == Split(t, sep)[0];
      assert Split(t, sep) == [Split(t, sep)[0]] + Split(t, sep)[1..];
    } else {
      assert (x + t)[1..] == x[1..] + t;
      SplitPrefix(x[1..], t, sep);
      assert [x[0]] + (x[1..] + Split(t, sep)[0]) == x + Split(t, sep)[0];
    }
  }

  /** The server recovers exactly the parts of a join when no part contains
      the separator. */
  lemma {:induction false} SplitJoin(parts: seq<string>, sep: char)
    requires |parts| >= 1
    requires forall i :: 0 <= i < |parts| ==> sep !in parts[i]
    ensures Split(Join(parts, sep), sep) == parts
    decreases |parts|
  {
    if |parts| == 1 {
      SplitPrefix(parts[0], "", sep);
      assert parts[0] + "" == parts[0];
    } else {
      var rest := Join(parts[1..], sep);
      SplitJoin(parts[1..], sep);
      assert parts[0] + [sep] + rest == parts[0] + ([sep] + rest);
      SplitPrefix(parts[0], [sep] + rest, sep);
      assert ([sep] + rest)[1..] == rest;
      assert Split([sep] + rest, sep) == [""] + parts[1..];
      assert parts[0] + "" == parts[0];
    }
  }

  /** The request `runQuery` issues for `id`. */
  function BuildRequest(id: string, updateLastViewedAt: bool): (r: GetOneRequest)
    ensures r.collection == "links" && r.id == id && r.expand == "tags"
    ensures r.fields == FieldList
    ensures UpdateLastViewedHeader in r.headers <==> updateLastViewedAt
    ensures updateLastViewedAt ==> r.headers == map[UpdateLastViewedHeader := "true"]
    ensures !updateLastViewedAt ==> r.headers == map[]
  {
    GetOneRequest("links", id, "tags", FieldList,
                  if updateLastViewedAt then map[UpdateLastViewedHeader := "true"] else map[])
  }

  /** The `fields` option as sent: `fields.join(",")`. */
  function FieldsOption(r: GetOneRequest): string
  {
    Join(r.fields, ',')
  }

  /** Every request names the same fourteen fields, and the server reads
      back exactly those fourteen from the joined string. */
  lemma RequestFields(id: string, updateLastViewedAt: bool)
    ensures |FieldList| == 14
    ensures Split(FieldsOption(BuildRequest(id, updateLastViewedAt)), ',') == FieldList
  {
    forall i | 0 <= i < |FieldList| ensures ',' !in FieldList[i] {
    }
    SplitJoin(FieldList, ',');
  }

  /** `{id, name, slug}` of each expanded tag, in the server's order; a
      missing expansion gives the empty list, never null. */
  function ResolveTags(expand: Option<Expand>): (tags: seq<Tag>)
    ensures expand.None? || expand.value.tags.None? ==> tags == []
    ensures expand.Some? && expand.value.tags.Some? ==>
              |tags| == |expand.value.tags.value|
              && forall i :: 0 <= i < |tags| ==>
                   var t := expand.value.tags.value[i];
                   tags[i] == Tag(t.id, t.name, t.slug)
  {
    if expand.Some? && expand.value.tags.Some? then
      var records := expand.value.tags.value;
      seq(|records|, i requires 0 <= i < |records| => Tag(records[i].id, records[i].name, records[i].slug))
    else []
  }

  /** `x ? new Date(x) : null`: an empty or null string gives null. */
  function ParseOptionalDate(x: Option<string>, parseDate: string -> Date): (d: Option<Date>)
    ensures d.None? <==> x.None? || x.value == ""
    ensures d.Some? ==> d.value == parseDate(x.value)
  {
    if x.Some? && x.value != "" then Some(parseDate(x.value)) else None
  }

  /** The result mapping of `runQuery`. */
  function ToLinkView(raw: RawLink, parseDate: string -> Date): (v: LinkView)
    ensures v.id == raw.id && v.author == raw.author && v.excerpt == raw.excerpt
    ensures v.headerImageUrl == raw.headerImageUrl && v.hostname == raw.hostname
    ensures v.readTimeDisplay == raw.readTimeDisplay && v.title == raw.title
    ensures v.cleanedUrl == raw.cleanedUrl && v.articleHtml == raw.articleHtml
    ensures v.readingProgress == raw.readingProgress
    ensures v.articleDate.None? <==> raw.articleDate.None? || raw.articleDate.value == ""
    ensures v.lastViewedAt.None? <==> raw.lastViewedAt.None? || raw.lastViewedAt.value == ""
    ensures v.articleDate.Some? ==> v.articleDate.value == parseDate(raw.articleDate.value)
    ensures v.lastViewedAt.Some? ==> v.lastViewedAt.value == parseDate(raw.lastViewedAt.value)
    ensures v.tags == ResolveTags(raw.expand)
  {
    LinkView(
      raw.id,
      ParseOptionalDate(raw.articleDate, parseDate),
      raw.author,
      raw.excerpt,
      raw.headerImageUrl,
      raw.hostname,
      ParseOptionalDate(raw.lastViewedAt, parseDate),
      raw.readTimeDisplay,
      ResolveTags(raw.expand),
      raw.title,
      raw.cleanedUrl,
      raw.articleHtml,
      raw.readingProgress)
  }

  /** What the hook returns. `hasRefetch` says whether `refetch` is a
      function (true) or null (false). */
  datatype QueryResult = QueryResult(loading: bool, error: Option<string>, result: Option<LinkView>, hasRefetch: bool)

  const Unauthenticated := QueryResult(false, None, None, false)

  /** The hook's state for one mounted component. `authUserId` is the id of
      the session's auth model, `None` when there is no session. `sent`
      records every request issued. */
  class LinkViewerQuery {
    var id: string
    var updateLastViewedAt: bool
    var authUserId: Option<string>
    var link: Option<LinkView>
    var loading: bool
    var error: Option<string>
    var sent: seq<GetOneRequest>

    constructor (id: string, updateLastViewedAt: bool, authUserId: Option<string>)
      ensures this.id == id && this.updateLastViewedAt == updateLastViewedAt
      ensures this.authUserId == authUserId
      ensures link == None && loading && error == None && sent == []
    {
      this.id := id;
      this.updateLastViewedAt := updateLastViewedAt;
      this.authUserId := authUserId;
      link := None;
      loading := true;
      error := None;
      sent := [];
    }

    /** The hook's return value on the current render. */
    function Result(): (r: QueryResult)
      reads this
      ensures authUserId.None? ==> r == Unauthenticated
      ensures authUserId.Some? ==>
                r.hasRefetch && r.loading == loading && r.error == error && r.result == link
    {
      if authUserId.None? then Unauthenticated
      else QueryResult(loading, error, link, true)
    }

    /** The synchronous part of `fetchData`: loading on, error cleared, the
        request issued; the link shown so far stays. */
    method BeginFetch() returns (request: GetOneRequest)
      requires authUserId.Some?
      modifies this
      ensures request == BuildRequest(id, updateLastViewedAt)
      ensures sent == old(sent) + [request]
      ensures loading && error == None && link == old(link)
      ensures id == old(id) && authUserId == old(authUserId) && updateLastViewedAt == old(updateLastViewedAt)
    {
      loading := true;
      error := None;
      request := BuildRequest(id, updateLastViewedAt);
      sent := sent + [request];
    }

    /** The part of `fetchData` after the response: on success the link is
        replaced, on failure the error is set and the old link kept; either
        way loading ends. */
    method CompleteFetch(outcome: Result<RawLink, string>, parseDate: string -> Date)
      modifies this
      ensures !loading
      ensures outcome.Success? ==> link == Some(ToLinkView(outcome.value, parseDate)) && error == old(error)
      ensures outcome.Failure? ==> link == old(link) && error == Some(outcome.error)
      ensures sent == old(sent) && id == old(id) && authUserId == old(authUserId)
      ensures updateLastViewedAt == old(updateLastViewedAt)
    {
      match outcome {
        case Success(raw) =>
          link := Some(ToLinkView(raw, parseDate));
        case Failure(e) =>
          error := Some(e);
      }
      loading := false;
    }

    /** `fetchData` with the response already in hand. */
    method FetchData(outcome: Result<RawLink, string>, parseDate: string -> Date)
      requires authUserId.Some?
      modifies this
      ensures sent == old(sent) + [BuildRequest(id, updateLastViewedAt)]
      ensures !loading
      ensures outcome.Success? ==> link == Some(ToLinkView(outcome.value, parseDate)) && error == None
      ensures outcome.Failure? ==> link == old(link) && error == Some(outcome.error)
      ensures id == old(id) && authUserId == old(authUserId) && updateLastViewedAt == old(updateLastViewedAt)
    {
      var _ := BeginFetch();
      CompleteFetch(outcome, parseDate);
    }

    /** A later render with the hook's current arguments. `fetchData` is
        rebuilt with the current flag on every render, but the effect re-runs
        it only when `id` or the session user's id changed; otherwise only
        the flag a later refetch will send is updated. */
    method Rerender(newId: string, newUpdateLastViewedAt: bool, newUserId: string,
                    outcome: Result<RawLink, string>, parseDate: string -> Date)
      requires authUserId.Some?
      modifies this
      ensures id == newId && authUserId == Some(newUserId) && updateLastViewedAt == newUpdateLastViewedAt
      ensures newId != old(id) || newUserId != old(authUserId).value ==>
                sent == old(sent) + [BuildRequest(newId, newUpdateLastViewedAt)] && !loading
                && (outcome.Success? ==> link == Some(ToLinkView(outcome.value, parseDate)) && error == None)
                && (outcome.Failure? ==> link == old(link) && error == Some(outcome.error))
      ensures newId == old(id) && newUserId == old(authUserId).value ==>
                sent == old(sent) && link == old(link) && loading == old(loading) && error == old(error)
    {
      var changed := newId != id || newUserId != authUserId.value;
      id := newId;
      updateLastViewedAt := newUpdateLastViewedAt;
      authUserId := Some(newUserId);
      if changed {
        FetchData(outcome, parseDate);
      }
    }
  }

  /** Mounting the hook: with a session the effect fetches once; without
      one, nothing is sent and the hook reports the unauthenticated result. */
  method Mount(id: string, updateLastViewedAt: bool, authUserId: Option<string>,
               outcome: Result<RawLink, string>, parseDate: string -> Date)
    returns (hook: LinkViewerQuery)
    ensures authUserId.None? ==> hook.sent == [] && hook.Result() == Unauthenticated
    ensures authUserId.Some? ==>
              hook.sent == [BuildRequest(id, updateLastViewedAt)] && hook.Result().hasRefetch
              && !hook.Result().loading
    ensures authUserId.Some? && outcome.Success? ==>
              hook.Result().result == Some(ToLinkView(outcome.value, parseDate)) && hook.Result().error == None
    ensures authUserId.Some? && outcome.Failure? ==>
              hook.Result().result == None && hook.Result().error == Some(outcome.error)
    ensures fresh(hook)
  {
    hook := new LinkViewerQuery(id, updateLastViewedAt, authUserId);
    if authUserId.Some? {
      hook.FetchData(outcome, parseDate);
    }
  }
}
