/** The tag settings page: slug generation, the sort toggle, the sorted view
    of the user's tags, and the create/delete flows. */
module TagSettings {
  import opened Wrappers

  // ---------------------------------------------------------------------
  // Slugs
  // ---------------------------------------------------------------------

  /** `\w` of a JavaScript regular expression without the `u` flag. */
  predicate IsWordChar(c: char) {
    'a' <= c <= 'z' || 'A' <= c <= 'Z' || '0' <= c <= '9' || c == '_'
  }

  /** `\s` of a JavaScript regular expression: the ECMAScript white space and
      line terminator characters. */
  predicate IsSpace(c: char) {
    '\t' <= c <= '\r' || c == ' ' || c == '\U{A0}' || c == '\U{1680}'
    || '\U{2000}' <= c <= '\U{200A}' || c == '\U{2028}' || c == '\U{2029}'
    || c == '\U{202F}' || c == '\U{205F}' || c == '\U{3000}' || c == '\U{FEFF}'
  }

  /** Characters that `[^\w\s-]` does not match. */
  predicate IsKept(c: char) {
    IsWordChar(c) || IsSpace(c) || c == '-'
  }

  /** The alphabet of a slug: `[a-z0-9_-]`. */
  predicate IsSlugChar(c: char) {
    'a' <= c <= 'z' || '0' <= c <= '9' || c == '_' || c == '-'
  }

  /** `toLowerCase` on one character, as far as it matters to a slug:
      ASCII capitals, and the two characters whose lower case contains an
      ASCII letter (U+0130 gives "i" and a combining dot, U+212A gives "k").
      Every other character is kept as it is; its real lower case is neither
      a word character, white space nor `-`, so the next step deletes it
      either way. */
  function LowerChar(c: char): (s: string)
    ensures 1 <= |s| <= 2
    ensures 'A' <= c <= 'Z' ==> s == [(c as int + 32) as char]
    ensures IsKept(c) && !('A' <= c <= 'Z') ==> s == [c]
  {
    if 'A' <= c <= 'Z' then [(c as int + 32) as char]
    else if c == '\U{130}' then ['i', '\U{307}']
    else if c == '\U{212A}' then ['k']
    else [c]
  }

  function ToLower(s: string): string
  {
    if s == [] then [] else LowerChar(s[0]) + ToLower(s[1..])
  }

  /** `.replace(/[^\w\s-]/g, "")`. */
  function StripDisallowed(s: string): string
  {
    if s == [] then [] else (if IsKept(s[0]) then [s[0]] else []) + StripDisallowed(s[1..])
  }

  /** The input after its leading white-space run. */
  function DropSpaces(s: string): (r: string)
    ensures |r| <= |s|
    ensures s != [] && IsSpace(s[0]) ==> |r| < |s|
    ensures r == [] || !IsSpace(r[0])
  {
    if s != [] && IsSpace(s[0]) then DropSpaces(s[1..]) else s
  }

  lemma {:induction false} DropSpacesFrom(s: string)
    ensures forall c | c in DropSpaces(s) :: c in s
    decreases |s|
  {
    if s != [] && IsSpace(s[0]) {
      DropSpacesFrom(s[1..]);
      assert forall c | c in s[1..] :: c in s;
    }
  }

  /** `.replace(/\s+/g, "-")`: every maximal white-space run becomes one `-`. */
  function ReplaceSpaceRuns(s: string): string
    decreases |s|
  {
    if s == [] then []
    else if IsSpace(s[0]) then "-" + ReplaceSpaceRuns(DropSpaces(s))
    else [s[0]] + ReplaceSpaceRuns(s[1..])
  }

  /** `generateSlug`. */
  function GenerateSlug(name: string): string
  {
    ReplaceSpaceRuns(StripDisallowed(ToLower(name)))
  }

  lemma {:induction false} StripAppend(a: string, b: string)
    ensures StripDisallowed(a + b) == StripDisallowed(a) + StripDisallowed(b)
    decreases |a|
  {
    if a == [] {
      assert a + b == b;
    } else {
      var head := if IsKept(a[0]) then [a[0]] else [];
      assert (a + b)[0] == a[0] && (a + b)[1..] == a[1..] + b;
      assert StripDisallowed(a + b) == head + StripDisallowed(a[1..] + b);
      StripAppend(a[1..], b);
      assert StripDisallowed(a) == head + StripDisallowed(a[1..]);
    }
  }

  /** After lower-casing and stripping, what remains is slug characters and
      white space, and no longer than the input. */
  lemma {:induction false} LowerStripShape(s: string)
    ensures |StripDisallowed(ToLower(s))| <= |s|
    ensures forall c | c in StripDisallowed(ToLower(s)) :: IsSlugChar(c) || IsSpace(c)
    decreases |s|
  {
    if s != [] {
      var head := LowerChar(s[0]);
      StripAppend(head, ToLower(s[1..]));
      LowerStripShape(s[1..]);
      var h := StripDisallowed(head);
      if |head| == 1 {
        assert head[1..] == [];
        assert |h| <= 1;
      } else {
        assert head == ['i', '\U{307}'];
        assert head[1..] == ['\U{307}'];
        assert head[1..][1..] == [];
        assert h == ['i'];
      }
      assert forall c | c in h :: IsSlugChar(c) || IsSpace(c);
    }
  }

  /** Replacing white-space runs leaves only slug characters and never
      lengthens its input, when the input holds slug characters and white
      space only. */
  lemma {:induction false} ReplaceShape(s: string)
    requires forall c | c in s :: IsSlugChar(c) || IsSpace(c)
    ensures |ReplaceSpaceRuns(s)| <= |s|
    ensures forall c | c in ReplaceSpaceRuns(s) :: IsSlugChar(c)
    decreases |s|
  {
    if s == [] {
    } else if IsSpace(s[0]) {
      var rest := DropSpaces(s);
      DropSpacesFrom(s);
      ReplaceShape(rest);
    } else {
      assert forall c | c in s[1..] :: c in s;
      ReplaceShape(s[1..]);
    }
  }

  /** A slug holds only `[a-z0-9_-]` (so no white space) and is never
      longer than the name it came from. */
  lemma SlugShape(name: string)
    ensures |GenerateSlug(name)| <= |name|
    ensures forall c | c in GenerateSlug(name) :: IsSlugChar(c)
  {
    LowerStripShape(name);
    ReplaceShape(StripDisallowed(ToLower(name)));
  }

  /** Lower-casing leaves a string alone when it leaves each character alone. */
  lemma {:induction false} LowerFixed(s: string)
    requires forall i :: 0 <= i < |s| ==> LowerChar(s[i]) == [s[i]]
    ensures ToLower(s) == s
    decreases |s|
  {
    if s != [] {
      LowerFixed(s[1..]);
      assert s == [s[0]] + s[1..];
    }
  }

  /** Stripping leaves a string of allowed characters alone. */
  lemma {:induction false} StripFixed(s: string)
    requires forall i :: 0 <= i < |s| ==> IsKept(s[i])
    ensures StripDisallowed(s) == s
    decreases |s|
  {
    if s != [] {
      StripFixed(s[1..]);
      assert s == [s[0]] + s[1..];
    }
  }

  /** Replacing white-space runs leaves a string of slug characters alone. */
  lemma {:induction false} ReplaceFixed(s: string)
    requires forall i :: 0 <= i < |s| ==> IsSlugChar(s[i])
    ensures ReplaceSpaceRuns(s) == s
    decreases |s|
  {
    if s != [] {
      ReplaceFixed(s[1..]);
      assert !IsSpace(s[0]);
      assert s == [s[0]] + s[1..];
    }
  }

  /** `generateSlug` is idempotent. */
  lemma SlugIdempotent(name: string)
    ensures GenerateSlug(GenerateSlug(name)) == GenerateSlug(name)
  {
    SlugShape(name);
    var slug := GenerateSlug(name);
    assert forall i :: 0 <= i < |slug| ==> IsSlugChar(slug[i]) by {
      forall i | 0 <= i < |slug| ensures IsSlugChar(slug[i]) {
        assert slug[i] in slug;
      }
    }
    LowerFixed(slug);
    StripFixed(slug);
    ReplaceFixed(slug);
  }

  /** A name of ASCII word characters and hyphens keeps every character,
      with capitals lower-cased. */
  lemma {:induction false} SlugOfPlainName(name: string)
    requires forall i :: 0 <= i < |name| ==> IsWordChar(name[i]) || name[i] == '-'
    ensures |GenerateSlug(name)| == |name|
    ensures forall i :: 0 <= i < |name| ==>
              GenerateSlug(name)[i] == if 'A' <= name[i] <= 'Z' then (name[i] as int + 32) as char else name[i]
  {
    var lower := ToLower(name);
    LowerPlain(name);
    assert forall i :: 0 <= i < |lower| ==> IsSlugChar(lower[i]);
    StripFixed(lower);
    ReplaceFixed(lower);
  }

  /** Lower-casing a name of ASCII word characters and hyphens works
      character by character and keeps the length. */
  lemma {:induction false} LowerPlain(s: string)
    requires forall i :: 0 <= i < |s| ==> IsWordChar(s[i]) || s[i] == '-'
    ensures |ToLower(s)| == |s|
    ensures forall i :: 0 <= i < |s| ==>
              ToLower(s)[i] == if 'A' <= s[i] <= 'Z' then (s[i] as int + 32) as char else s[i]
    decreases |s|
  {
    if s != [] {
      LowerPlain(s[1..]);
      var head := LowerChar(s[0]);
      assert |head| == 1;
      forall i | 1 <= i < |s|
        ensures ToLower(s)[i] == ToLower(s[1..])[i - 1]
      {
      }
    }
  }

  /** Characters outside `[\w\s-]` vanish, and the white space around them
      becomes one hyphen. */
  lemma SlugExampleSymbols()
    ensures GenerateSlug("A & b!") == "a-b"
  {
    LowerSymbols();
    StripSymbols();
    assert StripDisallowed("a & b!") == "a  b";
    ReplaceSymbols();
  }

  lemma ReplaceSymbols()
    ensures ReplaceSpaceRuns("a  b") == "a-b"
  {
    assert DropSpaces("  b") == "b";
  }

  lemma LowerSymbols()
    ensures ToLower("A & b!") == "a & b!"
  {
  }

  lemma StripSymbols()
    ensures StripDisallowed(" & b!") == "  b"
  {
    assert StripDisallowed("!") == "";
    assert StripDisallowed("b!") == "b";
    assert StripDisallowed(" b!") == " b";
    assert StripDisallowed("& b!") == " b";
  }

  /** No trimming: outer white space turns into outer hyphens. */
  lemma SlugExampleOuterSpace()
    ensures GenerateSlug("  x  ") == "-x-"
  {
  }

  /** Existing hyphens are not merged with the ones white space produces. */
  lemma SlugExampleHyphens()
    ensures GenerateSlug("a - b") == "a---b"
  {
    LowerHyphens();
    StripDisallowedHyphens();
    ReplaceHyphens();
  }

  lemma LowerHyphens()
    ensures ToLower("a - b") == "a - b"
  {
  }

  lemma ReplaceHyphens()
    ensures ReplaceSpaceRuns("a - b") == "a---b"
  {
    assert DropSpaces(" b") == "b";
    assert ReplaceSpaceRuns(" b") == "-b";
    assert ReplaceSpaceRuns("- b") == "--b";
    assert DropSpaces(" - b") == "- b";
    assert ReplaceSpaceRuns(" - b") == "---b";
  }

  lemma StripDisallowedHyphens()
    ensures StripDisallowed("a - b") == "a - b"
  {
  }

  // ---------------------------------------------------------------------
  // Sorting
  // ---------------------------------------------------------------------

  /** A row of the tag table as the user's tags arrive. */
  datatype TagRow = TagRow(id: string, name: string, slug: string, linkCount: int)

  datatype Direction = Asc | Desc

  datatype SortState = SortState(field: string, direction: Direction)

  const InitialSort := SortState("name", Asc)

  /** `handleSort`: the current field flips direction, another field is
      selected ascending. */
  function ClickSort(s: SortState, field: string): (r: SortState)
    ensures field == s.field ==> r.field == s.field && r.direction != s.direction
    ensures field != s.field ==> r == SortState(field, Asc)
  {
    if field == s.field then SortState(s.field, if s.direction == Asc then Desc else Asc)
    else SortState(field, Asc)
  }

  /** Two clicks on the current field restore the state. */
  lemma ClickTwice(s: SortState)
    ensures ClickSort(ClickSort(s, s.field), s.field) == s
  {
  }

  function Sign(x: int): (r: int)
    ensures -1 <= r <= 1
    ensures r < 0 <==> x < 0
    ensures r == 0 <==> x == 0
  {
    if x < 0 then -1 else if x > 0 then 1 else 0
  }

  /** `a.localeCompare(b)`, with the locale's collation given as a key
      (`collate`) whose order it follows. */
  function LocaleCompare(collate: string -> int, a: string, b: string): int
  {
    Sign(collate(a) - collate(b))
  }

  /** The comparator handed to `sort`. */
  function Compare(s: SortState, collate: string -> int, a: TagRow, b: TagRow): int
  {
    if s.field == "name" then
      if s.direction == Asc then LocaleCompare(collate, a.name, b.name) else LocaleCompare(collate, b.name, a.name)
    else if s.field == "link_count" then
      if s.direction == Asc then a.linkCount - b.linkCount else b.linkCount - a.linkCount
    else 0
  }

  /** The order the comparator follows, as a key: ascending or descending
      collation of the name, ascending or descending link count, or one key
      for every row when the field is neither. */
  function SortKey(s: SortState, collate: string -> int, t: TagRow): int
  {
    if s.field == "name" then
      if s.direction == Asc then collate(t.name) else -collate(t.name)
    else if s.field == "link_count" then
      if s.direction == Asc then t.linkCount else -t.linkCount
    else 0
  }

  /** The comparator puts `a` no later than `b` exactly when `a`'s key is no
      greater. */
  lemma CompareFollowsKey(s: SortState, collate: string -> int, a: TagRow, b: TagRow)
    ensures Compare(s, collate, a, b) <= 0 <==> SortKey(s, collate, a) <= SortKey(s, collate, b)
    ensures Compare(s, collate, a, b) == 0 <==> SortKey(s, collate, a) == SortKey(s, collate, b)
  {
  }

  /** Inserts `x` before the first row it does not compare after, so that it
      stays ahead of rows that compare equal. */
  function Insert(s: SortState, collate: string -> int, x: TagRow, rows: seq<TagRow>): (r: seq<TagRow>)
    ensures |r| == |rows| + 1
    ensures multiset(r) == multiset(rows) + multiset{x}
    ensures forall y | y in r :: y == x || y in rows
  {
    if rows == [] then [x]
    else if Compare(s, collate, x, rows[0]) <= 0 then [x] + rows
    else
      var tail := Insert(s, collate, x, rows[1..]);
      assert rows == [rows[0]] + rows[1..];
      [rows[0]] + tail
  }

  /** `sort` with the comparator: a stable sort of the rows. */
  function SortTags(s: SortState, collate: string -> int, rows: seq<TagRow>): (r: seq<TagRow>)
    ensures multiset(r) == multiset(rows)
  {
    if rows == [] then []
    else
      assert rows == [rows[0]] + rows[1..];
      Insert(s, collate, rows[0], SortTags(s, collate, rows[1..]))
  }

  ghost predicate SortedBy(s: SortState, collate: string -> int, rows: seq<TagRow>) {
    forall i, j :: 0 <= i < j < |rows| ==> Compare(s, collate, rows[i], rows[j]) <= 0
  }

  /** The rows of `rows` whose key is `k`, in their order. */
  function WithKey(s: SortState, collate: string -> int, rows: seq<TagRow>, k: int): seq<TagRow>
  {
    if rows == [] then []
    else (if SortKey(s, collate, rows[0]) == k then [rows[0]] else []) + WithKey(s, collate, rows[1..], k)
  }

  ghost predicate KeySorted(s: SortState, collate: string -> int, rows: seq<TagRow>) {
    forall i, j :: 0 <= i < j < |rows| ==> SortKey(s, collate, rows[i]) <= SortKey(s, collate, rows[j])
  }

  /** A row no greater than every row of a key-sorted list may go in front. */
  lemma ConsSorted(s: SortState, collate: string -> int, h: TagRow, t: seq<TagRow>)
    requires KeySorted(s, collate, t)
    requires forall y | y in t :: SortKey(s, collate, h) <= SortKey(s, collate, y)
    ensures KeySorted(s, collate, [h] + t)
  {
  }

  /** The head of a key-sorted list is no greater than any later row, and
      the rest is key-sorted. */
  lemma SortedParts(s: SortState, collate: string -> int, rows: seq<TagRow>)
    requires KeySorted(s, collate, rows) && rows != []
    ensures KeySorted(s, collate, rows[1..])
    ensures forall y | y in rows :: SortKey(s, collate, rows[0]) <= SortKey(s, collate, y)
  {
  }

  lemma {:induction false} InsertSorted(s: SortState, collate: string -> int, x: TagRow, rows: seq<TagRow>)
    requires KeySorted(s, collate, rows)
    ensures KeySorted(s, collate, Insert(s, collate, x, rows))
    decreases |rows|
  {
    if rows == [] {
      return;
    }
    SortedParts(s, collate, rows);
    CompareFollowsKey(s, collate, x, rows[0]);
    if Compare(s, collate, x, rows[0]) <= 0 {
      ConsSorted(s, collate, x, rows);
    } else {
      var rest := rows[1..];
      InsertSorted(s, collate, x, rest);
      var tail := Insert(s, collate, x, rest);
      forall y | y in tail ensures SortKey(s, collate, rows[0]) <= SortKey(s, collate, y) {
        if y != x {
          assert y in rest;
          assert y in rows;
        }
      }
      ConsSorted(s, collate, rows[0], tail);
    }
  }

  lemma {:induction false} SortKeySorted(s: SortState, collate: string -> int, rows: seq<TagRow>)
    ensures KeySorted(s, collate, SortTags(s, collate, rows))
    decreases |rows|
  {
    if rows != [] {
      SortKeySorted(s, collate, rows[1..]);
      InsertSorted(s, collate, rows[0], SortTags(s, collate, rows[1..]));
    }
  }

  /** The sorted rows are in the comparator's order. */
  lemma SortSorted(s: SortState, collate: string -> int, rows: seq<TagRow>)
    ensures SortedBy(s, collate, SortTags(s, collate, rows))
  {
    var r := SortTags(s, collate, rows);
    SortKeySorted(s, collate, rows);
    forall i, j | 0 <= i < j < |r| ensures Compare(s, collate, r[i], r[j]) <= 0 {
      CompareFollowsKey(s, collate, r[i], r[j]);
    }
  }

  lemma {:induction false} InsertStable(s: SortState, collate: string -> int, x: TagRow, rows: seq<TagRow>, k: int)
    ensures WithKey(s, collate, Insert(s, collate, x, rows), k)
            == (if SortKey(s, collate, x) == k then [x] else []) + WithKey(s, collate, rows, k)
    decreases |rows|
  {
    var head := if SortKey(s, collate, x) == k then [x] else [];
    if rows == [] {
      assert Insert(s, collate, x, rows) == [x];
      assert WithKey(s, collate, [x], k) == head + WithKey(s, collate, [], k);
    } else if Compare(s, collate, x, rows[0]) <= 0 {
      var r := [x] + rows;
      assert r[1..] == rows;
    } else {
      CompareFollowsKey(s, collate, x, rows[0]);
      var tail := Insert(s, collate, x, rows[1..]);
      InsertStable(s, collate, x, rows[1..], k);
      var r := [rows[0]] + tail;
      assert r[1..] == tail;
      assert WithKey(s, collate, r, k)
             == (if SortKey(s, collate, rows[0]) == k then [rows[0]] else []) + WithKey(s, collate, tail, k);
    }
  }

  /** Stability: among rows with equal keys the input order survives. */
  lemma {:induction false} SortStable(s: SortState, collate: string -> int, rows: seq<TagRow>, k: int)
    ensures WithKey(s, collate, SortTags(s, collate, rows), k) == WithKey(s, collate, rows, k)
    decreases |rows|
  {
    if rows != [] {
      SortStable(s, collate, rows[1..], k);
      InsertStable(s, collate, rows[0], SortTags(s, collate, rows[1..]), k);
    }
  }

  /** A field other than `name` and `link_count` makes every comparison 0,
      so the rows keep their order. */
  lemma {:induction false} UnknownFieldKeepsOrder(s: SortState, collate: string -> int, rows: seq<TagRow>)
    requires s.field != "name" && s.field != "link_count"
    ensures SortTags(s, collate, rows) == rows
    decreases |rows|
  {
    if rows != [] {
      UnknownFieldKeepsOrder(s, collate, rows[1..]);
      assert rows == [rows[0]] + rows[1..];
    }
  }

  // ---------------------------------------------------------------------
  // The page's state
  // ---------------------------------------------------------------------

  /** A call on the `tags` collection. */
  datatype TagRequest = CreateTag(name: string, slug: string, user: Option<string>) | DeleteTag(id: string)

  datatype Toast = Toast(description: string, destructive: bool)

  class TagsPage {
    var newTagName: string
    var sortField: string
    var sortDirection: Direction
    var isDeleteDialogOpen: bool
    var tagToDelete: Option<TagRow>
    /** The calls made on the `tags` collection, in order. */
    var sent: seq<TagRequest>
    /** How many times the tag list was re-fetched. */
    var refetches: nat

    constructor ()
      ensures newTagName == "" && Sort() == InitialSort
      ensures !isDeleteDialogOpen && tagToDelete == None && sent == [] && refetches == 0
    {
      newTagName := "";
      sortField := "name";
      sortDirection := Asc;
      isDeleteDialogOpen := false;
      tagToDelete := None;
      sent := [];
      refetches := 0;
    }

    function Sort(): SortState
      reads this
    {
      SortState(sortField, sortDirection)
    }

    /** `sortedTags`: a sorted copy; `tags` itself is a value and stays as
        it was. */
    function SortedTags(tags: seq<TagRow>, collate: string -> int): (r: seq<TagRow>)
      reads this
      ensures multiset(r) == multiset(tags)
    {
      SortTags(Sort(), collate, tags)
    }

    /** The name input's `onChange`. */
    method SetNewTagName(name: string)
      modifies this
      ensures newTagName == name
      ensures Sort() == old(Sort()) && sent == old(sent) && refetches == old(refetches)
      ensures isDeleteDialogOpen == old(isDeleteDialogOpen) && tagToDelete == old(tagToDelete)
    {
      newTagName := name;
    }

    method HandleSort(field: string)
      modifies this
      ensures Sort() == ClickSort(old(Sort()), field)
      ensures newTagName == old(newTagName) && sent == old(sent) && refetches == old(refetches)
      ensures isDeleteDialogOpen == old(isDeleteDialogOpen) && tagToDelete == old(tagToDelete)
    {
      var next := ClickSort(Sort(), field);
      sortField := next.field;
      sortDirection := next.direction;
    }

    /** `handleSubmit`: create `{name, slug, user}`; on success clear the
        input and re-fetch, on failure keep the input. */
    method HandleSubmit(userId: Option<string>, createFails: bool) returns (toast: Toast)
      modifies this
      ensures sent == old(sent) + [CreateTag(old(newTagName), GenerateSlug(old(newTagName)), userId)]
      ensures !createFails ==> newTagName == "" && refetches == old(refetches) + 1
      ensures createFails ==> newTagName == old(newTagName) && refetches == old(refetches)
      ensures toast.destructive == createFails
      ensures Sort() == old(Sort())
      ensures isDeleteDialogOpen == old(isDeleteDialogOpen) && tagToDelete == old(tagToDelete)
    {
      var slug := GenerateSlug(newTagName);
      sent := sent + [CreateTag(newTagName, slug, userId)];
      if createFails {
        toast := Toast("Failed to create tag. Please try again.", true);
      } else {
        newTagName := "";
        toast := Toast("Tag created successfully", false);
        refetches := refetches + 1;
      }
    }

    method HandleDeleteClick(tag: TagRow)
      modifies this
      ensures tagToDelete == Some(tag) && isDeleteDialogOpen
      ensures newTagName == old(newTagName) && Sort() == old(Sort())
      ensures sent == old(sent) && refetches == old(refetches)
    {
      tagToDelete := Some(tag);
      isDeleteDialogOpen := true;
    }

    /** `handleDeleteConfirm`: with no tag chosen nothing happens; otherwise
        the tag is deleted by id and, whatever the outcome, the dialog closes
        and the choice is cleared. */
    method HandleDeleteConfirm(deleteFails: bool) returns (toast: Option<Toast>)
      modifies this
      ensures old(tagToDelete).None? ==>
                toast == None && sent == old(sent) && refetches == old(refetches)
                && isDeleteDialogOpen == old(isDeleteDialogOpen) && tagToDelete == None
      ensures old(tagToDelete).Some? ==>
                sent == old(sent) + [DeleteTag(old(tagToDelete).value.id)]
                && !isDeleteDialogOpen && tagToDelete == None
                && toast.Some? && toast.value.destructive == deleteFails
                && refetches == old(refetches) + (if deleteFails then 0 else 1)
      ensures newTagName == old(newTagName) && Sort() == old(Sort())
    {
      if tagToDelete.None? {
        return None;
      }
      sent := sent + [DeleteTag(tagToDelete.value.id)];
      if deleteFails {
        toast := Some(Toast("Failed to delete tag. Please try again.", true));
      } else {
        toast := Some(Toast("Tag deleted successfully", false));
        refetches := refetches + 1;
      }
      isDeleteDialogOpen := false;
      tagToDelete := None;
    }
  }
}
