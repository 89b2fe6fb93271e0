/**
 * The structured store (Notion) as the bot sees it: a database is a sequence of
 * pages, a page maps property names to typed property values, exactly the JSON
 * the bot builds and reads. The order of the sequence is the order in which a
 * database query returns the pages. A query returns one page of results: at most
 * `QueryPageSize` pages, since the bot never asks for the next page.
 */
module Notion {
  import opened Wrappers

  /** An element of a title or rich_text list; only text items carry `text.content`. */
  datatype RichItem = TextItem(content: string) | OtherItem(plainText: string)

  function PlainText(item: RichItem): string {
    match item
    case TextItem(c) => c
    case OtherItem(p) => p
  }

  /** The plain text of a whole rich_text list, which is what an `equals` filter compares. */
  function ItemsPlainText(items: seq<RichItem>): string
    decreases |items|
  {
    if items == [] then "" else PlainText(items[0]) + ItemsPlainText(items[1..])
  }

  /** One property value, by type. An empty select or date is `None`. */
  datatype Prop =
    | TitleProp(title: seq<RichItem>)
    | RichTextProp(richText: seq<RichItem>)
    | SelectProp(select: Option<string>)
    | StatusProp(status: string)
    | DateProp(date: Option<int>)
    | UrlProp(url: Option<string>)
    | EmailProp(email: Option<string>)

  /** The `properties` object of a page. */
  type Page = map<string, Prop>

  /** The one-element rich text the bot writes for a string. */
  function TextValue(s: string): seq<RichItem> {
    [TextItem(s)]
  }

  const QueryPageSize: nat := 100

  // ---------------------------------------------------------------- property readers

  /** The start instant of the page's `Date` property, if set. */
  function DateOf(page: Page): Option<int> {
    if "Date" in page && page["Date"].DateProp? then page["Date"].date else None
  }

  /** The plain text of the page's `ID` property. */
  function IdOf(page: Page): string {
    if "ID" in page && page["ID"].RichTextProp? then ItemsPlainText(page["ID"].richText) else ""
  }

  /** The name of the page's `Status` property; "" when it has none. */
  function StatusOf(page: Page): string {
    if "Status" in page && page["Status"].StatusProp? then page["Status"].status else ""
  }

  /** A date filter `on_or_after start` and `on_or_before end`. */
  predicate InWindow(page: Page, start: int, end: int) {
    DateOf(page).Some? && start <= DateOf(page).value <= end
  }

  // ---------------------------------------------------------------- queries

  /** Indices of all pages `keep` accepts, in store order. */
  function Matching(pages: seq<Page>, keep: Page -> bool): (idx: seq<nat>)
    ensures |idx| <= |pages|
    ensures forall k :: 0 <= k < |idx| ==> idx[k] < |pages| && keep(pages[idx[k]])
    ensures forall k, l :: 0 <= k < l < |idx| ==> idx[k] < idx[l]
    ensures forall j :: 0 <= j < |pages| && keep(pages[j]) ==> j in idx
    decreases |pages|
  {
    if pages == [] then []
    else
      var init := Matching(pages[..|pages| - 1], keep);
      if keep(pages[|pages| - 1]) then init + [|pages| - 1] else init
  }

  /** A filter nothing passes matches nothing. */
  lemma {:induction false} NothingMatches(pages: seq<Page>, keep: Page -> bool)
    requires forall j :: 0 <= j < |pages| ==> !keep(pages[j])
    ensures Matching(pages, keep) == []
    decreases |pages|
  {
    if pages != [] {
      NothingMatches(pages[..|pages| - 1], keep);
    }
  }

  /** The indices of the pages one query returns: the first page of matching results. */
  function QueryIndices(pages: seq<Page>, keep: Page -> bool): (idx: seq<nat>)
    ensures |idx| <= QueryPageSize
    ensures forall k :: 0 <= k < |idx| ==> idx[k] < |pages| && keep(pages[idx[k]])
    ensures forall k, l :: 0 <= k < l < |idx| ==> idx[k] < idx[l]
    ensures |Matching(pages, keep)| <= QueryPageSize ==> idx == Matching(pages, keep)
  {
    var all := Matching(pages, keep);
    if |all| <= QueryPageSize then all else all[..QueryPageSize]
  }

  /** The pages one query returns. */
  function Query(pages: seq<Page>, keep: Page -> bool): (results: seq<Page>)
    ensures |results| <= QueryPageSize
    ensures forall k :: 0 <= k < |results| ==> keep(results[k])
  {
    var idx := QueryIndices(pages, keep);
    seq(|idx|, k requires 0 <= k < |idx| => pages[idx[k]])
  }

  /** The pages of a store dated within `[start, end]`, as one query returns them. */
  function WindowQuery(pages: seq<Page>, start: int, end: int): (results: seq<Page>)
    ensures |results| <= QueryPageSize
    ensures forall k :: 0 <= k < |results| ==> InWindow(results[k], start, end)
  {
    Query(pages, p => InWindow(p, start, end))
  }

  // ---------------------------------------------------------------- the database

  /** One database of the store. */
  class Database {
    var pages: seq<Page>

    constructor (initial: seq<Page>)
      ensures pages == initial
    {
      pages := initial;
    }

    /** `pages.create`: the new page is added to the database. */
    method Create(page: Page)
      modifies this
      ensures pages == old(pages) + [page]
    {
      pages := pages + [page];
    }

    /** `pages.update`: the given properties replace those of the page; the others stay. */
    method Update(i: nat, props: Page)
      requires i < |pages|
      modifies this
      ensures pages == old(pages)[i := old(pages)[i] + props]
    {
      pages := pages[i := pages[i] + props];
    }
  }
}
