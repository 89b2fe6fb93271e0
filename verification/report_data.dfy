/**
 * How the report engine reads pages: the `extract_*` helpers, the select and
 * URL readers, and the records the detailed report lists for each database.
 * The records are read as the code reads them and checked against the pages
 * the bot itself writes, which is where two of them lose a field (see
 * `TechRecordAsWritten` and `AnalyticsRecordAsWritten`); the readers the
 * export needs are stated beside them (`TechRecord`, `AnalyticsRecord`).
 */
module ReportData {
  import opened Wrappers
  import opened Notion
  import opened Reddit
  import RedditToNotion
  import RedditCommentsToNotion
  import RedditToTelegram
  import CommunityHelper

  /** Why reading a report failed: an empty select whose name was asked for, or a database the store does not have. */
  datatype ReportError = EmptySelect(property: string) | UnknownDatabase(id: string)

  /** `props.get(key)`. */
  function Get(page: Page, key: string): Option<Prop> {
    if key in page then Some(page[key]) else None
  }

  /** `item.get("text", {}).get("content", "")`: only text items have content. */
  function ItemContent(item: RichItem): string {
    match item
    case TextItem(c) => c
    case OtherItem(_) => ""
  }

  // ---------------------------------------------------------------- extract_*

  /** `extract_date`: the start of a set date, rendered by `iso`; "" otherwise. */
  function ExtractDate(prop: Option<Prop>, iso: int -> string): (r: string)
    ensures prop.Some? && prop.value.DateProp? && prop.value.date.Some? ==> r == iso(prop.value.date.value)
    ensures prop.None? || !prop.value.DateProp? || prop.value.date.None? ==> r == ""
  {
    if prop.Some? && prop.value.DateProp? && prop.value.date.Some? then iso(prop.value.date.value) else ""
  }

  /** `extract_title`: the content of the first item of a non-empty title list; "" otherwise. */
  function ExtractTitle(prop: Option<Prop>): (r: string)
    ensures prop.Some? && prop.value.TitleProp? && prop.value.title != [] ==> r == ItemContent(prop.value.title[0])
    ensures prop.None? || !prop.value.TitleProp? || prop.value.title == [] ==> r == ""
  {
    if prop.Some? && prop.value.TitleProp? && |prop.value.title| > 0 then ItemContent(prop.value.title[0]) else ""
  }

  /** `extract_rich_text`: the content of the first item of a non-empty rich_text list; "" otherwise. */
  function ExtractRichText(prop: Option<Prop>): (r: string)
    ensures prop.Some? && prop.value.RichTextProp? && prop.value.richText != [] ==> r == ItemContent(prop.value.richText[0])
    ensures prop.None? || !prop.value.RichTextProp? || prop.value.richText == [] ==> r == ""
  {
    if prop.Some? && prop.value.RichTextProp? && |prop.value.richText| > 0 then ItemContent(prop.value.richText[0]) else ""
  }

  /** The extractors read back exactly what the bot writes: a one-item text list, and a set date. */
  lemma ExtractorsReadWrittenValues(s: string, t: int, iso: int -> string)
    ensures ExtractTitle(Some(TitleProp(TextValue(s)))) == s
    ensures ExtractRichText(Some(RichTextProp(TextValue(s)))) == s
    ensures ExtractDate(Some(DateProp(Some(t))), iso) == iso(t)
  {
  }

  // ---------------------------------------------------------------- select, url and email readers

  /**
   * `props.get(key, {}).get("select", {}).get("name")`: the name of a set
   * select, `None` for a missing property or another type, and an error for an
   * empty select (whose `None` has no `get`).
   */
  function SelectName(page: Page, key: string): (r: Result<Option<string>, ReportError>)
    ensures r.Err? <==> key in page && page[key] == SelectProp(None)
    ensures r.Err? ==> r.error == EmptySelect(key)
    ensures r.Ok? && r.value.Some? <==> key in page && page[key].SelectProp? && page[key].select.Some?
    ensures r.Ok? && r.value.Some? ==> r.value.value == page[key].select.value
  {
    if key !in page then Ok(None)
    else
      match page[key]
      case SelectProp(None) => Err(EmptySelect(key))
      case SelectProp(Some(name)) => Ok(Some(name))
      case _ => Ok(None)
  }

  /** The same read with `.get("name", "")`: "" where `SelectName` gives `None`. */
  function SelectNameOr(page: Page, key: string): (r: Result<string, ReportError>)
    ensures r.Err? <==> SelectName(page, key).Err?
    ensures r.Err? ==> r.error == EmptySelect(key)
    ensures r.Ok? ==> r.value == SelectName(page, key).value.GetOr("")
  {
    match SelectName(page, key)
    case Err(e) => Err(e)
    case Ok(name) => Ok(name.GetOr(""))
  }

  /** How an f-string shows a value that may be `None`. */
  function Shown(value: Option<string>): string {
    if value.None? then "None" else value.value
  }

  /** `props.get(key, {}).get("url", "")`. */
  function UrlText(page: Page, key: string): (r: string)
    ensures key in page && page[key].UrlProp? ==> r == Shown(page[key].url)
    ensures key !in page || !page[key].UrlProp? ==> r == ""
  {
    if key in page && page[key].UrlProp? then Shown(page[key].url) else ""
  }

  /** `props.get("Email", {}).get("email", "")`. */
  function EmailText(page: Page): (r: string)
    ensures "Email" in page && page["Email"].EmailProp? ==> r == Shown(page["Email"].email)
    ensures "Email" !in page || !page["Email"].EmailProp? ==> r == ""
  {
    if "Email" in page && page["Email"].EmailProp? then Shown(page["Email"].email) else ""
  }

  // ---------------------------------------------------------------- records of the detailed report

  /** One entry of the detailed report: field names and values, in the order they are written. */
  type Record = seq<(string, string)>

  /** An issue page's entry, with the platform value supplied. */
  function TechRecordWith(page: Page, iso: int -> string, platform: string): (r: Record)
    ensures |r| == 10 && r[3] == ("Platform", platform)
  {
    [ ("Date", ExtractDate(Get(page, "Date"), iso)),
      ("Username", ExtractTitle(Get(page, "Username"))),
      ("Title", ExtractRichText(Get(page, "Title"))),
      ("Platform", platform),
      ("URL", UrlText(page, "URL")),
      ("Description", ExtractRichText(Get(page, "Description"))),
      ("Status", StatusOf(page)),
      ("Email", EmailText(page)),
      ("Responsible moderator", ExtractRichText(Get(page, "Responsible moderator"))),
      ("Response from moderator", ExtractRichText(Get(page, "Response from moderator"))) ]
  }

  /** As written: the Platform select is read as rich text. */
  function TechRecordAsWritten(page: Page, iso: int -> string): Record {
    TechRecordWith(page, iso, ExtractRichText(Get(page, "Platform")))
  }

  /** The name of the page's Platform select; "" when it is missing or empty. */
  function PlatformName(page: Page): (r: string)
    ensures r != "" ==> "Platform" in page && page["Platform"] == SelectProp(Some(r))
    ensures "Platform" in page && page["Platform"].SelectProp? && page["Platform"].select.Some? ==> r == page["Platform"].select.value
  {
    if "Platform" in page && page["Platform"].SelectProp? && page["Platform"].select.Some? then page["Platform"].select.value else ""
  }

  /** An issue page's entry as the export needs it: the platform is the select's name. */
  function TechRecord(page: Page, iso: int -> string): Record {
    TechRecordWith(page, iso, PlatformName(page))
  }

  /** As written, no page with a Platform select ever shows its platform. */
  lemma PlatformLostAsWritten(page: Page, iso: int -> string)
    requires "Platform" in page && page["Platform"].SelectProp?
    ensures TechRecordAsWritten(page, iso)[3] == ("Platform", "")
  {
  }

  /** Every issue the bot files shows its platform: "Reddit" for forum posts, "Discord" for help requests. */
  lemma TechRecordShowsPlatform(post: Submission, dbId: Option<string>, name: string, text: string, requestId: string, now: int, iso: int -> string)
    ensures RedditToNotion.PostPage(post, dbId).Ok? ==> TechRecord(RedditToNotion.PostPage(post, dbId).value, iso)[3] == ("Platform", "Reddit")
    ensures TechRecord(CommunityHelper.HelpRequestPage(name, text, requestId, now), iso)[3] == ("Platform", "Discord")
  {
  }

  /**
   * A filed help request reads back as the export lists it: who sent it, its text
   * as title and description and its queue status, with the platform lost.
   */
  lemma HelpRequestRecord(name: string, text: string, requestId: string, now: int, iso: int -> string)
    ensures TechRecordAsWritten(CommunityHelper.HelpRequestPage(name, text, requestId, now), iso) ==
      [ ("Date", iso(now)), ("Username", name), ("Title", text), ("Platform", ""), ("URL", ""),
        ("Description", text), ("Status", "In queue"), ("Email", ""), ("Responsible moderator", ""),
        ("Response from moderator", "") ]
  {
    var page := CommunityHelper.HelpRequestPage(name, text, requestId, now);
    assert "URL" !in page && "Email" !in page && "Responsible moderator" !in page && "Response from moderator" !in page;
  }

  /** A YouTube comment's entry; an empty Profile or Author select fails the read. */
  function YoutubeRecord(page: Page, iso: int -> string): (r: Result<Record, ReportError>)
    ensures r.Err? <==> SelectName(page, "Profile").Err? || SelectName(page, "Author ( Community Manager )").Err?
    ensures r.Ok? ==> |r.value| == 6
  {
    match SelectNameOr(page, "Profile")
    case Err(e) => Err(e)
    case Ok(profile) =>
      match SelectNameOr(page, "Author ( Community Manager )")
      case Err(e) => Err(e)
      case Ok(author) =>
        Ok([ ("Date", ExtractDate(Get(page, "Date"), iso)),
             ("Youtube Channel", ExtractRichText(Get(page, "Youtube Channel"))),
             ("Link to the video", UrlText(page, "Link to the video")),
             ("Text of the comment", ExtractRichText(Get(page, "Text of the comment"))),
             ("Profile", profile),
             ("Author ( Community Manager )", author) ])
  }

  /** A mirrored forum comment's entry. */
  function RedditCommentRecord(page: Page, iso: int -> string): (r: Record)
    ensures |r| == 4
  {
    [ ("Date", ExtractDate(Get(page, "Date"), iso)),
      ("Username", ExtractTitle(Get(page, "Username"))),
      ("Comment Text", ExtractRichText(Get(page, "Comment Text"))),
      ("URL", UrlText(page, "URL")) ]
  }

  /** A mirrored comment reads back whole: date, author, text and link. */
  lemma CommentRecordRoundTrip(c: Comment, dbId: Option<string>, iso: int -> string)
    requires RedditCommentsToNotion.CommentPage(c, dbId).Ok?
    ensures RedditCommentRecord(RedditCommentsToNotion.CommentPage(c, dbId).value, iso) ==
      [ ("Date", iso(c.createdUtc)), ("Username", c.author.value), ("Comment Text", c.body),
        ("URL", RedditCommentsToNotion.CommentUrl(c.permalink)) ]
  {
    RedditCommentsToNotion.CommentPageShape(c, dbId);
  }

  /** An analytics page's entry, with the title value supplied; an empty Reaction select fails the read. */
  function AnalyticsRecordWith(page: Page, iso: int -> string, title: string): (r: Result<Record, ReportError>)
    ensures r.Err? <==> SelectName(page, "Reaction").Err?
    ensures r.Ok? ==> |r.value| == 4 && r.value[1] == ("Title", title)
  {
    match SelectNameOr(page, "Reaction")
    case Err(e) => Err(e)
    case Ok(reaction) =>
      Ok([ ("Date", ExtractDate(Get(page, "Date"), iso)),
           ("Title", title),
           ("Reaction", reaction),
           ("URL", UrlText(page, "URL")) ])
  }

  /** As written: the Title, a title property, is read as rich text. */
  function AnalyticsRecordAsWritten(page: Page, iso: int -> string): Result<Record, ReportError> {
    AnalyticsRecordWith(page, iso, ExtractRichText(Get(page, "Title")))
  }

  /** The analytics entry as the export needs it: the title read as a title. */
  function AnalyticsRecord(page: Page, iso: int -> string): Result<Record, ReportError> {
    AnalyticsRecordWith(page, iso, ExtractTitle(Get(page, "Title")))
  }

  /** A stored reaction reads back whole: date, the post's title, the reaction and the link. */
  lemma ReactionRecordRoundTrip(data: RedditToTelegram.RedditData, reaction: string, now: int, iso: int -> string)
    ensures AnalyticsRecord(RedditToTelegram.ReactionPage(data, reaction, now), iso) ==
      Ok([("Date", iso(now)), ("Title", data.title), ("Reaction", reaction), ("URL", data.url)])
  {
  }

  /** As written, every stored reaction is listed with an empty title, whatever post it was about. */
  lemma TitleLostAsWritten(data: RedditToTelegram.RedditData, reaction: string, now: int, iso: int -> string)
    ensures AnalyticsRecordAsWritten(RedditToTelegram.ReactionPage(data, reaction, now), iso).Ok?
    ensures AnalyticsRecordAsWritten(RedditToTelegram.ReactionPage(data, reaction, now), iso).value[1] == ("Title", "")
  {
  }

  /** The four databases the detailed report lists. */
  datatype RecordKind = TechRecords | YoutubeRecords | CommentRecords | AnalyticsRecords

  /** One page's entry, read the way its section's code reads it. */
  function ReadRecord(kind: RecordKind, page: Page, iso: int -> string): Result<Record, ReportError> {
    match kind
    case TechRecords => Ok(TechRecordAsWritten(page, iso))
    case YoutubeRecords => YoutubeRecord(page, iso)
    case CommentRecords => Ok(RedditCommentRecord(page, iso))
    case AnalyticsRecords => AnalyticsRecordAsWritten(page, iso)
  }

  /** Read outcomes in order, gathered: the entries of all of them, or the first failure. */
  function Gather(outcomes: seq<Result<Record, ReportError>>): (r: Result<seq<Record>, ReportError>)
    ensures r.Ok? ==> |r.value| == |outcomes| && forall k :: 0 <= k < |outcomes| ==> outcomes[k] == Ok(r.value[k])
    ensures r.Err? <==> exists k :: 0 <= k < |outcomes| && outcomes[k].Err?
    ensures r.Err? ==> exists k :: 0 <= k < |outcomes| && outcomes[k] == Err(r.error) && forall j :: 0 <= j < k ==> outcomes[j].Ok?
    decreases |outcomes|
  {
    if outcomes == [] then Ok([])
    else
      var n := |outcomes| - 1;
      var init := Gather(outcomes[..n]);
      assert forall k :: 0 <= k < n ==> outcomes[..n][k] == outcomes[k];
      if init.Err? then Err(init.error)
      else if outcomes[n].Err? then Err(outcomes[n].error)
      else Ok(init.value + [outcomes[n].value])
  }

  /** Once a prefix of the outcomes fails, the whole list fails with the same error. */
  lemma {:induction false} FailureStands(outcomes: seq<Result<Record, ReportError>>, j: nat)
    requires j <= |outcomes| && Gather(outcomes[..j]).Err?
    ensures Gather(outcomes) == Gather(outcomes[..j])
    decreases |outcomes| - j
  {
    if j < |outcomes| {
      assert outcomes[..j + 1][..j] == outcomes[..j];
      FailureStands(outcomes, j + 1);
    } else {
      assert outcomes[..j] == outcomes;
    }
  }

  /** One more read: its entry is appended, or its failure fails the whole list. */
  lemma GatherStep(outcomes: seq<Result<Record, ReportError>>, i: nat, details: seq<Record>)
    requires i < |outcomes| && Gather(outcomes[..i]) == Ok(details)
    ensures outcomes[i].Ok? ==> Gather(outcomes[..i + 1]) == Ok(details + [outcomes[i].value])
    ensures outcomes[i].Err? ==> Gather(outcomes) == Err(outcomes[i].error)
  {
    assert outcomes[..i + 1][..i] == outcomes[..i];
    if outcomes[i].Err? {
      FailureStands(outcomes, i + 1);
    }
  }

  /** Each page read the way its section outcomes it. */
  function Outcomes(pages: seq<Page>, kind: RecordKind, iso: int -> string): (outcomes: seq<Result<Record, ReportError>>)
    ensures |outcomes| == |pages| && forall k :: 0 <= k < |pages| ==> outcomes[k] == ReadRecord(kind, pages[k], iso)
  {
    seq(|pages|, k requires 0 <= k < |pages| => ReadRecord(kind, pages[k], iso))
  }

  /** Entries for a list of pages, in order; the first failed read fails the whole list. */
  function AllRecords(pages: seq<Page>, kind: RecordKind, iso: int -> string): Result<seq<Record>, ReportError> {
    Gather(Outcomes(pages, kind, iso))
  }

  /** Only the YouTube and analytics sections can fail, and only on an empty select. */
  lemma RecordsFailOnEmptySelect(pages: seq<Page>, kind: RecordKind, iso: int -> string)
    ensures kind == TechRecords || kind == CommentRecords ==> AllRecords(pages, kind, iso).Ok?
    ensures AllRecords(pages, kind, iso).Err? ==> AllRecords(pages, kind, iso).error.EmptySelect?
  {
    var outcomes := Outcomes(pages, kind, iso);
    var r := Gather(outcomes);
    if r.Err? {
      var k :| 0 <= k < |outcomes| && outcomes[k] == Err(r.error) && forall j :: 0 <= j < k ==> outcomes[j].Ok?;
      assert ReadRecord(kind, pages[k], iso) == Err(r.error);
    }
  }

  /** The loop of a `get_detailed_*` helper: one entry appended per page. */
  method CollectRecords(pages: seq<Page>, kind: RecordKind, iso: int -> string) returns (r: Result<seq<Record>, ReportError>)
    ensures r == AllRecords(pages, kind, iso)
  {
    ghost var outcomes := Outcomes(pages, kind, iso);
    var details: seq<Record> := [];
    var i := 0;
    while i < |pages|
      invariant 0 <= i <= |pages|
      invariant Gather(outcomes[..i]) == Ok(details)
    {
      GatherStep(outcomes, i, details);
      var entry := ReadRecord(kind, pages[i], iso);
      if entry.Err? {
        return Err(entry.error);
      }
      details := details + [entry.value];
      i := i + 1;
    }
    assert outcomes[..i] == outcomes;
    r := Ok(details);
  }
}
