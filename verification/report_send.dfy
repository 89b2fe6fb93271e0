/**
 * `send_report`: gather a period's figures from the databases, post the digest
 * to the support chat, then post the detailed export as a document. A failure
 * while gathering the figures ends the run before anything is sent; a failure
 * while sending or exporting is caught, and what was sent stays sent.
 */
module ReportSend {
  import opened Wrappers
  import opened Text
  import opened Notion
  import opened Messaging
  import opened Calendar
  import opened ReportSchedule
  import opened ReportData
  import opened ReportCounts
  import opened ReportText

  /**
   * The database ids of the bot's configuration. `youtubeDb` is "" when its
   * variable is unset or empty; `commentsDb` is the database the comment mirror
   * files comments in, which the report as written never reads (it derives
   * its comments database from `techDb`, see `CommentsDbAsWritten`).
   */
  datatype Config = Config(techDb: string, analyticsDb: string, commentsDb: string, youtubeDb: string)

  /** The store: each database's pages, by id. */
  type Workspace = map<string, seq<Page>>

  /** `notion.databases.query` with the report's date filter; an id the store does not know raises. */
  function QueryWindow(ws: Workspace, id: string, w: Window): (r: Result<seq<Page>, ReportError>)
    ensures r.Err? <==> id !in ws
    ensures r.Err? ==> r.error == UnknownDatabase(id)
    ensures r.Ok? ==> |r.value| <= QueryPageSize && forall k :: 0 <= k < |r.value| ==> InWindow(r.value[k], w.start, w.end)
  {
    if id in ws then Ok(WindowQuery(ws[id], w.start, w.end)) else Err(UnknownDatabase(id))
  }

  // ---------------------------------------------------------------- the comments database

  /** As written: the comments database id is the issue database id with "TechnicalIssues" replaced. */
  function CommentsDbAsWritten(c: Config): string {
    ReplaceAll(c.techDb, "TechnicalIssues", "RedditComments")
  }

  /**
   * As written, an issue database id without a capital `T` (a Notion id is
   * lower-case hexadecimal) is its own "comments database": the comment count
   * is the count of issues.
   */
  lemma CommentsCountedFromIssuesAsWritten(ws: Workspace, c: Config, w: Window)
    requires 'T' !in c.techDb
    ensures CommentsDbAsWritten(c) == c.techDb
    ensures QueryWindow(ws, CommentsDbAsWritten(c), w) == QueryWindow(ws, c.techDb, w)
    ensures CommentCount(ws, c, w) == WindowCount(ws, c.techDb, w)
  {
    MissingFirstChar(c.techDb, "TechnicalIssues");
    ReplaceAbsent(c.techDb, "TechnicalIssues", "RedditComments");
  }

  /** The number of pages a window query on `id` returns. */
  function WindowCount(ws: Workspace, id: string, w: Window): (r: Result<nat, ReportError>)
    ensures r.Err? <==> id !in ws
    ensures r.Ok? ==> r.value <= QueryPageSize
  {
    match QueryWindow(ws, id, w)
    case Err(e) => Err(e)
    case Ok(pages) => Ok(|pages|)
  }

  /**
   * `get_reddit_comments_report` as written: the period's pages of the derived
   * comments database, which for a Notion id is the issue database itself.
   */
  function CommentCount(ws: Workspace, c: Config, w: Window): (r: Result<nat, ReportError>)
    ensures r.Err? <==> CommentsDbAsWritten(c) !in ws
  {
    WindowCount(ws, CommentsDbAsWritten(c), w)
  }

  /** The count the report needs: the period's pages of the database the comment mirror writes. */
  function CommentCountCorrected(ws: Workspace, c: Config, w: Window): (r: Result<nat, ReportError>)
    ensures r.Err? <==> c.commentsDb !in ws
  {
    WindowCount(ws, c.commentsDb, w)
  }

  /** The corrected comment count does not depend on the issue database. */
  lemma CommentCountIgnoresIssues(ws: Workspace, c: Config, w: Window, issues: seq<Page>)
    requires c.techDb != c.commentsDb
    ensures CommentCountCorrected(ws[c.techDb := issues], c, w) == CommentCountCorrected(ws, c, w)
  {
  }

  // ---------------------------------------------------------------- the digest

  /** The shift a report type covers: the night or the day shift; the other reports have none. */
  function ShiftName(reportType: string): (name: Option<string>)
    ensures name.Some? <==> reportType == "night" || reportType == "day"
    ensures name.Some? ==> name.value != ""
  {
    if reportType == "night" then Some("ночную")
    else if reportType == "day" then Some("дневную")
    else None
  }

  /** The period as the digest's title shows it: both ends rendered by `stamp`. */
  function Period(stamp: int -> string, w: Window): string {
    stamp(w.start) + " – " + stamp(w.end)
  }

  /** `get_work_count`: the issues of the shift, for the shift reports only. */
  function ShiftOf(ws: Workspace, c: Config, reportType: string, w: Window): Result<Option<Shift>, ReportError> {
    if ShiftName(reportType).None? then Ok(None)
    else
      match QueryWindow(ws, c.techDb, w)
      case Err(e) => Err(e)
      case Ok(pages) => Ok(Some(Shift(ShiftName(reportType).value, |pages|)))
  }

  /** `get_youtube_comments_report`'s query: none when the database is not configured. */
  function YoutubePages(ws: Workspace, c: Config, w: Window): Result<Option<seq<Page>>, ReportError> {
    if c.youtubeDb == "" then Ok(None)
    else
      match QueryWindow(ws, c.youtubeDb, w)
      case Err(e) => Err(e)
      case Ok(pages) => Ok(Some(pages))
  }

  /** Every reason the figures can fail: a database missing from the store, or an empty select the counters name. */
  predicate GatherError(ws: Workspace, c: Config, e: ReportError) {
    || (e.UnknownDatabase? && e.id !in ws && e.id in {c.techDb, CommentsDbAsWritten(c), c.youtubeDb, c.analyticsDb})
    || (e.EmptySelect? && e.property in {"Post Flair", AuthorProperty, "Reaction"})
  }

  /**
   * The figures `send_report` gathers, queried in its order: the shift's
   * work, the issues, the comments, the YouTube comments and the reactions.
   */
  function DigestFor(ws: Workspace, c: Config, reportType: string, w: Window, period: string): (r: Result<Digest, ReportError>)
    ensures r.Ok? ==> WellFormed(r.value) && r.value.reportType == reportType && r.value.period == period
    ensures r.Ok? ==> c.techDb in ws && r.value.tech.total == |QueryWindow(ws, c.techDb, w).value|
    ensures r.Ok? ==> Ok(r.value.redditComments) == CommentCount(ws, c, w)
    ensures r.Ok? && c.youtubeDb == "" ==> r.value.youtube.total == 0
    ensures r.Err? ==> GatherError(ws, c, r.error)
  {
    match ShiftOf(ws, c, reportType, w)
    case Err(e) => Err(e)
    case Ok(shift) =>
      match QueryWindow(ws, c.techDb, w)
      case Err(e) => Err(e)
      case Ok(issues) =>
        match TechReportOf(issues)
        case Err(e) => Err(e)
        case Ok(tech) =>
          match QueryWindow(ws, CommentsDbAsWritten(c), w)
          case Err(e) => Err(e)
          case Ok(comments) =>
            match YoutubePages(ws, c, w)
            case Err(e) => Err(e)
            case Ok(videos) =>
              match YoutubeReportOf(videos)
              case Err(e) => Err(e)
              case Ok(youtube) =>
                match QueryWindow(ws, c.analyticsDb, w)
                case Err(e) => Err(e)
                case Ok(reactions) =>
                  match PositiveNegativeOf(reactions)
                  case Err(e) => Err(e)
                  case Ok(counts) =>
                    Ok(Digest(reportType, period, tech, |comments|, youtube, counts.0, counts.1, shift))
  }

  /** A shift report's work line counts the same issues as its total: both query the issue database over the shift. */
  lemma ShiftWorkIsTotal(ws: Workspace, c: Config, reportType: string, w: Window, period: string)
    requires DigestFor(ws, c, reportType, w, period).Ok?
    ensures var d := DigestFor(ws, c, reportType, w, period).value;
      && (reportType == "night" ==> d.shift == Some(Shift("ночную", d.tech.total)))
      && (reportType == "day" ==> d.shift == Some(Shift("дневную", d.tech.total)))
      && (reportType != "night" && reportType != "day" ==> d.shift.None?)
  {
  }

  /** The pages of a database never carry an empty select under `name`. */
  predicate SelectsFilled(pages: seq<Page>, name: string) {
    forall k :: 0 <= k < |pages| ==> SelectName(pages[k], name).Ok?
  }

  /**
   * As written, a digest for a Notion issue database id reports as many forum
   * comments as issues.
   */
  lemma CommentsEqualIssuesAsWritten(ws: Workspace, c: Config, reportType: string, w: Window, period: string)
    requires 'T' !in c.techDb
    requires DigestFor(ws, c, reportType, w, period).Ok?
    ensures var d := DigestFor(ws, c, reportType, w, period).value;
      d.redditComments == d.tech.total
  {
    CommentsCountedFromIssuesAsWritten(ws, c, w);
  }

  /** The figures are gathered whenever the databases exist and the counted selects are filled. */
  lemma DigestBuilt(ws: Workspace, c: Config, reportType: string, w: Window, period: string)
    requires c.techDb in ws && CommentsDbAsWritten(c) in ws && c.analyticsDb in ws
    requires c.youtubeDb != "" ==> c.youtubeDb in ws && SelectsFilled(ws[c.youtubeDb], AuthorProperty)
    requires SelectsFilled(ws[c.techDb], "Post Flair") && SelectsFilled(ws[c.analyticsDb], "Reaction")
    ensures DigestFor(ws, c, reportType, w, period).Ok?
  {
    var issues := QueryWindow(ws, c.techDb, w).value;
    QueriedFilled(ws[c.techDb], w, "Post Flair");
    assert TechReportOf(issues).Ok?;
    if c.youtubeDb != "" {
      QueriedFilled(ws[c.youtubeDb], w, AuthorProperty);
    }
    QueriedFilled(ws[c.analyticsDb], w, "Reaction");
  }

  /** A query returns pages of the store, so it keeps the store's filled selects. */
  lemma QueriedFilled(pages: seq<Page>, w: Window, name: string)
    requires SelectsFilled(pages, name)
    ensures SelectsFilled(WindowQuery(pages, w.start, w.end), name)
  {
    var idx := QueryIndices(pages, p => InWindow(p, w.start, w.end));
    var results := WindowQuery(pages, w.start, w.end);
    assert forall k :: 0 <= k < |results| ==> results[k] == pages[idx[k]];
  }

  /** The imperative gathering: each query, then each counter's loop, stopping at the first failure. */
  method GatherDigest(ws: Workspace, c: Config, reportType: string, w: Window, period: string)
    returns (r: Result<Digest, ReportError>)
    ensures r == DigestFor(ws, c, reportType, w, period)
  {
    var shift := ShiftOf(ws, c, reportType, w);
    if shift.Err? {
      return Err(shift.error);
    }
    var issues := QueryWindow(ws, c.techDb, w);
    if issues.Err? {
      return Err(issues.error);
    }
    var tech := TechnicalIssuesReport(issues.value);
    if tech.Err? {
      return Err(tech.error);
    }
    var comments := QueryWindow(ws, CommentsDbAsWritten(c), w);
    if comments.Err? {
      return Err(comments.error);
    }
    var videos := YoutubePages(ws, c, w);
    if videos.Err? {
      return Err(videos.error);
    }
    var youtube := YoutubeCommentsReport(videos.value);
    if youtube.Err? {
      return Err(youtube.error);
    }
    var reactions := QueryWindow(ws, c.analyticsDb, w);
    if reactions.Err? {
      return Err(reactions.error);
    }
    var counts := PositiveNegativeReport(reactions.value);
    if counts.Err? {
      return Err(counts.error);
    }
    r := Ok(Digest(reportType, period, tech.value, |comments.value|, youtube.value, counts.value.0, counts.value.1, shift.value));
  }

  // ---------------------------------------------------------------- the detailed export

  /** `get_detailed_youtube_comments`' pages: none when the database is not configured. */
  function YoutubeDetailPages(ws: Workspace, c: Config, w: Window): Result<seq<Page>, ReportError> {
    if c.youtubeDb == "" then Ok([]) else QueryWindow(ws, c.youtubeDb, w)
  }

  /** The entries of one section: the query, then one entry per page. */
  function SectionRecords(pages: Result<seq<Page>, ReportError>, kind: RecordKind, iso: int -> string): Result<seq<Record>, ReportError> {
    match pages
    case Err(e) => Err(e)
    case Ok(p) => AllRecords(p, kind, iso)
  }

  /** `create_detailed_report_file`: the four sections, read in the order tech, YouTube, comments, reactions. */
  function DetailFor(ws: Workspace, c: Config, w: Window, startIso: string, endIso: string, iso: int -> string)
    : (r: Result<string, ReportError>)
    ensures r.Err? ==> GatherError(ws, c, r.error) || r.error == EmptySelect("Profile")
    ensures r.Ok? ==> c.techDb in ws && CommentsDbAsWritten(c) in ws && c.analyticsDb in ws
  {
    var tech := SectionRecords(QueryWindow(ws, c.techDb, w), TechRecords, iso);
    var youtube := SectionRecords(YoutubeDetailPages(ws, c, w), YoutubeRecords, iso);
    var comments := SectionRecords(QueryWindow(ws, CommentsDbAsWritten(c), w), CommentRecords, iso);
    var reactions := SectionRecords(QueryWindow(ws, c.analyticsDb, w), AnalyticsRecords, iso);
    SectionFailures(ws, c, w, iso);
    if tech.Err? then Err(tech.error)
    else if youtube.Err? then Err(youtube.error)
    else if comments.Err? then Err(comments.error)
    else if reactions.Err? then Err(reactions.error)
    else Ok(DetailText(startIso, endIso, tech.value, youtube.value, comments.value, reactions.value))
  }

  /** Why each section's read can fail. */
  lemma SectionFailures(ws: Workspace, c: Config, w: Window, iso: int -> string)
    ensures var r := SectionRecords(QueryWindow(ws, c.techDb, w), TechRecords, iso);
      r.Err? ==> r.error == UnknownDatabase(c.techDb) && c.techDb !in ws
    ensures var r := SectionRecords(QueryWindow(ws, CommentsDbAsWritten(c), w), CommentRecords, iso);
      r.Err? ==> r.error == UnknownDatabase(CommentsDbAsWritten(c)) && CommentsDbAsWritten(c) !in ws
    ensures var r := SectionRecords(YoutubeDetailPages(ws, c, w), YoutubeRecords, iso);
      r.Err? ==> || (r.error == UnknownDatabase(c.youtubeDb) && c.youtubeDb !in ws)
                 || r.error == EmptySelect("Profile")
                 || r.error == EmptySelect(AuthorProperty)
    ensures var r := SectionRecords(QueryWindow(ws, c.analyticsDb, w), AnalyticsRecords, iso);
      r.Err? ==> (r.error == UnknownDatabase(c.analyticsDb) && c.analyticsDb !in ws) || r.error == EmptySelect("Reaction")
  {
    if c.techDb in ws {
      RecordsFailOnEmptySelect(QueryWindow(ws, c.techDb, w).value, TechRecords, iso);
    }
    if CommentsDbAsWritten(c) in ws {
      RecordsFailOnEmptySelect(QueryWindow(ws, CommentsDbAsWritten(c), w).value, CommentRecords, iso);
    }
    var y := YoutubeDetailPages(ws, c, w);
    if y.Ok? {
      YoutubeFailures(y.value, iso);
    }
    if c.analyticsDb in ws {
      AnalyticsFailures(QueryWindow(ws, c.analyticsDb, w).value, iso);
    }
  }

  lemma YoutubeFailures(pages: seq<Page>, iso: int -> string)
    ensures var r := AllRecords(pages, YoutubeRecords, iso);
      r.Err? ==> r.error == EmptySelect("Profile") || r.error == EmptySelect(AuthorProperty)
  {
    var r := AllRecords(pages, YoutubeRecords, iso);
    if r.Err? {
      var outcomes := Outcomes(pages, YoutubeRecords, iso);
      var k :| 0 <= k < |outcomes| && outcomes[k] == Err(r.error) && forall j :: 0 <= j < k ==> outcomes[j].Ok?;
      assert YoutubeRecord(pages[k], iso) == Err(r.error);
    }
  }

  lemma AnalyticsFailures(pages: seq<Page>, iso: int -> string)
    ensures var r := AllRecords(pages, AnalyticsRecords, iso);
      r.Err? ==> r.error == EmptySelect("Reaction")
  {
    var r := AllRecords(pages, AnalyticsRecords, iso);
    if r.Err? {
      var outcomes := Outcomes(pages, AnalyticsRecords, iso);
      var k :| 0 <= k < |outcomes| && outcomes[k] == Err(r.error) && forall j :: 0 <= j < k ==> outcomes[j].Ok?;
      assert AnalyticsRecordAsWritten(pages[k], iso) == Err(r.error);
    }
  }

  /** The export's queries and loops, then the file's contents. */
  method CreateDetailedReportFile(ws: Workspace, c: Config, w: Window, startIso: string, endIso: string, iso: int -> string)
    returns (r: Result<string, ReportError>)
    ensures r == DetailFor(ws, c, w, startIso, endIso, iso)
  {
    SectionFailures(ws, c, w, iso);
    var tech := ReadSection(QueryWindow(ws, c.techDb, w), TechRecords, iso);
    if tech.Err? {
      return Err(tech.error);
    }
    var youtube := ReadSection(YoutubeDetailPages(ws, c, w), YoutubeRecords, iso);
    if youtube.Err? {
      return Err(youtube.error);
    }
    var comments := ReadSection(QueryWindow(ws, CommentsDbAsWritten(c), w), CommentRecords, iso);
    if comments.Err? {
      return Err(comments.error);
    }
    var reactions := ReadSection(QueryWindow(ws, c.analyticsDb, w), AnalyticsRecords, iso);
    if reactions.Err? {
      return Err(reactions.error);
    }
    var text := CreateDetailedReport(startIso, endIso, tech.value, youtube.value, comments.value, reactions.value);
    r := Ok(text);
  }

  /** One `get_detailed_*` helper: its query's failure, or its loop over the pages. */
  method ReadSection(pages: Result<seq<Page>, ReportError>, kind: RecordKind, iso: int -> string)
    returns (r: Result<seq<Record>, ReportError>)
    ensures r == SectionRecords(pages, kind, iso)
  {
    if pages.Err? {
      return Err(pages.error);
    }
    r := CollectRecords(pages.value, kind, iso);
  }

  // ---------------------------------------------------------------- send_report

  /** What reaches the chat once the digest's text is ready: that text, then the export if it was built and delivered. */
  function Delivered(text: string, detail: Result<string, ReportError>, textDelivered: bool, documentDelivered: bool)
    : (sent: seq<Message>)
    ensures |sent| <= 2
    ensures sent != [] <==> textDelivered
    ensures sent != [] ==> sent[0] == TextMessage(TelegramChat, text)
    ensures |sent| == 2 <==> textDelivered && detail.Ok? && documentDelivered
    ensures |sent| == 2 ==> sent[1] == DocumentMessage(TelegramChat, detail.value)
  {
    var document := if detail.Ok? && documentDelivered then [DocumentMessage(TelegramChat, detail.value)] else [];
    if textDelivered then [TextMessage(TelegramChat, text)] + document else []
  }

  /** The `try` block: send the digest, then build and send the export; any failure is caught. */
  method Deliver(outbox: Outbox, text: string, ws: Workspace, c: Config, w: Window, startIso: string, endIso: string,
                 iso: int -> string, textDelivered: bool, documentDelivered: bool)
    modifies outbox
    ensures outbox.sent == old(outbox.sent) + Delivered(text, DetailFor(ws, c, w, startIso, endIso, iso), textDelivered, documentDelivered)
  {
    outbox.Send(TextMessage(TelegramChat, text), textDelivered);
    if !textDelivered {
      return;
    }
    var detail := CreateDetailedReportFile(ws, c, w, startIso, endIso, iso);
    if detail.Err? {
      return;
    }
    outbox.Send(DocumentMessage(TelegramChat, detail.value), documentDelivered);
  }

  /**
   * `send_report(report_type)`: the period comes from the report type and the
   * clock; `stamp` renders the title's dates, `isoformat` the query bounds and
   * `iso` the pages' dates. A gathering failure is returned with nothing sent;
   * the digest is sent before the export is built, and a failed delivery or
   * export only ends the run.
   */
  method SendReport(outbox: Outbox, ws: Workspace, c: Config, reportType: string, now: DateTime,
                    stamp: int -> string, isoformat: int -> string, iso: int -> string,
                    textDelivered: bool, documentDelivered: bool)
    returns (failure: Option<ReportError>)
    requires Valid(now)
    modifies outbox
    ensures var w := ReportWindow(reportType, now);
      var d := DigestFor(ws, c, reportType, w, Period(stamp, w));
      var detail := DetailFor(ws, c, w, isoformat(w.start) + "Z", isoformat(w.end) + "Z", iso);
      && (d.Err? ==> failure == Some(d.error) && outbox.sent == old(outbox.sent))
      && (d.Ok? ==> && failure.None?
                    && outbox.sent == old(outbox.sent) + Delivered(Join(DigestLines(d.value), "\n"), detail, textDelivered, documentDelivered))
  {
    var w := ReportWindow(reportType, now);
    var d := GatherDigest(ws, c, reportType, w, Period(stamp, w));
    if d.Err? {
      return Some(d.error);
    }
    var text := FormatReport(d.value);
    Deliver(outbox, text, ws, c, w, isoformat(w.start) + "Z", isoformat(w.end) + "Z", iso, textDelivered, documentDelivered);
    failure := None;
  }
}
