/**
 * The counting side of the reports: the technical-issues summary, the YouTube
 * comment tally and the reaction count, each a loop over the query results
 * proved against a counting specification.
 */
module ReportCounts {
  import opened Wrappers
  import opened Text
  import opened Notion
  import opened ReportData

  // ---------------------------------------------------------------- counting

  /** The number of pages satisfying `keep`. */
  function Count(pages: seq<Page>, keep: Page -> bool): (n: nat)
    ensures n <= |pages|
  {
    if pages == [] then 0
    else Count(pages[..|pages| - 1], keep) + (if keep(pages[|pages| - 1]) then 1 else 0)
  }

  lemma CountStep(pages: seq<Page>, keep: Page -> bool, i: nat)
    requires i < |pages|
    ensures Count(pages[..i + 1], keep) == Count(pages[..i], keep) + (if keep(pages[i]) then 1 else 0)
  {
    assert pages[..i + 1][..i] == pages[..i];
  }

  /** A weaker condition counts at least as many pages. */
  lemma {:induction false} CountMonotone(pages: seq<Page>, keep: Page -> bool, wider: Page -> bool)
    requires forall p :: keep(p) ==> wider(p)
    ensures Count(pages, keep) <= Count(pages, wider)
    decreases |pages|
  {
    if pages != [] {
      CountMonotone(pages[..|pages| - 1], keep, wider);
    }
  }

  /** Counting a union of two disjoint conditions adds their counts. */
  lemma {:induction false} CountUnion(pages: seq<Page>, a: Page -> bool, b: Page -> bool, either: Page -> bool)
    requires forall p :: either(p) == (a(p) || b(p))
    requires forall p :: !(a(p) && b(p))
    ensures Count(pages, either) == Count(pages, a) + Count(pages, b)
    decreases |pages|
  {
    if pages != [] {
      CountUnion(pages[..|pages| - 1], a, b, either);
    }
  }

  predicate Distinct(names: seq<string>) {
    forall i, j :: 0 <= i < j < |names| ==> names[i] != names[j]
  }

  function Sum(xs: seq<nat>): nat {
    if xs == [] then 0 else xs[0] + Sum(xs[1..])
  }

  /** Pages whose name (under `nameOf`) is `name`. */
  function Named(nameOf: Page -> Option<string>, name: string): Page -> bool {
    p => nameOf(p) == Some(name)
  }

  /** Pages whose name is one of `names`. */
  function NamedIn(nameOf: Page -> Option<string>, names: seq<string>): Page -> bool {
    p => nameOf(p).Some? && nameOf(p).value in names
  }

  /** A counter per name, as a dict of counts initialised with `names` and bumped for each page carrying one of them. */
  function Tally(pages: seq<Page>, nameOf: Page -> Option<string>, names: seq<string>): (t: seq<nat>)
    ensures |t| == |names|
    ensures forall k :: 0 <= k < |names| ==> t[k] == Count(pages, Named(nameOf, names[k]))
  {
    seq(|names|, k requires 0 <= k < |names| => Count(pages, Named(nameOf, names[k])))
  }

  /** The counters together count exactly the pages carrying one of the names: pages with other names are not counted. */
  lemma {:induction false} TallySum(pages: seq<Page>, nameOf: Page -> Option<string>, names: seq<string>)
    requires Distinct(names)
    ensures Sum(Tally(pages, nameOf, names)) == Count(pages, NamedIn(nameOf, names))
    decreases |names|
  {
    if names == [] {
      NoneNamed(pages, nameOf, names);
    } else {
      var rest := names[1..];
      assert Distinct(rest) by {
        forall i, j | 0 <= i < j < |rest| ensures rest[i] != rest[j] {
          assert rest[i] == names[i + 1] && rest[j] == names[j + 1];
        }
      }
      TallySum(pages, nameOf, rest);
      assert Tally(pages, nameOf, names)[1..] == Tally(pages, nameOf, rest);
      assert names[0] !in rest by {
        forall j | 0 <= j < |rest| ensures rest[j] != names[0] {
          assert rest[j] == names[j + 1];
        }
      }
      forall p ensures NamedIn(nameOf, names)(p) == (Named(nameOf, names[0])(p) || NamedIn(nameOf, rest)(p)) {
        assert names == [names[0]] + rest;
      }
      CountUnion(pages, Named(nameOf, names[0]), NamedIn(nameOf, rest), NamedIn(nameOf, names));
    }
  }

  lemma {:induction false} NoneNamed(pages: seq<Page>, nameOf: Page -> Option<string>, names: seq<string>)
    requires names == []
    ensures Count(pages, NamedIn(nameOf, names)) == 0
    decreases |pages|
  {
    if pages != [] {
      NoneNamed(pages[..|pages| - 1], nameOf, names);
    }
  }

  /** The counter of `name` incremented, when `name` is one of the counted names. */
  function Bumped(counts: seq<nat>, names: seq<string>, name: Option<string>): seq<nat>
    requires |counts| == |names|
  {
    if name.Some? && name.value in names then counts[IndexOf(names, name.value) := counts[IndexOf(names, name.value)] + 1]
    else counts
  }

  /** `counts[name] += 1` on a dict of counters, skipping names it has no counter for. */
  method Bump(counts: seq<nat>, names: seq<string>, name: Option<string>) returns (r: seq<nat>)
    requires |counts| == |names|
    ensures |r| == |names|
    ensures r == Bumped(counts, names, name)
  {
    r := counts;
    if name.Some? && name.value in names {
      var k := IndexOf(names, name.value);
      r := counts[k := counts[k] + 1];
    }
  }

  /** One more page bumps the counter of its name, if it has one of the names. */
  lemma TallyStep(pages: seq<Page>, nameOf: Page -> Option<string>, names: seq<string>, i: nat)
    requires i < |pages| && Distinct(names)
    ensures Tally(pages[..i + 1], nameOf, names) == Bumped(Tally(pages[..i], nameOf, names), names, nameOf(pages[i]))
  {
    var before := Tally(pages[..i], nameOf, names);
    var after := Tally(pages[..i + 1], nameOf, names);
    var name := nameOf(pages[i]);
    forall k | 0 <= k < |names|
      ensures after[k] == before[k] + (if name == Some(names[k]) then 1 else 0)
    {
      CountStep(pages, Named(nameOf, names[k]), i);
    }
    if name.Some? && name.value in names {
      var j := IndexOf(names, name.value);
      forall k | 0 <= k < |names| && k != j ensures name != Some(names[k]) {
        if k < j {
          assert names[k] in names[..j];
        }
      }
    }
  }

  // ---------------------------------------------------------------- get_technical_issues_report

  const StatusNames: seq<string> := ["In queue", "Asked for the email", "Made recommendations", "Made a ticket", "Solved"]

  lemma StatusNamesDistinct()
    ensures Distinct(StatusNames)
  {
  }

  /** A page whose Post Flair select is Help. */
  predicate IsHelp(page: Page) {
    SelectName(page, "Post Flair") == Ok(Some("Help"))
  }

  /** The moderator's response text: the items of the "Response from moderator" rich text, if it is one. */
  function ResponseItems(page: Page): seq<RichItem> {
    if "Response from moderator" in page && page["Response from moderator"].RichTextProp? then page["Response from moderator"].richText
    else []
  }

  /** Some item of the response has non-blank plain text. */
  predicate Answered(page: Page) {
    exists i :: 0 <= i < |ResponseItems(page)| && Strip(PlainText(ResponseItems(page)[i])) != ""
  }

  predicate AnsweredHelp(page: Page) {
    IsHelp(page) && Answered(page)
  }

  /** The status a Help page is counted under; other pages have none. */
  function HelpStatus(page: Page): Option<string> {
    if IsHelp(page) then Some(StatusOf(page)) else None
  }

  datatype TechReport = TechReport(countHelp: nat, statusCounts: seq<nat>, moderatorResponseCount: nat, total: nat, otherCount: nat)

  /** The technical-issues summary of the query results; an empty Post Flair select fails it. */
  function TechReportOf(results: seq<Page>): (r: Result<TechReport, ReportError>)
    ensures r.Err? <==> exists k :: 0 <= k < |results| && SelectName(results[k], "Post Flair").Err?
    ensures r.Err? ==> r.error == EmptySelect("Post Flair")
    ensures r.Ok? ==> |r.value.statusCounts| == |StatusNames| && r.value.total == |results|
  {
    if exists k :: 0 <= k < |results| && SelectName(results[k], "Post Flair").Err? then Err(EmptySelect("Post Flair"))
    else
      var help := Count(results, IsHelp);
      Ok(TechReport(help, Tally(results, HelpStatus, StatusNames), Count(results, AnsweredHelp), |results|, |results| - help))
  }

  /**
   * The summary's counts agree: Help and other pages make up the total, answered
   * pages are Help pages, and the five status counters count exactly the Help
   * pages with one of the five statuses (so never more than the Help pages).
   */
  lemma TechReportTotals(results: seq<Page>)
    requires TechReportOf(results).Ok?
    ensures var t := TechReportOf(results).value;
      && t.countHelp + t.otherCount == t.total
      && t.moderatorResponseCount <= t.countHelp
      && Sum(t.statusCounts) == Count(results, NamedIn(HelpStatus, StatusNames))
      && Sum(t.statusCounts) <= t.countHelp
  {
    CountMonotone(results, AnsweredHelp, IsHelp);
    StatusNamesDistinct();
    TallySum(results, HelpStatus, StatusNames);
    CountMonotone(results, NamedIn(HelpStatus, StatusNames), IsHelp);
  }

  /** `get_technical_issues_report`'s loop over the results. */
  method TechnicalIssuesReport(results: seq<Page>) returns (r: Result<TechReport, ReportError>)
    ensures r == TechReportOf(results)
  {
    var names := StatusNames;
    StatusNamesDistinct();
    var countHelp := 0;
    var responses := 0;
    var statusCounts: seq<nat> := seq(|names|, _ => 0);
    assert statusCounts == Tally(results[..0], HelpStatus, names);
    var i := 0;
    while i < |results|
      invariant 0 <= i <= |results|
      invariant forall k :: 0 <= k < i ==> SelectName(results[k], "Post Flair").Ok?
      invariant countHelp == Count(results[..i], IsHelp)
      invariant responses == Count(results[..i], AnsweredHelp)
      invariant statusCounts == Tally(results[..i], HelpStatus, names)
    {
      var page := results[i];
      var flair := SelectName(page, "Post Flair");
      if flair.Err? {
        return Err(flair.error);
      }
      CountStep(results, IsHelp, i);
      CountStep(results, AnsweredHelp, i);
      TallyStep(results, HelpStatus, names, i);
      if flair.value == Some("Help") {
        countHelp := countHelp + 1;
        if Answered(page) {
          responses := responses + 1;
        }
        statusCounts := Bump(statusCounts, names, HelpStatus(page));
      }
      i := i + 1;
    }
    assert results[..i] == results;
    r := Ok(TechReport(countHelp, statusCounts, responses, |results|, |results| - countHelp));
  }

  // ---------------------------------------------------------------- get_positive_negative_report

  function ReactionName(page: Page): Option<string> {
    match SelectName(page, "Reaction")
    case Ok(name) => name
    case Err(_) => None
  }

  /** The 👍 and 👎 counts of the query results; an empty Reaction select fails them. */
  function PositiveNegativeOf(results: seq<Page>): (r: Result<(nat, nat), ReportError>)
    ensures r.Err? <==> exists k :: 0 <= k < |results| && SelectName(results[k], "Reaction").Err?
  {
    if exists k :: 0 <= k < |results| && SelectName(results[k], "Reaction").Err? then Err(EmptySelect("Reaction"))
    else Ok((Count(results, Named(ReactionName, "👍")), Count(results, Named(ReactionName, "👎"))))
  }

  /** The reactions the report counts. */
  const Reactions: seq<string> := ["👍", "👎"]

  /** The two counts together are the pages reacted to with 👍 or 👎; other reactions are not counted. */
  lemma PositiveNegativeBound(results: seq<Page>)
    requires PositiveNegativeOf(results).Ok?
    ensures var (plus, minus) := PositiveNegativeOf(results).value;
      && plus + minus == Count(results, NamedIn(ReactionName, Reactions))
      && plus + minus <= |results|
  {
    var plus, minus := Named(ReactionName, "👍"), Named(ReactionName, "👎");
    assert "👍" != "👎" by {
      assert "👍"[0] != "👎"[0];
    }
    CountUnion(results, plus, minus, NamedIn(ReactionName, Reactions));
  }

  /** `get_positive_negative_report`'s loop over the results. */
  method PositiveNegativeReport(results: seq<Page>) returns (r: Result<(nat, nat), ReportError>)
    ensures r == PositiveNegativeOf(results)
  {
    var plus := 0;
    var minus := 0;
    var i := 0;
    while i < |results|
      invariant 0 <= i <= |results|
      invariant forall k :: 0 <= k < i ==> SelectName(results[k], "Reaction").Ok?
      invariant plus == Count(results[..i], Named(ReactionName, "👍"))
      invariant minus == Count(results[..i], Named(ReactionName, "👎"))
    {
      var reaction := SelectName(results[i], "Reaction");
      if reaction.Err? {
        return Err(reaction.error);
      }
      CountStep(results, Named(ReactionName, "👍"), i);
      CountStep(results, Named(ReactionName, "👎"), i);
      if reaction.value == Some("👍") {
        plus := plus + 1;
      } else if reaction.value == Some("👎") {
        minus := minus + 1;
      }
      i := i + 1;
    }
    assert results[..i] == results;
    r := Ok((plus, minus));
  }

  // ---------------------------------------------------------------- get_youtube_comments_report

  const YoutubeAuthors: seq<string> := ["Ivan", "Arthur", "Denys", "Roman"]
  const AuthorProperty: string := "Author ( Community Manager )"

  function YoutubeAuthor(page: Page): Option<string> {
    match SelectName(page, AuthorProperty)
    case Ok(name) => name
    case Err(_) => None
  }

  datatype YoutubeReport = YoutubeReport(total: nat, authorCounts: seq<nat>)

  /**
   * The YouTube summary: zero everywhere when no YouTube database is configured
   * (`results` is `None`), otherwise the total and a counter per author; an
   * empty author select fails it.
   */
  function YoutubeReportOf(results: Option<seq<Page>>): (r: Result<YoutubeReport, ReportError>)
    ensures results.None? ==> r == Ok(YoutubeReport(0, [0, 0, 0, 0]))
    ensures r.Ok? ==> |r.value.authorCounts| == |YoutubeAuthors|
    ensures results.Some? ==> (r.Err? <==> exists k :: 0 <= k < |results.value| && SelectName(results.value[k], AuthorProperty).Err?)
  {
    if results.None? then Ok(YoutubeReport(0, [0, 0, 0, 0]))
    else if exists k :: 0 <= k < |results.value| && SelectName(results.value[k], AuthorProperty).Err? then Err(EmptySelect(AuthorProperty))
    else Ok(YoutubeReport(|results.value|, Tally(results.value, YoutubeAuthor, YoutubeAuthors)))
  }

  /** The author counters never add up to more than the total. */
  lemma YoutubeAuthorsBound(results: Option<seq<Page>>)
    requires YoutubeReportOf(results).Ok?
    ensures Sum(YoutubeReportOf(results).value.authorCounts) <= YoutubeReportOf(results).value.total
  {
    if results.Some? {
      assert Distinct(YoutubeAuthors);
      TallySum(results.value, YoutubeAuthor, YoutubeAuthors);
    }
  }

  /** `get_youtube_comments_report`'s loop over the results. */
  method YoutubeCommentsReport(results: Option<seq<Page>>) returns (r: Result<YoutubeReport, ReportError>)
    ensures r == YoutubeReportOf(results)
  {
    if results.None? {
      return Ok(YoutubeReport(0, [0, 0, 0, 0]));
    }
    var pages := results.value;
    assert Distinct(YoutubeAuthors);
    var authors: seq<nat> := [0, 0, 0, 0];
    assert authors == Tally(pages[..0], YoutubeAuthor, YoutubeAuthors);
    var i := 0;
    while i < |pages|
      invariant 0 <= i <= |pages|
      invariant forall k :: 0 <= k < i ==> SelectName(pages[k], AuthorProperty).Ok?
      invariant authors == Tally(pages[..i], YoutubeAuthor, YoutubeAuthors)
    {
      var author := SelectName(pages[i], AuthorProperty);
      if author.Err? {
        return Err(author.error);
      }
      TallyStep(pages, YoutubeAuthor, YoutubeAuthors, i);
      authors := Bump(authors, YoutubeAuthors, author.value);
      i := i + 1;
    }
    assert pages[..i] == pages;
    r := Ok(YoutubeReport(|pages|, authors));
  }
}
