/**
 * The texts the report engine sends: the digest posted to the support chat
 * (`format_report`) and the detailed export attached to it
 * (`create_detailed_report_file`). Both are built by appending, line by line or
 * field by field, and each method is proved to produce the text its
 * specification function describes.
 */
module ReportText {
  import opened Wrappers
  import opened Text
  import opened ReportData
  import opened ReportCounts

  // ---------------------------------------------------------------- format_report

  /** The shift part of a night or day report: its name and the issues filed during it. */
  datatype Shift = Shift(name: string, work: nat)

  /** Everything the digest shows; `period` is the already rendered "start – end". */
  datatype Digest = Digest(reportType: string, period: string, tech: TechReport, redditComments: nat,
                           youtube: YoutubeReport, plus: nat, minus: nat, shift: Option<Shift>)

  /** Summaries as the aggregators produce them: a counter for each status and each author. */
  predicate WellFormed(d: Digest) {
    |d.tech.statusCounts| == |StatusNames| && |d.youtube.authorCounts| == |YoutubeAuthors|
  }

  /** "name: count" for each counter, each behind `indent`. */
  function CountLines(indent: string, names: seq<string>, counts: seq<nat>): (lines: seq<string>)
    requires |names| == |counts|
    ensures |lines| == |names|
    ensures forall k :: 0 <= k < |names| ==> lines[k] == indent + names[k] + ": " + NatToString(counts[k])
  {
    seq(|names|, k requires 0 <= k < |names| => indent + names[k] + ": " + NatToString(counts[k]))
  }

  /** `f"{caption}{n}"`: a caption followed by a count. */
  function Counted(caption: string, n: nat): string {
    caption + NatToString(n)
  }

  const StatusIndent: string := "    "
  const ShiftPrefix: string := "  Работа в "
  const AuthorsPrefix: string := "  По авторам: "
  const NoData: string := "  Нет данных."
  const NotEnoughData: string := "\nНедостаточно данных для отчета."

  const TechHeading: string := "Технические проблемы (Technical Issues):\n"
  const HelpLabel: string := "  Постов с флажком \"Help\" : "
  const StatusesHeading: string := "  Постов по статусам (только для 'Help'):"
  const ResponsesLabel: string := "  Постов с ответом модераторов: "
  const OtherLabel: string := "  Постов с другими флажками: "
  const TotalLabel: string := "  Всего постов: "
  const RedditLabel: string := "Комментарии в Reddit: "
  const YoutubeLabel: string := "Комментарии на Youtube: "
  const ReactionsHeading: string := "Посты с реакциями (Positive/Negative Posts):"
  const PlusLabel: string := "  👍: "
  const MinusLabel: string := "  👎: "

  function TitleLine(d: Digest): string {
    "Отчет (" + Capitalize(d.reportType) + ") за период: " + d.period + "\n"
  }

  function ShiftLine(shift: Shift): string {
    ShiftPrefix + shift.name + " смене: " + NatToString(shift.work)
  }

  /** The author breakdown: "name: count" for each author, joined by ", ". */
  function AuthorsLine(y: YoutubeReport): string
    requires |y.authorCounts| == |YoutubeAuthors|
  {
    AuthorsPrefix + Join(CountLines("", YoutubeAuthors, y.authorCounts), ", ")
  }

  function HeaderLines(d: Digest): seq<string> {
    [TitleLine(d), TechHeading]
  }

  function HelpLines(t: TechReport): seq<string> {
    [Counted(HelpLabel, t.countHelp), "", StatusesHeading]
  }

  function TotalLines(t: TechReport): seq<string> {
    ["", Counted(ResponsesLabel, t.moderatorResponseCount), Counted(OtherLabel, t.otherCount), Counted(TotalLabel, t.total)]
  }

  /** The shift line, shown only for a named shift. */
  function ShiftLines(shift: Option<Shift>): seq<string> {
    if shift.Some? && shift.value.name != "" then ["", ShiftLine(shift.value)] else []
  }

  /** The tech section: "Нет данных." for a period without issues, the full breakdown otherwise. */
  function TechLines(d: Digest): seq<string>
    requires WellFormed(d)
  {
    var t := d.tech;
    if t.total == 0 then [NoData]
    else HelpLines(t) + CountLines(StatusIndent, StatusNames, t.statusCounts) + TotalLines(t) + ShiftLines(d.shift)
  }

  function CommentLines(d: Digest): seq<string> {
    ["", Counted(RedditLabel, d.redditComments), "", Counted(YoutubeLabel, d.youtube.total)]
  }

  function AuthorLines(y: YoutubeReport): seq<string>
    requires |y.authorCounts| == |YoutubeAuthors|
  {
    if y.total > 0 then [AuthorsLine(y)] else []
  }

  function ReactionLines(d: Digest): seq<string> {
    ["", ReactionsHeading, Counted(PlusLabel, d.plus), Counted(MinusLabel, d.minus)]
  }

  predicate AllZero(d: Digest) {
    d.tech.total == 0 && d.redditComments == 0 && d.youtube.total == 0 && d.plus == 0 && d.minus == 0
  }

  function ClosingLines(d: Digest): seq<string> {
    if AllZero(d) then [NotEnoughData] else []
  }

  /** The digest's lines, before they are joined with "\n". */
  function DigestLines(d: Digest): seq<string>
    requires WellFormed(d)
  {
    HeaderLines(d) + TechLines(d) + CommentLines(d) + AuthorLines(d.youtube) + ReactionLines(d) + ClosingLines(d)
  }

  // The lemmas below tell the digest's lines apart by how they start: status
  // lines by four spaces, the shift, author and no-data lines by their own
  // prefixes, the closing line by a line break; every other line is plain.

  /** No line of `lines` starts with `prefix`. */
  predicate NoneStart(lines: seq<string>, prefix: string) {
    forall k :: 0 <= k < |lines| ==> !StartsWith(lines[k], prefix)
  }

  predicate Plain(line: string) {
    && !StartsWith(line, StatusIndent) && !StartsWith(line, ShiftPrefix) && !StartsWith(line, AuthorsPrefix)
    && !StartsWith(line, NoData) && !StartsWith(line, "\n")
  }

  predicate AllPlain(lines: seq<string>) {
    forall k :: 0 <= k < |lines| ==> Plain(lines[k])
  }

  lemma DiffersAt(line: string, prefix: string, i: nat)
    requires i < |prefix| && (i >= |line| || line[i] != prefix[i])
    ensures !StartsWith(line, prefix)
  {
    if |prefix| <= |line| {
      assert line[..|prefix|][i] == line[i];
    }
  }

  /**
   * A line is plain when its start rules every marker out: it is empty, or it
   * opens with neither a space nor a line break, or it is indented and its
   * third character (and, after 'П', its fifth) differs from each marker's.
   */
  predicate PlainStart(line: string) {
    || line == []
    || (line[0] != ' ' && line[0] != '\n')
    || (|line| > 4 && line[0] == ' ' && line[2] != ' ' && line[2] != 'Р' && line[2] != 'Н' && (line[2] != 'П' || line[4] != ' '))
  }

  lemma PlainByStart(line: string)
    requires PlainStart(line)
    ensures Plain(line)
  {
    if line != [] && line[0] != ' ' && line[0] != '\n' {
      DiffersAt(line, StatusIndent, 0);
      DiffersAt(line, ShiftPrefix, 0);
      DiffersAt(line, AuthorsPrefix, 0);
      DiffersAt(line, NoData, 0);
    } else if line != [] {
      DiffersAt(line, StatusIndent, 2);
      DiffersAt(line, ShiftPrefix, 2);
      if line[2] == 'П' {
        DiffersAt(line, AuthorsPrefix, 4);
      } else {
        DiffersAt(line, AuthorsPrefix, 2);
      }
      DiffersAt(line, NoData, 2);
    }
    DiffersAt(line, "\n", 0);
  }

  /** A counted line is plain when its caption starts like a plain line. */
  lemma PlainCounted(caption: string, n: nat)
    requires caption != [] && PlainStart(caption)
    ensures Plain(Counted(caption, n))
  {
    var line := Counted(caption, n);
    assert line[0] == caption[0];
    if |caption| > 4 {
      assert line[2] == caption[2] && line[4] == caption[4];
    }
    PlainByStart(line);
  }

  // How each caption starts, which is all the lemmas below need to know of it.

  lemma TechHeadingStart()
    ensures |TechHeading| > 4 && TechHeading[0] == 'Т'
  {
  }

  lemma HelpLabelStart()
    ensures |HelpLabel| > 4 && HelpLabel[0] == ' ' && HelpLabel[2] == 'П' && HelpLabel[4] == 'с'
  {
  }

  lemma StatusesHeadingStart()
    ensures |StatusesHeading| > 4 && StatusesHeading[0] == ' ' && StatusesHeading[2] == 'П' && StatusesHeading[4] == 'с'
  {
  }

  lemma ResponsesLabelStart()
    ensures |ResponsesLabel| > 4 && ResponsesLabel[0] == ' ' && ResponsesLabel[2] == 'П' && ResponsesLabel[4] == 'с'
  {
  }

  lemma OtherLabelStart()
    ensures |OtherLabel| > 4 && OtherLabel[0] == ' ' && OtherLabel[2] == 'П' && OtherLabel[4] == 'с'
  {
  }

  lemma TotalLabelStart()
    ensures |TotalLabel| > 4 && TotalLabel[0] == ' ' && TotalLabel[2] == 'В'
  {
  }

  lemma RedditLabelStart()
    ensures |RedditLabel| > 4 && RedditLabel[0] == 'К'
  {
  }

  lemma YoutubeLabelStart()
    ensures |YoutubeLabel| > 4 && YoutubeLabel[0] == 'К'
  {
  }

  lemma ReactionsHeadingStart()
    ensures |ReactionsHeading| > 4 && ReactionsHeading[0] == 'П'
  {
  }

  lemma PlusLabelStart()
    ensures |PlusLabel| > 4 && PlusLabel[0] == ' ' && PlusLabel[2] == '👍'
  {
  }

  lemma MinusLabelStart()
    ensures |MinusLabel| > 4 && MinusLabel[0] == ' ' && MinusLabel[2] == '👎'
  {
  }

  lemma PlainHeader(d: Digest)
    ensures AllPlain(HeaderLines(d))
  {
    var title := TitleLine(d);
    assert title[0] == 'О';
    PlainByStart(title);
    TechHeadingStart();
    PlainByStart(TechHeading);
  }

  lemma PlainHelp(t: TechReport)
    ensures AllPlain(HelpLines(t))
  {
    HelpLabelStart();
    PlainCounted(HelpLabel, t.countHelp);
    PlainByStart("");
    StatusesHeadingStart();
    PlainByStart(StatusesHeading);
  }

  lemma PlainTotals(t: TechReport)
    ensures AllPlain(TotalLines(t))
  {
    PlainByStart("");
    ResponsesLabelStart();
    PlainCounted(ResponsesLabel, t.moderatorResponseCount);
    OtherLabelStart();
    PlainCounted(OtherLabel, t.otherCount);
    TotalLabelStart();
    PlainCounted(TotalLabel, t.total);
  }

  lemma PlainComments(d: Digest)
    ensures AllPlain(CommentLines(d))
  {
    PlainByStart("");
    RedditLabelStart();
    PlainCounted(RedditLabel, d.redditComments);
    YoutubeLabelStart();
    PlainCounted(YoutubeLabel, d.youtube.total);
  }

  lemma PlainReactions(d: Digest)
    ensures AllPlain(ReactionLines(d))
  {
    PlainByStart("");
    ReactionsHeadingStart();
    PlainByStart(ReactionsHeading);
    PlusLabelStart();
    PlainCounted(PlusLabel, d.plus);
    MinusLabelStart();
    PlainCounted(MinusLabel, d.minus);
  }

  lemma PlainPieces(d: Digest)
    ensures AllPlain(HeaderLines(d)) && AllPlain(HelpLines(d.tech)) && AllPlain(TotalLines(d.tech))
    ensures AllPlain(CommentLines(d)) && AllPlain(ReactionLines(d))
  {
    PlainHeader(d);
    PlainHelp(d.tech);
    PlainTotals(d.tech);
    PlainComments(d);
    PlainReactions(d);
  }

  /** Status lines start with four spaces and with none of the other markers. */
  lemma StatusLinesKind(names: seq<string>, counts: seq<nat>)
    requires |names| == |counts|
    ensures var lines := CountLines(StatusIndent, names, counts);
      && (forall k :: 0 <= k < |lines| ==> StartsWith(lines[k], StatusIndent))
      && NoneStart(lines, ShiftPrefix) && NoneStart(lines, AuthorsPrefix) && NoneStart(lines, NoData) && NoneStart(lines, "\n")
  {
    var lines := CountLines(StatusIndent, names, counts);
    forall k | 0 <= k < |lines|
      ensures StartsWith(lines[k], StatusIndent)
      ensures !StartsWith(lines[k], ShiftPrefix) && !StartsWith(lines[k], AuthorsPrefix)
      ensures !StartsWith(lines[k], NoData) && !StartsWith(lines[k], "\n")
    {
      var line := lines[k];
      assert line == StatusIndent + (names[k] + ": " + NatToString(counts[k]));
      DiffersAt(line, ShiftPrefix, 2);
      DiffersAt(line, AuthorsPrefix, 2);
      DiffersAt(line, NoData, 2);
      DiffersAt(line, "\n", 0);
    }
  }

  /** The shift lines: a blank line and one starting with the shift prefix and none of the other markers. */
  lemma ShiftLinesKind(shift: Option<Shift>)
    ensures NoneStart(ShiftLines(shift), StatusIndent) && NoneStart(ShiftLines(shift), AuthorsPrefix)
    ensures NoneStart(ShiftLines(shift), NoData) && NoneStart(ShiftLines(shift), "\n")
  {
    var lines := ShiftLines(shift);
    if lines != [] {
      PlainByStart(lines[0]);
      var line := lines[1];
      DiffersAt(line, StatusIndent, 2);
      DiffersAt(line, AuthorsPrefix, 2);
      DiffersAt(line, NoData, 2);
      DiffersAt(line, "\n", 0);
    }
  }

  lemma AuthorLinesKind(y: YoutubeReport)
    requires |y.authorCounts| == |YoutubeAuthors|
    ensures NoneStart(AuthorLines(y), StatusIndent) && NoneStart(AuthorLines(y), ShiftPrefix)
    ensures NoneStart(AuthorLines(y), NoData) && NoneStart(AuthorLines(y), "\n")
    ensures y.total > 0 ==> StartsWith(AuthorLines(y)[0], AuthorsPrefix)
  {
    var lines := AuthorLines(y);
    if lines != [] {
      var line := lines[0];
      DiffersAt(line, StatusIndent, 2);
      DiffersAt(line, ShiftPrefix, 2);
      DiffersAt(line, NoData, 2);
      DiffersAt(line, "\n", 0);
    }
  }

  lemma ClosingLinesKind(d: Digest)
    ensures NoneStart(ClosingLines(d), StatusIndent) && NoneStart(ClosingLines(d), ShiftPrefix)
    ensures NoneStart(ClosingLines(d), AuthorsPrefix) && NoneStart(ClosingLines(d), NoData)
  {
    if AllZero(d) {
      var line := NotEnoughData;
      DiffersAt(line, StatusIndent, 0);
      DiffersAt(line, ShiftPrefix, 0);
      DiffersAt(line, AuthorsPrefix, 0);
      DiffersAt(line, NoData, 0);
    }
  }

  lemma NoneStartConcat(a: seq<string>, b: seq<string>, prefix: string)
    requires NoneStart(a, prefix) && NoneStart(b, prefix)
    ensures NoneStart(a + b, prefix)
  {
    forall k | 0 <= k < |a + b| ensures !StartsWith((a + b)[k], prefix) {
      if k >= |a| {
        assert (a + b)[k] == b[k - |a|];
      }
    }
  }

  /** A line equal to `prefix` starts with it, so it is absent where no line does. */
  lemma AbsentWhereNoneStart(lines: seq<string>, prefix: string)
    requires NoneStart(lines, prefix)
    ensures prefix !in lines
  {
  }

  lemma AllPlainNoneStart(lines: seq<string>)
    requires AllPlain(lines)
    ensures NoneStart(lines, StatusIndent) && NoneStart(lines, ShiftPrefix) && NoneStart(lines, AuthorsPrefix)
    ensures NoneStart(lines, NoData) && NoneStart(lines, "\n")
  {
  }

  /** The tech section of a period with issues holds no no-data line, no author line and no closing line. */
  lemma BusyTechKind(d: Digest)
    requires WellFormed(d) && d.tech.total > 0
    ensures NoneStart(TechLines(d), NoData) && NoneStart(TechLines(d), AuthorsPrefix) && NoneStart(TechLines(d), "\n")
  {
    var t := d.tech;
    var help, statuses, totals, shift := HelpLines(t), CountLines(StatusIndent, StatusNames, t.statusCounts), TotalLines(t), ShiftLines(d.shift);
    PlainPieces(d);
    AllPlainNoneStart(help);
    AllPlainNoneStart(totals);
    StatusLinesKind(StatusNames, t.statusCounts);
    ShiftLinesKind(d.shift);
    NoneStartConcat(help, statuses, NoData);
    NoneStartConcat(help + statuses, totals, NoData);
    NoneStartConcat(help + statuses + totals, shift, NoData);
    NoneStartConcat(help, statuses, AuthorsPrefix);
    NoneStartConcat(help + statuses, totals, AuthorsPrefix);
    NoneStartConcat(help + statuses + totals, shift, AuthorsPrefix);
    NoneStartConcat(help, statuses, "\n");
    NoneStartConcat(help + statuses, totals, "\n");
    NoneStartConcat(help + statuses + totals, shift, "\n");
  }

  /** What the digest shows before and after its tech section never starts with `prefix`, for each prefix given. */
  lemma OuterKind(d: Digest, prefix: string)
    requires WellFormed(d)
    requires prefix == StatusIndent || prefix == ShiftPrefix || prefix == NoData
    ensures NoneStart(HeaderLines(d), prefix)
    ensures NoneStart(CommentLines(d) + AuthorLines(d.youtube) + ReactionLines(d) + ClosingLines(d), prefix)
  {
    PlainPieces(d);
    AllPlainNoneStart(HeaderLines(d));
    AllPlainNoneStart(CommentLines(d));
    AllPlainNoneStart(ReactionLines(d));
    AuthorLinesKind(d.youtube);
    ClosingLinesKind(d);
    NoneStartConcat(CommentLines(d), AuthorLines(d.youtube), prefix);
    NoneStartConcat(CommentLines(d) + AuthorLines(d.youtube), ReactionLines(d), prefix);
    NoneStartConcat(CommentLines(d) + AuthorLines(d.youtube) + ReactionLines(d), ClosingLines(d), prefix);
  }

  /** The digest in three parts: what comes before the tech section, the section, and what follows it. */
  lemma DigestParts(d: Digest)
    requires WellFormed(d)
    ensures DigestLines(d) == HeaderLines(d) + TechLines(d)
      + (CommentLines(d) + AuthorLines(d.youtube) + ReactionLines(d) + ClosingLines(d))
  {
  }

  /**
   * A period without issues shows "Нет данных." in the tech section and then
   * neither status lines nor the shift line, even for a shift report; a period
   * with issues never shows "Нет данных.".
   */
  lemma NoDataDigest(d: Digest)
    requires WellFormed(d)
    ensures NoData in DigestLines(d) <==> d.tech.total == 0
    ensures d.tech.total == 0 ==> NoneStart(DigestLines(d), StatusIndent) && NoneStart(DigestLines(d), ShiftPrefix)
  {
    var head, tech := HeaderLines(d), TechLines(d);
    var tail := CommentLines(d) + AuthorLines(d.youtube) + ReactionLines(d) + ClosingLines(d);
    DigestParts(d);
    if d.tech.total == 0 {
      assert DigestLines(d)[|head|] == NoData;
      DiffersAt(NoData, StatusIndent, 2);
      DiffersAt(NoData, ShiftPrefix, 2);
      OuterKind(d, StatusIndent);
      OuterKind(d, ShiftPrefix);
      NoneStartConcat(head, tech, StatusIndent);
      NoneStartConcat(head + tech, tail, StatusIndent);
      NoneStartConcat(head, tech, ShiftPrefix);
      NoneStartConcat(head + tech, tail, ShiftPrefix);
    } else {
      OuterKind(d, NoData);
      BusyTechKind(d);
      NoneStartConcat(head, tech, NoData);
      NoneStartConcat(head + tech, tail, NoData);
      AbsentWhereNoneStart(DigestLines(d), NoData);
    }
  }

  /** A period with issues shows one line per status, in the order of the status names, and the shift line when the shift is named. */
  lemma DigestShowsStatusesAndShift(d: Digest)
    requires WellFormed(d) && d.tech.total > 0
    ensures forall k :: 0 <= k < |StatusNames| ==>
      DigestLines(d)[|HeaderLines(d)| + 3 + k] == StatusIndent + StatusNames[k] + ": " + NatToString(d.tech.statusCounts[k])
    ensures d.shift.Some? && d.shift.value.name != "" ==>
      ShiftPrefix + d.shift.value.name + " смене: " + NatToString(d.shift.value.work) in DigestLines(d)
  {
    var head, tech := HeaderLines(d), TechLines(d);
    DigestParts(d);
    var statuses := CountLines(StatusIndent, StatusNames, d.tech.statusCounts);
    forall k | 0 <= k < |StatusNames|
      ensures DigestLines(d)[|head| + 3 + k] == StatusIndent + StatusNames[k] + ": " + NatToString(d.tech.statusCounts[k])
    {
      assert tech[3 + k] == statuses[k];
      assert DigestLines(d)[|head| + 3 + k] == tech[3 + k];
    }
    if d.shift.Some? && d.shift.value.name != "" {
      var n := |tech|;
      assert DigestLines(d)[|head| + n - 1] == tech[n - 1];
    }
  }

  /** The author breakdown appears exactly when there are YouTube comments, and then it names every author with their count. */
  lemma AuthorBreakdown(d: Digest)
    requires WellFormed(d)
    ensures NoneStart(DigestLines(d), AuthorsPrefix) <==> d.youtube.total == 0
    ensures d.youtube.total > 0 ==> forall k :: 0 <= k < |YoutubeAuthors| ==>
      Contains(AuthorLines(d.youtube)[0], YoutubeAuthors[k] + ": " + NatToString(d.youtube.authorCounts[k]))
  {
    var head, tech, comments, authors := HeaderLines(d), TechLines(d), CommentLines(d), AuthorLines(d.youtube);
    var rest := ReactionLines(d) + ClosingLines(d);
    assert DigestLines(d) == head + tech + comments + authors + rest;
    var pairs := CountLines("", YoutubeAuthors, d.youtube.authorCounts);
    AuthorLinesKind(d.youtube);
    if d.youtube.total > 0 {
      assert DigestLines(d)[|head| + |tech| + |comments|] == authors[0];
      forall k | 0 <= k < |YoutubeAuthors|
        ensures Contains(authors[0], YoutubeAuthors[k] + ": " + NatToString(d.youtube.authorCounts[k]))
      {
        JoinContains(pairs, ", ", k);
        assert pairs[k] == YoutubeAuthors[k] + ": " + NatToString(d.youtube.authorCounts[k]) by {
          assert "" + YoutubeAuthors[k] == YoutubeAuthors[k];
        }
        ContainsPrefixed(AuthorsPrefix, Join(pairs, ", "), pairs[k]);
      }
    } else {
      PlainPieces(d);
      AllPlainNoneStart(head);
      AllPlainNoneStart(comments);
      AllPlainNoneStart(ReactionLines(d));
      ClosingLinesKind(d);
      NoneStartConcat(ReactionLines(d), ClosingLines(d), AuthorsPrefix);
      if d.tech.total == 0 {
        DiffersAt(NoData, AuthorsPrefix, 2);
      } else {
        BusyTechKind(d);
      }
      NoneStartConcat(head, tech, AuthorsPrefix);
      NoneStartConcat(head + tech, comments, AuthorsPrefix);
      NoneStartConcat(head + tech + comments, authors, AuthorsPrefix);
      NoneStartConcat(head + tech + comments + authors, rest, AuthorsPrefix);
    }
  }

  /** "Недостаточно данных для отчета." closes the digest exactly when all five counts are zero. */
  lemma NotEnoughDataIffAllZero(d: Digest)
    requires WellFormed(d)
    ensures NotEnoughData in DigestLines(d) <==> AllZero(d)
    ensures AllZero(d) ==> DigestLines(d)[|DigestLines(d)| - 1] == NotEnoughData
  {
    var head, tech := HeaderLines(d), TechLines(d);
    var tail := CommentLines(d) + AuthorLines(d.youtube) + ReactionLines(d) + ClosingLines(d);
    DigestParts(d);
    if !AllZero(d) {
      PlainPieces(d);
      AllPlainNoneStart(head);
      AllPlainNoneStart(CommentLines(d));
      AllPlainNoneStart(ReactionLines(d));
      AuthorLinesKind(d.youtube);
      NoneStartConcat(CommentLines(d), AuthorLines(d.youtube), "\n");
      NoneStartConcat(CommentLines(d) + AuthorLines(d.youtube), ReactionLines(d), "\n");
      NoneStartConcat(CommentLines(d) + AuthorLines(d.youtube) + ReactionLines(d), ClosingLines(d), "\n");
      if d.tech.total == 0 {
        DiffersAt(NoData, "\n", 0);
      } else {
        BusyTechKind(d);
      }
      NoneStartConcat(head, tech, "\n");
      NoneStartConcat(head + tech, tail, "\n");
      assert StartsWith(NotEnoughData, "\n");
      AbsentWhereNoneStart(DigestLines(d), NotEnoughData);
    }
  }

  lemma CountLinesSnoc(indent: string, names: seq<string>, counts: seq<nat>, k: nat)
    requires |names| == |counts| && k < |names|
    ensures CountLines(indent, names[..k + 1], counts[..k + 1])
      == CountLines(indent, names[..k], counts[..k]) + [indent + names[k] + ": " + NatToString(counts[k])]
  {
  }

  /** `for name, count in counts.items(): lines.append(f"{indent}{name}: {count}")`. */
  method AppendCountLines(lines: seq<string>, indent: string, names: seq<string>, counts: seq<nat>) returns (out: seq<string>)
    requires |names| == |counts|
    ensures out == lines + CountLines(indent, names, counts)
  {
    out := lines;
    var k := 0;
    while k < |names|
      invariant 0 <= k <= |names|
      invariant out == lines + CountLines(indent, names[..k], counts[..k])
    {
      CountLinesSnoc(indent, names, counts, k);
      out := out + [indent + names[k] + ": " + NatToString(counts[k])];
      k := k + 1;
    }
    assert names[..k] == names && counts[..k] == counts;
  }

  /** The tech section of `format_report`, appended to the lines so far. */
  method AppendTechLines(lines: seq<string>, d: Digest) returns (out: seq<string>)
    requires WellFormed(d)
    ensures out == lines + TechLines(d)
  {
    var t := d.tech;
    out := lines;
    if t.total == 0 {
      out := out + [NoData];
      return;
    }
    out := out + [Counted(HelpLabel, t.countHelp)];
    out := out + [""];
    out := out + [StatusesHeading];
    var help := out;
    out := AppendCountLines(out, StatusIndent, StatusNames, t.statusCounts);
    var middle := out;
    out := out + [""];
    out := out + [Counted(ResponsesLabel, t.moderatorResponseCount)];
    out := out + [Counted(OtherLabel, t.otherCount)];
    out := out + [Counted(TotalLabel, t.total)];
    assert out == middle + TotalLines(t);
    var totals := out;
    if d.shift.Some? && d.shift.value.name != "" {
      out := out + [""];
      out := out + [ShiftLine(d.shift.value)];
    }
    assert out == totals + ShiftLines(d.shift);
    ghost var statuses := CountLines(StatusIndent, StatusNames, t.statusCounts);
    ghost var h, c, tl, sh := HelpLines(t), statuses, TotalLines(t), ShiftLines(d.shift);
    assert help == lines + h;
    assert out == (((lines + h) + c) + tl) + sh;
    AppendAssoc(lines, h, c);
    AppendAssoc(lines, h + c, tl);
    AppendAssoc(lines, (h + c) + tl, sh);
    assert TechLines(d) == ((h + c) + tl) + sh;
  }

  /** `format_report`: the lines appended one by one, then joined with "\n". */
  method FormatReport(d: Digest) returns (text: string)
    requires WellFormed(d)
    ensures text == Join(DigestLines(d), "\n")
  {
    var t := d.tech;
    var lines: seq<string> := [];
    lines := lines + [TitleLine(d)];
    lines := lines + [TechHeading];
    assert lines == HeaderLines(d);
    lines := AppendTechLines(lines, d);
    var upper := lines;
    lines := lines + [""];
    lines := lines + [Counted(RedditLabel, d.redditComments)];
    lines := lines + [""];
    lines := lines + [Counted(YoutubeLabel, d.youtube.total)];
    AppendItems(upper, "", Counted(RedditLabel, d.redditComments), "", Counted(YoutubeLabel, d.youtube.total));
    assert lines == upper + CommentLines(d);
    var comments := lines;
    if d.youtube.total > 0 {
      lines := lines + [AuthorsLine(d.youtube)];
    }
    assert lines == comments + AuthorLines(d.youtube);
    var lower := lines;
    lines := lines + [""];
    lines := lines + [ReactionsHeading];
    lines := lines + [Counted(PlusLabel, d.plus)];
    lines := lines + [Counted(MinusLabel, d.minus)];
    AppendItems(lower, "", ReactionsHeading, Counted(PlusLabel, d.plus), Counted(MinusLabel, d.minus));
    assert lines == lower + ReactionLines(d);
    var reactions := lines;
    if AllZero(d) {
      lines := lines + [NotEnoughData];
    }
    assert lines == reactions + ClosingLines(d);
    text := Join(lines, "\n");
  }

  // ---------------------------------------------------------------- create_detailed_report_file

  /** The rule written after each record: forty dashes. */
  const Separator: string := "----------------------------------------\n"

  function FieldLine(field: (string, string)): string {
    field.0 + ": " + field.1 + "\n"
  }

  /** A record's fields, one "key: value" line each. */
  function RecordText(record: Record): string
    decreases |record|
  {
    if record == [] then "" else RecordText(record[..|record| - 1]) + FieldLine(record[|record| - 1])
  }

  /** The records of a section, each followed by the separator. */
  function RecordsText(records: seq<Record>): string
    decreases |records|
  {
    if records == [] then "" else RecordsText(records[..|records| - 1]) + RecordText(records[|records| - 1]) + Separator
  }

  /** A section: its heading, then its records, or "Нет данных." when it has none. */
  function SectionText(title: string, records: seq<Record>): string {
    "=== " + title + " ===\n" + (if records == [] then "Нет данных.\n" else RecordsText(records))
  }

  /** The whole export: title, period, and the four sections separated by blank lines. */
  function DetailText(startIso: string, endIso: string, tech: seq<Record>, youtube: seq<Record>,
                      reddit: seq<Record>, analytics: seq<Record>): string
  {
    "ПОДРОБНЫЙ ОТЧЁТ\n" + "Период: " + startIso + " - " + endIso + "\n\n"
    + SectionText("Technical Issues", tech) + "\n"
    + SectionText("YouTube Comments", youtube) + "\n"
    + SectionText("Reddit Comments", reddit) + "\n"
    + SectionText("Analytics", analytics)
  }

  lemma {:induction false} RecordTextContains(record: Record, j: nat)
    requires j < |record|
    ensures Contains(RecordText(record), FieldLine(record[j]))
    decreases |record|
  {
    var n := |record| - 1;
    var init := record[..n];
    if j == n {
      ContainsMiddle(RecordText(init), FieldLine(record[n]), "");
      assert RecordText(init) + FieldLine(record[n]) + "" == RecordText(record);
    } else {
      assert init[j] == record[j];
      RecordTextContains(init, j);
      ContainsAppended(RecordText(init), FieldLine(record[n]), FieldLine(record[j]));
    }
  }

  lemma {:induction false} RecordsTextContains(records: seq<Record>, i: nat, j: nat)
    requires i < |records| && j < |records[i]|
    ensures Contains(RecordsText(records), FieldLine(records[i][j]))
    decreases |records|
  {
    var n := |records| - 1;
    var init := records[..n];
    var line := FieldLine(records[i][j]);
    if i == n {
      RecordTextContains(records[n], j);
      ContainsPrefixed(RecordsText(init), RecordText(records[n]), line);
      ContainsAppended(RecordsText(init) + RecordText(records[n]), Separator, line);
    } else {
      assert init[i] == records[i];
      RecordsTextContains(init, i, j);
      ContainsAppended(RecordsText(init), RecordText(records[n]), line);
      ContainsAppended(RecordsText(init) + RecordText(records[n]), Separator, line);
    }
  }

  /** Every field of every record of a section appears in it as a "key: value" line. */
  lemma SectionShowsEveryField(title: string, records: seq<Record>, i: nat, j: nat)
    requires i < |records| && j < |records[i]|
    ensures Contains(SectionText(title, records), FieldLine(records[i][j]))
  {
    RecordsTextContains(records, i, j);
    ContainsPrefixed("=== " + title + " ===\n", RecordsText(records), FieldLine(records[i][j]));
  }

  /** Every field of every record of the four databases reaches the export, whichever section it belongs to. */
  lemma DetailShowsEveryField(startIso: string, endIso: string, tech: seq<Record>, youtube: seq<Record>,
                              reddit: seq<Record>, analytics: seq<Record>, i: nat, j: nat)
    ensures i < |tech| && j < |tech[i]| ==>
      Contains(DetailText(startIso, endIso, tech, youtube, reddit, analytics), FieldLine(tech[i][j]))
    ensures i < |youtube| && j < |youtube[i]| ==>
      Contains(DetailText(startIso, endIso, tech, youtube, reddit, analytics), FieldLine(youtube[i][j]))
    ensures i < |reddit| && j < |reddit[i]| ==>
      Contains(DetailText(startIso, endIso, tech, youtube, reddit, analytics), FieldLine(reddit[i][j]))
    ensures i < |analytics| && j < |analytics[i]| ==>
      Contains(DetailText(startIso, endIso, tech, youtube, reddit, analytics), FieldLine(analytics[i][j]))
  {
    var h := "ПОДРОБНЫЙ ОТЧЁТ\n" + "Период: " + startIso + " - " + endIso + "\n\n";
    var t, y, r, a := SectionText("Technical Issues", tech), SectionText("YouTube Comments", youtube),
                      SectionText("Reddit Comments", reddit), SectionText("Analytics", analytics);
    if i < |tech| && j < |tech[i]| {
      var line := FieldLine(tech[i][j]);
      SectionShowsEveryField("Technical Issues", tech, i, j);
      ContainsPrefixed(h, t, line);
      ContainsAppended(h + t, "\n", line);
      ContainsAppended(h + t + "\n", y, line);
      YoutubeOnward(h + t + "\n" + y, r, a, line);
    }
    if i < |youtube| && j < |youtube[i]| {
      var line := FieldLine(youtube[i][j]);
      SectionShowsEveryField("YouTube Comments", youtube, i, j);
      ContainsPrefixed(h + t + "\n", y, line);
      YoutubeOnward(h + t + "\n" + y, r, a, line);
    }
    if i < |reddit| && j < |reddit[i]| {
      var line := FieldLine(reddit[i][j]);
      SectionShowsEveryField("Reddit Comments", reddit, i, j);
      ContainsPrefixed(h + t + "\n" + y + "\n", r, line);
      ContainsAppended(h + t + "\n" + y + "\n" + r, "\n", line);
      ContainsAppended(h + t + "\n" + y + "\n" + r + "\n", a, line);
    }
    if i < |analytics| && j < |analytics[i]| {
      var line := FieldLine(analytics[i][j]);
      SectionShowsEveryField("Analytics", analytics, i, j);
      ContainsPrefixed(h + t + "\n" + y + "\n" + r + "\n", a, line);
    }
  }

  /** What contains `line` up to the YouTube section still contains it once the last two sections follow. */
  lemma YoutubeOnward(s: string, r: string, a: string, line: string)
    requires Contains(s, line)
    ensures Contains(s + "\n" + r + "\n" + a, line)
  {
    ContainsAppended(s, "\n", line);
    ContainsAppended(s + "\n", r, line);
    ContainsAppended(s + "\n" + r, "\n", line);
    ContainsAppended(s + "\n" + r + "\n", a, line);
  }

  /** One record written field by field, each as a "key: value" line. */
  method WriteRecord(record: Record) returns (text: string)
    ensures text == RecordText(record)
  {
    text := "";
    var j := 0;
    while j < |record|
      invariant 0 <= j <= |record|
      invariant text == RecordText(record[..j])
    {
      assert record[..j + 1][..j] == record[..j];
      text := text + FieldLine(record[j]);
      j := j + 1;
    }
    assert record[..j] == record;
  }

  /** One section written record by record, each record followed by the separator. */
  method WriteSection(title: string, records: seq<Record>) returns (text: string)
    ensures text == SectionText(title, records)
  {
    var heading := "=== " + title + " ===\n";
    if records == [] {
      return heading + "Нет данных.\n";
    }
    var body := "";
    var i := 0;
    while i < |records|
      invariant 0 <= i <= |records|
      invariant body == RecordsText(records[..i])
    {
      var entry := WriteRecord(records[i]);
      assert records[..i + 1][..i] == records[..i];
      body := body + entry + Separator;
      i := i + 1;
    }
    assert records[..i] == records;
    text := heading + body;
  }

  /** `create_detailed_report_file`'s contents. */
  method CreateDetailedReport(startIso: string, endIso: string, tech: seq<Record>, youtube: seq<Record>,
                              reddit: seq<Record>, analytics: seq<Record>) returns (text: string)
    ensures text == DetailText(startIso, endIso, tech, youtube, reddit, analytics)
  {
    text := "ПОДРОБНЫЙ ОТЧЁТ\n";
    text := text + "Период: " + startIso + " - " + endIso + "\n\n";
    var section := WriteSection("Technical Issues", tech);
    text := text + section + "\n";
    section := WriteSection("YouTube Comments", youtube);
    text := text + section + "\n";
    section := WriteSection("Reddit Comments", reddit);
    text := text + section + "\n";
    section := WriteSection("Analytics", analytics);
    text := text + section;
  }
}
