/**
 * Comment mirroring: the newest comments of the community are copied into the
 * comments database. The listing is newest first; comments by ignored authors
 * are skipped, comments from the last hour are stored, and the first other
 * comment that is older ends the scan.
 */
module RedditCommentsToNotion {
  import opened Wrappers
  import opened Notion
  import opened Reddit
  import opened Text
  import opened RedditToNotion

  // ---------------------------------------------------------------- add_comments_to_notion

  /** The comment page's URL: the permalink on the forum's host. */
  function CommentUrl(permalink: string): (url: string)
    ensures |url| == |"https://reddit.com"| + |permalink|
    ensures url[..|"https://reddit.com"|] == "https://reddit.com" && url[|"https://reddit.com"|..] == permalink
  {
    "https://reddit.com" + permalink
  }

  /**
   * The page `add_comments_to_notion` creates, or the error it raises: a missing
   * database id is reported before anything else, a deleted author fails when
   * its name is read.
   */
  function CommentPage(c: Comment, dbId: Option<string>): (r: Result<Page, IngestError>)
    ensures !Configured(dbId) ==> r == Err(DatabaseNotFound)
    ensures Configured(dbId) && c.author.None? ==> r == Err(AuthorMissing)
    ensures Configured(dbId) && c.author.Some? ==> r.Ok?
  {
    if !Configured(dbId) then Err(DatabaseNotFound)
    else if c.author.None? then Err(AuthorMissing)
    else
      Ok(map[
        "Date" := DateProp(Some(c.createdUtc)),
        "Username" := TitleProp(TextValue(c.author.value)),
        "Comment Text" := RichTextProp(TextValue(c.body)),
        "URL" := UrlProp(Some(CommentUrl(c.permalink)))
      ])
  }

  /** The page records the comment's date, author, text and link, and nothing else. */
  lemma CommentPageShape(c: Comment, dbId: Option<string>)
    requires CommentPage(c, dbId).Ok?
    ensures var page := CommentPage(c, dbId).value;
      && page.Keys == {"Date", "Username", "Comment Text", "URL"}
      && DateOf(page) == Some(c.createdUtc)
      && page["Username"] == TitleProp(TextValue(c.author.value))
      && page["Comment Text"] == RichTextProp(TextValue(c.body))
      && page["URL"] == UrlProp(Some(CommentUrl(c.permalink)))
  {
  }

  // ---------------------------------------------------------------- scan_comments_and_add_to_notion

  /**
   * The comments the scan hands to `add_comments_to_notion`, in listing order:
   * an ignored author is skipped whatever the comment's age, a comment inside the
   * window is taken, and the first other comment ends the scan.
   */
  function Candidates(comments: seq<Comment>, cutoff: int, ignored: set<string>): (r: seq<Comment>)
    ensures |r| <= |comments|
    ensures forall k :: 0 <= k < |r| ==> !AuthoredByOneOf(r[k].author, ignored) && r[k].createdUtc >= cutoff
    decreases |comments|
  {
    if comments == [] then []
    else if AuthoredByOneOf(comments[0].author, ignored) then Candidates(comments[1..], cutoff, ignored)
    else if comments[0].createdUtc >= cutoff then [comments[0]] + Candidates(comments[1..], cutoff, ignored)
    else []
  }

  /**
   * What one `add_comments_to_notion` call does with the store's answer `accepted`
   * to its `pages.create`: the page is created, or the error escapes (a refused
   * create raises too).
   */
  function CreateOutcome(c: Comment, accepted: bool, dbId: Option<string>): Result<Page, IngestError>
  {
    match CommentPage(c, dbId)
      case Err(e) => Err(e)
      case Ok(page) => if accepted then Ok(page) else Err(CreateRefused)
  }

  /**
   * The pages created for the candidates, `accepted[k]` being the store's answer
   * to the create for candidate `k`: one each, up to the first failure.
   */
  function CreatedPages(candidates: seq<Comment>, accepted: seq<bool>, dbId: Option<string>): seq<Page>
    requires |accepted| == |candidates|
    decreases |candidates|
  {
    if candidates == [] then []
    else match CreateOutcome(candidates[0], accepted[0], dbId)
      case Err(_) => []
      case Ok(page) => [page] + CreatedPages(candidates[1..], accepted[1..], dbId)
  }

  /** The error that ends the scan, if one is raised. */
  function FirstFailure(candidates: seq<Comment>, accepted: seq<bool>, dbId: Option<string>): Option<IngestError>
    requires |accepted| == |candidates|
    decreases |candidates|
  {
    if candidates == [] then None
    else match CreateOutcome(candidates[0], accepted[0], dbId)
      case Err(e) => Some(e)
      case Ok(_) => FirstFailure(candidates[1..], accepted[1..], dbId)
  }

  /** Index of the comment that ends the scan: the first one neither ignored nor in the window. */
  function StopIndex(comments: seq<Comment>, cutoff: int, ignored: set<string>): (n: nat)
    ensures n <= |comments|
    ensures forall j :: 0 <= j < n ==> AuthoredByOneOf(comments[j].author, ignored) || comments[j].createdUtc >= cutoff
    ensures n < |comments| ==> !AuthoredByOneOf(comments[n].author, ignored) && comments[n].createdUtc < cutoff
    decreases |comments|
  {
    if comments == [] then 0
    else if AuthoredByOneOf(comments[0].author, ignored) || comments[0].createdUtc >= cutoff then
      1 + StopIndex(comments[1..], cutoff, ignored)
    else 0
  }

  /** The comments of `comments` whose author is not ignored, in order. */
  function NotIgnored(comments: seq<Comment>, ignored: set<string>): (r: seq<Comment>)
    ensures |r| <= |comments|
    ensures forall k :: 0 <= k < |r| ==> r[k] in comments && !AuthoredByOneOf(r[k].author, ignored)
    decreases |comments|
  {
    if comments == [] then []
    else if AuthoredByOneOf(comments[0].author, ignored) then NotIgnored(comments[1..], ignored)
    else [comments[0]] + NotIgnored(comments[1..], ignored)
  }

  /**
   * The scan takes exactly the comments not ignored before the stopping comment:
   * an order-preserving selection of the listing.
   */
  lemma {:induction false} CandidatesAreUnignoredPrefix(comments: seq<Comment>, cutoff: int, ignored: set<string>)
    ensures Candidates(comments, cutoff, ignored) == NotIgnored(comments[..StopIndex(comments, cutoff, ignored)], ignored)
    decreases |comments|
  {
    if comments != [] {
      var n := StopIndex(comments, cutoff, ignored);
      CandidatesAreUnignoredPrefix(comments[1..], cutoff, ignored);
      if n > 0 {
        assert comments[..n][1..] == comments[1..][..n - 1];
        assert comments[..n][0] == comments[0];
      } else {
        assert comments[..n] == [];
      }
    }
  }

  /** An ignored comment is skipped before its age is looked at: removing it changes nothing. */
  lemma {:induction false} IgnoredCommentNeverStops(comments: seq<Comment>, i: nat, cutoff: int, ignored: set<string>)
    requires i < |comments| && AuthoredByOneOf(comments[i].author, ignored)
    ensures Candidates(comments, cutoff, ignored) == Candidates(comments[..i] + comments[i + 1..], cutoff, ignored)
    decreases i
  {
    var rest := comments[..i] + comments[i + 1..];
    if i == 0 {
      assert rest == comments[1..];
    } else {
      IgnoredCommentNeverStops(comments[1..], i - 1, cutoff, ignored);
      assert rest[0] == comments[0];
      assert rest[1..] == comments[1..][..i - 1] + comments[1..][i..];
    }
  }

  /** Nothing after the stopping comment is looked at. */
  lemma {:induction false} CandidatesIgnoreTail(comments: seq<Comment>, tail: seq<Comment>, cutoff: int, ignored: set<string>)
    requires StopIndex(comments, cutoff, ignored) < |comments|
    ensures Candidates(comments + tail, cutoff, ignored) == Candidates(comments, cutoff, ignored)
    decreases |comments|
  {
    assert (comments + tail)[0] == comments[0];
    if AuthoredByOneOf(comments[0].author, ignored) || comments[0].createdUtc >= cutoff {
      assert (comments + tail)[1..] == comments[1..] + tail;
      CandidatesIgnoreTail(comments[1..], tail, cutoff, ignored);
    }
  }

  /** Once a page was created for every earlier candidate, the later ones carry on independently. */
  lemma {:induction false} CreatedPagesAppend(a: seq<Comment>, fa: seq<bool>, b: seq<Comment>, fb: seq<bool>, dbId: Option<string>)
    requires |fa| == |a| && |fb| == |b|
    requires FirstFailure(a, fa, dbId) == None
    ensures CreatedPages(a + b, fa + fb, dbId) == CreatedPages(a, fa, dbId) + CreatedPages(b, fb, dbId)
    ensures FirstFailure(a + b, fa + fb, dbId) == FirstFailure(b, fb, dbId)
    decreases |a|
  {
    if a == [] {
      assert a + b == b && fa + fb == fb;
    } else {
      assert (a + b)[0] == a[0] && (fa + fb)[0] == fa[0];
      assert (a + b)[1..] == a[1..] + b && (fa + fb)[1..] == fa[1..] + fb;
      CreatedPagesAppend(a[1..], fa[1..], b, fb, dbId);
    }
  }

  /**
   * After a failure nothing more is created: a comment whose page cannot be built,
   * or whose create the store refuses, ends the scan with that error.
   */
  lemma FailureEndsCreation(a: seq<Comment>, fa: seq<bool>, c: Comment, accepted: bool, b: seq<Comment>, fb: seq<bool>, dbId: Option<string>)
    requires |fa| == |a| && |fb| == |b|
    requires FirstFailure(a, fa, dbId) == None && (CommentPage(c, dbId).Err? || !accepted)
    ensures CreatedPages(a + [c] + b, fa + [accepted] + fb, dbId) == CreatedPages(a, fa, dbId)
    ensures FirstFailure(a + [c] + b, fa + [accepted] + fb, dbId)
      == Some(if CommentPage(c, dbId).Err? then CommentPage(c, dbId).error else CreateRefused)
  {
    AppendAssoc(a, [c], b);
    AppendAssoc(fa, [accepted], fb);
    CreatedPagesAppend(a, fa, [c] + b, [accepted] + fb, dbId);
    FailingHeadStops(c, accepted, b, fb, dbId);
    assert CreatedPages(a, fa, dbId) + [] == CreatedPages(a, fa, dbId);
  }

  lemma FailingHeadStops(c: Comment, accepted: bool, b: seq<Comment>, fb: seq<bool>, dbId: Option<string>)
    requires |fb| == |b| && (CommentPage(c, dbId).Err? || !accepted)
    ensures CreatedPages([c] + b, [accepted] + fb, dbId) == []
    ensures FirstFailure([c] + b, [accepted] + fb, dbId)
      == Some(if CommentPage(c, dbId).Err? then CommentPage(c, dbId).error else CreateRefused)
  {
    assert ([c] + b)[0] == c && ([accepted] + fb)[0] == accepted;
  }

  lemma CreatedPagesSnoc(a: seq<Comment>, fa: seq<bool>, c: Comment, dbId: Option<string>)
    requires |fa| == |a|
    requires FirstFailure(a, fa, dbId) == None && CommentPage(c, dbId).Ok?
    ensures CreatedPages(a + [c], fa + [true], dbId) == CreatedPages(a, fa, dbId) + [CommentPage(c, dbId).value]
    ensures FirstFailure(a + [c], fa + [true], dbId) == None
  {
    CreatedPagesAppend(a, fa, [c], [true], dbId);
  }

  /** Without a configured database the first candidate raises and nothing is written. */
  lemma NothingWrittenWithoutDatabase(candidates: seq<Comment>, accepted: seq<bool>, dbId: Option<string>)
    requires |accepted| == |candidates| && !Configured(dbId)
    ensures CreatedPages(candidates, accepted, dbId) == []
    ensures FirstFailure(candidates, accepted, dbId) == if candidates == [] then None else Some(DatabaseNotFound)
  {
  }

  /** Every created page mirrors a candidate comment, in order, whose create the store accepted. */
  lemma {:induction false} CreatedPagesMirrorCandidates(candidates: seq<Comment>, accepted: seq<bool>, dbId: Option<string>)
    requires |accepted| == |candidates|
    ensures |CreatedPages(candidates, accepted, dbId)| <= |candidates|
    ensures forall k :: 0 <= k < |CreatedPages(candidates, accepted, dbId)| ==>
      accepted[k] && CommentPage(candidates[k], dbId) == Ok(CreatedPages(candidates, accepted, dbId)[k])
    decreases |candidates|
  {
    if candidates != [] && CreateOutcome(candidates[0], accepted[0], dbId).Ok? {
      var tail := candidates[1..];
      CreatedPagesMirrorCandidates(tail, accepted[1..], dbId);
      var created := CreatedPages(candidates, accepted, dbId);
      assert created == [CommentPage(candidates[0], dbId).value] + CreatedPages(tail, accepted[1..], dbId);
      forall k | 0 <= k < |created|
        ensures accepted[k] && CommentPage(candidates[k], dbId) == Ok(created[k])
      {
        if k > 0 {
          assert candidates[k] == tail[k - 1] && accepted[k] == accepted[1..][k - 1];
        }
      }
    }
  }

  /** Each comment listing holds at most 100 comments, so at most 100 pages are written per run. */
  lemma ScanWritesAtMostOneListing(feed: seq<Comment>, cutoff: int, ignored: set<string>, dbId: Option<string>, accepted: seq<bool>)
    requires |accepted| == |Candidates(Listing(feed), cutoff, ignored)|
    ensures |CreatedPages(Candidates(Listing(feed), cutoff, ignored), accepted, dbId)| <= ListingLimit
  {
    CreatedPagesMirrorCandidates(Candidates(Listing(feed), cutoff, ignored), accepted, dbId);
  }

  lemma CandidatesSkip(comments: seq<Comment>, i: nat, cutoff: int, ignored: set<string>)
    requires i < |comments| && AuthoredByOneOf(comments[i].author, ignored)
    ensures Candidates(comments[i..], cutoff, ignored) == Candidates(comments[i + 1..], cutoff, ignored)
  {
    assert comments[i..][1..] == comments[i + 1..];
  }

  lemma CandidatesTake(comments: seq<Comment>, i: nat, cutoff: int, ignored: set<string>)
    requires i < |comments| && !AuthoredByOneOf(comments[i].author, ignored) && comments[i].createdUtc >= cutoff
    ensures Candidates(comments[i..], cutoff, ignored) == [comments[i]] + Candidates(comments[i + 1..], cutoff, ignored)
  {
    assert comments[i..][1..] == comments[i + 1..];
  }

  lemma CandidatesStop(comments: seq<Comment>, i: nat, cutoff: int, ignored: set<string>)
    requires i < |comments| && !AuthoredByOneOf(comments[i].author, ignored) && comments[i].createdUtc < cutoff
    ensures Candidates(comments[i..], cutoff, ignored) == []
  {
    assert comments[i..][0] == comments[i];
  }

  /**
   * `add_comments_to_notion`, `accepted` being the store's answer to the create:
   * the page is created, or the error is raised and nothing is written.
   */
  method AddCommentToNotion(db: Database, c: Comment, dbId: Option<string>, accepted: bool) returns (error: Option<IngestError>)
    modifies db
    ensures CommentPage(c, dbId).Ok? && accepted ==> error == None && db.pages == old(db.pages) + [CommentPage(c, dbId).value]
    ensures CommentPage(c, dbId).Ok? && !accepted ==> error == Some(CreateRefused) && db.pages == old(db.pages)
    ensures CommentPage(c, dbId).Err? ==> error == Some(CommentPage(c, dbId).error) && db.pages == old(db.pages)
  {
    var page := CommentPage(c, dbId);
    if page.Err? {
      return Some(page.error);
    }
    if !accepted {
      return Some(CreateRefused);
    }
    db.Create(page.value);
    return None;
  }

  /** Taking one more candidate keeps the scan's bookkeeping in step with `CreatedPages`. */
  lemma TakeStep(tried: seq<Comment>, ft: seq<bool>, c: Comment, accepted: bool, later: seq<Comment>, fl: seq<bool>, dbId: Option<string>)
    requires |ft| == |tried| && |fl| == |later|
    requires FirstFailure(tried, ft, dbId) == None
    ensures tried + ([c] + later) == (tried + [c]) + later
    ensures CreateOutcome(c, accepted, dbId).Ok? ==>
      && FirstFailure(tried + [c], ft + [accepted], dbId) == None
      && CreatedPages(tried + [c], ft + [accepted], dbId) == CreatedPages(tried, ft, dbId) + [CommentPage(c, dbId).value]
    ensures CreateOutcome(c, accepted, dbId).Err? ==>
      && FirstFailure(tried + [c] + later, ft + [accepted] + fl, dbId) == Some(CreateOutcome(c, accepted, dbId).error)
      && CreatedPages(tried + [c] + later, ft + [accepted] + fl, dbId) == CreatedPages(tried, ft, dbId)
  {
    AppendAssoc(tried, [c], later);
    if CreateOutcome(c, accepted, dbId).Ok? {
      CreatedPagesSnoc(tried, ft, c, dbId);
    } else {
      FailureEndsCreation(tried, ft, c, accepted, later, fl, dbId);
    }
  }

  /**
   * One run of the comment scan; `accepted[k]` is the store's answer to the create
   * for the `k`-th comment taken. The cutoff is taken afresh from `now`; the
   * returned error is the one that escapes the scan, after which the pages
   * already created stay and no later comment is looked at.
   */
  method ScanCommentsAndAddToNotion(db: Database, feed: seq<Comment>, now: int, ignored: set<string>, dbId: Option<string>, accepted: seq<bool>)
    returns (failure: Option<IngestError>)
    requires |accepted| == |Candidates(Listing(feed), now - ScanWindow, ignored)|
    modifies db
    ensures db.pages == old(db.pages) + CreatedPages(Candidates(Listing(feed), now - ScanWindow, ignored), accepted, dbId)
    ensures failure == FirstFailure(Candidates(Listing(feed), now - ScanWindow, ignored), accepted, dbId)
  {
    var oneHourAgo := now - ScanWindow;
    var comments := Listing(feed);
    ghost var initial := db.pages;
    ghost var tried: seq<Comment> := [];
    var taken := 0;
    var i := 0;
    while i < |comments|
      invariant 0 <= i <= |comments|
      invariant Candidates(comments, oneHourAgo, ignored) == tried + Candidates(comments[i..], oneHourAgo, ignored)
      invariant taken == |tried| <= |accepted|
      invariant FirstFailure(tried, accepted[..taken], dbId) == None
      invariant db.pages == initial + CreatedPages(tried, accepted[..taken], dbId)
    {
      var comment := comments[i];
      if AuthoredByOneOf(comment.author, ignored) {
        CandidatesSkip(comments, i, oneHourAgo, ignored);
        i := i + 1;
        continue;
      }
      if comment.createdUtc < oneHourAgo {
        CandidatesStop(comments, i, oneHourAgo, ignored);
        break;
      }
      CandidatesTake(comments, i, oneHourAgo, ignored);
      ghost var later := Candidates(comments[i + 1..], oneHourAgo, ignored);
      SplitAt(accepted, taken);
      TakeStep(tried, accepted[..taken], comment, accepted[taken], later, accepted[taken + 1..], dbId);
      var error := AddCommentToNotion(db, comment, dbId, accepted[taken]);
      if error.Some? {
        return error;
      }
      tried := tried + [comment];
      taken := taken + 1;
      i := i + 1;
    }
    assert Candidates(comments[i..], oneHourAgo, ignored) == [];
    assert Candidates(comments, oneHourAgo, ignored) == tried;
    assert accepted[..taken] == accepted;
    return None;
  }
}
