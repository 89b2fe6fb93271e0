/**
 * The forum-to-chat relay and the reaction capture: new posts and comments are
 * announced in the support chat, and a 👍 or 👎 sent as a reply to an
 * announcement is stored, with the announced item's text, in the analytics
 * database.
 */
module RedditToTelegram {
  import opened Wrappers
  import opened Text
  import opened Notion
  import opened Reddit
  import opened Messaging

  // ---------------------------------------------------------------- track_posts, track_comments

  function PostNotification(post: Submission): string {
    "📌 Новый пост: " + post.title + "\n🔗 Ссылка: " + post.url
  }

  /** The link a comment announcement carries. */
  function CommentLink(c: Comment): string {
    "https://www.reddit.com" + c.permalink
  }

  function CommentNotification(c: Comment): string {
    "💬 Новый комментарий:\n\n" + c.body + "\n🔗 Ссылка: " + CommentLink(c)
  }

  function PostAuthor(post: Submission): Option<string> {
    post.author
  }

  function CommentAuthor(c: Comment): Option<string> {
    c.author
  }

  /**
   * The announcements a stream of new items leaves in the chat: one per item
   * whose author is not ignored, when its send was delivered (`delivered[i]` for
   * item `i`; a failed send is swallowed).
   */
  function Relayed<T>(items: seq<T>, author: T -> Option<string>, ignored: set<string>, text: T -> string, delivered: seq<bool>): (out: seq<Message>)
    requires |delivered| == |items|
    ensures |out| <= |items|
  {
    if items == [] then []
    else
      var n := |items| - 1;
      Relayed(items[..n], author, ignored, text, delivered[..n])
      + (if !AuthoredByOneOf(author(items[n]), ignored) && delivered[n] then [TextMessage(TelegramChat, text(items[n]))] else [])
  }

  /** `m` announces one of `items` whose author is not ignored. */
  ghost predicate AnnouncesUnignored<T>(items: seq<T>, author: T -> Option<string>, ignored: set<string>, text: T -> string, m: Message) {
    exists i :: 0 <= i < |items| && !AuthoredByOneOf(author(items[i]), ignored) && m == TextMessage(TelegramChat, text(items[i]))
  }

  /** Nothing from an ignored author reaches the chat, and nothing that was not announced. */
  lemma {:induction false} RelayedOnlyUnignored<T>(items: seq<T>, author: T -> Option<string>, ignored: set<string>, text: T -> string, delivered: seq<bool>)
    requires |delivered| == |items|
    ensures forall k :: 0 <= k < |Relayed(items, author, ignored, text, delivered)| ==>
      AnnouncesUnignored(items, author, ignored, text, Relayed(items, author, ignored, text, delivered)[k])
    decreases |items|
  {
    if items != [] {
      var n := |items| - 1;
      var init := items[..n];
      RelayedOnlyUnignored(init, author, ignored, text, delivered[..n]);
      var prev := Relayed(init, author, ignored, text, delivered[..n]);
      var out := Relayed(items, author, ignored, text, delivered);
      forall k | 0 <= k < |out|
        ensures AnnouncesUnignored(items, author, ignored, text, out[k])
      {
        if k < |prev| {
          assert AnnouncesUnignored(init, author, ignored, text, prev[k]);
          var i :| 0 <= i < |init| && !AuthoredByOneOf(author(init[i]), ignored) && prev[k] == TextMessage(TelegramChat, text(init[i]));
          assert init[i] == items[i];
        } else {
          assert out[k] == TextMessage(TelegramChat, text(items[n]));
        }
      }
    }
  }

  /** Every delivered item from an author who is not ignored is announced. */
  lemma {:induction false} RelayedEveryUnignored<T>(items: seq<T>, author: T -> Option<string>, ignored: set<string>, text: T -> string, delivered: seq<bool>, i: nat)
    requires |delivered| == |items| && i < |items|
    requires delivered[i] && !AuthoredByOneOf(author(items[i]), ignored)
    ensures TextMessage(TelegramChat, text(items[i])) in Relayed(items, author, ignored, text, delivered)
    decreases |items|
  {
    var n := |items| - 1;
    if i < n {
      RelayedEveryUnignored(items[..n], author, ignored, text, delivered[..n], i);
      assert items[..n][i] == items[i];
    }
  }

  lemma RelayedSnoc<T>(items: seq<T>, author: T -> Option<string>, ignored: set<string>, text: T -> string, delivered: seq<bool>, i: nat)
    requires |delivered| == |items| && i < |items|
    ensures Relayed(items[..i + 1], author, ignored, text, delivered[..i + 1])
      == Relayed(items[..i], author, ignored, text, delivered[..i])
        + (if !AuthoredByOneOf(author(items[i]), ignored) && delivered[i] then [TextMessage(TelegramChat, text(items[i]))] else [])
  {
    assert items[..i + 1][..i] == items[..i];
    assert delivered[..i + 1][..i] == delivered[..i];
  }

  /** `track_posts` over the posts that arrive on the stream. */
  method TrackPosts(outbox: Outbox, posts: seq<Submission>, ignored: set<string>, delivered: seq<bool>)
    requires |delivered| == |posts|
    modifies outbox
    ensures outbox.sent == old(outbox.sent) + Relayed(posts, PostAuthor, ignored, PostNotification, delivered)
  {
    var i := 0;
    while i < |posts|
      invariant 0 <= i <= |posts|
      invariant outbox.sent == old(outbox.sent) + Relayed(posts[..i], PostAuthor, ignored, PostNotification, delivered[..i])
    {
      var post := posts[i];
      RelayedSnoc(posts, PostAuthor, ignored, PostNotification, delivered, i);
      if AuthoredByOneOf(post.author, ignored) {
        i := i + 1;
        continue;
      }
      outbox.Send(TextMessage(TelegramChat, PostNotification(post)), delivered[i]);
      i := i + 1;
    }
    assert posts[..i] == posts && delivered[..i] == delivered;
  }

  /** `track_comments` over the comments that arrive on the stream. */
  method TrackComments(outbox: Outbox, comments: seq<Comment>, ignored: set<string>, delivered: seq<bool>)
    requires |delivered| == |comments|
    modifies outbox
    ensures outbox.sent == old(outbox.sent) + Relayed(comments, CommentAuthor, ignored, CommentNotification, delivered)
  {
    var i := 0;
    while i < |comments|
      invariant 0 <= i <= |comments|
      invariant outbox.sent == old(outbox.sent) + Relayed(comments[..i], CommentAuthor, ignored, CommentNotification, delivered[..i])
    {
      var c := comments[i];
      RelayedSnoc(comments, CommentAuthor, ignored, CommentNotification, delivered, i);
      if AuthoredByOneOf(c.author, ignored) {
        i := i + 1;
        continue;
      }
      outbox.Send(TextMessage(TelegramChat, CommentNotification(c)), delivered[i]);
      i := i + 1;
    }
    assert comments[..i] == comments && delivered[..i] == delivered;
  }

  // ---------------------------------------------------------------- get_reddit_data

  /** The path components every link into the community's threads starts with. */
  const CommunityParts: seq<string> := ["https:", "", "www.reddit.com", "r", "BoosteroidCommunity", "comments"]

  /** `https://www.reddit.com/r/BoosteroidCommunity/comments/`. */
  const CommunityPrefix: string := Join(CommunityParts, "/") + "/"

  /** A link into the community: the prefix followed by `path` and a closing `/`, as permalinks are written. */
  function ThreadUrl(path: seq<string>): string {
    CommunityPrefix + Join(path, "/") + "/"
  }

  /** What a link points at, as `get_reddit_data` reads it. */
  datatype Target = CommentTarget(commentId: string) | SubmissionTarget(submissionId: string) | NoTarget

  /**
   * `get_reddit_data`'s reading of a link: split on `/` after dropping trailing
   * slashes; with at least `commentParts` parts and an alphanumeric last part it is
   * a comment; with more than six parts it is the submission after "comments".
   * A "comments" in last position makes the id lookup fail, which the function
   * catches.
   */
  function Classify(url: string, commentParts: nat): (t: Target)
    ensures t.CommentTarget? ==> IsAlnum(t.commentId)
  {
    var parts := Split(RStrip(url, '/'), '/');
    var asSubmission :=
      if "comments" in parts && |parts| > 6 then
        var i := IndexOf(parts, "comments");
        if i + 1 < |parts| then SubmissionTarget(parts[i + 1]) else NoTarget
      else NoTarget;
    if "comments" in parts && |parts| >= commentParts then
      if IndexOf(parts, "comments") + 1 >= |parts| then NoTarget
      else if IsAlnum(parts[|parts| - 1]) then CommentTarget(parts[|parts| - 1])
      else asSubmission
    else asSubmission
  }

  /** The reading as written: eight parts (`len(url_parts) > 7`) are taken for a comment link. */
  function UrlTargetAsWritten(url: string): Target {
    Classify(url, 8)
  }

  /** The reading a comment permalink needs: prefix, post id, slug and comment id make nine parts. */
  function UrlTarget(url: string): Target {
    Classify(url, 9)
  }

  lemma CommunityPrefixParts(path: seq<string>)
    requires |path| >= 1 && forall i :: 0 <= i < |path| ==> '/' !in path[i] && path[i] != []
    ensures Split(RStrip(ThreadUrl(path), '/'), '/') == CommunityParts + path
  {
    CommunityPartsNoSlash();
    SlashUrlParts(CommunityParts, path);
  }

  lemma CommunityPartsNoSlash()
    ensures |CommunityParts| >= 1 && forall i :: 0 <= i < |CommunityParts| ==> '/' !in CommunityParts[i]
  {
  }

  /** A URL written as `parts` then `path`, all joined by `/` with a closing `/`, splits back into those parts. */
  lemma SlashUrlParts(parts: seq<string>, path: seq<string>)
    requires |parts| >= 1 && forall i :: 0 <= i < |parts| ==> '/' !in parts[i]
    requires |path| >= 1 && forall i :: 0 <= i < |path| ==> '/' !in path[i] && path[i] != []
    ensures Split(RStrip(Join(parts, "/") + "/" + Join(path, "/") + "/", '/'), '/') == parts + path
  {
    var all := parts + path;
    assert all[|all| - 1] == path[|path| - 1];
    var body := Join(all, "/");
    JoinLastNotSep(all, '/');
    JoinedWithSlash(parts, path);
    RStripClosing(body);
    NoSlashConcat(parts, path);
    JoinSplit(all, '/');
    assert Split(body, '/') == all;
  }

  lemma JoinLastNotSep(parts: seq<string>, sep: char)
    requires |parts| >= 1 && parts[|parts| - 1] != [] && sep !in parts[|parts| - 1]
    ensures var j := Join(parts, [sep]); j != [] && j[|j| - 1] != sep
  {
    var last := parts[|parts| - 1];
    JoinEndsWithLast(parts, sep);
    assert last[|last| - 1] in last;
  }

  lemma JoinedWithSlash(parts: seq<string>, path: seq<string>)
    requires |parts| >= 1 && |path| >= 1
    ensures Join(parts, "/") + "/" + Join(path, "/") + "/" == Join(parts + path, "/") + "/"
  {
    JoinAppend(parts, path, '/');
    AppendAssoc(Join(parts, "/") + "/", Join(path, "/"), "/");
  }

  /** Stripping the closing `/` of a text that does not otherwise end in `/`. */
  lemma RStripClosing(body: string)
    requires body != [] && body[|body| - 1] != '/'
    ensures RStrip(body + "/", '/') == body
  {
    assert (body + "/")[..|body|] == body;
  }

  lemma NoSlashConcat(parts: seq<string>, path: seq<string>)
    requires forall i :: 0 <= i < |parts| ==> '/' !in parts[i]
    requires forall i :: 0 <= i < |path| ==> '/' !in path[i]
    ensures forall i :: 0 <= i < |parts + path| ==> '/' !in (parts + path)[i]
  {
    forall i | 0 <= i < |parts + path|
      ensures '/' !in (parts + path)[i]
    {
      if i >= |parts| {
        assert (parts + path)[i] == path[i - |parts|];
      }
    }
  }

  lemma {:induction false} JoinAppend(a: seq<string>, b: seq<string>, sep: char)
    requires |a| >= 1 && |b| >= 1
    ensures Join(a + b, [sep]) == Join(a, [sep]) + [sep] + Join(b, [sep])
    decreases |a|
  {
    if |a| == 1 {
      assert (a + b)[1..] == b;
    } else {
      JoinAppend(a[1..], b, sep);
      assert (a + b)[1..] == a[1..] + b;
      AppendAssoc(a[0] + [sep], Join(a[1..], [sep]) + [sep], Join(b, [sep]));
      AppendAssoc(a[0] + [sep], Join(a[1..], [sep]), [sep]);
    }
  }

  /** A join whose last part is non-empty ends with that part's last character. */
  lemma {:induction false} JoinEndsWithLast(parts: seq<string>, sep: char)
    requires |parts| >= 1 && parts[|parts| - 1] != []
    ensures var j := Join(parts, [sep]); |j| >= 1 && j[|j| - 1] == parts[|parts| - 1][|parts[|parts| - 1]| - 1]
    decreases |parts|
  {
    if |parts| > 1 {
      JoinEndsWithLast(parts[1..], sep);
    }
  }

  lemma CommentsAtFive(path: seq<string>)
    ensures "comments" in CommunityParts + path
    ensures IndexOf(CommunityParts + path, "comments") == 5
  {
    var parts := CommunityParts + path;
    assert parts[5] == "comments";
    assert parts[..5] == ["https:", "", "www.reddit.com", "r", "BoosteroidCommunity"];
  }

  /** A comment permalink `…/comments/<post>/<slug>/<comment>/` is read as that comment. */
  lemma CommentLinkRead(post: string, slug: string, comment: string)
    requires post != [] && slug != [] && '/' !in post && '/' !in slug && '/' !in comment
    requires IsAlnum(comment)
    ensures UrlTarget(ThreadUrl([post, slug, comment])) == CommentTarget(comment)
    ensures UrlTargetAsWritten(ThreadUrl([post, slug, comment])) == CommentTarget(comment)
  {
    CommunityPrefixParts([post, slug, comment]);
    CommentsAtFive([post, slug, comment]);
  }

  /** A post permalink `…/comments/<post>/<slug>/` is read as that post. */
  lemma SubmissionLinkRead(post: string, slug: string)
    requires post != [] && slug != [] && '/' !in post && '/' !in slug
    ensures UrlTarget(ThreadUrl([post, slug])) == SubmissionTarget(post)
  {
    CommunityPrefixParts([post, slug]);
    CommentsAtFive([post, slug]);
  }

  /** A short link `…/comments/<post>/` is read as that post, with either threshold. */
  lemma ShortSubmissionLinkRead(post: string)
    requires post != [] && '/' !in post
    ensures UrlTarget(ThreadUrl([post])) == SubmissionTarget(post)
    ensures UrlTargetAsWritten(ThreadUrl([post])) == SubmissionTarget(post)
  {
    CommunityPrefixParts([post]);
    CommentsAtFive([post]);
  }

  /**
   * As written, a post permalink whose slug is one alphanumeric word (a post
   * titled "Lag") has eight parts and is taken for a comment link: the slug is
   * looked up as a comment id and the post is never fetched.
   */
  lemma PostLinkTakenForComment(post: string, slug: string)
    requires post != [] && '/' !in post && IsAlnum(slug)
    ensures UrlTargetAsWritten(ThreadUrl([post, slug])) == CommentTarget(slug)
    ensures UrlTarget(ThreadUrl([post, slug])) == SubmissionTarget(post)
  {
    assert '/' !in slug by {
      forall i | 0 <= i < |slug| ensures slug[i] != '/' {
        assert IsAsciiLetter(slug[i]) || IsAsciiDigit(slug[i]);
      }
    }
    CommunityPrefixParts([post, slug]);
    CommentsAtFive([post, slug]);
  }

  /** What the bot can look up on the forum: comment bodies by comment id, and title and self-text by post id. */
  datatype Forum = Forum(comments: map<string, string>, submissions: map<string, (string, string)>)

  /** The title, content and link `get_reddit_data` returns. */
  datatype RedditData = RedditData(title: string, content: string, url: string)

  const CommentTitlePrefix: string := "Комментарий: "
  const NoSelfText: string := "[Без текста]"

  /** The comment or post `target` names, looked up on the forum; `None` when the forum does not return it. */
  function Lookup(target: Target, url: string, forum: Forum): (d: Option<RedditData>)
    ensures d.Some? ==> d.value.url == url
    ensures d.Some? && target.CommentTarget? ==> StartsWith(d.value.title, CommentTitlePrefix)
    ensures d.Some? && target.SubmissionTarget? ==> d.value.content != ""
    ensures target.NoTarget? ==> d.None?
    ensures target.CommentTarget? ==> (d.Some? <==> target.commentId in forum.comments)
    ensures target.SubmissionTarget? ==> (d.Some? <==> target.submissionId in forum.submissions)
  {
    match target
    case CommentTarget(id) =>
      if id in forum.comments then
        var body := forum.comments[id];
        Some(RedditData(CommentTitlePrefix + body, body, url))
      else None
    case SubmissionTarget(id) =>
      if id in forum.submissions then
        var (title, selftext) := forum.submissions[id];
        Some(RedditData(title, if selftext == "" then NoSelfText else selftext, url))
      else None
    case NoTarget => None
  }

  /**
   * `get_reddit_data`: the comment or post a link points at, read as written
   * (`len(url_parts) > 7`); `None` for a link it cannot read and for an item
   * the forum does not return (the exception the function catches).
   */
  function RedditDataFor(url: string, forum: Forum): (d: Option<RedditData>)
    ensures d.Some? ==> d.value.url == url
    ensures d.Some? && UrlTargetAsWritten(url).CommentTarget? ==> StartsWith(d.value.title, CommentTitlePrefix)
    ensures d.Some? && UrlTargetAsWritten(url).SubmissionTarget? ==> d.value.content != ""
    ensures UrlTargetAsWritten(url).NoTarget? ==> d.None?
    ensures UrlTargetAsWritten(url).CommentTarget? ==> (d.Some? <==> UrlTargetAsWritten(url).commentId in forum.comments)
    ensures UrlTargetAsWritten(url).SubmissionTarget? ==> (d.Some? <==> UrlTargetAsWritten(url).submissionId in forum.submissions)
  {
    Lookup(UrlTargetAsWritten(url), url, forum)
  }

  /** `get_reddit_data` with the nine-part reading of `UrlTarget`, which takes every post link for its post. */
  function RedditDataCorrected(url: string, forum: Forum): Option<RedditData> {
    Lookup(UrlTarget(url), url, forum)
  }

  /**
   * As written, the link of a post whose slug is one alphanumeric word is looked
   * up as a comment: unless the forum has a comment with that id, nothing is
   * found, where the corrected reading finds the post.
   */
  lemma OneWordPostLookedUpAsComment(id: string, slug: string, forum: Forum)
    requires id != [] && '/' !in id && IsAlnum(slug)
    ensures RedditDataFor(ThreadUrl([id, slug]), forum).Some? <==> slug in forum.comments
    ensures RedditDataCorrected(ThreadUrl([id, slug]), forum).Some? <==> id in forum.submissions
  {
    PostLinkTakenForComment(id, slug);
  }

  // ---------------------------------------------------------------- handle_message

  /** The two spellings of the link prefix the reply search accepts (`https?://`). */
  const HttpsPrefix: string := CommunityPrefix
  const HttpPrefix: string := Join(["http:", "", "www.reddit.com", "r", "BoosteroidCommunity", "comments"], "/") + "/"

  /** Length of the run of non-space characters (`\S`) that starts `s`. */
  function NonSpaceRun(s: string): (n: nat)
    ensures n <= |s|
    ensures forall i :: 0 <= i < n ==> !IsSpace(s[i])
    ensures n < |s| ==> IsSpace(s[n])
    decreases |s|
  {
    if s != [] && !IsSpace(s[0]) then 1 + NonSpaceRun(s[1..]) else 0
  }

  function MatchAfter(s: string, k: nat): (m: Option<string>)
    requires k <= |s|
  {
    var n := NonSpaceRun(s[k..]);
    if n == 0 then None else Some(s[..k + n])
  }

  /** The match of `https?://www\.reddit\.com/r/BoosteroidCommunity/comments/\S+` starting exactly at the head of `s`. */
  function MatchAt(s: string): (m: Option<string>)
    ensures m.Some? ==> StartsWith(s, m.value) && s != [] && s[0] == 'h'
  {
    if StartsWith(s, HttpsPrefix) then MatchAfter(s, |HttpsPrefix|)
    else if StartsWith(s, HttpPrefix) then MatchAfter(s, |HttpPrefix|)
    else None
  }

  /** `re.search` with that pattern: the leftmost match. */
  function FindLink(s: string): (m: Option<string>)
    ensures m.Some? ==> Contains(s, m.value)
    decreases |s|
  {
    if MatchAt(s).Some? then MatchAt(s)
    else if s == [] then None
    else
      var rest := FindLink(s[1..]);
      rest
  }

  /** Fixed text without the letter `h` cannot start a match, so the search passes over it. */
  lemma {:induction false} FindLinkSkips(pre: string, s: string)
    requires 'h' !in pre
    ensures FindLink(pre + s) == FindLink(s)
    decreases |pre|
  {
    if pre != [] {
      assert (pre + s)[0] == pre[0];
      assert MatchAt(pre + s).None?;
      assert (pre + s)[1..] == pre[1..] + s;
      assert FindLink(pre + s) == FindLink((pre + s)[1..]);
      FindLinkSkips(pre[1..], s);
    } else {
      assert pre + s == s;
    }
  }

  /** `s` holds no whitespace. */
  predicate NoSpace(s: string) {
    forall i :: 0 <= i < |s| ==> !IsSpace(s[i])
  }

  lemma NoSpaceConcat(a: string, b: string)
    requires NoSpace(a) && NoSpace(b)
    ensures NoSpace(a + b)
  {
    forall i | 0 <= i < |a + b| ensures !IsSpace((a + b)[i]) {
      if i >= |a| {
        assert (a + b)[i] == b[i - |a|];
      }
    }
  }

  lemma {:induction false} NoSpaceJoin(parts: seq<string>, sep: string)
    requires NoSpace(sep) && forall k :: 0 <= k < |parts| ==> NoSpace(parts[k])
    ensures NoSpace(Join(parts, sep))
    decreases |parts|
  {
    if |parts| > 1 {
      NoSpaceJoin(parts[1..], sep);
      NoSpaceConcat(parts[0], sep);
      NoSpaceConcat(parts[0] + sep, Join(parts[1..], sep));
    }
  }

  lemma NoSpaceAt(s: string, i: nat)
    requires NoSpace(s) && i < |s|
    ensures !IsSpace(s[i])
  {
  }

  /** Neither spelling of the link prefix holds a space. */
  lemma PrefixesNoSpace()
    ensures NoSpace(HttpsPrefix) && NoSpace(HttpPrefix)
  {
    PrefixNoSpace("https:");
    PrefixNoSpace("http:");
  }

  lemma PrefixNoSpace(scheme: string)
    requires NoSpace(scheme)
    ensures NoSpace(Join([scheme, "", "www.reddit.com", "r", "BoosteroidCommunity", "comments"], "/") + "/")
  {
    var parts := [scheme, "", "www.reddit.com", "r", "BoosteroidCommunity", "comments"];
    assert NoSpace("www.reddit.com") && NoSpace("BoosteroidCommunity") && NoSpace("comments");
    NoSpaceJoin(parts, "/");
    NoSpaceConcat(Join(parts, "/"), "/");
  }

  /** A prefix without spaces that starts `pre + s`, where `s` starts with a space, already starts `pre`. */
  lemma StartsWithBeforeSpace(pre: string, s: string, prefix: string)
    requires s != [] && IsSpace(s[0]) && NoSpace(prefix)
    ensures StartsWith(pre + s, prefix) <==> StartsWith(pre, prefix)
  {
    if StartsWith(pre + s, prefix) && |prefix| > |pre| {
      NoSpaceAt(prefix, |pre|);
      assert false;
    }
    if StartsWith(pre + s, prefix) || StartsWith(pre, prefix) {
      assert (pre + s)[..|prefix|] == pre[..|prefix|];
    }
  }

  lemma {:induction false} NonSpaceRunBeforeSpace(a: string, s: string)
    requires s != [] && IsSpace(s[0])
    ensures NonSpaceRun(a + s) == NonSpaceRun(a)
    decreases |a|
  {
    if a == [] {
      assert a + s == s;
    } else {
      assert (a + s)[0] == a[0];
      assert (a + s)[1..] == a[1..] + s;
      NonSpaceRunBeforeSpace(a[1..], s);
    }
  }

  lemma MatchAfterBeforeSpace(pre: string, s: string, k: nat)
    requires k <= |pre| && s != [] && IsSpace(s[0])
    ensures MatchAfter(pre + s, k) == MatchAfter(pre, k)
  {
    assert (pre + s)[k..] == pre[k..] + s;
    NonSpaceRunBeforeSpace(pre[k..], s);
    var n := NonSpaceRun(pre[k..]);
    assert (pre + s)[..k + n] == pre[..k + n];
  }

  /** A match cannot run on past a space: text followed by a space matches as it does alone. */
  lemma MatchAtBeforeSpace(pre: string, s: string)
    requires s != [] && IsSpace(s[0])
    ensures MatchAt(pre + s) == MatchAt(pre)
  {
    PrefixesNoSpace();
    StartsWithBeforeSpace(pre, s, HttpsPrefix);
    StartsWithBeforeSpace(pre, s, HttpPrefix);
    if StartsWith(pre, HttpsPrefix) {
      MatchAfterBeforeSpace(pre, s, |HttpsPrefix|);
    } else if StartsWith(pre, HttpPrefix) {
      MatchAfterBeforeSpace(pre, s, |HttpPrefix|);
    }
  }

  /** Text in which the search finds no link, followed by a space, is passed over. */
  lemma {:induction false} FindLinkSkipsLinkFree(pre: string, s: string)
    requires FindLink(pre).None? && s != [] && IsSpace(s[0])
    ensures FindLink(pre + s) == FindLink(s)
    decreases |pre|
  {
    if pre == [] {
      assert pre + s == s;
    } else {
      MatchAtBeforeSpace(pre, s);
      assert (pre + s)[1..] == pre[1..] + s;
      FindLinkSkipsLinkFree(pre[1..], s);
    }
  }

  /** A community link without spaces is found whole. */
  lemma FindLinkWhole(rest: string)
    requires rest != [] && forall i :: 0 <= i < |rest| ==> !IsSpace(rest[i])
    ensures FindLink(HttpsPrefix + rest) == Some(HttpsPrefix + rest)
  {
    StartsWithAppended(HttpsPrefix, rest);
    MatchAfterWhole(HttpsPrefix, rest);
    assert MatchAt(HttpsPrefix + rest) == Some(HttpsPrefix + rest);
  }

  /** After a prefix, a run without spaces is matched up to its end. */
  lemma MatchAfterWhole(prefix: string, rest: string)
    requires rest != [] && forall i :: 0 <= i < |rest| ==> !IsSpace(rest[i])
    ensures MatchAfter(prefix + rest, |prefix|) == Some(prefix + rest)
  {
    var s := prefix + rest;
    assert s[|prefix|..] == rest;
    NonSpaceWhole(rest);
    assert s[..|prefix| + |rest|] == s;
  }

  lemma {:induction false} NonSpaceWhole(s: string)
    requires forall i :: 0 <= i < |s| ==> !IsSpace(s[i])
    ensures NonSpaceRun(s) == |s|
    decreases |s|
  {
    if s != [] {
      NonSpaceWhole(s[1..]);
    }
  }

  /**
   * A reply to a comment announcement leads back to the comment: when the search
   * finds no link in the comment's body and the permalink is the comment's thread
   * path, the search finds the announced link, and both readings take it for that
   * comment.
   */
  lemma CommentAnnouncementLeadsBack(c: Comment, post: string, slug: string, comment: string)
    requires post != [] && slug != [] && '/' !in post && '/' !in slug && '/' !in comment && IsAlnum(comment)
    requires forall i :: 0 <= i < |post + slug| ==> !IsSpace((post + slug)[i])
    requires "https://www.reddit.com" + c.permalink == ThreadUrl([post, slug, comment])
    requires FindLink(c.body).None?
    ensures FindLink(CommentNotification(c)) == Some(CommentLink(c))
    ensures UrlTargetAsWritten(CommentLink(c)) == CommentTarget(comment)
    ensures UrlTarget(CommentLink(c)) == CommentTarget(comment)
  {
    var link := ThreadUrl([post, slug, comment]);
    var rest := Join([post, slug, comment], "/") + "/";
    assert link == HttpsPrefix + rest;
    ThreadPathNoSpace(post, slug, comment);
    FindLinkWhole(rest);
    CommentAnnouncementSearch(c);
    CommentLinkRead(post, slug, comment);
  }

  /** The search over a comment announcement whose body holds no link reads the announced link. */
  lemma CommentAnnouncementSearch(c: Comment)
    requires FindLink(c.body).None?
    ensures FindLink(CommentNotification(c)) == FindLink(CommentLink(c))
  {
    AnnouncementSearch("💬 Новый комментарий:\n\n", c.body, CommentLink(c));
  }

  /** The search over a post announcement whose title holds no link reads the post's link. */
  lemma PostAnnouncementSearch(post: Submission)
    requires FindLink(post.title).None?
    ensures FindLink(PostNotification(post)) == FindLink(post.url)
  {
    AnnouncementSearch("📌 Новый пост: ", post.title, post.url);
  }

  /**
   * The search over an announcement, `head`, then `item`'s text, then the link
   * line: with no `h` in the head and no link in the text, it reads the link line.
   */
  lemma AnnouncementSearch(head: string, item: string, link: string)
    requires 'h' !in head && FindLink(item).None?
    ensures FindLink(head + item + "\n🔗 Ссылка: " + link) == FindLink(link)
  {
    var tail := "\n🔗 Ссылка: ";
    assert head + item + tail + link == head + (item + (tail + link));
    assert 'h' !in tail;
    FindLinkSkips(tail, link);
    FindLinkSkipsLinkFree(item, tail + link);
    FindLinkSkips(head, item + (tail + link));
  }

  /** The path part of a comment's thread link holds no space. */
  lemma ThreadPathNoSpace(post: string, slug: string, comment: string)
    requires IsAlnum(comment)
    requires forall i :: 0 <= i < |post + slug| ==> !IsSpace((post + slug)[i])
    ensures var rest := Join([post, slug, comment], "/") + "/";
      rest != [] && forall i :: 0 <= i < |rest| ==> !IsSpace(rest[i])
  {
    AlnumNoSpace(comment);
    var rest := Join([post, slug, comment], "/") + "/";
    var path := [post, slug, comment];
    assert path[1..] == [slug, comment] && path[1..][1..] == [comment];
    assert Join([comment], "/") == comment;
    assert Join([slug, comment], "/") == slug + "/" + comment;
    assert Join(path, "/") == post + "/" + (slug + "/" + comment);
    assert rest == post + "/" + slug + "/" + comment + "/";
    forall i | 0 <= i < |rest| ensures !IsSpace(rest[i]) {
      if i < |post| {
        assert rest[i] == (post + slug)[i];
      } else if i == |post| {
      } else if i < |post| + 1 + |slug| {
        assert rest[i] == (post + slug)[i - 1];
      } else if i == |post| + 1 + |slug| {
      } else if i < |post| + 2 + |slug| + |comment| {
        assert rest[i] == comment[i - |post| - 2 - |slug|];
      }
    }
  }

  lemma AlnumNoSpace(s: string)
    requires IsAlnum(s)
    ensures forall i :: 0 <= i < |s| ==> !IsSpace(s[i])
  {
  }

  /** `content[:1997] + "..."` for content over 2000 characters. */
  function Truncate(content: string): (r: string)
    ensures |r| <= 2000
    ensures |content| <= 2000 ==> r == content
    ensures |content| > 2000 ==> |r| == 2000 && r[..1997] == content[..1997] && r[1997..] == "..."
  {
    if |content| > 2000 then content[..1997] + "..." else content
  }

  /** Truncating twice is truncating once. */
  lemma TruncateIdempotent(content: string)
    ensures Truncate(Truncate(content)) == Truncate(content)
  {
  }

  /** `add_reaction_to_notion`'s page: the item's title, content (truncated) and link, the reaction and the time. */
  function ReactionPage(data: RedditData, reaction: string, now: int): (p: Page)
    ensures p.Keys == {"Title", "Content", "URL", "Reaction", "Date"}
    ensures p["Title"] == TitleProp(TextValue(data.title)) && p["Reaction"] == SelectProp(Some(reaction))
    ensures p["Content"] == RichTextProp(TextValue(Truncate(data.content))) && p["URL"] == UrlProp(Some(data.url))
    ensures DateOf(p) == Some(now)
  {
    map[
      "Title" := TitleProp(TextValue(data.title)),
      "Content" := RichTextProp(TextValue(Truncate(data.content))),
      "URL" := UrlProp(Some(data.url)),
      "Reaction" := SelectProp(Some(reaction)),
      "Date" := DateProp(Some(now))]
  }

  /** `add_reaction_to_notion`: one page, kept when the store accepts it (otherwise the failure is logged). */
  method AddReactionToNotion(db: Database, data: RedditData, reaction: string, now: int, accepted: bool)
    modifies db
    ensures db.pages == old(db.pages) + (if accepted then [ReactionPage(data, reaction, now)] else [])
  {
    if accepted {
      db.Create(ReactionPage(data, reaction, now));
    }
  }

  /** The message being replied to: none, a text message, or one without text (a photo, a sticker). */
  datatype Reply = NotAReply | TextReply(text: string) | NonTextReply

  /** The reaction a message carries: 👍 wins over 👎. */
  function ReactionChoice(message: string): (r: Option<string>)
    ensures r == Some("👍") <==> Contains(message, "👍")
    ensures r == Some("👎") <==> !Contains(message, "👍") && Contains(message, "👎")
    ensures r.None? <==> !Contains(message, "👍") && !Contains(message, "👎")
  {
    if Contains(message, "👍") then Some("👍")
    else if Contains(message, "👎") then Some("👎")
    else None
  }

  /**
   * The page `handle_message` stores for a message, if any. A reply to a
   * message without text makes the search fail with an error and stores nothing.
   */
  function ReactionRecord(message: string, reply: Reply, forum: Forum, now: int): (r: Option<Page>)
    ensures r.Some? <==>
      && reply.TextReply?
      && FindLink(reply.text).Some?
      && RedditDataFor(FindLink(reply.text).value, forum).Some?
      && RedditDataFor(FindLink(reply.text).value, forum).value.title != ""
      && ReactionChoice(message).Some?
    ensures r.Some? ==> r.value == ReactionPage(RedditDataFor(FindLink(reply.text).value, forum).value, ReactionChoice(message).value, now)
  {
    if !reply.TextReply? then None
    else
      match FindLink(reply.text)
      case None => None
      case Some(link) =>
        match RedditDataFor(link, forum)
        case None => None
        case Some(data) =>
          if data.title == "" then None
          else
            match ReactionChoice(message)
            case None => None
            case Some(reaction) => Some(ReactionPage(data, reaction, now))
  }

  /** `handle_message`: store the reaction page the message calls for, if any. */
  method HandleMessage(db: Database, message: string, reply: Reply, forum: Forum, now: int, accepted: bool)
    modifies db
    ensures var r := ReactionRecord(message, reply, forum, now);
      db.pages == old(db.pages) + (if r.Some? && accepted then [r.value] else [])
  {
    if !reply.TextReply? {
      return;
    }
    var found := FindLink(reply.text);
    if found.None? {
      return;
    }
    var data := RedditDataFor(found.value, forum);
    if data.None? || data.value.title == "" {
      return;
    }
    if Contains(message, "👍") {
      AddReactionToNotion(db, data.value, "👍", now, accepted);
    } else if Contains(message, "👎") {
      AddReactionToNotion(db, data.value, "👎", now, accepted);
    }
  }

  /**
   * A 👍 in reply to a comment announcement stores that comment: its text (with
   * the "Комментарий: " title), its link and the reaction.
   */
  lemma ThumbsUpOnCommentAnnouncement(message: string, c: Comment, post: string, slug: string, comment: string, forum: Forum, now: int)
    requires post != [] && slug != [] && '/' !in post && '/' !in slug && '/' !in comment && IsAlnum(comment)
    requires forall i :: 0 <= i < |post + slug| ==> !IsSpace((post + slug)[i])
    requires "https://www.reddit.com" + c.permalink == ThreadUrl([post, slug, comment])
    requires FindLink(c.body).None?
    requires comment in forum.comments && Contains(message, "👍")
    ensures ReactionRecord(message, TextReply(CommentNotification(c)), forum, now)
      == Some(ReactionPage(RedditData(CommentTitlePrefix + forum.comments[comment], forum.comments[comment], CommentLink(c)), "👍", now))
  {
    CommentAnnouncementLeadsBack(c, post, slug, comment);
    assert CommentTitlePrefix + forum.comments[comment] != "";
  }

  /**
   * As written, a reaction in reply to the announcement of a post whose link
   * ends in a one-word slug (a post titled "Lag") is stored only if the forum
   * happens to have a comment with the slug as its id; otherwise nothing is stored.
   */
  lemma ReactionOnOneWordPostLost(message: string, post: Submission, id: string, slug: string, forum: Forum, now: int)
    requires id != [] && '/' !in id && IsAlnum(slug)
    requires forall i :: 0 <= i < |id| ==> !IsSpace(id[i])
    requires post.url == ThreadUrl([id, slug])
    requires FindLink(post.title).None?
    requires slug !in forum.comments
    ensures FindLink(PostNotification(post)) == Some(post.url)
    ensures ReactionRecord(message, TextReply(PostNotification(post)), forum, now).None?
  {
    var rest := Join([id, slug], "/") + "/";
    assert post.url == HttpsPrefix + rest;
    PostPathNoSpace(id, slug);
    FindLinkWhole(rest);
    PostAnnouncementSearch(post);
    OneWordPostLookedUpAsComment(id, slug, forum);
  }

  /** The path part of a post's thread link holds no space. */
  lemma PostPathNoSpace(id: string, slug: string)
    requires IsAlnum(slug) && forall i :: 0 <= i < |id| ==> !IsSpace(id[i])
    ensures var rest := Join([id, slug], "/") + "/";
      rest != [] && forall i :: 0 <= i < |rest| ==> !IsSpace(rest[i])
  {
    AlnumNoSpace(slug);
    var path := [id, slug];
    assert path[1..] == [slug];
    assert Join([slug], "/") == slug;
    var rest := Join(path, "/") + "/";
    assert rest == id + "/" + slug + "/";
    forall i | 0 <= i < |rest| ensures !IsSpace(rest[i]) {
      if i < |id| {
        assert rest[i] == id[i];
      } else if i == |id| {
      } else if i < |id| + 1 + |slug| {
        assert rest[i] == slug[i - |id| - 1];
      }
    }
  }
}
