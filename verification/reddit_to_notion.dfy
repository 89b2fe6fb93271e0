/**
 * Forum posts into the issue database: flair normalisation, the hourly scan of
 * new posts, the moderator-reply update (from a post's thread and from the live
 * comment stream) and the sweep that closes week-old issues.
 */
module RedditToNotion {
  import opened Wrappers
  import opened Text
  import opened Notion
  import opened Reddit

  const Moderators: set<string> := {"Alex_Boosteroid", "Andrew__Boosteroid", "Arthur_Boosteroid", "Mark_Boosteroid"}
  const ValidFlairs: set<string> := {"help", "discussion", "suggestion", "misc", "gameplay", "feedback"}
  const NoFlair: string := "No Flair"
  const CanonicalFlairs: set<string> := {"Help", "Discussion", "Suggestion", "Misc", "Gameplay", "Feedback", NoFlair}

  const InQueue: string := "In queue"
  const Solved: string := "Solved"
  const ScanWindow: int := 3600
  const Week: int := 7 * 86400

  // ---------------------------------------------------------------- remove_emojis

  /** Length of the run of `\w` characters that starts `s`. */
  function WordRun(s: string): (n: nat)
    ensures n <= |s|
    ensures forall i :: 0 <= i < n ==> IsWordChar(s[i])
    ensures n < |s| ==> !IsWordChar(s[n])
    decreases |s|
  {
    if s != [] && IsWordChar(s[0]) then 1 + WordRun(s[1..]) else 0
  }

  /** Length of the `:\w+:` shortcode that starts `s`, or 0 when none does. */
  function ShortcodeAt(s: string): (n: nat)
    ensures n == 0 || (3 <= n <= |s| && s[0] == ':' && s[n - 1] == ':')
  {
    if s == [] || s[0] != ':' then 0
    else
      var w := WordRun(s[1..]);
      if w >= 1 && 1 + w < |s| && s[1 + w] == ':' then w + 2 else 0
  }

  /** `re.sub(r':\w+:', '', text)`: shortcodes are removed left to right, each match resuming after the last. */
  function RemoveEmojis(text: string): (r: string)
    ensures |r| <= |text|
    decreases |text|
  {
    if text == [] then []
    else
      var n := ShortcodeAt(text);
      if n > 0 then RemoveEmojis(text[n..]) else [text[0]] + RemoveEmojis(text[1..])
  }

  /** Text without a colon holds no shortcode and comes back unchanged. */
  lemma {:induction false} RemoveEmojisWithoutColon(text: string)
    requires ':' !in text
    ensures RemoveEmojis(text) == text
    decreases |text|
  {
    if text != [] {
      assert ':' !in text[1..];
      RemoveEmojisWithoutColon(text[1..]);
      assert [text[0]] + text[1..] == text;
    }
  }

  // ---------------------------------------------------------------- clean_flair

  /** `flair_mapping.get(key, "No Flair")`. */
  function FlairName(key: string): (r: string)
    ensures r in CanonicalFlairs
    ensures r == NoFlair <==> key !in ValidFlairs
  {
    if key == "help" then "Help"
    else if key == "discussion" then "Discussion"
    else if key == "suggestion" then "Suggestion"
    else if key == "misc" then "Misc"
    else if key == "gameplay" then "Gameplay"
    else if key == "feedback" then "Feedback"
    else NoFlair
  }

  /** The key `clean_flair` looks up: stripped, lower-cased, shortcodes removed. */
  function FlairKey(flair: string): string {
    RemoveEmojis(Lower(Strip(flair)))
  }

  /** A flair is one of the six names, or "No Flair" exactly when its key is not a valid flair. */
  function CleanFlair(flair: string): (r: string)
    ensures r in CanonicalFlairs
    ensures r == NoFlair <==> FlairKey(flair) !in ValidFlairs
  {
    FlairName(FlairKey(flair))
  }

  /** A word without padding or colons keys as its lower-case form. */
  lemma FlairKeyOfWord(w: string)
    requires w != [] && !IsSpace(w[0]) && !IsSpace(w[|w| - 1]) && ':' !in w
    ensures FlairKey(w) == Lower(w)
  {
    StripUnpadded(w);
    assert ':' !in Lower(w) by {
      forall i | 0 <= i < |w| ensures Lower(w)[i] != ':' {
        assert w[i] != ':';
      }
    }
    RemoveEmojisWithoutColon(Lower(w));
  }

  /** A canonical name whose lower-case form looks itself up. */
  lemma NameFixed(name: string, key: string)
    requires name != [] && !IsSpace(name[0]) && !IsSpace(name[|name| - 1]) && ':' !in name
    requires Lower(name) == key && FlairName(key) == name
    ensures CleanFlair(name) == name
  {
    FlairKeyOfWord(name);
  }

  lemma FixesHelpOrDiscussion(name: string)
    requires name == "Help" || name == "Discussion"
    ensures CleanFlair(name) == name
  {
    if name == "Help" {
      NameFixed(name, "help");
    } else {
      NameFixed(name, "discussion");
    }
  }

  lemma FixesSuggestionOrMisc(name: string)
    requires name == "Suggestion" || name == "Misc"
    ensures CleanFlair(name) == name
  {
    if name == "Suggestion" {
      NameFixed(name, "suggestion");
    } else {
      NameFixed(name, "misc");
    }
  }

  lemma FixesGameplayOrFeedback(name: string)
    requires name == "Gameplay" || name == "Feedback"
    ensures CleanFlair(name) == name
  {
    if name == "Gameplay" {
      NameFixed(name, "gameplay");
    } else {
      NameFixed(name, "feedback");
    }
  }

  lemma FixesNoFlair(name: string)
    requires name == NoFlair
    ensures CleanFlair(name) == name
  {
    NameFixed(name, "no flair");
  }

  /** Every canonical name, "No Flair" included, normalises to itself. */
  lemma CleanFlairFixesCanonical(name: string)
    requires name in CanonicalFlairs
    ensures CleanFlair(name) == name
  {
    if name == "Help" || name == "Discussion" {
      FixesHelpOrDiscussion(name);
    } else if name == "Suggestion" || name == "Misc" {
      FixesSuggestionOrMisc(name);
    } else if name == "Gameplay" || name == "Feedback" {
      FixesGameplayOrFeedback(name);
    } else {
      FixesNoFlair(name);
    }
  }

  /** `clean_flair` is idempotent. */
  lemma CleanFlairIdempotent(flair: string)
    ensures CleanFlair(CleanFlair(flair)) == CleanFlair(flair)
  {
    CleanFlairFixesCanonical(CleanFlair(flair));
  }

  /** Surrounding whitespace and letter case do not change the normalised flair. */
  lemma CleanFlairIgnoresPaddingAndCase(pre: string, flair: string, post: string, other: string)
    requires AllSpace(pre) && AllSpace(post)
    requires Lower(flair) == Lower(other)
    ensures CleanFlair(pre + flair + post) == CleanFlair(other)
  {
    StripIgnoresPadding(pre, flair, post);
    LowerStripCommute(flair);
    LowerStripCommute(other);
  }

  lemma CleanFlairUpperPadded(flair: string)
    requires flair == " HELP "
    ensures CleanFlair(flair) == "Help"
  {
    var word := flair[1..5];
    var help := "Help";
    assert flair == flair[..1] + word + flair[5..];
    assert Lower(word) == Lower(help);
    CleanFlairIgnoresPaddingAndCase(flair[..1], word, flair[5..], help);
    CleanFlairFixesCanonical(help);
  }

  // ---------------------------------------------------------------- add_post_to_notion

  /** `if not database_id`. */
  predicate Configured(dbId: Option<string>) {
    dbId.Some? && dbId.value != ""
  }

  /**
   * Why a page was not stored: `ValueError("DATABASE NOT FOUND")`, a deleted
   * author, or the store's refusal of `pages.create`.
   */
  datatype IngestError = DatabaseNotFound | AuthorMissing | CreateRefused

  /** The flair written to the page: `clean_flair(flair) if flair else "No Flair"`. */
  function PageFlair(flair: Option<string>): (r: string)
    ensures r in CanonicalFlairs
  {
    if flair.Some? && flair.value != "" then CleanFlair(flair.value) else NoFlair
  }

  /** The page `add_post_to_notion` creates for a post. */
  function PostPage(post: Submission, dbId: Option<string>): (r: Result<Page, IngestError>)
    ensures !Configured(dbId) ==> r == Err(DatabaseNotFound)
    ensures Configured(dbId) && post.author.Some? ==> r.Ok?
    ensures r.Ok? ==> IdOf(r.value) == post.id && StatusOf(r.value) == InQueue
    ensures r.Ok? ==> DateOf(r.value) == Some(post.createdUtc)
    ensures r.Ok? ==> "Platform" in r.value && r.value["Platform"] == SelectProp(Some("Reddit"))
    ensures r.Ok? ==> "Post Flair" in r.value && r.value["Post Flair"] == SelectProp(Some(PageFlair(post.flair)))
    ensures r.Ok? ==> "Responsible moderator" in r.value && r.value["Responsible moderator"] == RichTextProp([])
    ensures r.Ok? ==> "Response from moderator" in r.value && r.value["Response from moderator"] == RichTextProp([])
  {
    if !Configured(dbId) then Err(DatabaseNotFound)
    else if post.author.None? then Err(AuthorMissing)
    else
      assert ItemsPlainText(TextValue(post.id)) == post.id;
      Ok(map[
        "Date" := DateProp(Some(post.createdUtc)),
        "ID" := RichTextProp(TextValue(post.id)),
        "Username" := TitleProp(TextValue(post.author.value)),
        "Title" := RichTextProp(TextValue(post.title)),
        "Platform" := SelectProp(Some("Reddit")),
        "URL" := UrlProp(Some(post.url)),
        "Description" := RichTextProp(TextValue(post.selftext)),
        "Status" := StatusProp(InQueue),
        "Post Flair" := SelectProp(Some(PageFlair(post.flair))),
        "Responsible moderator" := RichTextProp([]),
        "Response from moderator" := RichTextProp([])
      ])
  }

  // ---------------------------------------------------------------- update_notion_with_moderator_comment

  /** Index of the first page whose `ID` equals `postId` (the first query result), or `|pages|`. */
  function FirstWithId(pages: seq<Page>, postId: string): (i: nat)
    ensures i <= |pages|
    ensures i < |pages| ==> IdOf(pages[i]) == postId
    ensures forall j :: 0 <= j < i ==> IdOf(pages[j]) != postId
    decreases |pages|
  {
    if pages == [] then 0
    else if IdOf(pages[0]) == postId then 0
    else 1 + FirstWithId(pages[1..], postId)
  }

  /** The two properties the moderator update writes. */
  function ModeratorProps(modName: string, comment: string): Page {
    map["Responsible moderator" := RichTextProp(TextValue(modName)),
        "Response from moderator" := RichTextProp(TextValue(comment))]
  }

  function ModeratorUpdated(pages: seq<Page>, postId: string, modName: string, comment: string): seq<Page> {
    var i := FirstWithId(pages, postId);
    if i < |pages| then pages[i := pages[i] + ModeratorProps(modName, comment)] else pages
  }

  /** Two pages that agree on every property except the two moderator fields. */
  ghost predicate SameExceptModerator(p: Page, q: Page) {
    forall k :: k != "Responsible moderator" && k != "Response from moderator" ==>
      (k in p <==> k in q) && (k in p ==> p[k] == q[k])
  }

  /** Two stores whose pages correspond one to one up to the moderator fields. */
  ghost predicate Corresponds(r: seq<Page>, s: seq<Page>) {
    |r| == |s| && forall j :: 0 <= j < |r| ==> SameExceptModerator(r[j], s[j])
  }

  lemma SameExceptModeratorRefl(p: Page)
    ensures SameExceptModerator(p, p)
  {
  }

  lemma ModeratorPropsOnlyModeratorFields(p: Page, modName: string, comment: string)
    ensures SameExceptModerator(p + ModeratorProps(modName, comment), p)
  {
  }

  /**
   * The update touches only the first page whose ID matches, and on it only the
   * two moderator fields.
   */
  lemma ModeratorUpdateFrame(pages: seq<Page>, postId: string, modName: string, comment: string)
    ensures var r := ModeratorUpdated(pages, postId, modName, comment);
      && Corresponds(r, pages)
      && (forall k :: 0 <= k < |pages| && k != FirstWithId(pages, postId) ==> r[k] == pages[k])
  {
    var i := FirstWithId(pages, postId);
    var r := ModeratorUpdated(pages, postId, modName, comment);
    if i < |pages| {
      forall j | 0 <= j < |r| ensures SameExceptModerator(r[j], pages[j]) {
        if j == i {
          ModeratorPropsOnlyModeratorFields(pages[i], modName, comment);
        } else {
          SameExceptModeratorRefl(pages[j]);
        }
      }
    } else {
      forall j | 0 <= j < |r| ensures SameExceptModerator(r[j], pages[j]) {
        SameExceptModeratorRefl(pages[j]);
      }
    }
  }

  /** The first page whose ID matches gets the moderator's name and reply. */
  lemma ModeratorUpdateWrites(pages: seq<Page>, postId: string, modName: string, comment: string)
    requires FirstWithId(pages, postId) < |pages|
    ensures var r := ModeratorUpdated(pages, postId, modName, comment);
      var i := FirstWithId(pages, postId);
      && "Responsible moderator" in r[i] && r[i]["Responsible moderator"] == RichTextProp(TextValue(modName))
      && "Response from moderator" in r[i] && r[i]["Response from moderator"] == RichTextProp(TextValue(comment))
  {
  }

  /** Without a page whose ID matches, the store is unchanged. */
  lemma ModeratorUpdateNoMatch(pages: seq<Page>, postId: string, modName: string, comment: string)
    requires forall j :: 0 <= j < |pages| ==> IdOf(pages[j]) != postId
    ensures ModeratorUpdated(pages, postId, modName, comment) == pages
  {
  }

  /** Repeating the same update changes nothing more. */
  lemma ModeratorUpdateIdempotent(pages: seq<Page>, postId: string, modName: string, comment: string)
    ensures var r := ModeratorUpdated(pages, postId, modName, comment);
      ModeratorUpdated(r, postId, modName, comment) == r
  {
    var i := FirstWithId(pages, postId);
    var r := ModeratorUpdated(pages, postId, modName, comment);
    if i < |pages| {
      var p := pages[i] + ModeratorProps(modName, comment);
      assert IdOf(p) == IdOf(pages[i]);
      FirstWithIdUnchanged(pages, r, postId, i);
      assert p + ModeratorProps(modName, comment) == p;
    }
  }

  lemma {:induction false} FirstWithIdUnchanged(pages: seq<Page>, r: seq<Page>, postId: string, i: nat)
    requires |r| == |pages| && i < |pages|
    requires forall j :: 0 <= j < |pages| ==> IdOf(r[j]) == IdOf(pages[j])
    requires FirstWithId(pages, postId) == i
    ensures FirstWithId(r, postId) == i
    decreases |pages|
  {
    if i > 0 {
      FirstWithIdUnchanged(pages[1..], r[1..], postId, i - 1);
    }
  }

  method UpdateNotionWithModeratorComment(db: Database, postId: string, modName: string, comment: string)
    modifies db
    ensures db.pages == ModeratorUpdated(old(db.pages), postId, modName, comment)
  {
    var first := FirstWithId(db.pages, postId);
    if first < |db.pages| {
      db.Update(first, ModeratorProps(modName, comment));
    }
  }

  // ---------------------------------------------------------------- check_moderator_comments

  /** One comment of a thread: a moderator's comment updates the post's page. */
  function ReplyStep(pages: seq<Page>, postId: string, c: Comment): seq<Page> {
    if AuthoredByOneOf(c.author, Moderators) then ModeratorUpdated(pages, postId, c.author.value, c.body) else pages
  }

  function ApplyModeratorReplies(pages: seq<Page>, postId: string, thread: seq<Comment>): seq<Page>
    decreases |thread|
  {
    if thread == [] then pages
    else ReplyStep(ApplyModeratorReplies(pages, postId, thread[..|thread| - 1]), postId, thread[|thread| - 1])
  }

  method CheckModeratorComments(db: Database, post: Submission)
    modifies db
    ensures db.pages == ApplyModeratorReplies(old(db.pages), post.id, post.thread)
  {
    for i := 0 to |post.thread|
      invariant db.pages == ApplyModeratorReplies(old(db.pages), post.id, post.thread[..i])
    {
      assert post.thread[..i + 1][..i] == post.thread[..i];
      var comment := post.thread[i];
      if AuthoredByOneOf(comment.author, Moderators) {
        UpdateNotionWithModeratorComment(db, post.id, comment.author.value, comment.body);
      }
    }
    assert post.thread[..|post.thread|] == post.thread;
  }

  lemma SameExceptModeratorTransitive(p: Page, q: Page, s: Page)
    requires SameExceptModerator(p, q) && SameExceptModerator(q, s)
    ensures SameExceptModerator(p, s)
  {
  }

  lemma CorrespondsTransitive(r: seq<Page>, s: seq<Page>, t: seq<Page>)
    requires Corresponds(r, s) && Corresponds(s, t)
    ensures Corresponds(r, t)
  {
    forall j | 0 <= j < |r| ensures SameExceptModerator(r[j], t[j]) {
      SameExceptModeratorTransitive(r[j], s[j], t[j]);
    }
  }

  /** Moderator replies from a thread change nothing but moderator fields. */
  lemma {:induction false} RepliesOnlyTouchModeratorFields(pages: seq<Page>, postId: string, thread: seq<Comment>)
    ensures Corresponds(ApplyModeratorReplies(pages, postId, thread), pages)
    decreases |thread|
  {
    if thread != [] {
      var before := ApplyModeratorReplies(pages, postId, thread[..|thread| - 1]);
      RepliesOnlyTouchModeratorFields(pages, postId, thread[..|thread| - 1]);
      var c := thread[|thread| - 1];
      if AuthoredByOneOf(c.author, Moderators) {
        ModeratorUpdateFrame(before, postId, c.author.value, c.body);
        CorrespondsTransitive(ApplyModeratorReplies(pages, postId, thread), before, pages);
      }
    }
  }

  // ---------------------------------------------------------------- scan_posts_and_add_to_notion

  /** The flair text the scan tests: stripped, lower-cased, shortcodes removed; "" without a flair. */
  function ScanFlairKey(flair: Option<string>): string {
    if flair.Some? && flair.value != "" then FlairKey(flair.value) else ""
  }

  /** `{remove_emojis(f.lower()) for f in VALID_FLAIRS}`. */
  function NormalisedValidFlairs(): set<string> {
    set f | f in ValidFlairs :: RemoveEmojis(Lower(f))
  }

  /** Letters only, all lower case. */
  predicate LowerWord(f: string) {
    forall i :: 0 <= i < |f| ==> 'a' <= f[i] <= 'z'
  }

  lemma LowerWordsA(f: string)
    requires f == "help" || f == "discussion"
    ensures LowerWord(f)
  {
  }

  lemma LowerWordsB(f: string)
    requires f == "suggestion" || f == "misc"
    ensures LowerWord(f)
  {
  }

  lemma LowerWordsC(f: string)
    requires f == "gameplay" || f == "feedback"
    ensures LowerWord(f)
  {
  }

  /** A lower-case word is its own normalised form. */
  lemma LowerWordNormalised(f: string)
    requires LowerWord(f)
    ensures RemoveEmojis(Lower(f)) == f
  {
    LowerNoUpper(f);
    assert ':' !in f;
    RemoveEmojisWithoutColon(f);
  }

  lemma NormalisedValidFlairsAreValid()
    ensures NormalisedValidFlairs() == ValidFlairs
  {
    forall f | f in ValidFlairs ensures RemoveEmojis(Lower(f)) == f {
      if f == "help" || f == "discussion" {
        LowerWordsA(f);
      } else if f == "suggestion" || f == "misc" {
        LowerWordsB(f);
      } else {
        LowerWordsC(f);
      }
      LowerWordNormalised(f);
    }
  }

  /** The scan's test for storing a post: inside the window and carrying a valid flair. */
  predicate Admitted(post: Submission, cutoff: int) {
    post.createdUtc >= cutoff && ScanFlairKey(post.flair) in ValidFlairs
  }

  /** The scan's flair test accepts exactly the flairs `clean_flair` maps to a known name. */
  lemma AdmittedMeansRecognisedFlair(post: Submission, cutoff: int)
    ensures Admitted(post, cutoff) <==>
      post.createdUtc >= cutoff && post.flair.Some? && CleanFlair(post.flair.value) != NoFlair
  {
    if post.flair == Some("") {
      assert FlairKey("") == "";
    }
  }

  /**
   * A post is handled on its own: stored (with its thread's moderator replies)
   * or skipped. `accepted` says whether the store takes the page; a refused
   * create raises inside the post's `try`, so its replies are not read either.
   */
  function IngestPost(pages: seq<Page>, post: Submission, cutoff: int, dbId: Option<string>, accepted: bool): seq<Page> {
    if !Admitted(post, cutoff) then pages
    else match PostPage(post, dbId)
      case Err(_) => pages
      case Ok(page) => if accepted then ApplyModeratorReplies(pages + [page], post.id, post.thread) else pages
  }

  /** The store after the scan has handled every post of the listing in order; `accepted[i]` is the store's answer for post `i`. */
  function ScanPosts(pages: seq<Page>, posts: seq<Submission>, cutoff: int, dbId: Option<string>, accepted: seq<bool>): seq<Page>
    requires |accepted| == |posts|
    decreases |posts|
  {
    if posts == [] then pages
    else
      var n := |posts| - 1;
      IngestPost(ScanPosts(pages, posts[..n], cutoff, dbId, accepted[..n]), posts[n], cutoff, dbId, accepted[n])
  }

  lemma ScanPostsStep(pages: seq<Page>, posts: seq<Submission>, i: nat, cutoff: int, dbId: Option<string>, accepted: seq<bool>)
    requires |accepted| == |posts| && i < |posts|
    ensures ScanPosts(pages, posts[..i + 1], cutoff, dbId, accepted[..i + 1])
      == IngestPost(ScanPosts(pages, posts[..i], cutoff, dbId, accepted[..i]), posts[i], cutoff, dbId, accepted[i])
  {
    assert posts[..i + 1][..i] == posts[..i];
    assert accepted[..i + 1][..i] == accepted[..i];
  }

  /** The page the scan creates for one post, if any. */
  function PageOf(post: Submission, cutoff: int, dbId: Option<string>, accepted: bool): seq<Page> {
    if Admitted(post, cutoff) && PostPage(post, dbId).Ok? && accepted then [PostPage(post, dbId).value] else []
  }

  /** The pages the scan creates, in listing order: one per admitted post whose page was built and accepted. */
  function NewPages(posts: seq<Submission>, cutoff: int, dbId: Option<string>, accepted: seq<bool>): seq<Page>
    requires |accepted| == |posts|
    decreases |posts|
  {
    if posts == [] then []
    else
      var n := |posts| - 1;
      NewPages(posts[..n], cutoff, dbId, accepted[..n]) + PageOf(posts[n], cutoff, dbId, accepted[n])
  }

  /** One post of the scan either leaves the store alone or appends its page and applies its replies. */
  lemma IngestPostAppendsPageOf(pages: seq<Page>, post: Submission, cutoff: int, dbId: Option<string>, accepted: bool)
    ensures PageOf(post, cutoff, dbId, accepted) == [] ==> IngestPost(pages, post, cutoff, dbId, accepted) == pages
    ensures PageOf(post, cutoff, dbId, accepted) != [] ==>
      IngestPost(pages, post, cutoff, dbId, accepted) == ApplyModeratorReplies(pages + PageOf(post, cutoff, dbId, accepted), post.id, post.thread)
  {
  }

  /** The page of a post, when there is one, comes from an admitted post whose create was accepted. */
  lemma PageOfAdmitted(post: Submission, cutoff: int, dbId: Option<string>, accepted: bool)
    ensures |PageOf(post, cutoff, dbId, accepted)| <= 1
    ensures PageOf(post, cutoff, dbId, accepted) != [] ==>
      accepted && Admitted(post, cutoff) && PostPage(post, dbId) == Ok(PageOf(post, cutoff, dbId, accepted)[0])
  {
  }

  lemma CorrespondsAppend(r: seq<Page>, s: seq<Page>, extra: seq<Page>)
    requires Corresponds(r, s)
    ensures Corresponds(r + extra, s + extra)
  {
    forall j | 0 <= j < |r + extra| ensures SameExceptModerator((r + extra)[j], (s + extra)[j]) {
      if j >= |r| {
        SameExceptModeratorRefl(extra[j - |r|]);
      }
    }
  }

  /**
   * The scan appends exactly the pages of the admitted posts the store accepted
   * and otherwise changes only moderator fields.
   */
  lemma {:induction false} ScanAppendsAdmittedPosts(pages: seq<Page>, posts: seq<Submission>, cutoff: int, dbId: Option<string>, accepted: seq<bool>)
    requires |accepted| == |posts|
    ensures Corresponds(ScanPosts(pages, posts, cutoff, dbId, accepted), pages + NewPages(posts, cutoff, dbId, accepted))
    decreases |posts|
  {
    if posts == [] {
      assert pages + [] == pages;
      SameStoreCorresponds(pages);
    } else {
      var n := |posts| - 1;
      var init := posts[..n];
      var post := posts[n];
      var before := ScanPosts(pages, init, cutoff, dbId, accepted[..n]);
      var extra := PageOf(post, cutoff, dbId, accepted[n]);
      var after := ScanPosts(pages, posts, cutoff, dbId, accepted);
      var created := NewPages(init, cutoff, dbId, accepted[..n]);
      assert after == IngestPost(before, post, cutoff, dbId, accepted[n]);
      assert NewPages(posts, cutoff, dbId, accepted) == created + extra;
      AppendAssoc(pages, created, extra);
      ScanAppendsAdmittedPosts(pages, init, cutoff, dbId, accepted[..n]);
      CorrespondsAppend(before, pages + created, extra);
      IngestPostAppendsPageOf(before, post, cutoff, dbId, accepted[n]);
      if extra != [] {
        RepliesOnlyTouchModeratorFields(before + extra, post.id, post.thread);
        CorrespondsTransitive(after, before + extra, pages + NewPages(posts, cutoff, dbId, accepted));
      }
    }
  }

  lemma SameStoreCorresponds(pages: seq<Page>)
    ensures Corresponds(pages, pages)
  {
    forall j | 0 <= j < |pages| ensures SameExceptModerator(pages[j], pages[j]) {
      SameExceptModeratorRefl(pages[j]);
    }
  }

  /** Each created page is the page of some post of the listing. */
  lemma {:induction false} NewPagesFromPageOf(posts: seq<Submission>, cutoff: int, dbId: Option<string>, accepted: seq<bool>)
    requires |accepted| == |posts|
    ensures |NewPages(posts, cutoff, dbId, accepted)| <= |posts|
    ensures forall k :: 0 <= k < |NewPages(posts, cutoff, dbId, accepted)| ==>
      exists i :: 0 <= i < |posts| && PageOf(posts[i], cutoff, dbId, accepted[i]) == [NewPages(posts, cutoff, dbId, accepted)[k]]
    decreases |posts|
  {
    if posts != [] {
      var n := |posts| - 1;
      var init := posts[..n];
      var before := NewPages(init, cutoff, dbId, accepted[..n]);
      var extra := PageOf(posts[n], cutoff, dbId, accepted[n]);
      var after := NewPages(posts, cutoff, dbId, accepted);
      assert after == before + extra;
      NewPagesFromPageOf(init, cutoff, dbId, accepted[..n]);
      PageOfAdmitted(posts[n], cutoff, dbId, accepted[n]);
      forall k | 0 <= k < |after|
        ensures exists i :: 0 <= i < |posts| && PageOf(posts[i], cutoff, dbId, accepted[i]) == [after[k]]
      {
        if k < |before| {
          var i :| 0 <= i < |init| && PageOf(init[i], cutoff, dbId, accepted[..n][i]) == [before[k]];
          assert init[i] == posts[i] && accepted[..n][i] == accepted[i];
        } else {
          assert PageOf(posts[n], cutoff, dbId, accepted[n]) == [after[k]];
        }
      }
    }
  }

  /** `page` was built from a post of `posts` that the scan admits. */
  ghost predicate FromAdmittedPost(posts: seq<Submission>, page: Page, cutoff: int, dbId: Option<string>) {
    exists post :: post in posts && Admitted(post, cutoff) && PostPage(post, dbId) == Ok(page)
  }

  lemma PageOfHasSource(posts: seq<Submission>, i: nat, page: Page, cutoff: int, dbId: Option<string>, accepted: bool)
    requires i < |posts| && PageOf(posts[i], cutoff, dbId, accepted) == [page]
    ensures FromAdmittedPost(posts, page, cutoff, dbId)
  {
    PageOfAdmitted(posts[i], cutoff, dbId, accepted);
    assert posts[i] in posts;
  }

  /**
   * Every created page comes from a post of the listing that is inside the window
   * and carries a valid flair; it is "In queue", from "Reddit", with a known flair.
   */
  lemma NewPagesComeFromAdmittedPosts(posts: seq<Submission>, cutoff: int, dbId: Option<string>, accepted: seq<bool>)
    requires |accepted| == |posts|
    ensures |NewPages(posts, cutoff, dbId, accepted)| <= |posts|
    ensures forall k :: 0 <= k < |NewPages(posts, cutoff, dbId, accepted)| ==>
      FromAdmittedPost(posts, NewPages(posts, cutoff, dbId, accepted)[k], cutoff, dbId)
  {
    var created := NewPages(posts, cutoff, dbId, accepted);
    NewPagesFromPageOf(posts, cutoff, dbId, accepted);
    forall k | 0 <= k < |created|
      ensures FromAdmittedPost(posts, created[k], cutoff, dbId)
    {
      var i :| 0 <= i < |posts| && PageOf(posts[i], cutoff, dbId, accepted[i]) == [created[k]];
      PageOfHasSource(posts, i, created[k], cutoff, dbId, accepted[i]);
    }
  }

  /** Without a configured database nothing is stored. */
  lemma {:induction false} NothingStoredWithoutDatabase(posts: seq<Submission>, cutoff: int, dbId: Option<string>, accepted: seq<bool>)
    requires |accepted| == |posts|
    requires !Configured(dbId)
    ensures NewPages(posts, cutoff, dbId, accepted) == []
    decreases |posts|
  {
    if posts != [] {
      var n := |posts| - 1;
      NothingStoredWithoutDatabase(posts[..n], cutoff, dbId, accepted[..n]);
    }
  }

  /**
   * There is no early exit: the posts after any post, old, failing or refused
   * by the store, are still handled.
   */
  lemma {:induction false} NewPagesConcat(a: seq<Submission>, b: seq<Submission>, cutoff: int, dbId: Option<string>, acceptedA: seq<bool>, acceptedB: seq<bool>)
    requires |acceptedA| == |a| && |acceptedB| == |b|
    ensures NewPages(a + b, cutoff, dbId, acceptedA + acceptedB)
      == NewPages(a, cutoff, dbId, acceptedA) + NewPages(b, cutoff, dbId, acceptedB)
    decreases |b|
  {
    if b == [] {
      assert a + b == a && acceptedA + acceptedB == acceptedA;
    } else {
      var n := |b| - 1;
      var last := PageOf(b[n], cutoff, dbId, acceptedB[n]);
      assert (a + b)[..|a + b| - 1] == a + b[..n];
      assert (acceptedA + acceptedB)[..|a + b| - 1] == acceptedA + acceptedB[..n];
      assert (a + b)[|a + b| - 1] == b[n];
      assert (acceptedA + acceptedB)[|a + b| - 1] == acceptedB[n];
      NewPagesConcat(a, b[..n], cutoff, dbId, acceptedA, acceptedB[..n]);
      AppendAssoc(NewPages(a, cutoff, dbId, acceptedA), NewPages(b[..n], cutoff, dbId, acceptedB[..n]), last);
    }
  }

  /** Text that does not open with a colon keeps its first character. */
  lemma RemoveEmojisKeepsHead(s: string)
    requires s != [] && s[0] != ':'
    ensures RemoveEmojis(s) != [] && RemoveEmojis(s)[0] == s[0]
  {
  }

  lemma WordRunExact(t: string, m: nat)
    requires m < |t| && !IsWordChar(t[m])
    requires forall i :: 0 <= i < m ==> IsWordChar(t[i])
    ensures WordRun(t) == m
  {
  }

  /** The shortcode at the head of `s` ends at the next colon after a run of `\w`. */
  lemma ShortcodeAtExact(s: string, n: nat)
    requires 2 <= n < |s| && s[0] == ':' && s[n] == ':'
    requires forall i :: 1 <= i < n ==> IsWordChar(s[i])
    ensures ShortcodeAt(s) == n + 1
  {
    var t := s[1..];
    forall i | 0 <= i < n - 1 ensures IsWordChar(t[i]) {
      assert t[i] == s[i + 1];
    }
    assert t[n - 1] == ':';
    WordRunExact(t, n - 1);
  }

  /** A leading `:word:` is dropped and the scan resumes after it. */
  lemma RemoveEmojisDropsLeadingShortcode(s: string, n: nat)
    requires n < |s| && ShortcodeAt(s) == n + 1
    ensures RemoveEmojis(s) == RemoveEmojis(s[n + 1..])
  {
  }


  /** Every valid flair begins with a lower-case letter. */
  lemma ValidFlairsStartWithLetter(key: string)
    requires key in ValidFlairs
    ensures key != [] && 'a' <= key[0] <= 'z'
  {
  }

  /** A post carrying a raw emoji rather than a `:name:` shortcode keeps it and is not stored. */
  lemma EmojiFlairNotAdmitted(post: Submission, cutoff: int)
    requires post.flair == Some("\U{1F4A1}discussion")
    ensures !Admitted(post, cutoff)
  {
    var f := post.flair.value;
    assert f[0] == '\U{1F4A1}' && f[|f| - 1] == 'n';
    StripUnpadded(f);
    var l := Lower(f);
    assert l[0] == '\U{1F4A1}';
    RemoveEmojisKeepsHead(l);
    if FlairKey(f) in ValidFlairs {
      ValidFlairsStartWithLetter(FlairKey(f));
    }
  }

  lemma LowerShortcodeFlair(w: string, name: string)
    ensures Lower(":" + w + ":" + name) == ":" + Lower(w) + ":" + Lower(name)
  {
    LowerConcat(":" + w + ":", name);
    LowerConcat(":" + w, ":");
    LowerConcat(":", w);
  }

  /** `re.sub` drops a `:word:` prefix and continues with what follows. */
  lemma RemoveEmojisShortcodePrefix(u: string, rest: string)
    requires u != [] && forall i :: 0 <= i < |u| ==> IsWordChar(u[i])
    ensures RemoveEmojis(":" + u + ":" + rest) == RemoveEmojis(rest)
  {
    var l := ":" + u + ":" + rest;
    forall i | 1 <= i < |u| + 1 ensures IsWordChar(l[i]) {
      assert l[i] == u[i - 1];
    }
    ShortcodeAtExact(l, |u| + 1);
    RemoveEmojisDropsLeadingShortcode(l, |u| + 1);
    assert l[|u| + 2..] == rest;
  }

  /** Lower-casing keeps `\w` characters `\w` characters. */
  lemma LowerKeepsWordChars(w: string)
    requires forall i :: 0 <= i < |w| ==> IsWordChar(w[i])
    ensures forall i :: 0 <= i < |Lower(w)| ==> IsWordChar(Lower(w)[i])
  {
    forall i | 0 <= i < |w| ensures IsWordChar(Lower(w)[i]) {
      assert Lower(w)[i] == LowerChar(w[i]);
    }
  }

  /** A `:word:` shortcode glued to the front of a flair does not change how it normalises. */
  lemma LeadingShortcodeIgnored(w: string, name: string)
    requires w != [] && forall i :: 0 <= i < |w| ==> IsWordChar(w[i])
    requires name != [] && !IsSpace(name[0]) && !IsSpace(name[|name| - 1])
    ensures CleanFlair(":" + w + ":" + name) == CleanFlair(name)
  {
    var f := ":" + w + ":" + name;
    assert f[0] == ':' && f[|f| - 1] == name[|name| - 1];
    StripUnpadded(f);
    StripUnpadded(name);
    LowerShortcodeFlair(w, name);
    LowerKeepsWordChars(w);
    RemoveEmojisShortcodePrefix(Lower(w), Lower(name));
    assert FlairKey(f) == RemoveEmojis(Lower(f));
    assert FlairKey(name) == RemoveEmojis(Lower(name));
  }

  /**
   * A shortcode followed by a space, as in ":bulb: Discussion", leaves that space
   * at the head of the key, since stripping happens before the shortcode is removed:
   * such a flair is never recognised.
   */
  lemma ShortcodeThenSpaceNotRecognised(w: string, rest: string)
    requires w != [] && forall i :: 0 <= i < |w| ==> IsWordChar(w[i])
    requires rest != [] && !IsSpace(rest[|rest| - 1])
    ensures CleanFlair(":" + w + ":" + (" " + rest)) == NoFlair
  {
    var tail := " " + rest;
    var f := ":" + w + ":" + tail;
    assert f[0] == ':' && f[|f| - 1] == rest[|rest| - 1];
    StripUnpadded(f);
    LowerShortcodeFlair(w, tail);
    LowerKeepsWordChars(w);
    RemoveEmojisShortcodePrefix(Lower(w), Lower(tail));
    assert FlairKey(f) == RemoveEmojis(Lower(tail));
    assert Lower(tail)[0] == ' ';
    RemoveEmojisKeepsHead(Lower(tail));
    if FlairKey(f) in ValidFlairs {
      ValidFlairsStartWithLetter(FlairKey(f));
    }
  }

  /**
   * The body of the scan loop for one post; a post that fails, or whose page the
   * store refuses (`accepted` false), is skipped. The normalised set of valid
   * flairs the source rebuilds here is `ValidFlairs` itself
   * (`NormalisedValidFlairsAreValid`).
   */
  method IngestOne(db: Database, post: Submission, oneHourAgo: int, dbId: Option<string>, accepted: bool)
    modifies db
    ensures db.pages == IngestPost(old(db.pages), post, oneHourAgo, dbId, accepted)
  {
    if post.createdUtc >= oneHourAgo {
      var flairText := ScanFlairKey(post.flair);
      if flairText in ValidFlairs {
        var page := PostPage(post, dbId);
        if page.Ok? && accepted {
          db.Create(page.value);
          CheckModeratorComments(db, post);
        }
      }
    }
  }

  /**
   * One run of the hourly scan: the newest posts are listed, and every post inside
   * the last hour with a valid flair is stored, followed by its moderators' replies;
   * `accepted[i]` is the store's answer to the create for post `i` of the listing.
   * A failure on one post does not stop the others.
   */
  method ScanPostsAndAddToNotion(db: Database, feed: seq<Submission>, now: int, dbId: Option<string>, accepted: seq<bool>)
    requires |accepted| == |Listing(feed)|
    modifies db
    ensures db.pages == ScanPosts(old(db.pages), Listing(feed), now - ScanWindow, dbId, accepted)
  {
    var oneHourAgo := now - ScanWindow;
    var posts := Listing(feed);
    ghost var initial := db.pages;
    for i := 0 to |posts|
      invariant db.pages == ScanPosts(initial, posts[..i], oneHourAgo, dbId, accepted[..i])
    {
      ScanPostsStep(initial, posts, i, oneHourAgo, dbId, accepted);
      IngestOne(db, posts[i], oneHourAgo, dbId, accepted[i]);
    }
    assert posts[..|posts|] == posts && accepted[..|posts|] == accepted;
  }

  // ---------------------------------------------------------------- scan_moderator_comments

  /** `link_id.split('_')[-1]`: the post id after the kind prefix. */
  function PostIdOfLinkId(linkId: string): (postId: string)
    ensures '_' !in postId
  {
    LastPart(linkId, '_')
  }

  lemma PostIdOfPrefixedLinkId(id: string)
    requires '_' !in id
    ensures PostIdOfLinkId("t3_" + id) == id
  {
    assert "t3_" + id == "t3" + ['_'] + id;
    LastPartAfterFinalSeparator("t3", '_', id);
  }

  /** The store after one comment of the live stream. */
  function StreamComment(pages: seq<Page>, c: Comment): seq<Page> {
    if AuthoredByOneOf(c.author, Moderators) then ModeratorUpdated(pages, PostIdOfLinkId(c.linkId), c.author.value, c.body)
    else pages
  }

  /** Only a moderator's comment changes the store, and only moderator fields. */
  lemma StreamCommentOnlyFromModerators(pages: seq<Page>, c: Comment)
    ensures !AuthoredByOneOf(c.author, Moderators) ==> StreamComment(pages, c) == pages
    ensures Corresponds(StreamComment(pages, c), pages)
  {
    if AuthoredByOneOf(c.author, Moderators) {
      ModeratorUpdateFrame(pages, PostIdOfLinkId(c.linkId), c.author.value, c.body);
    }
  }

  method HandleStreamComment(db: Database, c: Comment)
    modifies db
    ensures db.pages == StreamComment(old(db.pages), c)
  {
    if AuthoredByOneOf(c.author, Moderators) {
      var postId := PostIdOfLinkId(c.linkId);
      UpdateNotionWithModeratorComment(db, postId, c.author.value, c.body);
    }
  }

  // ---------------------------------------------------------------- update_old_posts_to_solved

  /** The sweep's filter: dated before the cutoff and not Solved. */
  predicate IsStale(page: Page, cutoff: int) {
    DateOf(page).Some? && DateOf(page).value < cutoff && StatusOf(page) != Solved
  }

  function SolvedProps(): Page {
    map["Status" := StatusProp(Solved)]
  }

  /** The store with the pages at the given indices set to Solved. */
  function MarkSolved(pages: seq<Page>, idx: seq<nat>): (r: seq<Page>)
    ensures |r| == |pages|
  {
    seq(|pages|, j requires 0 <= j < |pages| => if j in idx then pages[j] + SolvedProps() else pages[j])
  }

  /** The store after one sweep with the given cutoff. */
  function Swept(pages: seq<Page>, cutoff: int): seq<Page> {
    MarkSolved(pages, QueryIndices(pages, p => IsStale(p, cutoff)))
  }

  /** The sweep sets Status to Solved on stale pages the query returns and changes nothing else. */
  lemma SweepOnlySolvesStalePages(pages: seq<Page>, cutoff: int)
    ensures var r := Swept(pages, cutoff);
      && |r| == |pages|
      && (forall j :: 0 <= j < |pages| ==>
            r[j] == pages[j] || (IsStale(pages[j], cutoff) && r[j] == pages[j]["Status" := StatusProp(Solved)]))
      && (forall j :: 0 <= j < |pages| && !IsStale(pages[j], cutoff) ==> r[j] == pages[j])
  {
    var keep := p => IsStale(p, cutoff);
    var idx := QueryIndices(pages, keep);
    var r := Swept(pages, cutoff);
    forall j | 0 <= j < |pages|
      ensures r[j] == pages[j] || (IsStale(pages[j], cutoff) && r[j] == pages[j]["Status" := StatusProp(Solved)])
    {
      if j in idx {
        var k :| 0 <= k < |idx| && idx[k] == j;
        assert keep(pages[idx[k]]);
        assert pages[j] + SolvedProps() == pages[j]["Status" := StatusProp(Solved)];
      }
    }
  }

  /**
   * When at most one page of results is stale, the sweep leaves no stale page,
   * so a second sweep changes nothing.
   */
  lemma SweepIdempotent(pages: seq<Page>, cutoff: int)
    requires |Matching(pages, p => IsStale(p, cutoff))| <= QueryPageSize
    ensures forall j :: 0 <= j < |pages| ==> !IsStale(Swept(pages, cutoff)[j], cutoff)
    ensures Swept(Swept(pages, cutoff), cutoff) == Swept(pages, cutoff)
  {
    var keep := p => IsStale(p, cutoff);
    var r := Swept(pages, cutoff);
    forall j | 0 <= j < |r| ensures !keep(r[j]) {
      if keep(pages[j]) {
        assert j in Matching(pages, keep);
        assert StatusOf(r[j]) == Solved;
      }
    }
    NothingMatches(r, keep);
    assert MarkSolved(r, []) == r;
  }

  /** The number of updates a sweep over `count` results completes when the store refuses the one at `refusedAt`. */
  function Completed(count: nat, refusedAt: nat): (done: nat)
    ensures done <= count && done <= refusedAt
    ensures done == count || done == refusedAt
  {
    if refusedAt < count then refusedAt else count
  }

  /**
   * One run of the sweep: the pages the stale-page query returns are set to
   * Solved in order. The store refuses the update of result `refusedAt` (none,
   * when it is past the last result); a refused update raises and ends the run,
   * so the earlier results stay Solved and the later ones are left alone.
   */
  method UpdateOldPostsToSolved(db: Database, now: int, refusedAt: nat)
    modifies db
    ensures var results := QueryIndices(old(db.pages), p => IsStale(p, now - Week));
      db.pages == MarkSolved(old(db.pages), results[..Completed(|results|, refusedAt)])
    ensures refusedAt >= |QueryIndices(old(db.pages), p => IsStale(p, now - Week))| ==> db.pages == Swept(old(db.pages), now - Week)
  {
    var oneWeekAgo := now - Week;
    var results := QueryIndices(db.pages, p => IsStale(p, oneWeekAgo));
    ghost var initial := db.pages;
    for k := 0 to |results|
      invariant k <= refusedAt
      invariant |db.pages| == |initial|
      invariant db.pages == MarkSolved(initial, results[..k])
    {
      if k == refusedAt {
        return;
      }
      var i := results[k];
      db.Update(i, SolvedProps());
      forall j | 0 <= j < |initial|
        ensures db.pages[j] == MarkSolved(initial, results[..k + 1])[j]
      {
        if j == i {
          assert j in results[..k + 1];
          assert initial[j] + SolvedProps() + SolvedProps() == initial[j] + SolvedProps();
        } else {
          assert j in results[..k + 1] <==> j in results[..k];
        }
      }
    }
    assert results[..|results|] == results;
  }
}
