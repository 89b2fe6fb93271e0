# NewBoosteroidCode, modelled in Dafny

NewBoosteroidCode is the support bot of the Boosteroid community. It watches the
BoosteroidCommunity subreddit and a Discord server. It files help requests and
forum posts in a Notion "Technical Issues" database and mirrors forum comments into
a comments database. It announces new posts and comments in a Telegram support
chat, and records the 👍/👎 that moderators give in reply to those announcements.
Each shift, week and month it sends the chat a digest of the counts, with a
detailed export attached. This project models the rules underneath those
collaborators and proves what they guarantee.

The collaborators are modelled as state the model can see:

- a Notion database is a `Notion.Database` object holding its pages in query
  order, and a page is a map from property names to typed properties;
- the chat and Discord direct messages are a `Messaging.Outbox` that logs every
  delivered message;
- Reddit listings and streams are sequences of posts and comments;
- the clock, request ids and the outcome of every send are parameters.

Modules, one per part of the bot:

- `Text`: the Python string operations the bot relies on (`strip`, `lower`,
  `split`, `splitlines`, `isalnum`, `in`).
- `Notion`, `Reddit`, `Messaging`: the collaborators as state.
- `RedditToNotion`: flair cleaning, the hourly post intake, moderator replies and
  the weekly sweep to Solved.
- `RedditCommentsToNotion`: the comment mirror and its skip, persist and stop rules.
- `RedditToTelegram`: the chat announcements, link reading, truncation and the
  reaction capture.
- `CommunityHelper`: the Discord mention alerts and the `/communityhelper`
  command.
- `Calendar`, `ReportSchedule`: report windows and next-run times.
- `ReportData`, `ReportCounts`, `ReportText`, `ReportSend`: the report engine. It
  reads properties, aggregates the counts, lays out the digest and the export, and
  sends both.
- `App`: the process wiring, that is the ignored-user list, the routing of chat
  text and the logging writer that replaces standard output.

Loops in the source are methods with loop invariants. Each is proved equal to a
specification function, and the lemmas state the properties of that function.
Where the bot's documentation and its code disagree, the model follows the code:
the hourly post scan, for one, has no early stop at the first old post. The
members that model what the bot runs follow its code as written, including the
defects listed under "## Findings"; the corrected definitions stand beside them,
each with the intended property proved, and are not used by those members.

## Model

| member | source | states |
|---|---|---|
| Notion.Matching | NewBoosteroidCode/telegramFunctions/telegramReport/telegramReport.py:53-56 | the indices of the pages a filter keeps: in store order, each kept page exactly once |
| Notion.QueryIndices | NewBoosteroidCode/telegramFunctions/telegramReport/telegramReport.py:53-56 | a query answers with at most 100 matches, in store order, and with all of them when there are no more than 100 |
| Notion.WindowQuery | NewBoosteroidCode/telegramFunctions/telegramReport/telegramReport.py:47-56 | a date-window query returns at most 100 pages, each dated within the window |
| Notion.Database.Create | NewBoosteroidCode/notion/redditToNotion/redditToNotion.py:66 | creating a page appends exactly that page to the store |
| Notion.Database.Update | NewBoosteroidCode/notion/redditToNotion/redditToNotion.py:75-78 | updating a page merges the given properties into that page and leaves every other page alone |
| Messaging.Outbox.Send | NewBoosteroidCode/telegramFunctions/redditToTelegram/redditToTelegram.py:16-21 | a send appends the message when it is delivered; a failed send leaves the log unchanged and does not raise |
| Reddit.Listing | NewBoosteroidCode/notion/redditCommentsToNotion/redditCommentsToNotion.py:58 | a listing holds at most 100 items: the newest-first prefix of the feed |
| RedditToNotion.RemoveEmojis | NewBoosteroidCode/notion/redditToNotion/redditToNotion.py:29-30 | removing `:word:` shortcodes never lengthens the text |
| RedditToNotion.RemoveEmojisWithoutColon | NewBoosteroidCode/notion/redditToNotion/redditToNotion.py:29-30 | text without a colon comes back unchanged |
| RedditToNotion.RemoveEmojisDropsLeadingShortcode | NewBoosteroidCode/notion/redditToNotion/redditToNotion.py:29-30 | a leading shortcode is dropped and the rest is scanned from after it |
| RedditToNotion.CleanFlair | NewBoosteroidCode/notion/redditToNotion/redditToNotion.py:32-42 | the result is always one of the six canonical flairs or "No Flair", and it is "No Flair" exactly when the normalised flair is not a known key |
| RedditToNotion.CleanFlairIdempotent | NewBoosteroidCode/notion/redditToNotion/redditToNotion.py:32-42 | cleaning a cleaned flair gives it back |
| RedditToNotion.CleanFlairFixesCanonical | NewBoosteroidCode/notion/redditToNotion/redditToNotion.py:32-42 | each canonical name, "No Flair" included, maps to itself |
| RedditToNotion.CleanFlairIgnoresPaddingAndCase | NewBoosteroidCode/notion/redditToNotion/redditToNotion.py:41-42 | surrounding whitespace and letter case do not change the result |
| RedditToNotion.CleanFlairUpperPadded | NewBoosteroidCode/notion/redditToNotion/redditToNotion.py:41-42 | " HELP " cleans to "Help" |
| RedditToNotion.LeadingShortcodeIgnored | NewBoosteroidCode/notion/redditToNotion/redditToNotion.py:41-42 | a `:word:` shortcode in front of a flair is ignored |
| RedditToNotion.ShortcodeThenSpaceNotRecognised | NewBoosteroidCode/notion/redditToNotion/redditToNotion.py:41-42 | a shortcode followed by a space and a name is not recognised, since the space left after removal is not stripped again |
| RedditToNotion.PageFlair | NewBoosteroidCode/notion/redditToNotion/redditToNotion.py:49 | a post without flair is filed as "No Flair"; every filed flair is canonical |
| RedditToNotion.PostPage | NewBoosteroidCode/notion/redditToNotion/redditToNotion.py:44-65 | a missing database id is an error; otherwise the page has the post id, the creation date, Status "In queue", Platform "Reddit", the cleaned flair and empty moderator fields |
| RedditToNotion.AdmittedMeansRecognisedFlair | NewBoosteroidCode/notion/redditToNotion/redditToNotion.py:96-99 | a post is stored exactly when it is within the hour and has a flair that cleans to a known name; a post without flair never is |
| RedditToNotion.NormalisedValidFlairsAreValid | NewBoosteroidCode/notion/redditToNotion/redditToNotion.py:99 | normalising the six valid flairs leaves them unchanged |
| RedditToNotion.EmojiFlairNotAdmitted | NewBoosteroidCode/notion/redditToNotion/redditToNotion.py:98-99 | a flair with a Unicode emoji glued to the name is not admitted |
| RedditToNotion.IngestOne | NewBoosteroidCode/notion/redditToNotion/redditToNotion.py:95-106 | one post of the scan: when it is admitted, its page can be built and the store accepts the create, the page is appended and its thread checked for moderator replies; otherwise the store is unchanged, so a refused create also skips the moderator check |
| RedditToNotion.ScanPostsAndAddToNotion | NewBoosteroidCode/notion/redditToNotion/redditToNotion.py:93-106 | the store becomes the scan of every post of the listing, with no early stop; a missing database, a missing author or a refused create skips only that post |
| RedditToNotion.ScanAppendsAdmittedPosts | NewBoosteroidCode/notion/redditToNotion/redditToNotion.py:93-106 | after the scan the store is the old store plus the pages of the admitted posts whose create was accepted, in listing order, up to the moderator fields |
| RedditToNotion.NewPagesComeFromAdmittedPosts | NewBoosteroidCode/notion/redditToNotion/redditToNotion.py:93-106 | every page the scan adds comes from an admitted post of the listing, and there are no more pages than posts |
| RedditToNotion.NothingStoredWithoutDatabase | NewBoosteroidCode/notion/redditToNotion/redditToNotion.py:46-47 | without a database id the scan stores nothing |
| RedditToNotion.NewPagesConcat | NewBoosteroidCode/notion/redditToNotion/redditToNotion.py:94 | scanning two runs of posts adds the pages of each run in turn, whatever failed or was refused in the first |
| RedditToNotion.FirstWithId | NewBoosteroidCode/notion/redditToNotion/redditToNotion.py:69-74 | the position of the first page with the post id; no earlier page has that id |
| RedditToNotion.UpdateNotionWithModeratorComment | NewBoosteroidCode/notion/redditToNotion/redditToNotion.py:68-78 | the store becomes the moderator update of the first page with the post id |
| RedditToNotion.ModeratorUpdateFrame | NewBoosteroidCode/notion/redditToNotion/redditToNotion.py:68-78 | only the first matching page changes, and only in its two moderator fields |
| RedditToNotion.ModeratorUpdateWrites | NewBoosteroidCode/notion/redditToNotion/redditToNotion.py:75-78 | the matching page holds the moderator's name and reply |
| RedditToNotion.ModeratorUpdateNoMatch | NewBoosteroidCode/notion/redditToNotion/redditToNotion.py:73 | with no matching page the store is unchanged |
| RedditToNotion.ModeratorUpdateIdempotent | NewBoosteroidCode/notion/redditToNotion/redditToNotion.py:68-78 | repeating an update changes nothing |
| RedditToNotion.CheckModeratorComments | NewBoosteroidCode/notion/redditToNotion/redditToNotion.py:120-126 | the store becomes the thread's moderator replies applied in order |
| RedditToNotion.RepliesOnlyTouchModeratorFields | NewBoosteroidCode/notion/redditToNotion/redditToNotion.py:120-126 | applying replies changes only moderator fields |
| RedditToNotion.PostIdOfLinkId | NewBoosteroidCode/notion/redditToNotion/redditToNotion.py:142 | the post id taken from a link id holds no `_` |
| RedditToNotion.PostIdOfPrefixedLinkId | NewBoosteroidCode/notion/redditToNotion/redditToNotion.py:142 | "t3_" followed by an id gives back that id |
| RedditToNotion.StreamCommentOnlyFromModerators | NewBoosteroidCode/notion/redditToNotion/redditToNotion.py:139-143 | a comment by anyone but a moderator leaves the store unchanged; one by a moderator changes only moderator fields |
| RedditToNotion.HandleStreamComment | NewBoosteroidCode/notion/redditToNotion/redditToNotion.py:139-143 | one streamed comment updates the store as the stream rule says |
| RedditToNotion.MarkSolved | NewBoosteroidCode/notion/redditToNotion/redditToNotion.py:156-161 | marking keeps the number of pages |
| RedditToNotion.SweepOnlySolvesStalePages | NewBoosteroidCode/notion/redditToNotion/redditToNotion.py:145-161 | the sweep sets Status to Solved on stale pages only and changes nothing else |
| RedditToNotion.SweepIdempotent | NewBoosteroidCode/notion/redditToNotion/redditToNotion.py:145-161 | after a sweep no page is stale, and a second sweep changes nothing |
| RedditToNotion.UpdateOldPostsToSolved | NewBoosteroidCode/notion/redditToNotion/redditToNotion.py:145-161 | the stale query's results (dated before now minus 7 days, not Solved) are set to Solved in order up to the first refused update, which ends the run; with none refused the store becomes the full sweep |
| RedditCommentsToNotion.CommentUrl | NewBoosteroidCode/notion/redditCommentsToNotion/redditCommentsToNotion.py:37 | the page link is "https://reddit.com" followed by the permalink |
| RedditCommentsToNotion.CommentPage | NewBoosteroidCode/notion/redditCommentsToNotion/redditCommentsToNotion.py:14-40 | a missing database id is an error raised before any write; otherwise the page is built |
| RedditCommentsToNotion.CommentPageShape | NewBoosteroidCode/notion/redditCommentsToNotion/redditCommentsToNotion.py:20-40 | the page has exactly Date, Username, Comment Text and URL, copying the comment |
| RedditCommentsToNotion.Candidates | NewBoosteroidCode/notion/redditCommentsToNotion/redditCommentsToNotion.py:58-67 | every comment kept is by an author who is not ignored and is within the hour |
| RedditCommentsToNotion.StopIndex | NewBoosteroidCode/notion/redditCommentsToNotion/redditCommentsToNotion.py:63-67 | the scan stops at the first comment that is not ignored and is older than the cutoff |
| RedditCommentsToNotion.CandidatesAreUnignoredPrefix | NewBoosteroidCode/notion/redditCommentsToNotion/redditCommentsToNotion.py:58-67 | the comments kept are the unignored comments before the stop, in listing order |
| RedditCommentsToNotion.IgnoredCommentNeverStops | NewBoosteroidCode/notion/redditCommentsToNotion/redditCommentsToNotion.py:59-61 | an ignored comment, old or not, neither is kept nor ends the scan |
| RedditCommentsToNotion.CandidatesIgnoreTail | NewBoosteroidCode/notion/redditCommentsToNotion/redditCommentsToNotion.py:66-67 | nothing after the stop is looked at |
| RedditCommentsToNotion.CreatedPagesMirrorCandidates | NewBoosteroidCode/notion/redditCommentsToNotion/redditCommentsToNotion.py:42-65 | each created page is the page of the corresponding kept comment, and the store accepted its create |
| RedditCommentsToNotion.NothingWrittenWithoutDatabase | NewBoosteroidCode/notion/redditCommentsToNotion/redditCommentsToNotion.py:15-18 | without a database nothing is written, and the first kept comment raises |
| RedditCommentsToNotion.FailureEndsCreation | NewBoosteroidCode/notion/redditCommentsToNotion/redditCommentsToNotion.py:58-67 | a kept comment whose page cannot be built, or whose create the store refuses, ends the scan with that error, and no later comment is written |
| RedditCommentsToNotion.ScanWritesAtMostOneListing | NewBoosteroidCode/notion/redditCommentsToNotion/redditCommentsToNotion.py:58 | one scan writes at most 100 pages, whatever the store accepts |
| RedditCommentsToNotion.AddCommentToNotion | NewBoosteroidCode/notion/redditCommentsToNotion/redditCommentsToNotion.py:14-42 | the page is appended when it can be built and the store accepts the create; otherwise the store is unchanged and the missing database, the missing author or the refused create is returned |
| RedditCommentsToNotion.ScanCommentsAndAddToNotion | NewBoosteroidCode/notion/redditCommentsToNotion/redditCommentsToNotion.py:44-67 | the store gains, in order, the pages of the kept comments up to the first one whose page cannot be built or whose create is refused; that error escapes the scan |
| RedditToTelegram.Relayed | NewBoosteroidCode/telegramFunctions/redditToTelegram/redditToTelegram.py:23-45 | a stream leaves at most one announcement per item |
| RedditToTelegram.RelayedOnlyUnignored | NewBoosteroidCode/telegramFunctions/redditToTelegram/redditToTelegram.py:24-28 | every announcement is the text of an item whose author is not ignored; an item without author is not ignored |
| RedditToTelegram.RelayedEveryUnignored | NewBoosteroidCode/telegramFunctions/redditToTelegram/redditToTelegram.py:24-33 | every delivered item whose author is not ignored is announced |
| RedditToTelegram.TrackPosts | NewBoosteroidCode/telegramFunctions/redditToTelegram/redditToTelegram.py:23-33 | the outbox gains the post announcements ("📌 Новый пост: …") of the unignored posts, in order |
| RedditToTelegram.TrackComments | NewBoosteroidCode/telegramFunctions/redditToTelegram/redditToTelegram.py:35-45 | the outbox gains the comment announcements of the unignored comments, in order, with the "https://www.reddit.com" permalink |
| RedditToTelegram.Classify | NewBoosteroidCode/telegramFunctions/redditToTelegram/redditToTelegram.py:72-91 | link reading after stripping and splitting: a comment id is always alphanumeric |
| RedditToTelegram.CommunityPrefixParts | NewBoosteroidCode/telegramFunctions/redditToTelegram/redditToTelegram.py:72 | a community link splits into the six prefix parts followed by its path |
| RedditToTelegram.CommentsAtFive | NewBoosteroidCode/telegramFunctions/redditToTelegram/redditToTelegram.py:74 | "comments" is the sixth part of every community link |
| RedditToTelegram.CommentLinkRead | NewBoosteroidCode/telegramFunctions/redditToTelegram/redditToTelegram.py:73-82 | a comment permalink is read as that comment |
| RedditToTelegram.SubmissionLinkRead | NewBoosteroidCode/telegramFunctions/redditToTelegram/redditToTelegram.py:83-89 | a post link with its slug is read as that post |
| RedditToTelegram.ShortSubmissionLinkRead | NewBoosteroidCode/telegramFunctions/redditToTelegram/redditToTelegram.py:83-89 | a post link without slug is read as that post |
| RedditToTelegram.PostLinkTakenForComment | NewBoosteroidCode/telegramFunctions/redditToTelegram/redditToTelegram.py:73-82 | as written, a post link whose slug is alphanumeric is read as a comment with the slug as id |
| RedditToTelegram.RedditDataFor | NewBoosteroidCode/telegramFunctions/redditToTelegram/redditToTelegram.py:62-94 | the link is read as written (`len(url_parts) > 7`): a comment target gives the comment titled "Комментарий: …", a post target gives the post with non-empty content ("[Без текста]"); the data carries the link, and an unreadable link or an item the forum lacks gives nothing |
| RedditToTelegram.Lookup | NewBoosteroidCode/telegramFunctions/redditToTelegram/redditToTelegram.py:75-94 | the lookup of a read target: found exactly when the forum has the comment or post, with the titles and content above |
| RedditToTelegram.OneWordPostLookedUpAsComment | NewBoosteroidCode/telegramFunctions/redditToTelegram/redditToTelegram.py:62-94 | the link of a post with a one-word slug is found as written only when the forum has a comment with that id, and by the corrected reading exactly when the post exists |
| RedditToTelegram.FindLink | NewBoosteroidCode/telegramFunctions/redditToTelegram/redditToTelegram.py:130-132 | a link found in a reply occurs in it |
| RedditToTelegram.FindLinkWhole | NewBoosteroidCode/telegramFunctions/redditToTelegram/redditToTelegram.py:130-132 | a community link followed by no space is found whole |
| RedditToTelegram.CommentAnnouncementLeadsBack | NewBoosteroidCode/telegramFunctions/redditToTelegram/redditToTelegram.py:130-132 | when the search finds no link in the comment's body, the link it finds in the comment announcement is the announced comment's link, and both readings take it for that comment |
| RedditToTelegram.FindLinkSkipsLinkFree | NewBoosteroidCode/telegramFunctions/redditToTelegram/redditToTelegram.py:130 | text in which the search finds no link, followed by a space, is passed over by the search |
| RedditToTelegram.Truncate | NewBoosteroidCode/telegramFunctions/redditToTelegram/redditToTelegram.py:98-99 | content over 2000 characters becomes its first 1997 and "...", exactly 2000; shorter content is unchanged |
| RedditToTelegram.TruncateIdempotent | NewBoosteroidCode/telegramFunctions/redditToTelegram/redditToTelegram.py:98-99 | truncating twice is truncating once |
| RedditToTelegram.ReactionPage | NewBoosteroidCode/telegramFunctions/redditToTelegram/redditToTelegram.py:105-114 | the reaction page has Title, truncated Content, URL, Reaction and Date, and nothing else |
| RedditToTelegram.AddReactionToNotion | NewBoosteroidCode/telegramFunctions/redditToTelegram/redditToTelegram.py:96-121 | the page is appended when the store accepts it; a refusal is only logged |
| RedditToTelegram.ReactionChoice | NewBoosteroidCode/telegramFunctions/redditToTelegram/redditToTelegram.py:136-145 | 👍 when the message holds one, else 👎 when it holds one, else nothing |
| RedditToTelegram.ReactionRecord | NewBoosteroidCode/telegramFunctions/redditToTelegram/redditToTelegram.py:123-151 | a reaction is recorded exactly for a reply whose text holds a community link that, read as written, leads to an item with a title, and a message with 👍 or 👎 |
| RedditToTelegram.HandleMessage | NewBoosteroidCode/telegramFunctions/redditToTelegram/redditToTelegram.py:123-151 | the store gains the reaction page exactly when one is recorded and accepted |
| RedditToTelegram.ThumbsUpOnCommentAnnouncement | NewBoosteroidCode/telegramFunctions/redditToTelegram/redditToTelegram.py:128-139 | a 👍 in reply to the announcement of a comment whose body holds no link records that comment with reaction 👍 |
| RedditToTelegram.ReactionOnOneWordPostLost | NewBoosteroidCode/telegramFunctions/redditToTelegram/redditToTelegram.py:123-151 | as written, a reaction in reply to the announcement of a post whose link ends in a one-word slug finds the post's link but records nothing unless the forum has a comment with that id |
| CommunityHelper.MentionedModerators | NewBoosteroidCode/discordFunctions/communityHelperToTelegram/communityHelperToTelegram.py:49-52 | the mentioned moderators are exactly the mentions whose name or display name is a moderator tag |
| CommunityHelper.DisplayNames | NewBoosteroidCode/discordFunctions/communityHelperToTelegram/communityHelperToTelegram.py:55 | the display names of the moderators, in mention order |
| CommunityHelper.Alert | NewBoosteroidCode/discordFunctions/communityHelperToTelegram/communityHelperToTelegram.py:43-58 | an alert exists exactly when the author is not the bot and some mention is a moderator |
| CommunityHelper.AlertNamesEveryModerator | NewBoosteroidCode/discordFunctions/communityHelperToTelegram/communityHelperToTelegram.py:54-56 | the alert names every mentioned moderator by display name and quotes the message |
| CommunityHelper.HelpRequestPage | NewBoosteroidCode/discordFunctions/communityHelperToTelegram/communityHelperToTelegram.py:80-91 | the page has ID the request id, Status "In queue", Platform "Discord", Post Flair "Help", and Title and Description the text |
| CommunityHelper.RequestTraceable | NewBoosteroidCode/discordFunctions/communityHelperToTelegram/communityHelperToTelegram.py:29-90 | the relay and the confirmation carry the request id and the text, and the page carries the id |
| CommunityHelper.DiscordBot.OnMessage | NewBoosteroidCode/discordFunctions/communityHelperToTelegram/communityHelperToTelegram.py:43-60 | the bot's own messages are skipped; an alert is sent when a moderator is mentioned; a failed alert stops dispatch |
| CommunityHelper.DiscordBot.CommunityHelperCommand | NewBoosteroidCode/discordFunctions/communityHelperToTelegram/communityHelperToTelegram.py:28-97 | relay, then file, then confirm; a failed relay or filing ends the command with its error; a failed confirmation is only logged |
| ReportData.ExtractDate | NewBoosteroidCode/telegramFunctions/telegramReport/telegramReport.py:31-34 | the date's start, or "" when the property is missing or has no date |
| ReportData.ExtractTitle | NewBoosteroidCode/telegramFunctions/telegramReport/telegramReport.py:36-39 | the first title item's content, or "" when missing or empty |
| ReportData.ExtractRichText | NewBoosteroidCode/telegramFunctions/telegramReport/telegramReport.py:41-44 | the first rich-text item's content, or "" when missing or empty |
| ReportData.ExtractorsReadWrittenValues | NewBoosteroidCode/telegramFunctions/telegramReport/telegramReport.py:31-44 | each extractor reads back the value the bot writes |
| ReportData.SelectName | NewBoosteroidCode/telegramFunctions/telegramReport/telegramReport.py:68 | the select's name; an empty select (null in Notion) raises |
| ReportData.SelectNameOr | NewBoosteroidCode/telegramFunctions/telegramReport/telegramReport.py:213-214 | the select's name or ""; an empty select raises |
| ReportData.TechRecordWith | NewBoosteroidCode/telegramFunctions/telegramReport/telegramReport.py:176-187 | an issue entry has the ten fields in order |
| ReportData.PlatformLostAsWritten | NewBoosteroidCode/telegramFunctions/telegramReport/telegramReport.py:180 | as written, the Platform select always shows as "" |
| ReportData.TechRecordShowsPlatform | NewBoosteroidCode/telegramFunctions/telegramReport/telegramReport.py:180 | with the select read as a select, filed issues show "Reddit" or "Discord" |
| ReportData.HelpRequestRecord | NewBoosteroidCode/telegramFunctions/telegramReport/telegramReport.py:176-187 | a filed help request reads back as the export lists it: sender, text as title and description, "In queue", and the Platform shown as "" (Findings, first row) |
| ReportData.YoutubeRecord | NewBoosteroidCode/telegramFunctions/telegramReport/telegramReport.py:208-215 | a YouTube entry has six fields; an empty Profile or Author select raises |
| ReportData.RedditCommentRecord | NewBoosteroidCode/telegramFunctions/telegramReport/telegramReport.py:235-240 | a comment entry has four fields |
| ReportData.CommentRecordRoundTrip | NewBoosteroidCode/telegramFunctions/telegramReport/telegramReport.py:235-240 | a mirrored comment reads back whole |
| ReportData.AnalyticsRecordWith | NewBoosteroidCode/telegramFunctions/telegramReport/telegramReport.py:258-263 | an analytics entry has four fields; an empty Reaction select raises |
| ReportData.TitleLostAsWritten | NewBoosteroidCode/telegramFunctions/telegramReport/telegramReport.py:260 | as written, every stored reaction is listed with an empty title |
| ReportData.ReactionRecordRoundTrip | NewBoosteroidCode/telegramFunctions/telegramReport/telegramReport.py:260 | read as a title, a stored reaction reads back whole |
| ReportData.Gather | NewBoosteroidCode/telegramFunctions/telegramReport/telegramReport.py:173-188 | the entries of all pages in order, or the first page's error |
| ReportData.RecordsFailOnEmptySelect | NewBoosteroidCode/telegramFunctions/telegramReport/telegramReport.py:161-264 | issue and comment sections never fail; any failure is an empty select |
| ReportData.CollectRecords | NewBoosteroidCode/telegramFunctions/telegramReport/telegramReport.py:173-188 | the loop builds the entries the code's readers give (Platform and the analytics Title read as rich text), or stops at the first error |
| ReportCounts.Count | NewBoosteroidCode/telegramFunctions/telegramReport/telegramReport.py:66-77 | a count never exceeds the number of pages |
| ReportCounts.CountUnion | NewBoosteroidCode/telegramFunctions/telegramReport/telegramReport.py:69-79 | disjoint counts add up |
| ReportCounts.Tally | NewBoosteroidCode/telegramFunctions/telegramReport/telegramReport.py:59-77 | one counter per name, counting the pages with that name |
| ReportCounts.TallySum | NewBoosteroidCode/telegramFunctions/telegramReport/telegramReport.py:76-77 | with distinct names the counters sum to the pages whose name is listed; others are not counted |
| ReportCounts.Bump | NewBoosteroidCode/telegramFunctions/telegramReport/telegramReport.py:76-77 | the counter of a listed name goes up by one; an unlisted name changes nothing |
| ReportCounts.TechReportOf | NewBoosteroidCode/telegramFunctions/telegramReport/telegramReport.py:57-86 | total is the number of pages; an empty Post Flair select raises |
| ReportCounts.TechReportTotals | NewBoosteroidCode/telegramFunctions/telegramReport/telegramReport.py:57-86 | help + other = total, answered <= help, and the status counts sum to the help pages with one of the five statuses |
| ReportCounts.TechnicalIssuesReport | NewBoosteroidCode/telegramFunctions/telegramReport/telegramReport.py:46-86 | the loop's result is `TechReportOf(results)`, the summary `TechReportTotals` is about |
| ReportCounts.PositiveNegativeOf | NewBoosteroidCode/telegramFunctions/telegramReport/telegramReport.py:113-121 | an empty Reaction select raises |
| ReportCounts.PositiveNegativeBound | NewBoosteroidCode/telegramFunctions/telegramReport/telegramReport.py:113-121 | plus + minus counts the 👍/👎 pages only and is at most the number of pages |
| ReportCounts.PositiveNegativeReport | NewBoosteroidCode/telegramFunctions/telegramReport/telegramReport.py:102-121 | the loop's result is `PositiveNegativeOf(results)`, bounded by `PositiveNegativeBound` |
| ReportCounts.YoutubeReportOf | NewBoosteroidCode/telegramFunctions/telegramReport/telegramReport.py:137-159 | with no database, total and all four author counts are 0 |
| ReportCounts.YoutubeAuthorsBound | NewBoosteroidCode/telegramFunctions/telegramReport/telegramReport.py:151-158 | the author counts sum to at most the total |
| ReportCounts.YoutubeCommentsReport | NewBoosteroidCode/telegramFunctions/telegramReport/telegramReport.py:136-159 | the loop's result is `YoutubeReportOf(results)`, bounded by `YoutubeAuthorsBound` |
| Calendar.DaysInMonth | NewBoosteroidCode/telegramFunctions/telegramReport/telegramReport.py:440-445 | months have 28 to 31 days; February has 29 exactly in leap years |
| Calendar.Instant | NewBoosteroidCode/telegramFunctions/telegramReport/telegramReport.py:365-395 | an instant is the date's day and time of day |
| Calendar.Weekday | NewBoosteroidCode/telegramFunctions/telegramReport/telegramReport.py:436 | a weekday is 0 (Monday) to 6 |
| ReportSchedule.ReportWindow | NewBoosteroidCode/telegramFunctions/telegramReport/telegramReport.py:363-395 | every window has start <= end; weekly, monthly and other windows end at now |
| ReportSchedule.NightWindowSpansTheNight | NewBoosteroidCode/telegramFunctions/telegramReport/telegramReport.py:364-368 | the night window runs yesterday 17:00 to today 04:00 |
| ReportSchedule.DayWindowSpansTheDay | NewBoosteroidCode/telegramFunctions/telegramReport/telegramReport.py:371-375 | the day window runs today 04:00 to 17:00 |
| ReportSchedule.ShiftsTile | NewBoosteroidCode/telegramFunctions/telegramReport/telegramReport.py:364-377 | night and day windows meet end to start |
| ReportSchedule.RollingWindows | NewBoosteroidCode/telegramFunctions/telegramReport/telegramReport.py:378-395 | weekly spans 7 days, monthly starts on day 1 at 00:00, any other type spans one day |
| ReportSchedule.MonthStart | NewBoosteroidCode/telegramFunctions/telegramReport/telegramReport.py:386 | the month start is day 1 at 00:00, at or before now |
| ReportSchedule.SecondsUntil | NewBoosteroidCode/telegramFunctions/telegramReport/telegramReport.py:420-423 | the wait is never negative and reaches the target |
| ReportSchedule.DailyNextRun | NewBoosteroidCode/telegramFunctions/telegramReport/telegramReport.py:428-432 | the next run is at the target time, after now and within one day |
| ReportSchedule.WeeklyNextRun | NewBoosteroidCode/telegramFunctions/telegramReport/telegramReport.py:433-439 | the next run is a Monday at the target time, after now and within 7 days |
| ReportSchedule.MonthlyNextRun | NewBoosteroidCode/telegramFunctions/telegramReport/telegramReport.py:440-445 | the next run is day 1 of the following month at the target time |
| ReportSchedule.MonthlyRollover | NewBoosteroidCode/telegramFunctions/telegramReport/telegramReport.py:442-445 | December rolls over to January of the next year |
| ReportSchedule.NextRun | NewBoosteroidCode/telegramFunctions/telegramReport/telegramReport.py:425-445 | a next run exists exactly for the four known types, and it is after now |
| ReportSchedule.ShiftReportFiresAtWindowEnd | NewBoosteroidCode/telegramFunctions/telegramReport/telegramReport.py:456-457 | a shift report fires when its window ends |
| ReportText.CountLines | NewBoosteroidCode/telegramFunctions/telegramReport/telegramReport.py:282-283 | one "name: count" line per counter, in order |
| ReportText.NoDataDigest | NewBoosteroidCode/telegramFunctions/telegramReport/telegramReport.py:276-277 | "Нет данных." appears exactly when the total is 0, and then there are no status or shift lines |
| ReportText.DigestShowsStatusesAndShift | NewBoosteroidCode/telegramFunctions/telegramReport/telegramReport.py:279-290 | with issues, the five status lines follow in order, and a named shift's work line appears |
| ReportText.AuthorBreakdown | NewBoosteroidCode/telegramFunctions/telegramReport/telegramReport.py:295-298 | the author line appears exactly when the YouTube total is positive, and shows every author's count |
| ReportText.NotEnoughDataIffAllZero | NewBoosteroidCode/telegramFunctions/telegramReport/telegramReport.py:304-305 | "Недостаточно данных для отчета." appears exactly when all five counts are 0, and then it comes last |
| ReportText.AppendCountLines | NewBoosteroidCode/telegramFunctions/telegramReport/telegramReport.py:282-283 | the loop appends the counter lines |
| ReportText.AppendTechLines | NewBoosteroidCode/telegramFunctions/telegramReport/telegramReport.py:276-290 | the lines gain exactly `TechLines(d)`: the help count, the five status lines, the totals and the shift line |
| ReportText.FormatReport | NewBoosteroidCode/telegramFunctions/telegramReport/telegramReport.py:269-306 | the text is the digest lines joined by newlines |
| ReportText.SectionShowsEveryField | NewBoosteroidCode/telegramFunctions/telegramReport/telegramReport.py:320-328 | a section shows every field of every entry |
| ReportText.DetailShowsEveryField | NewBoosteroidCode/telegramFunctions/telegramReport/telegramReport.py:308-358 | the export shows every field of every entry of all four sections |
| ReportText.WriteRecord | NewBoosteroidCode/telegramFunctions/telegramReport/telegramReport.py:323-325 | the text is `RecordText(record)`: one "key: value" line per field, in field order, each of which `RecordTextContains` shows present |
| ReportText.WriteSection | NewBoosteroidCode/telegramFunctions/telegramReport/telegramReport.py:320-328 | the loop writes one section, "Нет данных." when empty |
| ReportText.CreateDetailedReport | NewBoosteroidCode/telegramFunctions/telegramReport/telegramReport.py:316-357 | the text is `DetailText` of the four sections, the text `DetailShowsEveryField` is about |
| ReportSend.QueryWindow | NewBoosteroidCode/telegramFunctions/telegramReport/telegramReport.py:53-56 | an unknown database raises; results are at most 100 pages within the window |
| ReportSend.CommentsCountedFromIssuesAsWritten | NewBoosteroidCode/telegramFunctions/telegramReport/telegramReport.py:96 | as written, for an issue database id without "T" the comments query hits the issue database |
| ReportSend.CommentCount | NewBoosteroidCode/telegramFunctions/telegramReport/telegramReport.py:88-100 | as written, the comment count queries the id derived from the issue database id and fails exactly when that id is unknown |
| ReportSend.CommentCountIgnoresIssues | NewBoosteroidCode/telegramFunctions/telegramReport/telegramReport.py:88-100 | the corrected count, read from the database the comment mirror writes, does not depend on the issue database |
| ReportSend.ShiftName | NewBoosteroidCode/telegramFunctions/telegramReport/telegramReport.py:369-376 | a shift name exists exactly for night and day |
| ReportSend.DigestFor | NewBoosteroidCode/telegramFunctions/telegramReport/telegramReport.py:363-404 | the digest carries the type, the period, the total of the issue query, the comment count as written, and a zero YouTube total when unset; any error is a gathering error |
| ReportSend.CommentsEqualIssuesAsWritten | NewBoosteroidCode/telegramFunctions/telegramReport/telegramReport.py:88-100 | as written, a digest for a Notion issue database id reports as many forum comments as issues |
| ReportSend.ShiftWorkIsTotal | NewBoosteroidCode/telegramFunctions/telegramReport/telegramReport.py:369-377 | the shift work is the number of issues in the window |
| ReportSend.DigestBuilt | NewBoosteroidCode/telegramFunctions/telegramReport/telegramReport.py:400-404 | with the issue, derived comments and analytics databases known and their counted selects filled, the digest is built |
| ReportSend.GatherDigest | NewBoosteroidCode/telegramFunctions/telegramReport/telegramReport.py:363-404 | the result is `DigestFor`, with the queries run in the order of the source |
| ReportSend.DetailFor | NewBoosteroidCode/telegramFunctions/telegramReport/telegramReport.py:308-358 | the export reads the comments section from the derived id and the records with the code's readers; a failure is a gathering error or an empty Profile, and success means the databases exist |
| ReportSend.SectionFailures | NewBoosteroidCode/telegramFunctions/telegramReport/telegramReport.py:161-264 | issue and comment sections fail only on an unknown database |
| ReportSend.YoutubeFailures | NewBoosteroidCode/telegramFunctions/telegramReport/telegramReport.py:190-216 | a YouTube section fails only on an empty Profile or Author select |
| ReportSend.AnalyticsFailures | NewBoosteroidCode/telegramFunctions/telegramReport/telegramReport.py:243-264 | an analytics section fails only on an empty Reaction select |
| ReportSend.CreateDetailedReportFile | NewBoosteroidCode/telegramFunctions/telegramReport/telegramReport.py:308-358 | the result is `DetailFor`, with each section read by `ReadSection` |
| ReportSend.Delivered | NewBoosteroidCode/telegramFunctions/telegramReport/telegramReport.py:406-416 | the text is sent first; the document only after it and only when the export succeeded; a failure stops the rest and is only logged |
| ReportSend.Deliver | NewBoosteroidCode/telegramFunctions/telegramReport/telegramReport.py:406-416 | the outbox gains exactly the delivered messages |
| ReportSend.SendReport | NewBoosteroidCode/telegramFunctions/telegramReport/telegramReport.py:363-416 | a gathering error sends nothing; otherwise the outbox gains the digest text, then the export |
| App.IgnoredUsers | NewBoosteroidCode/main.py:39 | the list has at least one entry and no entry holds a comma; unset gives [""] |
| App.IgnoredUsersRoundTrip | NewBoosteroidCode/main.py:39 | a comma-joined list of names reads back as those names |
| App.Route | NewBoosteroidCode/main.py:58-62 | text goes to the email handler exactly when "pending_email_page" is in the user data |
| App.WriteEffect | NewBoosteroidCode/main.py:93-99 | a blank message changes nothing; the buffer never gains a newline; emitting empties the buffer |
| App.WriteKeepsText | NewBoosteroidCode/main.py:95-99 | nothing accepted is lost: the emitted lines and the buffer make up the old buffer and the message |
| App.PrintedLinesMergeAsWritten | NewBoosteroidCode/main.py:93-94 | as written, the newline a print writes is dropped and the line stays buffered |
| App.PrintEmitsLine | NewBoosteroidCode/main.py:93-99 | with newlines let through, each printed line is emitted when it ends |
| App.FlushEffect | NewBoosteroidCode/main.py:100-103 | a non-empty buffer is emitted once and emptied; an empty buffer emits nothing |
| App.FlushIdempotent | NewBoosteroidCode/main.py:100-103 | a second flush emits nothing |
| App.LoggerWriter.Write | NewBoosteroidCode/main.py:93-99 | the buffer and the emitted lines change as `WriteEffect` says, keeping the buffer free of newlines |
| App.LoggerWriter.WriteKeepingNewlines | NewBoosteroidCode/main.py:93-99 | the corrected write, as `WriteEffectKeepingNewlines` says |
| App.LoggerWriter.EmitLines | NewBoosteroidCode/main.py:97-98 | the lines are emitted in order |
| App.LoggerWriter.Flush | NewBoosteroidCode/main.py:100-103 | the buffer and the emitted lines change as `FlushEffect` says |
| Text.SplitLines | NewBoosteroidCode/main.py:97 | no line holds a line break; empty text gives no lines |
| Text.SplitLinesRoundTrip | NewBoosteroidCode/main.py:97 | joining the lines, each with a newline, restores newline-terminated text |

## Left out

- Network clients (asyncpraw, notion_client, aiohttp, the Telegram and Discord libraries), SSL setup and sessions: they become the store, the outbox and the sequences above.
- Concurrency and long-running control (`asyncio` tasks, `gather`, `sleep`, the `while True` loops, `periodic_task`, the Discord thread): one pass or one event is modelled, because their interleaving does not change the rules.
- The clock, `uuid4` and time zones: instants are integer seconds and calendar fields, request ids are parameters, and the local-time-with-"Z" mix of `send_report` is not modelled.
- `strftime` and `isoformat` rendering: the rendered strings are parameters (`stamp`, `isoformat`, `iso`).
- `seconds_until` returns float seconds; the model uses integer seconds.
- The export file's name, its timestamp and the file itself: only the text written to it is modelled.
- `load_dotenv`, `os.getenv` and the logging configuration: settings are parameters (`Config`, the database ids, `IGNORED_USERS` as an optional string), and a log record is a string added to `emitted`.
- The interactive status, email and flair menus and the YouTube-comment wizard of `changeStatus` are not part of this model; `unified_message_handler` is modelled only as far as its routing.
- Notion filter syntax: a query is modelled as the filter's meaning (date window, id match, staleness), applied in store order, with the 100-page first page that the code never paginates past.
- Exceptions raised by the network or the store are the caller's answers: delivery and acceptance flags passed to each operation. Where the source has no `try` around the call, a refusal ends the run: a refused comment create ends the comment scan with `CreateRefused`, and a refused stale update ends the sweep.
- RedditToNotion.RemoveEmojis: `\w` is taken as ASCII letters, digits and `_`, while Python's `\w` is Unicode, so a shortcode in another script such as `:привет:` is kept by the model and removed by the source.
- RedditToNotion.CleanFlair: `lower` and `\w` are ASCII-only, so a flair with non-ASCII letters or shortcodes can be cleaned differently from the source.
- RedditToNotion.ScanFlairKey: the same ASCII `lower` and `\w` as `CleanFlair`.
- RedditToTelegram.Classify: `isalnum` is ASCII-only, so a last link part in another script, which Python counts as alphanumeric, is not read as a comment id.
- RedditToNotion.CheckModeratorComments: a failing `post.load`, comment listing or Notion update inside the moderator check is not modelled; every reply's update is taken to succeed.
- RedditToNotion.UpdateNotionWithModeratorComment: a failing query or update is not modelled (the stream loop of `scan_moderator_comments` has no `try`).
- Notion.DateProp: every stored date is the integer instant rather than the ISO string the source writes. This applies to RedditToNotion.PostPage, RedditCommentsToNotion.CommentPage, RedditToTelegram.ReactionPage and CommunityHelper.HelpRequestPage.
- ReportSend.DigestFor: the shift work count is taken from the same query as the issue total, which the source runs twice on the same window.

## Findings

| source | as written | input that shows it | evidently intended | confidence | as-written member | corrected member |
|---|---|---|---|---|---|---|
| NewBoosteroidCode/telegramFunctions/telegramReport/telegramReport.py:180 | the export reads Platform, a select property, with `extract_rich_text` | any filed issue, such as a Reddit post page with Platform "Reddit" | the export shows the platform name | not executed | ReportData.PlatformLostAsWritten | ReportData.TechRecordShowsPlatform |
| NewBoosteroidCode/telegramFunctions/telegramReport/telegramReport.py:260 | the export reads the analytics Title, a title property, with `extract_rich_text` | any stored reaction, such as one on a post titled "Lag" | the export shows the reacted post's title | not executed | ReportData.TitleLostAsWritten | ReportData.ReactionRecordRoundTrip |
| NewBoosteroidCode/telegramFunctions/telegramReport/telegramReport.py:96 | the comments database id is derived by replacing "TechnicalIssues" in the issue database id | an issue database id given as a hex Notion id, which has no "TechnicalIssues" in it | the comments count and export query the comments database that the mirror writes to (`NOTION_REDDIT_COMMENTS_DB`) | not executed | ReportSend.CommentsCountedFromIssuesAsWritten | ReportSend.CommentCountIgnoresIssues |
| NewBoosteroidCode/telegramFunctions/redditToTelegram/redditToTelegram.py:73 | a link with more than 7 parts and an alphanumeric last part is read as a comment | `https://www.reddit.com/r/BoosteroidCommunity/comments/abc123/lag/`, a post link whose slug is "lag" | only a link with a comment id (nine parts) is read as a comment | not executed | RedditToTelegram.PostLinkTakenForComment | RedditToTelegram.SubmissionLinkRead |
| NewBoosteroidCode/main.py:94 | `write` ignores every blank message, including the "\n" that `print` writes by itself | `print("a")` then `print("b")`: nothing is logged, and the buffer holds "ab" | each printed line becomes one log record | not executed | App.PrintedLinesMergeAsWritten | App.PrintEmitsLine |
