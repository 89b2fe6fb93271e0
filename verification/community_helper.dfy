/**
 * The Discord side: the `/communityhelper` command, which relays a user's
 * request to the support chat, files it in the issue database and confirms it to
 * the user, and the mention watcher, which alerts the support chat when a
 * message mentions one of the moderators.
 */
module CommunityHelper {
  import opened Wrappers
  import opened Text
  import opened Notion
  import opened Messaging

  /** The account and display names that identify a moderator. */
  const ModeratorTags: seq<string> := ["[Mod] Alex", "[Mod] Artorias", "[Mod] Denys", "[Mod] Andrii",
    "artorias_the_one", "ggdeviant.", "bomboclat0109", "andrii4496"]

  /** A Discord user: the id that user equality compares, the account name and the name shown on the server. */
  datatype User = User(id: int, name: string, displayName: string)

  /** Where a message was posted: a server channel, or direct messages with the bot. */
  datatype Place = ServerChannel(channelName: string) | DirectMessages

  datatype DiscordMessage = DiscordMessage(author: User, place: Place, mentions: seq<User>, content: string)

  predicate IsModerator(u: User) {
    u.name in ModeratorTags || u.displayName in ModeratorTags
  }

  // ---------------------------------------------------------------- on_message

  /** The mentioned users who are moderators, in mention order. */
  function MentionedModerators(mentions: seq<User>): (mods: seq<User>)
    ensures |mods| <= |mentions|
    ensures forall u :: u in mods <==> u in mentions && IsModerator(u)
  {
    if mentions == [] then []
    else
      var n := |mentions| - 1;
      var rest := MentionedModerators(mentions[..n]);
      assert mentions == mentions[..n] + [mentions[n]];
      rest + (if IsModerator(mentions[n]) then [mentions[n]] else [])
  }

  function DisplayNames(users: seq<User>): (names: seq<string>)
    ensures |names| == |users| && forall k :: 0 <= k < |users| ==> names[k] == users[k].displayName
  {
    seq(|users|, k requires 0 <= k < |users| => users[k].displayName)
  }

  /** How an alert names the place: the channel, or "ЛС с <author>" for direct messages. */
  function AlertPlace(author: User, place: Place): string {
    match place
    case ServerChannel(name) => name
    case DirectMessages => "ЛС с " + author.name
  }

  function AlertText(msg: DiscordMessage, mods: seq<User>): string {
    "⚠️ " + msg.author.name + " упомянул " + Join(DisplayNames(mods), ", ") + " в " + AlertPlace(msg.author, msg.place) + ":\n" + msg.content
  }

  /** The alert a message raises: none for the bot's own messages or when no moderator is mentioned. */
  function Alert(botId: int, msg: DiscordMessage): (a: Option<string>)
    ensures a.Some? <==> msg.author.id != botId && exists u :: u in msg.mentions && IsModerator(u)
  {
    if msg.author.id == botId then None
    else
      var mods := MentionedModerators(msg.mentions);
      if mods == [] then None
      else
        assert mods[0] in mods;
        Some(AlertText(msg, mods))
  }

  /** An alert quotes the message and names every moderator it mentions by display name. */
  lemma AlertNamesEveryModerator(botId: int, msg: DiscordMessage, u: User)
    requires Alert(botId, msg).Some? && u in msg.mentions && IsModerator(u)
    ensures Contains(Alert(botId, msg).value, u.displayName)
    ensures Contains(Alert(botId, msg).value, msg.content)
  {
    var mods := MentionedModerators(msg.mentions);
    var k :| 0 <= k < |mods| && mods[k] == u;
    var names := Join(DisplayNames(mods), ", ");
    JoinContains(DisplayNames(mods), ", ", k);
    var head := "⚠️ " + msg.author.name + " упомянул ";
    var tail := " в " + AlertPlace(msg.author, msg.place) + ":\n" + msg.content;
    assert Alert(botId, msg).value == head + (names + tail);
    assert Contains(names + tail, u.displayName) by {
      ContainsAppended(names, tail, u.displayName);
    }
    ContainsPrefixed(head, names + tail, u.displayName);
    var front := head + names + " в " + AlertPlace(msg.author, msg.place) + ":\n";
    assert Alert(botId, msg).value == front + msg.content + "";
    ContainsMiddle(front, msg.content, "");
  }

  // ---------------------------------------------------------------- communityhelper

  /** How a request names its place: the channel, or "Личные сообщения с <author>" for direct messages. */
  function RequestPlace(author: User, place: Place): string {
    match place
    case ServerChannel(name) => name
    case DirectMessages => "Личные сообщения с " + author.name
  }

  function RelayText(author: User, place: Place, text: string, requestId: string): string {
    "📢 " + author.name + " (" + RequestPlace(author, place) + ") отправил сообщение:\n" + text + "\n\n🆔 Request ID: " + requestId
  }

  function ConfirmationText(text: string, requestId: string): string {
    "Your report has been sent to support!\n🆔 Request ID: " + requestId + "\nYour message text: " + text
    + "\nPlease wait for a response from the moderator and save the report ID"
  }

  /** `send_to_notion`'s page: a Discord help request in the queue. */
  function HelpRequestPage(username: string, description: string, requestId: string, now: int): (p: Page)
    ensures p.Keys == {"ID", "Date", "Title", "Username", "Platform", "Post Flair", "Description", "Status"}
    ensures IdOf(p) == requestId && StatusOf(p) == "In queue" && DateOf(p) == Some(now)
    ensures p["Title"] == RichTextProp(TextValue(description)) && p["Description"] == RichTextProp(TextValue(description))
    ensures p["Username"] == TitleProp(TextValue(username))
    ensures p["Platform"] == SelectProp(Some("Discord")) && p["Post Flair"] == SelectProp(Some("Help"))
  {
    assert ItemsPlainText(TextValue(requestId)) == requestId;
    map[
      "ID" := RichTextProp(TextValue(requestId)),
      "Date" := DateProp(Some(now)),
      "Title" := RichTextProp(TextValue(description)),
      "Username" := TitleProp(TextValue(username)),
      "Platform" := SelectProp(Some("Discord")),
      "Post Flair" := SelectProp(Some("Help")),
      "Description" := RichTextProp(TextValue(description)),
      "Status" := StatusProp("In queue")]
  }

  /**
   * One request id ties the three traces together: the relay and the
   * confirmation both quote it, the confirmation quotes the request text, and the
   * filed page carries it as its ID.
   */
  lemma RequestTraceable(author: User, place: Place, text: string, requestId: string, now: int)
    ensures Contains(RelayText(author, place, text, requestId), requestId)
    ensures Contains(ConfirmationText(text, requestId), requestId)
    ensures Contains(ConfirmationText(text, requestId), text)
    ensures Contains(RelayText(author, place, text, requestId), text)
    ensures IdOf(HelpRequestPage(author.name, text, requestId, now)) == requestId
  {
    RelayQuotes(author, place, text, requestId);
    ConfirmationQuotes(text, requestId);
  }

  lemma RelayQuotes(author: User, place: Place, text: string, requestId: string)
    ensures Contains(RelayText(author, place, text, requestId), requestId)
    ensures Contains(RelayText(author, place, text, requestId), text)
  {
    var relayHead := "📢 " + author.name + " (" + RequestPlace(author, place) + ") отправил сообщение:\n" + text + "\n\n🆔 Request ID: ";
    ContainsMiddle(relayHead, requestId, "");
    assert RelayText(author, place, text, requestId) == relayHead + requestId + "";
    var relayFront := "📢 " + author.name + " (" + RequestPlace(author, place) + ") отправил сообщение:\n";
    ContainsMiddle(relayFront, text, "\n\n🆔 Request ID: " + requestId);
    assert RelayText(author, place, text, requestId) == relayFront + text + ("\n\n🆔 Request ID: " + requestId);
  }

  lemma ConfirmationQuotes(text: string, requestId: string)
    ensures Contains(ConfirmationText(text, requestId), requestId)
    ensures Contains(ConfirmationText(text, requestId), text)
  {
    var confirmationTail := "\nYour message text: " + text + "\nPlease wait for a response from the moderator and save the report ID";
    ContainsMiddle("Your report has been sent to support!\n🆔 Request ID: ", requestId, confirmationTail);
    assert ConfirmationText(text, requestId) == "Your report has been sent to support!\n🆔 Request ID: " + requestId + confirmationTail;
    var confirmationFront := "Your report has been sent to support!\n🆔 Request ID: " + requestId + "\nYour message text: ";
    ContainsMiddle(confirmationFront, text, "\nPlease wait for a response from the moderator and save the report ID");
    assert ConfirmationText(text, requestId)
      == confirmationFront + text + "\nPlease wait for a response from the moderator and save the report ID";
  }

  /** Why a command stopped: the relay to the support chat or the filing raised. */
  datatype HelperFailure = RelayFailed | FilingFailed

  /** The bot's configuration: its own user id and the issue database it files requests in. */
  class DiscordBot {
    const botId: int
    const issues: Database

    constructor (botId: int, issues: Database)
      ensures this.botId == botId && this.issues == issues
    {
      this.botId := botId;
      this.issues := issues;
    }

    /**
     * `on_message`: raise the alert, then hand the message to the command
     * dispatcher. A failed alert raises, and the message is then not dispatched.
     */
    method OnMessage(outbox: Outbox, msg: DiscordMessage, delivered: bool) returns (dispatched: bool)
      modifies outbox
      ensures var a := Alert(botId, msg);
        && outbox.sent == old(outbox.sent) + (if a.Some? && delivered then [TextMessage(TelegramChat, a.value)] else [])
        && dispatched == (msg.author.id != botId && (a.None? || delivered))
    {
      if msg.author.id == botId {
        return false;
      }
      var mods := MentionedModerators(msg.mentions);
      if mods != [] {
        outbox.Send(TextMessage(TelegramChat, AlertText(msg, mods)), delivered);
        if !delivered {
          return false;
        }
      }
      dispatched := true;
    }

    /**
     * `/communityhelper text`: relay to the support chat, file the request, then
     * confirm by direct message. A failed relay or filing ends the command with
     * that error; a failed confirmation is only logged.
     */
    method CommunityHelperCommand(outbox: Outbox, author: User, place: Place, text: string, requestId: string, now: int,
                                  relayed: bool, filed: bool, confirmed: bool)
      returns (failure: Option<HelperFailure>)
      modifies outbox, issues
      ensures var relay := TextMessage(TelegramChat, RelayText(author, place, text, requestId));
        var confirmation := TextMessage(DiscordDirect(author.name), ConfirmationText(text, requestId));
        && (!relayed ==> failure == Some(RelayFailed) && outbox.sent == old(outbox.sent) && issues.pages == old(issues.pages))
        && (relayed && !filed ==> failure == Some(FilingFailed) && outbox.sent == old(outbox.sent) + [relay] && issues.pages == old(issues.pages))
        && (relayed && filed ==>
              && failure.None?
              && issues.pages == old(issues.pages) + [HelpRequestPage(author.name, text, requestId, now)]
              && outbox.sent == old(outbox.sent) + [relay] + (if confirmed then [confirmation] else []))
    {
      outbox.Send(TextMessage(TelegramChat, RelayText(author, place, text, requestId)), relayed);
      if !relayed {
        return Some(RelayFailed);
      }
      if !filed {
        return Some(FilingFailed);
      }
      issues.Create(HelpRequestPage(author.name, text, requestId, now));
      outbox.Send(TextMessage(DiscordDirect(author.name), ConfirmationText(text, requestId)), confirmed);
      failure := None;
    }
  }
}
