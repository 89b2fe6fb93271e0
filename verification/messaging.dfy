/**
 * The chat side of the bot: messages it posts to the support team's Telegram
 * chat and direct messages it sends to Discord users. Delivery can fail (network,
 * unknown chat, closed DMs); whether a send went through is a parameter.
 */
module Messaging {

  /** Where a message goes. */
  datatype Channel = TelegramChat | DiscordDirect(user: string)

  /** A text message, or a document (the detailed report file) given by its contents. */
  datatype Message = TextMessage(channel: Channel, text: string) | DocumentMessage(channel: Channel, content: string)

  /** The messages that reached their channel, in the order they were sent. */
  class Outbox {
    var sent: seq<Message>

    constructor ()
      ensures sent == []
    {
      sent := [];
    }

    /** One send; a failed delivery leaves no trace. */
    method Send(m: Message, delivered: bool)
      modifies this
      ensures sent == old(sent) + (if delivered then [m] else [])
    {
      if delivered {
        sent := sent + [m];
      }
    }
  }
}
