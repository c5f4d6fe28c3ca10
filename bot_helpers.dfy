/** The update context the middlewares look at, and the four predicates
    of src/helpers/bot-helpers.js over it. A field that may be missing in
    the update is an `Option`, or `Null` for a JSON value. */
module BotHelpers {
  import opened Js

  /** `ctx.from` */
  datatype Sender = Sender(isBot: Value, firstName: Value, lastName: Value, username: Value, languageCode: Value)

  /** `ctx.chat`; the id is a number, which is falsy when it is 0. */
  datatype Chat = Chat(id: int, chatType: string)

  /** `ctx.message` */
  datatype Message = Message(messageId: int, text: Option<string>, caption: Option<string>,
                             newChatParticipant: Value)

  /** The parts of a Telegraf context the middlewares read. A callback
      query, for one, has no `message`. */
  datatype Context = Context(chat: Option<Chat>, from: Option<Sender>, message: Option<Message>)

  /** `ctx.from?.is_bot`: only an update with a sender whose flag is
      truthy is taken for a bot's; an update without a sender never is. */
  function IsBot(ctx: Context): (v: Value)
    ensures Truthy(v) ==> ctx.from.Some? && Truthy(ctx.from.value.isBot)
    ensures ctx.from.Some? && Truthy(ctx.from.value.isBot) ==> Truthy(v)
  {
    match ctx.from
    case None => Null
    case Some(sender) => sender.isBot
  }

  /** `ctx.chat?.type === "private"`: a private chat is a known chat that
      is not a group. */
  predicate IsPrivateChat(ctx: Context)
    ensures IsPrivateChat(ctx) ==> ctx.chat.Some? && ctx.chat.value.chatType !in {"group", "supergroup"}
  {
    ctx.chat.Some? && ctx.chat.value.chatType == "private"
  }

  /** `ctx.message?.new_chat_participant`: only a message can announce a
      new participant, so a callback query never counts as a join. */
  function CheckIfNewUser(ctx: Context): (v: Value)
    ensures Truthy(v) ==> ctx.message.Some? && Truthy(ctx.message.value.newChatParticipant)
    ensures ctx.message.Some? && Truthy(ctx.message.value.newChatParticipant) ==> Truthy(v)
  {
    match ctx.message
    case None => Null
    case Some(m) => m.newChatParticipant
  }

  /** `ctx.chat?.type === "group" || ctx.chat?.type === "supergroup"`: a
      group is a known chat that is not private. */
  predicate CheckGroupChat(ctx: Context)
    ensures CheckGroupChat(ctx) ==> ctx.chat.Some? && ctx.chat.value.chatType != "private"
  {
    ctx.chat.Some? && (ctx.chat.value.chatType == "group" || ctx.chat.value.chatType == "supergroup")
  }

  /** A chat is never both private and a group; a missing chat and any
      other chat type (a channel, say) are neither. */
  lemma ChatKindsExclusive(ctx: Context)
    ensures !(IsPrivateChat(ctx) && CheckGroupChat(ctx))
    ensures IsPrivateChat(ctx) || CheckGroupChat(ctx) <==>
              ctx.chat.Some? && ctx.chat.value.chatType in {"private", "group", "supergroup"}
  {
  }
}
