/** src/middlewares/messageLoggerMiddleware.js: the audit log of a private
    conversation. The incoming message is stored, then `ctx.reply` and
    `ctx.editMessageText` are replaced by wrappers that store what the bot
    sends or edits, and the chain goes on. The `Msg` collection is a
    sequence of records; whether the platform call and the database write
    succeed are inputs. */
module MessageLogger {
  import opened Js
  import opened BotHelpers
  import opened AuthMiddleware

  /** The `type` of a stored message. The schema's default, `text`, is
      also what a record first inserted by an upsert carries. */
  datatype MsgType = Command | TextType | Other

  /** A `Msg` document. */
  datatype Record = Record(userId: string, messageId: int, chatId: string, content: string,
                           isBot: bool, kind: MsgType)

  /** A message as the platform returns it from `sendMessage` or
      `editMessageText`. */
  datatype Sent = Sent(messageId: int, chatId: int, text: Option<string>)

  const NonTextMessage: string := "[Non-text message]"
  const NonTextReply: string := "[Non-text reply]"
  const EditedContent: string := "[Edited Content]"
  const NotModified: string := "message is not modified"

  /** A string field that is present and not empty, as `||` sees it. */
  predicate Present(s: Option<string>)
  {
    s.Some? && s.value != ""
  }

  /** `ctx.message.text || ctx.message.caption || "[Non-text message]"`:
      a stored message is never empty; it is the message's own text when
      it has one, and otherwise its caption or the placeholder. */
  function IncomingContent(m: Message): (content: string)
    ensures content != ""
    ensures Present(m.text) ==> content == m.text.value
    ensures (Present(m.text) && content == m.text.value) || (Present(m.caption) && content == m.caption.value)
            || content == NonTextMessage
  {
    if Present(m.text) then m.text.value
    else if Present(m.caption) then m.caption.value
    else NonTextMessage
  }

  /** `text ? (text.startsWith("/") ? "command" : "text") : "other"`.
      The type agrees with the stored content: a command or a text record
      stores the message's own text, and exactly the commands start with
      "/"; a captioned message is `other` even when its caption starts
      with "/". */
  function IncomingType(m: Message): (t: MsgType)
    ensures t != Other <==> Present(m.text)
    ensures t != Other ==> IncomingContent(m) == m.text.value
    ensures t == Command <==> t != Other && StartsWith(IncomingContent(m), "/")
    ensures t == Other && Present(m.caption) ==> IncomingContent(m) == m.caption.value
  {
    if Present(m.text) then (if StartsWith(m.text.value, "/") then Command else TextType) else Other
  }

  /** `ctx.state.user?._id` */
  function MongoUserId(user: Option<UserRecord>): (id: Option<string>)
    ensures id.Some? <==> user.Some?
  {
    match user
    case None => None
    case Some(u) => Some(u.id)
  }

  /** The record stored for the incoming update, if any: only a message
      in a private chat with a known user and a non-zero chat id is
      stored; callback queries and group traffic never are. */
  function IncomingEntry(ctx: Context, userId: Option<string>): (r: Option<Record>)
    ensures r.Some? <==> IsPrivateChat(ctx) && userId.Some? && ctx.chat.value.id != 0 && ctx.message.Some?
    ensures r.Some? ==> && r.value.userId == userId.value
                        && r.value.messageId == ctx.message.value.messageId
                        && r.value.chatId == IntToString(ctx.chat.value.id)
                        && r.value.content == IncomingContent(ctx.message.value)
                        && r.value.kind == IncomingType(ctx.message.value)
                        && !r.value.isBot
  {
    if IsPrivateChat(ctx) && userId.Some? && ctx.chat.value.id != 0 && ctx.message.Some? then
      var m := ctx.message.value;
      Some(Record(userId.value, m.messageId, IntToString(ctx.chat.value.id), IncomingContent(m), false, IncomingType(m)))
    else None
  }

  /** `typeof args[0] === "string" ? args[0] : "[Non-text reply]"` */
  function ReplyContent(arg: Value): string
  {
    if arg.Str? then arg.s else NonTextReply
  }

  /** `typeof args[0] === "string" ? args[0] : message.text || "[Edited Content]"` */
  function EditContent(arg: Value, sent: Sent): string
  {
    if arg.Str? then arg.s else if Present(sent.text) then sent.text.value else EditedContent
  }

  /** The position of the first record with this message id and chat id. */
  function FindRecord(records: seq<Record>, messageId: int, chatId: string): (i: Option<nat>)
    ensures i.Some? ==> i.value < |records| && records[i.value].messageId == messageId
                        && records[i.value].chatId == chatId
    ensures i.Some? ==> forall k :: 0 <= k < i.value ==>
                          !(records[k].messageId == messageId && records[k].chatId == chatId)
    ensures i.None? ==> forall k :: 0 <= k < |records| ==>
                          !(records[k].messageId == messageId && records[k].chatId == chatId)
  {
    if records == [] then None
    else if records[0].messageId == messageId && records[0].chatId == chatId then Some(0)
    else match FindRecord(records[1..], messageId, chatId)
      case None => None
      case Some(i) => Some(i + 1)
  }

  /** `Msg.findOneAndUpdate({messageId, chatId}, {userId, content, isBot: true}, {upsert: true})`:
      the first record with the key is updated in place, or a new one is
      added with the schema's default type. */
  function Upsert(records: seq<Record>, messageId: int, chatId: string, userId: string, content: string)
    : (out: seq<Record>)
    ensures FindRecord(records, messageId, chatId).Some? ==> |out| == |records|
    ensures FindRecord(records, messageId, chatId).None? ==> |out| == |records| + 1
    ensures FindRecord(records, messageId, chatId).None? ==>
              out == records + [Record(userId, messageId, chatId, content, true, TextType)]
  {
    match FindRecord(records, messageId, chatId)
    case None => records + [Record(userId, messageId, chatId, content, true, TextType)]
    case Some(i) => records[i := records[i].(userId := userId, content := content, isBot := true)]
  }

  /** No two records share a message id and a chat id. */
  predicate UniqueKeys(records: seq<Record>)
  {
    forall i, j :: 0 <= i < j < |records| ==>
      !(records[i].messageId == records[j].messageId && records[i].chatId == records[j].chatId)
  }

  /** After an upsert the key holds exactly one record, which carries the
      new content and is marked as the bot's; all other records are
      untouched; and keys stay unique. */
  lemma UpsertProperties(records: seq<Record>, messageId: int, chatId: string, userId: string, content: string)
    requires UniqueKeys(records)
    ensures var out := Upsert(records, messageId, chatId, userId, content);
            && UniqueKeys(out)
            && FindRecord(out, messageId, chatId).Some?
            && out[FindRecord(out, messageId, chatId).value].content == content
            && out[FindRecord(out, messageId, chatId).value].userId == userId
            && out[FindRecord(out, messageId, chatId).value].isBot
            && forall k :: 0 <= k < |records| && !(records[k].messageId == messageId && records[k].chatId == chatId)
                 ==> out[k] == records[k]
  {
    var out := Upsert(records, messageId, chatId, userId, content);
    var found := FindRecord(records, messageId, chatId);
    if found.Some? {
      FindFirst(out, messageId, chatId, found.value);
    } else {
      FindFirst(out, messageId, chatId, |records|);
    }
  }

  /** `FindRecord` answers the first position holding the key. */
  lemma {:induction false} FindFirst(records: seq<Record>, messageId: int, chatId: string, i: nat)
    requires i < |records| && records[i].messageId == messageId && records[i].chatId == chatId
    requires forall k :: 0 <= k < i ==> !(records[k].messageId == messageId && records[k].chatId == chatId)
    ensures FindRecord(records, messageId, chatId) == Some(i)
    decreases i
  {
    if i > 0 {
      FindFirst(records[1..], messageId, chatId, i - 1);
    }
  }

  /** The `Msg` collection. */
  class MessageStore {
    var records: seq<Record>

    constructor (records: seq<Record>)
      ensures this.records == records
    {
      this.records := records;
    }
  }

  /** The context as handed on to `next`, with its two wrapped methods.
      `errorsLogged` counts `logger.error` calls. */
  class LoggedContext {
    const isPrivateChat: bool
    const mongoUserId: Option<string>
    const store: MessageStore
    var errorsLogged: nat

    constructor (isPrivateChat: bool, mongoUserId: Option<string>, store: MessageStore, errorsLogged: nat)
      ensures this.isPrivateChat == isPrivateChat && this.mongoUserId == mongoUserId
      ensures this.store == store && this.errorsLogged == errorsLogged
    {
      this.isPrivateChat, this.mongoUserId, this.store := isPrivateChat, mongoUserId, store;
      this.errorsLogged := errorsLogged;
    }

    /** Whether what the bot sends or edits is logged. */
    predicate LogsOutgoing()
    {
      isPrivateChat && mongoUserId.Some?
    }

    /** The wrapped `ctx.reply(arg, ...)`: `platform` is how the original
        `reply` ends and `storeFails` whether `Msg.create` throws. The
        platform's answer is returned unchanged, whatever the logging does. */
    method Reply(arg: Value, platform: Outcome<Sent>, storeFails: bool) returns (r: Outcome<Sent>)
      modifies this, store
      ensures r == platform
      ensures platform.Returned? && LogsOutgoing() && !storeFails ==>
                store.records == old(store.records) + [Record(mongoUserId.value, platform.value.messageId,
                                   IntToString(platform.value.chatId), ReplyContent(arg), true, TextType)]
      ensures !(platform.Returned? && LogsOutgoing() && !storeFails) ==> store.records == old(store.records)
      ensures errorsLogged == old(errorsLogged)
                + (if platform.Threw? || (LogsOutgoing() && storeFails) then 1 else 0)
    {
      if platform.Threw? {
        errorsLogged := errorsLogged + 1;
        return platform;
      }
      var message := platform.value;
      var content := if arg.Str? then arg.s else NonTextReply;
      if isPrivateChat && mongoUserId.Some? {
        if storeFails {
          errorsLogged := errorsLogged + 1;
        } else {
          store.records := store.records + [Record(mongoUserId.value, message.messageId,
                                                   IntToString(message.chatId), content, true, TextType)];
        }
      }
      return platform;
    }

    /** The wrapped `ctx.editMessageText(arg, ...)`: `platform` is how the
        original ends, failing with the error's description. "Message is
        not modified" failures are swallowed and give `undefined` (`None`);
        every other failure is logged and rethrown. */
    method EditMessageText(arg: Value, platform: Outcome<Sent>, storeFails: bool) returns (r: Outcome<Option<Sent>>)
      modifies this, store
      ensures platform.Returned? ==> r == Returned(Some(platform.value))
      ensures platform.Threw? && Includes(platform.message, NotModified) ==> r == Returned(None)
      ensures platform.Threw? && !Includes(platform.message, NotModified) ==> r == Threw(platform.message)
      ensures platform.Returned? && LogsOutgoing() && !storeFails ==>
                store.records == Upsert(old(store.records), platform.value.messageId, IntToString(platform.value.chatId),
                                        mongoUserId.value, EditContent(arg, platform.value))
      ensures !(platform.Returned? && LogsOutgoing() && !storeFails) ==> store.records == old(store.records)
      ensures errorsLogged == old(errorsLogged)
                + (if platform.Threw? && !Includes(platform.message, NotModified) then 1
                   else if platform.Returned? && LogsOutgoing() && storeFails then 1 else 0)
    {
      if platform.Threw? {
        if platform.message != "" && Includes(platform.message, NotModified) {
          return Returned(None);
        }
        errorsLogged := errorsLogged + 1;
        return Threw(platform.message);
      }
      var message := platform.value;
      if isPrivateChat && mongoUserId.Some? {
        if storeFails {
          errorsLogged := errorsLogged + 1;
        } else {
          var content := if arg.Str? then arg.s else if Present(message.text) then message.text.value else EditedContent;
          store.records := Upsert(store.records, message.messageId, IntToString(message.chatId),
                                  mongoUserId.value, content);
        }
      }
      return Returned(Some(message));
    }
  }

  /** `messageLoggerMiddleware(ctx, next)`: store the incoming message
      (a failure is only logged), wrap the two methods, then call `next`
      exactly once. */
  method MessageLoggerMiddleware(ctx: Context, state: UpdateState, store: MessageStore, storeFails: bool)
    returns (wrapped: LoggedContext)
    modifies state, store
    ensures fresh(wrapped) && wrapped.store == store
    ensures wrapped.isPrivateChat == IsPrivateChat(ctx) && wrapped.mongoUserId == MongoUserId(state.user)
    ensures var entry := IncomingEntry(ctx, MongoUserId(old(state.user)));
            && store.records == old(store.records) + (if entry.Some? && !storeFails then [entry.value] else [])
            && wrapped.errorsLogged == (if entry.Some? && storeFails then 1 else 0)
    ensures state.nextCalls == old(state.nextCalls) + 1
    ensures state.user == old(state.user) && state.replies == old(state.replies)
  {
    var isPrivateChat := ctx.chat.Some? && ctx.chat.value.chatType == "private";
    var mongoUserId := MongoUserId(state.user);
    var errors := 0;
    if isPrivateChat && mongoUserId.Some? && ctx.chat.value.id != 0 {
      if ctx.message.Some? {
        var m := ctx.message.value;
        var content := if Present(m.text) then m.text.value else if Present(m.caption) then m.caption.value else NonTextMessage;
        var kind := if Present(m.text) then (if StartsWith(m.text.value, "/") then Command else TextType) else Other;
        if storeFails {
          errors := errors + 1;
        } else {
          store.records := store.records + [Record(mongoUserId.value, m.messageId,
                                                   IntToString(ctx.chat.value.id), content, false, kind)];
        }
      }
    }
    wrapped := new LoggedContext(isPrivateChat, mongoUserId, store, errors);
    state.nextCalls := state.nextCalls + 1;
  }
}
