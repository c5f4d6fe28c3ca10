/** The two gates of src/middlewares/userAuthAndSetupMiddleware.js: the
    user gate that rejects bots and registers private-chat users, and the
    group gate that lets only plain text through in groups. The user
    collection is a map from chat id to user record; `newId` is the id the
    database gives a created record, and `fault` says which of the two
    database calls, if any, rejects. */
module AuthMiddleware {
  import opened Js
  import opened BotHelpers

  /** A stored user, as created from the first message of a private chat.
      The schema's `languageCode` is never filled: the created document
      carries the sender's language under the key `language_code`, which
      the schema does not declare, so strict mode drops it. */
  datatype UserRecord = UserRecord(id: string, chatId: int, firstName: Value, lastName: Value,
                                   username: Value, languageCode: Value)

  const BotRejection: string := "You are a bot, bots are not allowed"

  /** Which database call rejects: `User.findOne` (looking the chat up) or
      `User.create` (storing a new user), or neither. */
  datatype StoreFault = NoFault | FindRejects | CreateRejects

  /** What `createUserIfNotExists(ctx)` comes to: no chat id (it returns
      `undefined`), the stored user, a created user, or a rejection: a
      database call rejected, or the update carries no message (or no
      sender) to read the new user's details from, a `TypeError`. */
  datatype Lookup = NoChatId | Existing(user: UserRecord) | Created(user: UserRecord) | Crashed

  /** `createUserIfNotExists(ctx)` against the user collection `users`. */
  function GetOrCreate(users: map<int, UserRecord>, ctx: Context, newId: string, fault: StoreFault): (r: Lookup)
    requires ctx.chat.Some?
    ensures ctx.chat.value.id == 0 <==> r.NoChatId?
    ensures r.Existing? <==> ctx.chat.value.id != 0 && fault != FindRejects && ctx.chat.value.id in users
    ensures r.Existing? ==> r.user == users[ctx.chat.value.id]
    ensures r.Created? ==> ctx.chat.value.id !in users && fault.NoFault?
                           && ctx.from.Some?
                           && r.user == UserRecord(newId, ctx.chat.value.id, ctx.from.value.firstName,
                                                   ctx.from.value.lastName, ctx.from.value.username, Null)
    ensures r.Crashed? <==> ctx.chat.value.id != 0
                            && (fault == FindRejects
                                || (ctx.chat.value.id !in users
                                    && (ctx.message.None? || ctx.from.None? || fault == CreateRejects)))
  {
    var chatId := ctx.chat.value.id;
    if chatId == 0 then NoChatId
    else if fault.FindRejects? then Crashed
    else if chatId in users then Existing(users[chatId])
    else match (ctx.message, ctx.from)
      case (Some(_), Some(sender)) =>
        if fault.CreateRejects? then Crashed
        else Created(UserRecord(newId, chatId, sender.firstName, sender.lastName, sender.username, Null))
      case _ => Crashed
  }

  /** The collection after `GetOrCreate`. */
  function AfterGetOrCreate(users: map<int, UserRecord>, r: Lookup): map<int, UserRecord>
  {
    if r.Created? then users[r.user.chatId := r.user] else users
  }

  /** Get-or-create never alters or drops a stored user: it adds at most
      the record of the update's own chat, and afterwards the record it
      returns is the one stored under that chat. */
  lemma GetOrCreateKeepsUsers(users: map<int, UserRecord>, ctx: Context, newId: string, fault: StoreFault)
    requires ctx.chat.Some?
    ensures var r := GetOrCreate(users, ctx, newId, fault);
            var after := AfterGetOrCreate(users, r);
            && (forall k :: k in users ==> k in after && after[k] == users[k])
            && after.Keys <= users.Keys + {ctx.chat.value.id}
            && ((r.Existing? || r.Created?) ==> ctx.chat.value.id in after && after[ctx.chat.value.id] == r.user)
  {
  }

  /** Get-or-create is idempotent: once a user was created, the next
      update from the same chat finds that very record and creates none. */
  lemma GetOrCreateTwice(users: map<int, UserRecord>, ctx: Context, newId: string, laterId: string)
    requires ctx.chat.Some?
    requires GetOrCreate(users, ctx, newId, NoFault).Created? || GetOrCreate(users, ctx, newId, NoFault).Existing?
    ensures var r := GetOrCreate(users, ctx, newId, NoFault);
            GetOrCreate(AfterGetOrCreate(users, r), ctx, laterId, NoFault) == Existing(r.user)
  {
  }

  /** The three ways `userAuthAndSetupMiddleware` can go. */
  datatype UserGate = RejectBot(replies: bool) | PassWithoutUser | SetUpUser

  /** Bots first (with a reply only in a private chat), then every
      non-private chat passes without a user, and private chats set one up. */
  function UserGateOf(ctx: Context): UserGate
  {
    if Truthy(IsBot(ctx)) then RejectBot(IsPrivateChat(ctx))
    else if !IsPrivateChat(ctx) then PassWithoutUser
    else SetUpUser
  }

  /** `ctx.state.user`, the replies sent directly, and how often the
      middleware chain's `next` was called. */
  class UpdateState {
    var user: Option<UserRecord>
    var replies: seq<string>
    var nextCalls: nat

    constructor ()
      ensures user == None && replies == [] && nextCalls == 0
    {
      user, replies, nextCalls := None, [], 0;
    }
  }

  /** The user collection. */
  class UserStore {
    var users: map<int, UserRecord>

    constructor (users: map<int, UserRecord>)
      ensures this.users == users
    {
      this.users := users;
    }
  }

  /** `userAuthAndSetupMiddleware(ctx, next)`; `threw` tells that the
      middleware rejected, because a database call rejected or because of
      the `TypeError` of a missing message. */
  method UserAuthAndSetupMiddleware(ctx: Context, state: UpdateState, store: UserStore, newId: string,
                                    fault: StoreFault)
    returns (threw: bool)
    modifies state, store
    ensures var g := UserGateOf(ctx);
            && (g.RejectBot? ==> !threw && state.nextCalls == old(state.nextCalls)
                                 && state.replies == old(state.replies) + (if g.replies then [BotRejection] else [])
                                 && state.user == old(state.user) && store.users == old(store.users))
            && (g.PassWithoutUser? ==> !threw && state.nextCalls == old(state.nextCalls) + 1
                                       && state.replies == old(state.replies)
                                       && state.user == old(state.user) && store.users == old(store.users))
    ensures UserGateOf(ctx).SetUpUser? ==>
              var r := GetOrCreate(old(store.users), ctx, newId, fault);
              && threw == r.Crashed?
              && store.users == AfterGetOrCreate(old(store.users), r)
              && state.replies == old(state.replies)
              && (r.Crashed? ==> state.nextCalls == old(state.nextCalls) && state.user == old(state.user))
              && (!r.Crashed? ==> state.nextCalls == old(state.nextCalls) + 1
                                  && state.user == (if r.NoChatId? then None else Some(r.user)))
  {
    if Truthy(IsBot(ctx)) {
      if IsPrivateChat(ctx) {
        state.replies := state.replies + [BotRejection];
      }
      return false;
    }
    if !IsPrivateChat(ctx) {
      state.nextCalls := state.nextCalls + 1;
      return false;
    }
    var r := GetOrCreate(store.users, ctx, newId, fault);
    match r {
      case Crashed =>
        return true;
      case NoChatId =>
        state.user := None;
      case Existing(user) =>
        state.user := Some(user);
      case Created(user) =>
        store.users := store.users[user.chatId := user];
        state.user := Some(user);
    }
    state.nextCalls := state.nextCalls + 1;
    return false;
  }

  /** Whether `checkGroupChatMiddleware` calls `next`: a group update
      that announces a new participant is dropped; otherwise in a group
      only a non-empty text that is not a command passes; every update
      outside groups passes. */
  function GroupGatePasses(ctx: Context): (pass: bool)
    ensures CheckGroupChat(ctx) && Truthy(CheckIfNewUser(ctx)) ==> !pass
    ensures CheckGroupChat(ctx) && !Truthy(CheckIfNewUser(ctx)) ==>
              (pass <==> ctx.message.Some? && ctx.message.value.text.Some? && ctx.message.value.text.value != ""
                         && !StartsWith(ctx.message.value.text.value, "/"))
    ensures !CheckGroupChat(ctx) ==> pass
  {
    if CheckGroupChat(ctx) && Truthy(CheckIfNewUser(ctx)) then false
    else if CheckGroupChat(ctx) then
      match ctx.message
      case Some(Message(_, Some(text), _, _)) => text != "" && !StartsWith(text, "/")
      case _ => false
    else true
  }

  /** `checkGroupChatMiddleware(ctx, next)` */
  method CheckGroupChatMiddleware(ctx: Context, state: UpdateState)
    modifies state
    ensures state.nextCalls == old(state.nextCalls) + (if GroupGatePasses(ctx) then 1 else 0)
    ensures state.user == old(state.user) && state.replies == old(state.replies)
  {
    if CheckGroupChat(ctx) && Truthy(CheckIfNewUser(ctx)) {
      return;
    }
    if CheckGroupChat(ctx) {
      if ctx.message.Some? && ctx.message.value.text.Some? && ctx.message.value.text.value != ""
         && !StartsWith(ctx.message.value.text.value, "/") {
        state.nextCalls := state.nextCalls + 1;
        return;
      }
      return;
    }
    state.nextCalls := state.nextCalls + 1;
  }

  /** In a group, a callback query (no message) never passes the group
      gate, while in a private chat it always does. */
  lemma CallbacksOnlyOutsideGroups(ctx: Context)
    requires ctx.message.None?
    ensures GroupGatePasses(ctx) <==> !CheckGroupChat(ctx)
  {
  }
}
