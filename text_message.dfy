/** `handleTextMessage` of src/handlers/text-message-handler.js: the ladder
    of gates a plain text message goes through before the bot answers it.
    The limiter registry is the one of `RateLimit`; the feature flags, the
    classifier's answer, what each limiter does with a scheduled task and
    whether the platform delivers a reply are inputs. The conversation
    records how often the classifier ran, the replies delivered and the
    errors logged. */
module TextMessage {
  import opened Js
  import opened RateLimit
  import opened Gemini

  /** The text update as the handler reads it. `chatKey` is
      `ctx.chat.id.toString()`. */
  datatype Update = Update(text: Option<string>, userId: int, chatKey: string, chatType: string)

  /** The flag values read through the configuration service during this
      update. */
  datatype Flags = Flags(aiQueryDetection: Value, groupChatReplies: Value, rateLimiting: Value)

  /** The three replies the handler can send: the invitation to the private
      chat in a group, the welcome in a private chat, and the "lunch time"
      notice when the response was rate limited. */
  datatype ReplyKind = GroupInvite | PrivateWelcome | LunchTime

  /** The message of the `ReferenceError` raised by reading `detection`
      outside the block that declares it. */
  const DetectionNotDefined: string := "detection is not defined"

  /** What one update did. `userChecked` and `chatChecked` tell whether
      the per-user and per-chat admission checks were made. */
  datatype Trace = Trace(classified: bool, replies: seq<ReplyKind>, errors: seq<string>,
                         userChecked: bool, chatChecked: bool)

  const Nothing := Trace(false, [], [], false, false)

  /** Skip a message with no text, an empty text or a command. */
  predicate Skipped(text: Option<string>)
  {
    text.None? || text.value == "" || StartsWith(text.value, "/")
  }

  predicate IsGroupChat(chatType: string)
  {
    chatType == "group" || chatType == "supergroup"
  }

  /** `detection.confidence >= 60`. A number compares as itself; `null`,
      `false` and `true` compare as 0, 0 and 1, so they never meet it.
      Strings and objects are taken as below the threshold. A confidence
      that meets it is truthy. */
  predicate MeetsThreshold(confidence: Value)
    ensures MeetsThreshold(confidence) ==> Truthy(confidence)
    ensures confidence.Null? || confidence.Bool? ==> !MeetsThreshold(confidence)
  {
    confidence.Num? && confidence.n >= 60.0
  }

  /** The truthiness of `detection.isQuery && detection.confidence >= 60`. */
  predicate IsQuery(d: Detection)
  {
    Truthy(d.isQuery) && MeetsThreshold(d.confidence)
  }

  /** The outer `catch`: `RATE_LIMITED` is skipped silently, anything else
      is logged. At most one error is logged per update, and it is never
      `RATE_LIMITED`. */
  function Caught(message: string): (errors: seq<string>)
    ensures |errors| <= 1
    ensures RateLimited !in errors
    ensures message != RateLimited ==> message in errors
  {
    if message == RateLimited then [] else [message]
  }

  /** How `ctx.reply` ends for a reply: delivered (`None`) or throwing. */
  type Platform = ReplyKind -> Option<string>

  /** The response task passed to `executeResponse`: it throws what the
      platform throws. */
  function Attempt(send: Platform, kind: ReplyKind): Outcome<bool>
  {
    match send(kind)
    case None => Returned(true)
    case Some(m) => Threw(m)
  }

  /** The replies delivered and the errors logged once the chat admission
      check passed and the handler decided to respond. */
  function Respond(isGroup: bool, enabled: bool, chatAdmission: Admission, send: Platform)
    : (r: (seq<ReplyKind>, seq<string>))
    ensures |r.0| <= 1
    ensures LunchTime in r.0 ==> !isGroup
  {
    var kind := if isGroup then GroupInvite else PrivateWelcome;
    var ran := !enabled || chatAdmission.Runs?;
    var delivered := if ran && send(kind).None? then [kind] else [];
    var task := Attempt(send, kind);
    var result := if !enabled then task
                  else if chatAdmission.Runs? then MapScheduleError(task)
                  else MapScheduleError(Threw(chatAdmission.message));
    if result.Returned? then (delivered, [])
    else if result.message != RateLimited then (delivered, Caught(result.message))
    else if isGroup then (delivered, [])
    else match send(LunchTime)
      case None => (delivered + [LunchTime], [])
      case Some(m) => (delivered, Caught(m))
  }

  /** The ladder from the per-chat admission check on. */
  function ChatStage(isGroup: bool, shouldRespond: bool, enabled: bool, chatOk: bool,
                     chatAdmission: Admission, send: Platform): (r: (seq<ReplyKind>, seq<string>))
    ensures !chatOk ==> r == ([], [])
    ensures !shouldRespond ==> r.0 == []
    ensures |r.0| <= 1
  {
    if !chatOk then ([], [])
    else if shouldRespond then Respond(isGroup, enabled, chatAdmission, send)
    else ([], [DetectionNotDefined])
  }

  /** How `executeAiQuery(userId, () => detectStudyMaterialQuery(message))`
      settles; the classifier itself never throws. */
  function Classification(enabled: bool, userAdmission: Admission, detection: Detection): (o: Outcome<Detection>)
    ensures !enabled || userAdmission.Runs? ==> o == Returned(detection)
    ensures enabled && userAdmission.Rejects? && Includes(userAdmission.message, "rate limit") ==> o == Threw(RateLimited)
    ensures enabled && userAdmission.Rejects? && !Includes(userAdmission.message, "rate limit") ==> o == Threw(userAdmission.message)
  {
    if !enabled then Returned(detection)
    else if userAdmission.Runs? then MapScheduleError(Returned(detection))
    else MapScheduleError(Threw(userAdmission.message))
  }

  /** How far the gates before the per-chat check take a message:
      whether the classifier ran, the errors logged so far, whether the
      handler goes on to `canRespondInChat`, and whether it then means to
      respond. */
  datatype Screen = Screen(classified: bool, errors: seq<string>, proceed: bool, shouldRespond: bool)

  /** Whether the per-user admission check is made: a group message that
      is not skipped, with both group flags on. */
  predicate UserChecked(u: Update, flags: Flags)
  {
    !Skipped(u.text) && IsGroupChat(u.chatType)
    && Truthy(flags.aiQueryDetection) && Truthy(flags.groupChatReplies)
  }

  /** The gates of `handleTextMessage` up to `canRespondInChat`: a skipped
      message stops; a private message goes on and is answered; in a group
      both flags must be on, the user admitted and the classification must
      settle, and only a query is answered. Only a classification that
      ran counts, and a rejection is logged (unless it is `RATE_LIMITED`). */
  function Screening(u: Update, flags: Flags, userOk: bool, userAdmission: Admission, detection: Detection)
    : (sc: Screen)
    ensures sc.classified ==> UserChecked(u, flags) && userOk
    ensures sc.proceed ==> !Skipped(u.text) && sc.errors == []
    ensures !IsGroupChat(u.chatType) ==> sc == Screen(false, [], !Skipped(u.text), !Skipped(u.text))
    ensures sc.shouldRespond && IsGroupChat(u.chatType) ==> IsQuery(detection)
    ensures |sc.errors| <= 1 && RateLimited !in sc.errors
  {
    var enabled := Truthy(flags.rateLimiting);
    if Skipped(u.text) then Screen(false, [], false, false)
    else if !IsGroupChat(u.chatType) then Screen(false, [], true, true)
    else if !UserChecked(u, flags) || !userOk then Screen(false, [], false, false)
    else
      var ran := !enabled || userAdmission.Runs?;
      match Classification(enabled, userAdmission, detection)
      case Threw(m) => Screen(ran, Caught(m), false, false)
      case Returned(d) => Screen(ran, [], true, IsQuery(d))
  }

  /** `handleTextMessage(ctx)` as a function of its inputs; `userOk` and
      `chatOk` are the answers of the two admission checks. */
  function Handle(u: Update, flags: Flags, userOk: bool, userAdmission: Admission, detection: Detection,
                  chatOk: bool, chatAdmission: Admission, send: Platform): (t: Trace)
    ensures Skipped(u.text) ==> t == Nothing
    ensures t.userChecked ==> IsGroupChat(u.chatType) && Truthy(flags.aiQueryDetection) && Truthy(flags.groupChatReplies)
    ensures t.classified ==> t.userChecked && userOk
    ensures t.chatChecked ==> !Skipped(u.text)
    ensures !IsGroupChat(u.chatType) ==> !t.classified && !t.userChecked
    ensures t.replies != [] ==> t.chatChecked && chatOk
    ensures |t.replies| <= 1
    ensures GroupInvite in t.replies ==> IsGroupChat(u.chatType) && t.classified && IsQuery(detection)
    ensures LunchTime in t.replies ==> !IsGroupChat(u.chatType)
  {
    var sc := Screening(u, flags, userOk, userAdmission, detection);
    var r := if sc.proceed then ChatStage(IsGroupChat(u.chatType), sc.shouldRespond, Truthy(flags.rateLimiting),
                                          chatOk, chatAdmission, send)
             else ([], []);
    Trace(sc.classified, r.0, sc.errors + r.1, UserChecked(u, flags), sc.proceed)
  }

  /** `Handle` is the screening followed, when it proceeds, by the chat
      stage. */
  lemma HandleComposes(u: Update, flags: Flags, userOk: bool, userAdmission: Admission, detection: Detection,
                       chatOk: bool, chatAdmission: Admission, send: Platform)
    ensures var sc := Screening(u, flags, userOk, userAdmission, detection);
            var t := Handle(u, flags, userOk, userAdmission, detection, chatOk, chatAdmission, send);
            var r := ChatStage(IsGroupChat(u.chatType), sc.shouldRespond, Truthy(flags.rateLimiting),
                               chatOk, chatAdmission, send);
            && t.classified == sc.classified && t.userChecked == UserChecked(u, flags) && t.chatChecked == sc.proceed
            && t.replies == (if sc.proceed then r.0 else [])
            && t.errors == sc.errors + (if sc.proceed then r.1 else [])
  {
  }

  lemma AppendAssociates<T>(a: seq<T>, b: seq<T>, c: seq<T>)
    ensures (a + b) + c == a + (b + c)
  {
  }

  /** What handling one message does to the registry: the user's limiter
      is registered when `userChecked` and the chat's when `chatChecked`;
      each limiter created arms its eviction timer, due one eviction delay
      after `clock`, the user's before the chat's. */
  predicate Registers(users: set<int>, users': set<int>, chats: set<string>, chats': set<string>,
                      timers: seq<Timer>, timers': seq<Timer>, clock: nat,
                      userId: int, chatKey: string, userChecked: bool, chatChecked: bool)
  {
    var userTimers := if userChecked && userId !in users then [UserTimer(userId, clock + EvictionDelay)] else [];
    && users' == users + (if userChecked then {userId} else {})
    && chats' == chats + (if chatChecked then {chatKey} else {})
    && (chatChecked && chatKey !in chats ==>
          timers' == timers + userTimers + [ChatTimer(chatKey, clock + EvictionDelay)])
    && (!(chatChecked && chatKey !in chats) ==> timers' == timers + userTimers)
  }

  /** What the handler can be seen doing: classifier runs, replies
      delivered, errors logged. */
  class Conversation {
    var classifierCalls: nat
    var replies: seq<ReplyKind>
    var errors: seq<string>

    constructor ()
      ensures classifierCalls == 0 && replies == [] && errors == []
    {
      classifierCalls, replies, errors := 0, [], [];
    }
  }

  /** The response itself, once the chat was admitted and registered:
      `executeResponse` with the reply, then the outer `catch`. The
      registry is left as it was, as the chat already has its limiter. */
  method Deliver(conv: Conversation, registry: Registry, chatKey: string, isGroupChat: bool,
                 enabled: bool, chatAdmission: Admission, send: Platform)
    requires registry.Valid() && (enabled ==> chatKey in registry.chats)
    modifies conv, registry
    ensures registry.Valid()
    ensures var r := Respond(isGroupChat, enabled, chatAdmission, send);
            conv.replies == old(conv.replies) + r.0 && conv.errors == old(conv.errors) + r.1
    ensures conv.classifierCalls == old(conv.classifierCalls)
    ensures registry.users == old(registry.users) && registry.chats == old(registry.chats)
    ensures registry.timers == old(registry.timers) && registry.clock == old(registry.clock)
  {
    var kind := if isGroupChat then GroupInvite else PrivateWelcome;
    var ran, result := registry.ExecuteResponse(chatKey, enabled, chatAdmission, Attempt(send, kind));
    if ran && send(kind).None? {
      conv.replies := conv.replies + [kind];
    }
    if result.Threw? {
      if result.message == RateLimited {
        if !isGroupChat {
          match send(LunchTime) {
            case None =>
              conv.replies := conv.replies + [LunchTime];
            case Some(m) =>
              conv.errors := conv.errors + Caught(m);
          }
        }
      } else {
        conv.errors := conv.errors + Caught(result.message);
      }
    }
  }

  /** The part of `handleTextMessage` from `canRespondInChat(chatId)` on,
      once `shouldRespond` is known. */
  method RespondInChat(conv: Conversation, registry: Registry, chatKey: string, isGroupChat: bool,
                       shouldRespond: bool, enabled: bool, chatAdmission: Admission, send: Platform)
    requires registry.Valid()
    modifies conv, registry
    ensures registry.Valid()
    ensures var r := ChatStage(isGroupChat, shouldRespond, enabled, old(registry.ChatAdmits(chatKey, enabled)),
                               chatAdmission, send);
            conv.replies == old(conv.replies) + r.0 && conv.errors == old(conv.errors) + r.1
    ensures conv.classifierCalls == old(conv.classifierCalls)
    ensures registry.users == old(registry.users) && registry.clock == old(registry.clock)
    ensures registry.chats.Keys == old(registry.chats.Keys) + (if enabled then {chatKey} else {})
    ensures !(enabled && chatKey !in old(registry.chats)) ==> registry.chats == old(registry.chats)
    ensures enabled && chatKey !in old(registry.chats) ==>
              registry.timers == old(registry.timers) + [ChatTimer(chatKey, old(registry.clock) + EvictionDelay)]
    ensures !(enabled && chatKey !in old(registry.chats)) ==> registry.timers == old(registry.timers)
  {
    var canRespond := registry.CanRespondInChat(chatKey, enabled);
    if !canRespond {
      return;
    }
    if shouldRespond {
      Deliver(conv, registry, chatKey, isGroupChat, enabled, chatAdmission, send);
    } else {
      conv.errors := conv.errors + Caught(DetectionNotDefined);
    }
  }

  /** The group part of `handleTextMessage` once both flags are on: the
      per-user admission check, then the classification under the user's
      limiter. `proceed` is false where the handler returns. */
  method ClassifyInGroup(conv: Conversation, registry: Registry, userId: int, enabled: bool,
                         userAdmission: Admission, detection: Detection)
    returns (proceed: bool, shouldRespond: bool)
    requires registry.Valid()
    modifies conv, registry
    ensures registry.Valid()
    ensures var userOk := old(registry.UserAdmits(userId, enabled));
            var result := Classification(enabled, userAdmission, detection);
            && proceed == (userOk && result.Returned?)
            && shouldRespond == (proceed && IsQuery(result.value))
            && conv.classifierCalls == old(conv.classifierCalls)
                 + (if userOk && (!enabled || userAdmission.Runs?) then 1 else 0)
            && conv.errors == old(conv.errors) + (if userOk && result.Threw? then Caught(result.message) else [])
    ensures conv.replies == old(conv.replies)
    ensures registry.users.Keys == old(registry.users.Keys) + (if enabled then {userId} else {})
    ensures enabled && userId !in old(registry.users) ==>
              fresh(registry.users[userId]) && registry.users == old(registry.users)[userId := registry.users[userId]]
              && registry.timers == old(registry.timers) + [UserTimer(userId, registry.clock + EvictionDelay)]
    ensures !(enabled && userId !in old(registry.users)) ==>
              registry.users == old(registry.users) && registry.timers == old(registry.timers)
    ensures registry.chats == old(registry.chats) && registry.clock == old(registry.clock)
  {
    var canQuery := registry.CanMakeAiQuery(userId, enabled);
    if !canQuery {
      return false, false;
    }
    var ran, result := registry.ExecuteAiQuery(userId, enabled, userAdmission, Returned(detection));
    if ran {
      conv.classifierCalls := conv.classifierCalls + 1;
    }
    if result.Threw? {
      conv.errors := conv.errors + Caught(result.message);
      return false, false;
    }
    var isQuery := Truthy(result.value.isQuery) && MeetsThreshold(result.value.confidence);
    return true, isQuery;
  }

  /** The gates of `handleTextMessage` before `canRespondInChat`, run
      against the registry: only the per-user check and the classification
      touch it, registering the user (and arming its eviction timer) the
      first time the user is checked with rate limiting on. */
  method ScreenMessage(conv: Conversation, registry: Registry, u: Update, flags: Flags,
                       userAdmission: Admission, detection: Detection)
    returns (proceed: bool, shouldRespond: bool)
    requires registry.Valid()
    modifies conv, registry
    ensures registry.Valid()
    ensures var sc := Screening(u, flags, old(registry.UserAdmits(u.userId, Truthy(flags.rateLimiting))),
                                userAdmission, detection);
            && proceed == sc.proceed && shouldRespond == sc.shouldRespond
            && conv.classifierCalls == old(conv.classifierCalls) + (if sc.classified then 1 else 0)
            && conv.errors == old(conv.errors) + sc.errors
    ensures conv.replies == old(conv.replies)
    ensures var newUser := UserChecked(u, flags) && Truthy(flags.rateLimiting) && u.userId !in old(registry.users);
            && (!newUser ==> registry.users == old(registry.users))
            && registry.timers == old(registry.timers)
                 + (if newUser then [UserTimer(u.userId, old(registry.clock) + EvictionDelay)] else [])
            && registry.users.Keys == old(registry.users.Keys)
                 + (if UserChecked(u, flags) && Truthy(flags.rateLimiting) then {u.userId} else {})
    ensures registry.ChatAdmits(u.chatKey, Truthy(flags.rateLimiting)) == old(registry.ChatAdmits(u.chatKey, Truthy(flags.rateLimiting)))
    ensures registry.chats == old(registry.chats) && registry.clock == old(registry.clock)
  {
    if Skipped(u.text) {
      return false, false;
    }
    if !IsGroupChat(u.chatType) {
      return true, true;
    }
    if !Truthy(flags.aiQueryDetection) || !Truthy(flags.groupChatReplies) {
      return false, false;
    }
    proceed, shouldRespond := ClassifyInGroup(conv, registry, u.userId, Truthy(flags.rateLimiting),
                                              userAdmission, detection);
  }

  /** The steps of `handleTextMessage(ctx)`: the screening, then, when it
      lets the message through, the chat stage; stated stage by stage. */
  method ScreenThenRespond(conv: Conversation, registry: Registry, u: Update, flags: Flags,
                           userAdmission: Admission, detection: Detection,
                           chatAdmission: Admission, send: Platform)
    requires registry.Valid()
    modifies conv, registry
    ensures registry.Valid()
    ensures var sc := Screening(u, flags, old(registry.UserAdmits(u.userId, Truthy(flags.rateLimiting))),
                                userAdmission, detection);
            var r := ChatStage(IsGroupChat(u.chatType), sc.shouldRespond, Truthy(flags.rateLimiting),
                               old(registry.ChatAdmits(u.chatKey, Truthy(flags.rateLimiting))), chatAdmission, send);
            && conv.classifierCalls == old(conv.classifierCalls) + (if sc.classified then 1 else 0)
            && conv.replies == old(conv.replies) + (if sc.proceed then r.0 else [])
            && conv.errors == old(conv.errors) + sc.errors + (if sc.proceed then r.1 else [])
    ensures Registers(old(registry.users.Keys), registry.users.Keys, old(registry.chats.Keys), registry.chats.Keys,
                      old(registry.timers), registry.timers, old(registry.clock), u.userId, u.chatKey,
                      UserChecked(u, flags) && Truthy(flags.rateLimiting),
                      Screening(u, flags, old(registry.UserAdmits(u.userId, Truthy(flags.rateLimiting))),
                                userAdmission, detection).proceed && Truthy(flags.rateLimiting))
    ensures registry.clock == old(registry.clock)
  {
    var enabled := Truthy(flags.rateLimiting);
    var proceed, shouldRespond := ScreenMessage(conv, registry, u, flags, userAdmission, detection);
    if proceed {
      RespondInChat(conv, registry, u.chatKey, IsGroupChat(u.chatType), shouldRespond, enabled, chatAdmission, send);
    } else {
      assert conv.replies + [] == conv.replies && conv.errors + [] == conv.errors;
    }
  }

  /** `handleTextMessage(ctx)`: the gates in the source's order, with the
      registry's admission checks and execute functions, against the
      registry's admission state before the call. The registry gains at
      most the user's and the chat's limiters, each with its eviction timer
      due one eviction delay from now, in that order. */
  method HandleTextMessage(conv: Conversation, registry: Registry, u: Update, flags: Flags,
                           userAdmission: Admission, detection: Detection,
                           chatAdmission: Admission, send: Platform)
    requires registry.Valid()
    modifies conv, registry
    ensures registry.Valid()
    ensures var t := Handle(u, flags, old(registry.UserAdmits(u.userId, Truthy(flags.rateLimiting))),
                            userAdmission, detection,
                            old(registry.ChatAdmits(u.chatKey, Truthy(flags.rateLimiting))),
                            chatAdmission, send);
            && conv.classifierCalls == old(conv.classifierCalls) + (if t.classified then 1 else 0)
            && conv.replies == old(conv.replies) + t.replies
            && conv.errors == old(conv.errors) + t.errors
    ensures var t := Handle(u, flags, old(registry.UserAdmits(u.userId, Truthy(flags.rateLimiting))),
                            userAdmission, detection,
                            old(registry.ChatAdmits(u.chatKey, Truthy(flags.rateLimiting))),
                            chatAdmission, send);
            Registers(old(registry.users.Keys), registry.users.Keys, old(registry.chats.Keys), registry.chats.Keys,
                      old(registry.timers), registry.timers, old(registry.clock), u.userId, u.chatKey,
                      t.userChecked && Truthy(flags.rateLimiting), t.chatChecked && Truthy(flags.rateLimiting))
    ensures registry.clock == old(registry.clock)
  {
    var enabled := Truthy(flags.rateLimiting);
    ghost var userOk, chatOk := registry.UserAdmits(u.userId, enabled), registry.ChatAdmits(u.chatKey, enabled);
    HandleComposes(u, flags, userOk, userAdmission, detection, chatOk, chatAdmission, send);
    ghost var sc := Screening(u, flags, userOk, userAdmission, detection);
    AppendAssociates(conv.errors, sc.errors,
                     if sc.proceed
                     then ChatStage(IsGroupChat(u.chatType), sc.shouldRespond, enabled, chatOk, chatAdmission, send).1
                     else []);
    ScreenThenRespond(conv, registry, u, flags, userAdmission, detection, chatAdmission, send);
  }

  /** A private chat never consults the classifier or the per-user limiter,
      and with the chat admitted and the reply delivered it gets exactly
      the welcome. */
  lemma PrivateAlwaysAnswered(u: Update, flags: Flags, userOk: bool, userAdmission: Admission,
                              detection: Detection, chatAdmission: Admission, send: Platform)
    requires !Skipped(u.text) && !IsGroupChat(u.chatType)
    requires !Truthy(flags.rateLimiting) || chatAdmission.Runs?
    requires send(PrivateWelcome).None?
    ensures Handle(u, flags, userOk, userAdmission, detection, true, chatAdmission, send).replies == [PrivateWelcome]
    ensures Handle(u, flags, userOk, userAdmission, detection, true, chatAdmission, send).errors == []
  {
  }

  /** In a group with either flag off, nothing happens: no admission check,
      no classifier, no reply. */
  lemma GroupFlagsOff(u: Update, flags: Flags, userOk: bool, userAdmission: Admission,
                      detection: Detection, chatOk: bool, chatAdmission: Admission, send: Platform)
    requires IsGroupChat(u.chatType)
    requires !Truthy(flags.aiQueryDetection) || !Truthy(flags.groupChatReplies)
    ensures Handle(u, flags, userOk, userAdmission, detection, chatOk, chatAdmission, send) == Nothing
  {
  }

  /** A group message that the classifier does not take for a query is
      only logged: the per-chat check is still made (and registers the
      chat), then reading `detection` throws and the error is logged. */
  lemma GroupNonQueryOnlyLogged(u: Update, flags: Flags, userAdmission: Admission,
                                detection: Detection, chatAdmission: Admission, send: Platform)
    requires !Skipped(u.text) && IsGroupChat(u.chatType)
    requires Truthy(flags.aiQueryDetection) && Truthy(flags.groupChatReplies)
    requires !Truthy(flags.rateLimiting) || userAdmission.Runs?
    requires !IsQuery(detection)
    ensures var t := Handle(u, flags, true, userAdmission, detection, true, chatAdmission, send);
            t.classified && t.chatChecked && t.replies == [] && t.errors == [DetectionNotDefined]
  {
  }

  /** A response rejected by the chat limiter for its rate gives one
      "lunch time" reply in a private chat and nothing at all in a group. */
  lemma RateLimitedResponse(u: Update, flags: Flags, detection: Detection, message: string, send: Platform)
    requires !Skipped(u.text)
    requires Truthy(flags.aiQueryDetection) && Truthy(flags.groupChatReplies) && Truthy(flags.rateLimiting)
    requires Includes(message, "rate limit")
    requires send(LunchTime).None?
    ensures !IsGroupChat(u.chatType) ==>
              Handle(u, flags, true, Runs, detection, true, Rejects(message), send).replies == [LunchTime]
    ensures IsGroupChat(u.chatType) && IsQuery(detection) ==>
              Handle(u, flags, true, Runs, detection, true, Rejects(message), send).replies == []
              && Handle(u, flags, true, Runs, detection, true, Rejects(message), send).errors == []
  {
  }

  /** A classification rejected by the user's limiter for its rate is
      skipped silently; any other rejection is only logged. */
  lemma RejectedClassification(u: Update, flags: Flags, message: string, detection: Detection,
                               chatOk: bool, chatAdmission: Admission, send: Platform)
    requires !Skipped(u.text) && IsGroupChat(u.chatType)
    requires Truthy(flags.aiQueryDetection) && Truthy(flags.groupChatReplies) && Truthy(flags.rateLimiting)
    ensures var t := Handle(u, flags, true, Rejects(message), detection, chatOk, chatAdmission, send);
            !t.classified && t.replies == [] && !t.chatChecked
            && (t.errors == [] <==> Includes(message, "rate limit") || message == RateLimited)
  {
  }

}
