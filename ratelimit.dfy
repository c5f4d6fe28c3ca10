/** The limiter registry of src/services/rate-limit-service.js: two maps
    from user and chat ids to Bottleneck limiters, created on first use,
    each dropped by a timer armed once, ten minutes after its creation.
    Bottleneck itself is not part of this model: a limiter is its policy
    and the `EXECUTING`/`QUEUED` counts it reports. Timers are explicit:
    `AdvanceClock` fires the ones that are due. */
module RateLimit {
  import opened Js

  /** The options a limiter is created with. */
  datatype Policy = Policy(reservoir: nat, refreshAmount: nat, refreshInterval: nat,
                           maxConcurrent: nat, minTime: nat)

  const AiQueryPolicy := Policy(10, 10, 60 * 1000, 5, 1000)
  const GroupResponsePolicy := Policy(20, 20, 60 * 1000, 10, 500)
  const UserPolicy := Policy(5, 5, 60 * 1000, 1, 2000)
  const ChatPolicy := Policy(15, 15, 60 * 1000, 3, 1000)

  /** The delay of the eviction timer armed when a limiter is created. */
  const EvictionDelay: nat := 10 * 60 * 1000

  /** The message a rate-limit rejection is rethrown with. */
  const RateLimited: string := "RATE_LIMITED"

  /** A Bottleneck limiter as the service sees it. `countsFail` stands for
      `counts()` throwing. */
  class Limiter {
    const policy: Policy
    var executing: nat
    var queued: nat
    var countsFail: bool

    constructor (policy: Policy)
      ensures this.policy == policy && executing == 0 && queued == 0 && !countsFail
    {
      this.policy := policy;
      executing, queued, countsFail := 0, 0, false;
    }
  }

  /** `counts.EXECUTING >= 1 || counts.QUEUED > 0` */
  predicate UserAtCapacity(executing: nat, queued: nat)
  {
    executing >= 1 || queued > 0
  }

  /** `counts.EXECUTING >= 3 || counts.QUEUED > 2` */
  predicate ChatAtCapacity(executing: nat, queued: nat)
  {
    executing >= 3 || queued > 2
  }

  /** A pending `setTimeout` that deletes one key. */
  datatype Timer = UserTimer(userId: int, due: nat) | ChatTimer(chatId: string, due: nat)

  /** What the limiter does with a scheduled task: run it, or reject it
      with an error message of its own. */
  datatype Admission = Runs | Rejects(message: string)

  /** The `catch` of the execute functions: a message containing
      "rate limit" becomes `RATE_LIMITED`; anything else passes unchanged.
      A success stays the same success, a failure stays a failure, and no
      failure that comes out still mentions "rate limit", so mapping twice
      is mapping once. */
  function MapScheduleError<T>(o: Outcome<T>): (r: Outcome<T>)
    ensures r.Returned? <==> o.Returned?
    ensures o.Returned? ==> r == o
    ensures r.Threw? ==> !Includes(r.message, "rate limit")
    ensures r.Threw? && r.message != RateLimited ==> r == o
    ensures o.Threw? && Includes(o.message, "rate limit") ==> r == Threw(RateLimited)
    ensures o.Threw? && !Includes(o.message, "rate limit") ==> r == o
  {
    RateLimitedNotRemapped();
    if o.Threw? && Includes(o.message, "rate limit") then Threw(RateLimited) else o
  }

  /** `getRateLimitStats()`. */
  datatype Stats = Stats(activeUserLimiters: nat, activeChatLimiters: nat,
                         aiExecuting: nat, aiQueued: nat,
                         groupExecuting: nat, groupQueued: nat)

  /** The count of leading timers due at `now`. */
  function DueCount(timers: seq<Timer>, now: nat): (n: nat)
    ensures n <= |timers|
    ensures forall i :: 0 <= i < n ==> timers[i].due <= now
    ensures n < |timers| ==> timers[n].due > now
  {
    if timers == [] || timers[0].due > now then 0 else 1 + DueCount(timers[1..], now)
  }

  /** The user keys and the chat keys some timers delete. */
  function UserKeys(timers: seq<Timer>): set<int>
  {
    if timers == [] then {}
    else
      var last := timers[|timers| - 1];
      UserKeys(timers[..|timers| - 1]) + (if last.UserTimer? then {last.userId} else {})
  }

  function ChatKeys(timers: seq<Timer>): set<string>
  {
    if timers == [] then {}
    else
      var last := timers[|timers| - 1];
      ChatKeys(timers[..|timers| - 1]) + (if last.ChatTimer? then {last.chatId} else {})
  }

  /** Timers are pending in the order they fire, none is overdue and none
      is further than one eviction delay away. */
  predicate TimersOrdered(timers: seq<Timer>, clock: nat)
  {
    (forall i, j :: 0 <= i < j < |timers| ==> timers[i].due <= timers[j].due)
    && (forall i :: 0 <= i < |timers| ==> clock < timers[i].due <= clock + EvictionDelay)
  }

  /** Arming a timer one eviction delay from now keeps the order. */
  lemma ArmKeepsOrdered(timers: seq<Timer>, clock: nat, t: Timer)
    requires TimersOrdered(timers, clock) && t.due == clock + EvictionDelay
    ensures TimersOrdered(timers + [t], clock)
  {
  }

  /** Once the due timers have fired, the rest are ordered at the new time,
      and none is left when a whole eviction delay has passed. */
  lemma DropFiredKeepsOrdered(timers: seq<Timer>, clock: nat, now: nat)
    requires TimersOrdered(timers, clock) && clock <= now
    ensures TimersOrdered(timers[DueCount(timers, now)..], now)
    ensures now >= clock + EvictionDelay ==> DueCount(timers, now) == |timers|
  {
    var n := DueCount(timers, now);
    if n < |timers| {
      forall i | n <= i < |timers|
        ensures now < timers[i].due
      {
        assert timers[n].due <= timers[i].due;
      }
    }
  }

  class Registry {
    var users: map<int, Limiter>
    var chats: map<string, Limiter>
    var timers: seq<Timer>
    var clock: nat
    const aiQueryLimiter: Limiter
    const groupResponseLimiter: Limiter

    /** Timers are pending in the order they fire, none is overdue, none is
        further than one eviction delay away, and every key present has a
        pending timer that will delete it. */
    predicate Valid()
      reads this
    {
      TimersOrdered(timers, clock)
      && (forall k :: k in users ==> k in UserKeys(timers))
      && (forall k :: k in chats ==> k in ChatKeys(timers))
    }

    constructor ()
      ensures Valid()
      ensures users == map[] && chats == map[] && timers == [] && clock == 0
      ensures fresh(aiQueryLimiter) && aiQueryLimiter.policy == AiQueryPolicy
      ensures fresh(groupResponseLimiter) && groupResponseLimiter.policy == GroupResponsePolicy
    {
      users, chats, timers, clock := map[], map[], [], 0;
      aiQueryLimiter := new Limiter(AiQueryPolicy);
      groupResponseLimiter := new Limiter(GroupResponsePolicy);
    }

    /** Whether `canMakeAiQuery(userId)` answers true in this state: when
        rate limiting is off, when the user has no limiter yet (a new one
        is idle), when `counts()` throws, or when the limiter is not at
        capacity. */
    predicate UserAdmits(userId: int, enabled: bool)
      reads this, users.Values
    {
      !enabled || userId !in users || users[userId].countsFail
      || !UserAtCapacity(users[userId].executing, users[userId].queued)
    }

    /** Whether `canRespondInChat(chatId)` answers true in this state. */
    predicate ChatAdmits(chatId: string, enabled: bool)
      reads this, chats.Values
    {
      !enabled || chatId !in chats || chats[chatId].countsFail
      || !ChatAtCapacity(chats[chatId].executing, chats[chatId].queued)
    }

    /** `getUserLimiter`: the existing limiter, or a new one registered
        with a deletion timer due one eviction delay from now. */
    method GetUserLimiter(userId: int) returns (limiter: Limiter)
      requires Valid()
      modifies this
      ensures Valid()
      ensures userId in old(users) ==> limiter == old(users)[userId] && users == old(users) && timers == old(timers)
      ensures userId !in old(users) ==>
                fresh(limiter) && limiter.policy == UserPolicy
                && limiter.executing == 0 && limiter.queued == 0 && !limiter.countsFail
                && users == old(users)[userId := limiter]
                && timers == old(timers) + [UserTimer(userId, clock + EvictionDelay)]
      ensures chats == old(chats) && clock == old(clock)
    {
      if userId !in users {
        var created := new Limiter(UserPolicy);
        users := users[userId := created];
        UserKeysAppend(timers, UserTimer(userId, clock + EvictionDelay));
        ArmKeepsOrdered(timers, clock, UserTimer(userId, clock + EvictionDelay));
        timers := timers + [UserTimer(userId, clock + EvictionDelay)];
      }
      limiter := users[userId];
    }

    /** `getChatLimiter`. */
    method GetChatLimiter(chatId: string) returns (limiter: Limiter)
      requires Valid()
      modifies this
      ensures Valid()
      ensures chatId in old(chats) ==> limiter == old(chats)[chatId] && chats == old(chats) && timers == old(timers)
      ensures chatId !in old(chats) ==>
                fresh(limiter) && limiter.policy == ChatPolicy
                && limiter.executing == 0 && limiter.queued == 0 && !limiter.countsFail
                && chats == old(chats)[chatId := limiter]
                && timers == old(timers) + [ChatTimer(chatId, clock + EvictionDelay)]
      ensures users == old(users) && clock == old(clock)
    {
      if chatId !in chats {
        var created := new Limiter(ChatPolicy);
        chats := chats[chatId := created];
        UserKeysAppend(timers, ChatTimer(chatId, clock + EvictionDelay));
        ArmKeepsOrdered(timers, clock, ChatTimer(chatId, clock + EvictionDelay));
        timers := timers + [ChatTimer(chatId, clock + EvictionDelay)];
      }
      limiter := chats[chatId];
    }

    /** `canMakeAiQuery(userId)`, with `enabled` the value of
        `isRateLimitingEnabled()`. When enabled, the user is registered as
        a side effect; admission fails open when `counts()` throws. */
    method CanMakeAiQuery(userId: int, enabled: bool) returns (ok: bool)
      requires Valid()
      modifies this
      ensures Valid()
      ensures ok == old(UserAdmits(userId, enabled))
      ensures !enabled ==> users == old(users) && timers == old(timers)
      ensures enabled ==> userId in users && users.Keys == old(users.Keys) + {userId}
      ensures enabled && userId in old(users) ==> users == old(users) && timers == old(timers)
      ensures enabled && userId !in old(users) ==>
                fresh(users[userId]) && users[userId].policy == UserPolicy
                && users[userId].executing == 0 && users[userId].queued == 0
                && users == old(users)[userId := users[userId]]
                && timers == old(timers) + [UserTimer(userId, clock + EvictionDelay)]
      ensures chats == old(chats) && clock == old(clock)
    {
      if !enabled {
        return true;
      }
      var limiter := GetUserLimiter(userId);
      if limiter.countsFail {
        return true;
      }
      if limiter.executing >= 1 || limiter.queued > 0 {
        return false;
      }
      return true;
    }

    /** `canRespondInChat(chatId)`. */
    method CanRespondInChat(chatId: string, enabled: bool) returns (ok: bool)
      requires Valid()
      modifies this
      ensures Valid()
      ensures ok == old(ChatAdmits(chatId, enabled))
      ensures !enabled ==> chats == old(chats) && timers == old(timers)
      ensures enabled ==> chatId in chats && chats.Keys == old(chats.Keys) + {chatId}
      ensures enabled && chatId in old(chats) ==> chats == old(chats) && timers == old(timers)
      ensures enabled && chatId !in old(chats) ==>
                fresh(chats[chatId]) && chats[chatId].policy == ChatPolicy
                && chats[chatId].executing == 0 && chats[chatId].queued == 0
                && chats == old(chats)[chatId := chats[chatId]]
                && timers == old(timers) + [ChatTimer(chatId, clock + EvictionDelay)]
      ensures users == old(users) && clock == old(clock)
    {
      if !enabled {
        return true;
      }
      var limiter := GetChatLimiter(chatId);
      if limiter.countsFail {
        return true;
      }
      if limiter.executing >= 3 || limiter.queued > 2 {
        return false;
      }
      return true;
    }

    /** `executeAiQuery(userId, queryFn)`: disabled, the query function runs directly
        and its outcome is returned unchanged; enabled, it is scheduled on
        the user's limiter and a rejection mentioning "rate limit" becomes
        `RATE_LIMITED`. `ran` tells whether the query function was invoked. */
    method ExecuteAiQuery<T>(userId: int, enabled: bool, admission: Admission, task: Outcome<T>)
      returns (ran: bool, r: Outcome<T>)
      requires Valid()
      modifies this
      ensures Valid()
      ensures ran == (!enabled || admission.Runs?)
      ensures !enabled ==> r == task
      ensures enabled && admission.Runs? ==> r == MapScheduleError(task)
      ensures enabled && admission.Rejects? ==> r == MapScheduleError(Threw(admission.message))
      ensures !enabled ==> users == old(users) && timers == old(timers)
      ensures enabled ==> userId in users && users.Keys == old(users.Keys) + {userId}
      ensures enabled && userId in old(users) ==> users == old(users) && timers == old(timers)
      ensures enabled && userId !in old(users) ==>
                fresh(users[userId]) && users[userId].policy == UserPolicy
                && users[userId].executing == 0 && users[userId].queued == 0
                && users == old(users)[userId := users[userId]]
                && timers == old(timers) + [UserTimer(userId, clock + EvictionDelay)]
      ensures chats == old(chats) && clock == old(clock)
    {
      if !enabled {
        return true, task;
      }
      var limiter := GetUserLimiter(userId);
      ran := admission.Runs?;
      var settled := if ran then task else Threw(admission.message);
      r := MapScheduleError(settled);
    }

    /** `executeResponse(chatId, responseFn)`. */
    method ExecuteResponse<T>(chatId: string, enabled: bool, admission: Admission, task: Outcome<T>)
      returns (ran: bool, r: Outcome<T>)
      requires Valid()
      modifies this
      ensures Valid()
      ensures ran == (!enabled || admission.Runs?)
      ensures !enabled ==> r == task
      ensures enabled && admission.Runs? ==> r == MapScheduleError(task)
      ensures enabled && admission.Rejects? ==> r == MapScheduleError(Threw(admission.message))
      ensures !enabled ==> chats == old(chats) && timers == old(timers)
      ensures enabled ==> chatId in chats && chats.Keys == old(chats.Keys) + {chatId}
      ensures enabled && chatId in old(chats) ==> chats == old(chats) && timers == old(timers)
      ensures enabled && chatId !in old(chats) ==>
                fresh(chats[chatId]) && chats[chatId].policy == ChatPolicy
                && chats[chatId].executing == 0 && chats[chatId].queued == 0
                && chats == old(chats)[chatId := chats[chatId]]
                && timers == old(timers) + [ChatTimer(chatId, clock + EvictionDelay)]
      ensures users == old(users) && clock == old(clock)
    {
      if !enabled {
        return true, task;
      }
      var limiter := GetChatLimiter(chatId);
      ran := admission.Runs?;
      var settled := if ran then task else Threw(admission.message);
      r := MapScheduleError(settled);
    }

    /** `getRateLimitStats()`: the two map sizes and the counts of the two
        global limiters. */
    method GetStats() returns (s: Stats)
      ensures s.activeUserLimiters == |users| && s.activeChatLimiters == |chats|
      ensures s.aiExecuting == aiQueryLimiter.executing && s.aiQueued == aiQueryLimiter.queued
      ensures s.groupExecuting == groupResponseLimiter.executing && s.groupQueued == groupResponseLimiter.queued
    {
      s := Stats(|users|, |chats|, aiQueryLimiter.executing, aiQueryLimiter.queued,
                 groupResponseLimiter.executing, groupResponseLimiter.queued);
    }

    /** `clearAllLimiters()`: both maps emptied; armed timers stay pending. */
    method ClearAll()
      requires Valid()
      modifies this
      ensures Valid()
      ensures users == map[] && chats == map[]
      ensures timers == old(timers) && clock == old(clock)
    {
      users := map[];
      chats := map[];
    }

    /** The timer callbacks `userLimiters.delete(userId)` and
        `chatLimiters.delete(chatId)`. */
    method EvictUser(userId: int)
      modifies this
      ensures users == old(users) - {userId}
      ensures chats == old(chats) && timers == old(timers) && clock == old(clock)
    {
      users := users - {userId};
    }

    method EvictChat(chatId: string)
      modifies this
      ensures chats == old(chats) - {chatId}
      ensures users == old(users) && timers == old(timers) && clock == old(clock)
    {
      chats := chats - {chatId};
    }

    /** The callback of one timer: it deletes the timer's key. */
    method Fire(t: Timer)
      modifies this
      ensures users == old(users) - (if t.UserTimer? then {t.userId} else {})
      ensures chats == old(chats) - (if t.ChatTimer? then {t.chatId} else {})
      ensures timers == old(timers) && clock == old(clock)
    {
      match t {
        case UserTimer(u, _) => EvictUser(u);
        case ChatTimer(c, _) => EvictChat(c);
      }
    }

    /** Runs the callbacks of the timers due by `now`, in order. */
    method FireDue(now: nat) returns (fired: nat)
      modifies this
      ensures fired == DueCount(timers, now)
      ensures timers == old(timers) && clock == old(clock)
      ensures users == old(users) - UserKeys(timers[..fired])
      ensures chats == old(chats) - ChatKeys(timers[..fired])
    {
      ghost var n := DueCount(timers, now);
      fired := 0;
      while fired < |timers| && timers[fired].due <= now
        invariant fired <= n
        invariant timers == old(timers) && clock == old(clock)
        invariant users == old(users) - UserKeys(timers[..fired])
        invariant chats == old(chats) - ChatKeys(timers[..fired])
        decreases |timers| - fired
      {
        var t := timers[fired];
        ghost var before := timers[..fired];
        assert timers[..fired + 1] == before + [t];
        UserKeysAppend(before, t);
        Fire(t);
        RemoveTwice(old(users), UserKeys(before), if t.UserTimer? then {t.userId} else {});
        RemoveTwice(old(chats), ChatKeys(before), if t.ChatTimer? then {t.chatId} else {});
        fired := fired + 1;
      }
    }

    /** Time passes until `now`: every timer due by then fires, in order,
        deleting its key whether or not the limiter was used meanwhile. */
    method AdvanceClock(now: nat)
      requires Valid() && clock <= now
      modifies this
      ensures Valid()
      ensures clock == now
      ensures var n := DueCount(old(timers), now);
              && timers == old(timers)[n..]
              && users == old(users) - UserKeys(old(timers)[..n])
              && chats == old(chats) - ChatKeys(old(timers)[..n])
      ensures now >= old(clock) + EvictionDelay ==> users == map[] && chats == map[] && timers == []
    {
      ghost var users0, chats0, timers0 := users, chats, timers;
      var fired := FireDue(now);
      KeysSplit(timers, fired);
      DropFiredKeepsOrdered(timers, clock, now);
      timers := timers[fired..];
      forall k | k in users
        ensures k in UserKeys(timers)
      {
        assert k in users0 && k !in UserKeys(timers0[..fired]);
      }
      forall k | k in chats
        ensures k in ChatKeys(timers)
      {
        assert k in chats0 && k !in ChatKeys(timers0[..fired]);
      }
      if now >= old(clock) + EvictionDelay {
        assert timers == [];
        assert users.Keys == {} && chats.Keys == {};
      }
      clock := now;
    }
  }

  /** `RATE_LIMITED` does not contain "rate limit" (the test is case
      sensitive): a mapped error is never taken for a limiter's rejection
      message again. */
  lemma RateLimitedNotRemapped()
    ensures !Includes(RateLimited, "rate limit")
  {
    var p := "rate limit";
    forall i | 0 <= i <= |RateLimited| - |p|
      ensures !OccursAt(RateLimited, p, i)
    {
      assert RateLimited[i] != p[0];
    }
  }

  /** A registry in which user 42 got a limiter at time 0 and all limiters
      were cleared at 1 s: the maps are empty but the timer is still armed. */
  method ClearedAfterUse() returns (registry: Registry)
    ensures fresh(registry) && registry.Valid()
    ensures registry.clock == 1000 && registry.users == map[] && registry.chats == map[]
    ensures registry.timers == [UserTimer(42, EvictionDelay)]
  {
    registry := new Registry();
    assert registry.clock == 0 && registry.timers == [];
    var first := registry.GetUserLimiter(42);
    var armed := registry.timers;
    assert armed == [UserTimer(42, EvictionDelay)];
    assert DueCount(armed, 1000) == 0;
    registry.AdvanceClock(1000);
    assert registry.timers == armed;
    registry.ClearAll();
  }

  /** `clearAllLimiters` leaves the armed timers pending, so a key created
      again after a clear can be deleted well before ten minutes: here a
      user limiter created at 1 s is gone at 600 s. */
  method ClearedKeyEvictedEarly() returns (createdAt: nat, goneAt: nat, present: bool)
    ensures createdAt < goneAt && goneAt - createdAt < EvictionDelay
    ensures !present
  {
    var registry := ClearedAfterUse();
    createdAt := registry.clock;
    var second := registry.GetUserLimiter(42);
    var pending := registry.timers;
    assert pending == [UserTimer(42, EvictionDelay), UserTimer(42, 1000 + EvictionDelay)];
    goneAt := EvictionDelay;
    assert DueCount(pending[1..], goneAt) == 0;
    assert DueCount(pending, goneAt) == 1;
    assert UserKeys(pending[..1]) == {42} by {
      assert pending[..1][..0] == [];
    }
    registry.AdvanceClock(goneAt);
    present := 42 in registry.users;
  }

  lemma {:induction false} KeysSplit(ts: seq<Timer>, n: nat)
    requires n <= |ts|
    ensures UserKeys(ts) == UserKeys(ts[..n]) + UserKeys(ts[n..])
    ensures ChatKeys(ts) == ChatKeys(ts[..n]) + ChatKeys(ts[n..])
    decreases |ts|
  {
    if n == |ts| {
      assert ts[..n] == ts;
      assert ts[n..] == [];
    } else {
      var init := ts[..|ts| - 1];
      KeysSplit(init, n);
      assert init[..n] == ts[..n];
      assert ts[n..][..|ts[n..]| - 1] == init[n..];
      assert ts[n..][|ts[n..]| - 1] == ts[|ts| - 1];
    }
  }

  /** Removing two sets of keys one after the other removes their union. */
  lemma RemoveTwice<K, V>(m: map<K, V>, a: set<K>, b: set<K>)
    ensures (m - a) - b == m - (a + b)
  {
  }

  lemma UserKeysAppend(ts: seq<Timer>, t: Timer)
    ensures UserKeys(ts + [t]) == UserKeys(ts) + (if t.UserTimer? then {t.userId} else {})
    ensures ChatKeys(ts + [t]) == ChatKeys(ts) + (if t.ChatTimer? then {t.chatId} else {})
  {
    assert (ts + [t])[..|ts|] == ts;
  }
}
