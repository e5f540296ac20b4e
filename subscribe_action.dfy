/** The `subscribeToWaitlist` server action: a rate check keyed on the raw
    input, the email validation, the MailerLite configuration fallback, the
    create-or-update call and the classification of its errors. */
module SubscribeAction {
  import opened Js
  import opened Messages
  import opened Text
  import opened Email
  import opened FixedWindow
  import opened MailerLite

  /** `CLEANUP_INTERVAL`, in milliseconds. */
  const CleanupInterval := 5 * 60 * 1000

  /** The table after `cleanupStaleEntries` at time `now`, given the time of
      the last sweep: swept when five minutes have passed, untouched otherwise. */
  function AfterCleanup<K>(m: map<K, Record>, lastCleanup: int, now: int): (r: map<K, Record>)
    ensures now - lastCleanup < CleanupInterval ==> r == m
    ensures now - lastCleanup >= CleanupInterval ==> r == Sweep(m, now)
  {
    if now - lastCleanup < CleanupInterval then m else Sweep(m, now)
  }

  /** When the sweep and the call read the same clock, the sweep never changes
      the verdict of the call. */
  lemma CleanupInvisible<K>(m: map<K, Record>, lastCleanup: int, id: K, now: int)
    ensures Admit(AfterCleanup(m, lastCleanup, now), id, now).limited == Admit(m, id, now).limited
  {
    if now - lastCleanup >= CleanupInterval {
      SweepCommutes(m, id, now);
    }
  }

  /** The rate-limit state of the server action: the shared table plus the
      time of the last sweep (`lastCleanup`). */
  class ActionRateLimiter {
    const table: RateLimiter<Value>
    var lastCleanup: int

    ghost predicate Valid()
      reads this, table
    {
      table.Valid()
    }

    /** The state at module load, `loadTime` being `Date.now()` then. */
    constructor (loadTime: int)
      ensures Valid() && fresh(table)
      ensures table.records == map[] && lastCleanup == loadTime
    {
      table := new RateLimiter();
      lastCleanup := loadTime;
    }

    /** `cleanupStaleEntries()`: at most every five minutes, delete every
        entry whose window has elapsed. */
    method CleanupStaleEntries(now: int)
      requires Valid()
      modifies this, table
      ensures Valid()
      ensures now - old(lastCleanup) < CleanupInterval ==>
        lastCleanup == old(lastCleanup) && table.records == old(table.records)
      ensures now - old(lastCleanup) >= CleanupInterval ==>
        lastCleanup == now && table.records == Sweep(old(table.records), now)
    {
      if now - lastCleanup < CleanupInterval {
        return;
      }
      lastCleanup := now;
      ghost var start := table.records;
      var pending := table.records.Keys;
      while pending != {}
        invariant lastCleanup == now
        invariant pending <= start.Keys
        invariant forall k :: k in table.records ==>
          k in start && table.records[k] == start[k] && (k in pending || !Expired(start[k], now))
        invariant forall k :: k in start && (k in pending || !Expired(start[k], now)) ==> k in table.records
        decreases pending
      {
        var key :| key in pending;
        if now - table.records[key].timestamp > Window {
          table.records := table.records - {key};
        }
        pending := pending - {key};
      }
      assert table.records.Keys == Sweep(start, now).Keys;
      assert forall k :: k in table.records ==> table.records[k] == Sweep(start, now)[k];
    }

    /** `isRateLimited(identifier)` of the server action. The call reads the
        clock (`now`) before the sweep reads it again (`cleanupNow`). */
    method IsRateLimited(id: Value, now: int, cleanupNow: int) returns (limited: bool)
      requires Valid()
      modifies this, table
      ensures Valid()
      ensures Decision(limited, table.records) ==
        Admit(AfterCleanup(old(table.records), old(lastCleanup), cleanupNow), id, now)
      ensures lastCleanup == if cleanupNow - old(lastCleanup) < CleanupInterval then old(lastCleanup) else cleanupNow
    {
      CleanupStaleEntries(cleanupNow);
      limited := table.IsRateLimited(id, now);
    }
  }

  datatype SubscribeResult = SubscribeResult(success: bool, message: string)

  /** The argument of `client.subscribers.createOrUpdate`. */
  datatype UpsertParams = UpsertParams(email: string, status: string, groups: Option<seq<string>>)

  /** An error thrown by the create-or-update call: one carrying a `response`
      (with `response?.data?.message`), or any other error. */
  datatype ThrownError = ApiError(message: Option<string>) | OtherError

  datatype UpsertOutcome = Upserted | UpsertThrew(error: ThrownError)

  /** The create-or-update parameters for a sanitised address and the
      resolved group id. */
  function UpsertParamsFor(email: string, groupId: Option<string>): (p: UpsertParams)
    ensures p.email == email && p.status == "active"
    ensures p.groups.Some? <==> Truthy(groupId)
    ensures p.groups.Some? ==> p.groups.value == [groupId.value]
  {
    var params := UpsertParams(email, "active", None);
    if Truthy(groupId) then params.(groups := Some([groupId.value])) else params
  }

  /** The provider reported a duplicate subscriber. */
  predicate IsDuplicate(e: ThrownError)
  {
    e.ApiError? && e.message.Some? && Contains(ToLower(e.message.value), "already")
  }

  /** The `catch` block: a duplicate is reported as such, anything else as a
      generic failure; neither echoes the provider's text. */
  function Classify(e: ThrownError): (r: SubscribeResult)
    ensures !r.success
    ensures r.message == AlreadyListed <==> IsDuplicate(e)
    ensures r.message == AlreadyListed || r.message == Unavailable
  {
    if IsDuplicate(e) then
      SubscribeResult(false, AlreadyListed)
    else
      SubscribeResult(false, Unavailable)
  }

  /** The decision of `subscribeToWaitlist`, given the rate verdict, the raw
      input, whether a client is available, `NODE_ENV`, the resolved group id
      and the provider's answer to each possible create-or-update call. */
  function Subscribe(limited: bool, email: Value, hasClient: bool, nodeEnv: Option<string>,
                     groupId: Option<string>, provider: UpsertParams -> UpsertOutcome): (r: SubscribeResult)
    // the rate check comes first, whatever the input
    ensures limited ==> r == SubscribeResult(false, TooManyRequests)
    ensures !limited && Validate(email).None? ==> r == SubscribeResult(false, InvalidEmail)
    // success only on the dev-mode path and on a successful create-or-update
    ensures r.success <==>
      && !limited && Validate(email).Some?
      && if hasClient then provider(UpsertParamsFor(Validate(email).value, groupId)).Upserted?
         else nodeEnv == Some("development")
    ensures r.message in {TooManyRequests, InvalidEmail, DevModeSuccess, NotConfigured, Joined, AlreadyListed, Unavailable}
  {
    if limited then
      SubscribeResult(false, TooManyRequests)
    else
      match Validate(email)
      case None => SubscribeResult(false, InvalidEmail)
      case Some(sanitized) =>
        if !hasClient then
          if nodeEnv == Some("development") then SubscribeResult(true, DevModeSuccess)
          else SubscribeResult(false, NotConfigured)
        else
          match provider(UpsertParamsFor(sanitized, groupId))
          case Upserted => SubscribeResult(true, Joined)
          case UpsertThrew(e) => Classify(e)
  }

  /** Without a client the action simulates success in development and reports
      the missing configuration otherwise. */
  lemma UnconfiguredOutcome(email: Value, nodeEnv: Option<string>, groupId: Option<string>,
                            provider: UpsertParams -> UpsertOutcome)
    requires Validate(email).Some?
    ensures Subscribe(false, email, false, nodeEnv, groupId, provider) ==
      if nodeEnv == Some("development") then SubscribeResult(true, DevModeSuccess)
      else SubscribeResult(false, NotConfigured)
  {
  }

  /** With a client, the provider's answer for the sanitised address, status
      "active" and the group when one was resolved decides the result. */
  lemma ConfiguredOutcome(email: Value, nodeEnv: Option<string>, groupId: Option<string>,
                          provider: UpsertParams -> UpsertOutcome)
    requires Validate(email).Some?
    ensures var p := UpsertParamsFor(Sanitize(email.s), groupId);
      Subscribe(false, email, true, nodeEnv, groupId, provider) ==
        match provider(p)
        case Upserted => SubscribeResult(true, Joined)
        case UpsertThrew(e) => Classify(e)
  {
  }

  lemma {:induction false} ToLowerConcat(a: string, b: string)
    ensures ToLower(a + b) == ToLower(a) + ToLower(b)
    decreases |a|
  {
    if a != [] {
      assert (a + b)[1..] == a[1..] + b;
      ToLowerConcat(a[1..], b);
    } else {
      assert a + b == b;
    }
  }

  /** "already" in any mix of cases, anywhere in the provider's message, marks
      a duplicate. */
  lemma AlreadyInAnyCase(before: string, word: string, after: string)
    requires ToLower(word) == "already"
    ensures Classify(ApiError(Some(before + word + after))) == SubscribeResult(false, AlreadyListed)
  {
    var m := before + word + after;
    ToLowerConcat(before + word, after);
    ToLowerConcat(before, word);
    var l := ToLower(m);
    assert l == ToLower(before) + "already" + ToLower(after);
    var i := |ToLower(before)|;
    assert l[i..][..7] == "already";
    assert StartsWith(l[i..], "already");
  }

  /** `subscribeToWaitlist(email)`, with the clock readings, `process.env`, the
      reply of the groups call and the provider's create-or-update behaviour
      as inputs: the rate check on the raw input, then validation, then the
      client and group lookups, then the decision. */
  method SubscribeToWaitlist(limiter: ActionRateLimiter, mailer: MailerLiteState,
                             vars: map<string, string>, email: Value, now: int, cleanupNow: int,
                             groups: GroupsReply, provider: UpsertParams -> UpsertOutcome)
    returns (r: SubscribeResult)
    requires limiter.Valid()
    modifies limiter, limiter.table, mailer
    ensures limiter.Valid()
    ensures var d := Admit(AfterCleanup(old(limiter.table.records), old(limiter.lastCleanup), cleanupNow), email, now);
      var reached := !d.limited && Validate(email).Some? && Truthy(Lookup(vars, ApiKeyVar));
      var g := ResolveGroup(Lookup(vars, GroupIdVar), old(mailer.cachedGroupId), true, groups);
      && limiter.table.records == d.records
      && r == Subscribe(d.limited, email, Truthy(Lookup(vars, ApiKeyVar)), Lookup(vars, "NODE_ENV"), g.groupId, provider)
      && mailer.cachedGroupId == (if reached then g.cache else old(mailer.cachedGroupId))
    // only the sweep moves `lastCleanup`
    ensures limiter.lastCleanup ==
      if cleanupNow - old(limiter.lastCleanup) < CleanupInterval then old(limiter.lastCleanup) else cleanupNow
    ensures old(mailer.client) != null ==> mailer.client == old(mailer.client)
    // the client is looked up only for an allowed, valid call, and built only when a key is set
    ensures var d := Admit(AfterCleanup(old(limiter.table.records), old(limiter.lastCleanup), cleanupNow), email, now);
      var reached := !d.limited && Validate(email).Some? && Truthy(Lookup(vars, ApiKeyVar));
      && (!reached ==> mailer.client == old(mailer.client))
      && (reached && old(mailer.client) == null ==>
            mailer.client != null && fresh(mailer.client) && mailer.client.apiKey == vars[ApiKeyVar])
  {
    var limited := limiter.IsRateLimited(email, now, cleanupNow);
    var hasClient := false;
    var groupId: Option<string> := None;
    if !limited && Validate(email).Some? {
      var client := mailer.GetMailerLiteClient(vars);
      hasClient := client != null;
      if hasClient {
        groupId := mailer.GetGroupId(vars, groups);
      }
    }
    r := Subscribe(limited, email, hasClient, Lookup(vars, "NODE_ENV"), groupId, provider);
  }
}
