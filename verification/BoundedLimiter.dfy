/** What the limiter with bounded memory promises on its answers: how many grants fit in a window, and when exactly it
    keeps answering like the limiter that forgets nothing. */
module BoundedLimiter {
  import opened RateLimiting

  const FRESH := Limiter(map[], map[])

  // ---- the grants a run of replies gives

  function GrantTimes(calls: seq<Call>, replies: seq<Reply>, key: string): seq<real>
    requires |replies| == |calls|
    decreases |calls|
  {
    if calls == [] then []
    else (if calls[0].key == key && replies[0] == Granted then [calls[0].now] else []) + GrantTimes(calls[1..], replies[1..], key)
  }

  lemma {:induction false} LogHoldsItsGrants(log: Log, calls: seq<Call>, key: string)
    ensures |LogReplies(log, calls)| == |calls|
    ensures GrantsOf(FinalLog(log, calls), key) == GrantsOf(log, key) + GrantTimes(calls, LogReplies(log, calls), key)
    decreases |calls|
  {
    if calls != [] {
      var c, rest := calls[0], LogAllow(log, calls[0]).log;
      LogHoldsItsGrants(rest, calls[1..], key);
      var replies := LogReplies(log, calls);
      assert replies[0] == LogAllow(log, c).reply && replies[1..] == LogReplies(rest, calls[1..]);
      GrantsAfter(log, c, key);
      hide LogAllow;
    }
  }

  lemma GrantsAfter(log: Log, c: Call, key: string)
    ensures GrantsOf(LogAllow(log, c).log, key)
         == GrantsOf(log, key) + if c.key == key && LogAllow(log, c).reply == Granted then [c.now] else []
  {
    hide CountIn;
  }

  /** With room for every new key, no interval of a window's length holds more than `limit` of the grants the bounded
      limiter gives a key. */
  lemma WindowNeverOverfull(rules: string -> Rule, maxKeys: nat, start: real, calls: seq<Call>, key: string, until: real)
    requires maxKeys >= 1 && Ordered(calls, start, rules) && AlwaysRoom(FRESH, maxKeys, calls) && rules(key).limit >= 1
    ensures |Replies(FRESH, maxKeys, calls)| == |calls|
    ensures CountIn(GrantTimes(calls, Replies(FRESH, maxKeys, calls), key), until - rules(key).window as real, until) <= rules(key).limit
  {
    FreshLimiterAnswersAsLog(rules, maxKeys, start, calls);
    LogHoldsItsGrants(map[], calls, key);
    LogNeverOverfull(rules, start, calls, key, until);
    var grants := GrantTimes(calls, LogReplies(map[], calls), key);
    assert GrantsOf(FinalLog(map[], calls), key) == [] + grants == grants;
  }

  // ---- one client on its own

  predicate OneClient(calls: seq<Call>) {
    forall i | 0 <= i < |calls| :: calls[i].key == calls[0].key
  }

  /** From now on any single client, calling whenever it likes, is answered as by the full log. */
  ghost predicate Faithful(s: Limiter, log: Log, rules: string -> Rule, maxKeys: nat, now: real) {
    forall more: seq<Call> | Ordered(more, now, rules) && OneClient(more) :: Replies(s, maxKeys, more) == LogReplies(log, more)
  }

  lemma KeyTimePasses(s: Limiter, log: Log, key: string, window: real, earlier: real, now: real)
    requires KeyRemembered(s, log, key, window, earlier) && earlier <= now
    ensures KeyRemembered(s, log, key, window, now)
  {
  }

  /** A remembered key is answered as by the full log, room or no room: once it is held it is not evicted for itself. */
  lemma {:induction false} ClientAnsweredAsLog(s: Limiter, log: Log, rules: string -> Rule, maxKeys: nat, start: real, more: seq<Call>)
    requires maxKeys >= 1 && Ordered(more, start, rules) && OneClient(more)
    requires more != [] ==> KeyRemembered(s, log, more[0].key, rules(more[0].key).window as real, start)
    ensures Replies(s, maxKeys, more) == LogReplies(log, more)
    decreases |more|
  {
    hide KeyRemembered, Answered, LogAllow;
    if more != [] {
      var c := more[0];
      KeyTimePasses(s, log, c.key, c.window as real, start, c.now);
      AnswersAsLog(s, log, maxKeys, c);
      if Valid(c) {
        OwnKeyRemembered(s, log, maxKeys, c);
      } else {
        InvalidChangesNothing(s, log, maxKeys, c);
      }
      assert |more| > 1 ==> more[1..][0] == more[1] && more[1].key == c.key;
      ClientAnsweredAsLog(Answered(s, maxKeys, c).limiter, LogAllow(log, c).log, rules, maxKeys, c.now, more[1..]);
    }
  }

  lemma RememberingIsFaithful(s: Limiter, log: Log, rules: string -> Rule, maxKeys: nat, now: real)
    requires Remembers(s, log, rules, now) && maxKeys >= 1
    ensures Faithful(s, log, rules, maxKeys, now)
  {
    forall more: seq<Call> | Ordered(more, now, rules) && OneClient(more) ensures Replies(s, maxKeys, more) == LogReplies(log, more) {
      if more != [] { assert KeyRemembered(s, log, more[0].key, rules(more[0].key).window as real, now); }
      ClientAnsweredAsLog(s, log, rules, maxKeys, now, more);
    }
  }

  // ---- a client whose grants were evicted

  function Repeated(c: Call, n: nat): seq<Call> {
    seq(n, _ => c)
  }

  function Copies(now: real, n: nat): seq<real> {
    seq(n, _ => now)
  }

  lemma CopiesAreRecent(now: real, cutoff: real, n: nat)
    requires cutoff < now
    ensures Pruned(Copies(now, n), cutoff) == Copies(now, n) && Copies(now, n) + [now] == Copies(now, n + 1)
  {
  }

  /** A key the limiter does not hold is granted `limit` times at once. */
  lemma {:induction false} StrangerIsGranted(s: Limiter, maxKeys: nat, c: Call, held: nat, n: nat)
    requires Valid(c) && held + n <= c.limit
    requires if held == 0 then c.key !in s.events else c.key in s.events && s.events[c.key] == Copies(c.now, held)
    ensures var replies := Replies(s, maxKeys, Repeated(c, n)); |replies| == n && forall i | 0 <= i < n :: replies[i] == Granted
    decreases n
  {
    if n > 0 {
      var step := Answered(s, maxKeys, c);
      CopiesAreRecent(c.now, c.now - c.window as real, held);
      StrangerStep(s, maxKeys, c, held);
      hide Answered;
      StrangerIsGranted(step.limiter, maxKeys, c, held + 1, n - 1);
      assert Repeated(c, n)[0] == c && Repeated(c, n)[1..] == Repeated(c, n - 1);
    }
  }

  lemma StrangerStep(s: Limiter, maxKeys: nat, c: Call, held: nat)
    requires Valid(c) && held < c.limit
    requires if held == 0 then c.key !in s.events else c.key in s.events && s.events[c.key] == Copies(c.now, held)
    ensures var step := Answered(s, maxKeys, c);
      step.reply == Granted && c.key in step.limiter.events && step.limiter.events[c.key] == Copies(c.now, held + 1)
  {
    CopiesAreRecent(c.now, c.now - c.window as real, held);
    assert held == 0 ==> Copies(c.now, held) == [];
    hide MakeRoom, Copies;
  }

  /** The full log does not grant `limit` more calls on top of a grant that still counts. */
  lemma {:induction false} LogRefusesOne(log: Log, c: Call, n: nat)
    requires Valid(c) && n >= 1 && CountIn(GrantsOf(log, c.key), c.now - c.window as real, c.now) + n > c.limit
    ensures var replies := LogReplies(log, Repeated(c, n)); |replies| == n && exists i | 0 <= i < n :: replies[i] != Granted
    decreases n
  {
    hide CountIn, LogAllow, GrantsOf, LogReplies, Repeated;
    var rest := LogReplies(LogAllow(log, c).log, Repeated(c, n - 1));
    RepliesRepeated(log, c, n);
    RepliesCount(LogAllow(log, c).log, Repeated(c, n - 1));
    if CountIn(GrantsOf(log, c.key), c.now - c.window as real, c.now) < c.limit {
      GrantCounts(log, c);
      LogRefusesOne(LogAllow(log, c).log, c, n - 1);
      var i :| 0 <= i < n - 1 && rest[i] != Granted;
      assert LogReplies(log, Repeated(c, n))[i + 1] == rest[i];
    } else {
      FullIsDenied(log, c);
      assert LogReplies(log, Repeated(c, n))[0] == Denied;
    }
  }

  lemma RepliesRepeated(log: Log, c: Call, n: nat)
    requires n >= 1
    ensures |Repeated(c, n - 1)| == n - 1
    ensures LogReplies(log, Repeated(c, n)) == [LogAllow(log, c).reply] + LogReplies(LogAllow(log, c).log, Repeated(c, n - 1))
  {
    hide LogAllow;
    assert Repeated(c, n)[0] == c && Repeated(c, n)[1..] == Repeated(c, n - 1);
  }

  lemma FullIsDenied(log: Log, c: Call)
    requires Valid(c) && CountIn(GrantsOf(log, c.key), c.now - c.window as real, c.now) >= c.limit
    ensures LogAllow(log, c).reply == Denied
  {
  }

  lemma {:induction false} RepliesCount(log: Log, calls: seq<Call>)
    ensures |LogReplies(log, calls)| == |calls|
    decreases |calls|
  {
    if calls != [] { RepliesCount(LogAllow(log, calls[0]).log, calls[1..]); }
  }

  lemma GrantCounts(log: Log, c: Call)
    requires Valid(c) && CountIn(GrantsOf(log, c.key), c.now - c.window as real, c.now) < c.limit
    ensures CountIn(GrantsOf(LogAllow(log, c).log, c.key), c.now - c.window as real, c.now)
         == CountIn(GrantsOf(log, c.key), c.now - c.window as real, c.now) + 1
  {
    var grants := GrantsOf(log, c.key);
    assert (grants + [c.now])[..|grants|] == grants;
  }

  /** Only calls with a valid rule are ever granted. */
  ghost predicate RulesHold(log: Log, rules: string -> Rule) {
    forall key <- log | log[key] != [] :: Valid(Call(key, rules(key).limit, rules(key).window, 0.0))
  }

  lemma RulesStillHold(log: Log, rules: string -> Rule, c: Call)
    requires RulesHold(log, rules) && Follows(c, rules)
    ensures RulesHold(LogAllow(log, c).log, rules)
  {
    hide CountIn;
  }

  lemma VictimStillCounts(s: Limiter, log: Log, rules: string -> Rule, now: real, victim: string)
    requires Remembers(s, log, rules, now) && victim in Crowd(s, now)
    ensures victim in log && log[victim] != []
    ensures CountIn(log[victim], now - rules(victim).window as real, now) >= 1
  {
    assert KeyRemembered(s, log, victim, rules(victim).window as real, now);
    var all, after := GrantsOf(log, victim), now - rules(victim).window as real;
    assert after < all[|all| - 1] <= now;
    hide Tail, Sorted;
  }

  /** After a call without room, the client evicted for it is granted too often: `limit` calls at that very instant are
      all granted, and the full log refuses one of them. */
  lemma EvictedIsOverserved(s: Limiter, log: Log, rules: string -> Rule, maxKeys: nat, c: Call) returns (more: seq<Call>)
    requires Remembers(s, log, rules, c.now) && RulesHold(log, rules) && Follows(c, rules) && Valid(c) && maxKeys >= 1
    requires !HasRoom(s, maxKeys, c)
    ensures Ordered(more, c.now, rules) && OneClient(more)
    ensures var s', log' := Answered(s, maxKeys, c).limiter, LogAllow(log, c).log;
      && (forall i | 0 <= i < |more| :: more[i].now == c.now && i < |Replies(s', maxKeys, more)| && Replies(s', maxKeys, more)[i] == Granted)
      && Replies(s', maxKeys, more) != LogReplies(log', more)
  {
    hide Remembers, Answered, LogAllow, Crowd, AfterExpiry, MakeRoom, CountIn;
    RoomForgetsNothing(s, log, rules, maxKeys, c.now);
    var victim :| victim in Crowd(s, c.now) && MakeRoom(s, maxKeys, c.now) == Without(AfterExpiry(s, c.now), {victim});
    VictimStillCounts(s, log, rules, c.now, victim);
    VictimIsGone(s, log, maxKeys, c, victim);
    var again := Call(victim, rules(victim).limit, rules(victim).window, c.now);
    more := Repeated(again, again.limit);
    RepeatedIsOrdered(again, again.limit, rules);
    StrangerIsGranted(Answered(s, maxKeys, c).limiter, maxKeys, again, 0, again.limit);
    LogRefusesOne(LogAllow(log, c).log, again, again.limit);
  }

  lemma VictimIsGone(s: Limiter, log: Log, maxKeys: nat, c: Call, victim: string)
    requires Valid(c) && !HasRoom(s, maxKeys, c) && victim in Crowd(s, c.now)
    requires MakeRoom(s, maxKeys, c.now) == Without(AfterExpiry(s, c.now), {victim})
    ensures victim != c.key && victim !in Answered(s, maxKeys, c).limiter.events
    ensures GrantsOf(LogAllow(log, c).log, victim) == GrantsOf(log, victim)
  {
    hide MakeRoom, CountIn, Pruned;
  }

  lemma {:induction false} RepeatedIsOrdered(c: Call, n: nat, rules: string -> Rule)
    requires Follows(c, rules)
    ensures Ordered(Repeated(c, n), c.now, rules) && OneClient(Repeated(c, n))
    decreases n
  {
    if n > 0 {
      RepeatedIsOrdered(c, n - 1, rules);
      assert Repeated(c, n)[0] == c && Repeated(c, n)[1..] == Repeated(c, n - 1);
    }
  }

  /** On the answers: a call leaves every single client answered as by the full log exactly when there was room. */
  lemma CallStaysFaithfulExactly(s: Limiter, log: Log, rules: string -> Rule, maxKeys: nat, c: Call)
    requires Remembers(s, log, rules, c.now) && RulesHold(log, rules) && Follows(c, rules) && Valid(c) && maxKeys >= 1
    ensures Faithful(Answered(s, maxKeys, c).limiter, LogAllow(log, c).log, rules, maxKeys, c.now) <==> HasRoom(s, maxKeys, c)
  {
    hide Remembers, Answered, LogAllow, HasRoom, RulesHold;
    if HasRoom(s, maxKeys, c) {
      CallRemembersExactly(s, log, rules, maxKeys, c);
      RememberingIsFaithful(Answered(s, maxKeys, c).limiter, LogAllow(log, c).log, rules, maxKeys, c.now);
    } else {
      var more := EvictedIsOverserved(s, log, rules, maxKeys, c);
    }
  }

  /** Faithful at the start of a run and after each of its calls. */
  ghost predicate FaithfulThroughout(s: Limiter, log: Log, rules: string -> Rule, maxKeys: nat, now: real, calls: seq<Call>)
    decreases |calls|
  {
    && Faithful(s, log, rules, maxKeys, now)
    && (calls == [] || FaithfulThroughout(Answered(s, maxKeys, calls[0]).limiter, LogAllow(log, calls[0]).log, rules, maxKeys,
                                          calls[0].now, calls[1..]))
  }

  lemma {:induction false} RunFaithfulExactly(s: Limiter, log: Log, rules: string -> Rule, maxKeys: nat, start: real, calls: seq<Call>)
    requires Remembers(s, log, rules, start) && RulesHold(log, rules) && Ordered(calls, start, rules) && maxKeys >= 1
    ensures FaithfulThroughout(s, log, rules, maxKeys, start, calls) <==> AlwaysRoom(s, maxKeys, calls)
    decreases |calls|
  {
    hide Remembers, Answered, LogAllow, HasRoom, RulesHold, Faithful;
    RememberingIsFaithful(s, log, rules, maxKeys, start);
    if calls != [] {
      var c := calls[0];
      var s', log' := Answered(s, maxKeys, c).limiter, LogAllow(log, c).log;
      TimePasses(s, log, rules, start, c.now);
      RulesStillHold(log, rules, c);
      if Valid(c) {
        CallStaysFaithfulExactly(s, log, rules, maxKeys, c);
        CallRemembersExactly(s, log, rules, maxKeys, c);
      } else {
        InvalidChangesNothing(s, log, maxKeys, c);
      }
      if Remembers(s', log', rules, c.now) { RunFaithfulExactly(s', log', rules, maxKeys, c.now, calls[1..]); }
    }
  }

  /** A run of the new limiter keeps every single client answered as by the full log, at each of its moments, exactly
      when fewer than `maxKeys` other keys hold unexpired grants whenever a new key arrives. */
  lemma FreshLimiterFaithfulExactly(rules: string -> Rule, maxKeys: nat, start: real, calls: seq<Call>)
    requires maxKeys >= 1 && Ordered(calls, start, rules)
    ensures FaithfulThroughout(FRESH, map[], rules, maxKeys, start, calls) <==> AlwaysRoom(FRESH, maxKeys, calls)
  {
    RunFaithfulExactly(FRESH, map[], rules, maxKeys, start, calls);
  }

  // ---- each answer, from the calls and answers before it

  /** The earlier calls of the client that were granted inside the window that ends with this call. */
  function GrantsInWindow(calls: seq<Call>, replies: seq<Reply>, i: nat): set<nat>
    requires i < |calls| == |replies|
  {
    set j: nat | j < i && calls[j].key == calls[i].key && replies[j] == Granted && calls[i].now - calls[i].window as real < calls[j].now
  }

  lemma {:induction false} LogReplyAt(log: Log, calls: seq<Call>, i: nat)
    requires i < |calls|
    ensures |LogReplies(log, calls)| == |calls| && LogReplies(log, calls)[..i] == LogReplies(log, calls[..i])
    ensures LogReplies(log, calls)[i] == LogAllow(FinalLog(log, calls[..i]), calls[i]).reply
    decreases |calls|
  {
    hide LogAllow;
    LogHoldsItsGrants(log, calls, "");
    if i > 0 {
      var next, replies := LogAllow(log, calls[0]).log, LogReplies(log, calls);
      LogReplyAt(next, calls[1..], i - 1);
      assert calls[..i][1..] == calls[1..][..i - 1] && calls[..i][0] == calls[0];
      assert replies == [LogAllow(log, calls[0]).reply] + LogReplies(next, calls[1..]);
      assert replies[..i] == [replies[0]] + LogReplies(next, calls[1..])[..i - 1];
    } else {
      assert calls[..0] == [];
    }
  }

  lemma {:induction false} GrantTimesOnward(calls: seq<Call>, replies: seq<Reply>, c: Call, r: Reply, key: string)
    requires |replies| == |calls|
    ensures GrantTimes(calls + [c], replies + [r], key) == GrantTimes(calls, replies, key) + if c.key == key && r == Granted then [c.now] else []
    decreases |calls|
  {
    if calls == [] {
      assert calls + [c] == [c] && replies + [r] == [r] && [c][1..] == [];
    } else {
      assert (calls + [c])[1..] == calls[1..] + [c] && (replies + [r])[1..] == replies[1..] + [r];
      GrantTimesOnward(calls[1..], replies[1..], c, r, key);
    }
  }

  /** The positions of the client's grants after this time. */
  function GrantedSince(calls: seq<Call>, replies: seq<Reply>, key: string, after: real): set<nat>
    requires |replies| == |calls|
  {
    set j: nat | j < |calls| && calls[j].key == key && replies[j] == Granted && after < calls[j].now
  }

  lemma GrantedOnward(calls: seq<Call>, replies: seq<Reply>, c: Call, r: Reply, key: string, after: real)
    requires |replies| == |calls|
    ensures |GrantedSince(calls + [c], replies + [r], key, after)|
         == |GrantedSince(calls, replies, key, after)| + if c.key == key && r == Granted && after < c.now then 1 else 0
  {
    var before, all := GrantedSince(calls, replies, key, after), GrantedSince(calls + [c], replies + [r], key, after);
    assert all == before + if c.key == key && r == Granted && after < c.now then {|calls|} else {};
  }

  lemma CountOnward(grants: seq<real>, grant: real, after: real, upTo: real)
    ensures CountIn(grants + [grant], after, upTo) == CountIn(grants, after, upTo) + if after < grant <= upTo then 1 else 0
  {
    assert (grants + [grant])[..|grants|] == grants;
  }

  lemma {:induction false} CountedGrants(calls: seq<Call>, replies: seq<Reply>, key: string, after: real, upTo: real)
    requires |replies| == |calls| && forall j | 0 <= j < |calls| :: calls[j].now <= upTo
    ensures CountIn(GrantTimes(calls, replies, key), after, upTo) == |GrantedSince(calls, replies, key, after)|
    decreases |calls|
  {
    if calls == [] {
      assert GrantedSince(calls, replies, key, after) == {};
    } else {
      var n := |calls| - 1;
      CountedGrants(calls[..n], replies[..n], key, after, upTo);
      assert calls == calls[..n] + [calls[n]] && replies == replies[..n] + [replies[n]];
      hide GrantTimes, CountIn, GrantedSince;
      GrantTimesOnward(calls[..n], replies[..n], calls[n], replies[n], key);
      GrantedOnward(calls[..n], replies[..n], calls[n], replies[n], key, after);
      var times := GrantTimes(calls[..n], replies[..n], key);
      CountOnward(times, calls[n].now, after, upTo);
      assert times + [] == times;
    }
  }

  lemma {:induction false} OrderedUpTo(calls: seq<Call>, start: real, rules: string -> Rule, i: nat)
    requires Ordered(calls, start, rules) && i < |calls|
    ensures start <= calls[i].now && forall j | 0 <= j <= i :: calls[j].now <= calls[i].now
    decreases |calls|
  {
    if i > 0 {
      OrderedUpTo(calls[1..], calls[0].now, rules, i - 1);
      assert forall j | 0 < j <= i :: calls[j] == calls[1..][j - 1];
    }
  }

  /** With room for every new key, a call is granted exactly when it names a client and a real limit and window, and fewer
      than the limit of that client's earlier calls were granted inside the window. */
  lemma AnswersBySlidingWindow(rules: string -> Rule, maxKeys: nat, start: real, calls: seq<Call>, i: nat)
    requires maxKeys >= 1 && Ordered(calls, start, rules) && AlwaysRoom(FRESH, maxKeys, calls) && i < |calls|
    ensures |Replies(FRESH, maxKeys, calls)| == |calls|
    ensures var replies := Replies(FRESH, maxKeys, calls);
      replies[i] == Granted <==>
        && calls[i].key != "" && calls[i].limit >= 1 && calls[i].window >= 1
        && |GrantsInWindow(calls, replies, i)| < calls[i].limit
  {
    hide Ordered, AlwaysRoom, Replies, CountIn, FinalLog, LogReplies, GrantTimes;
    FreshLimiterAnswersAsLog(rules, maxKeys, start, calls);
    var c, replies := calls[i], LogReplies(map[], calls);
    LogReplyAt(map[], calls, i);
    LogHoldsItsGrants(map[], calls[..i], c.key);
    OrderedUpTo(calls, start, rules, i);
    CountedGrants(calls[..i], replies[..i], c.key, c.now - c.window as real, c.now);
    var grants := GrantTimes(calls[..i], replies[..i], c.key);
    assert GrantsOf(map[], c.key) + grants == grants;
    assert GrantsInWindow(calls, replies, i) == GrantedSince(calls[..i], replies[..i], c.key, c.now - c.window as real);
  }
}
