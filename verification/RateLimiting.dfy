/** The sliding-window limiter of the authentication endpoints (src/agent_memory_gateway/rate_limit.py), and
    when its bounded memory answers like a limiter that keeps every grant. Clock readings are reals. */
module RateLimiting {
  import opened TextOrder

  datatype Limiter = Limiter(events: map<string, seq<real>>, expiresAt: map<string, real>)

  datatype Reply = Granted | Denied | Invalid

  datatype Call = Call(key: string, limit: int, window: int, now: real)

  datatype Step = Step(limiter: Limiter, reply: Reply)

  // ---- one call

  function Pruned(grants: seq<real>, cutoff: real): seq<real> {
    if grants != [] && grants[0] <= cutoff then Pruned(grants[1..], cutoff) else grants
  }

  function ExpiryOf(s: Limiter, key: string, otherwise: real): real {
    if key in s.expiresAt then s.expiresAt[key] else otherwise
  }

  function Without(s: Limiter, keys: set<string>): Limiter {
    Limiter(s.events - keys, s.expiresAt - keys)
  }

  function AfterExpiry(s: Limiter, now: real): Limiter {
    Without(s, set k | k in s.events && ExpiryOf(s, k, now) <= now)
  }

  /** The order of the pairs (expiry, key). */
  predicate ExpiresBefore(s: Limiter, a: string, b: string) {
    ExpiryOf(s, a, 0.0) < ExpiryOf(s, b, 0.0) || (ExpiryOf(s, a, 0.0) == ExpiryOf(s, b, 0.0) && Before(a, b))
  }

  predicate IsEarliest(s: Limiter, key: string) {
    key in s.events && forall k <- s.events | k != key :: ExpiresBefore(s, key, k)
  }

  lemma EarliestAmong(s: Limiter, keys: set<string>) returns (key: string)
    requires keys != {}
    ensures key in keys && forall k <- keys | k != key :: ExpiresBefore(s, key, k)
    decreases keys
  {
    key :| key in keys;
    if keys != {key} {
      var rest := EarliestAmong(s, keys - {key});
      BeforeIsTotal(key, rest);
      if ExpiresBefore(s, key, rest) {
        EarlierStays(s, key, rest, keys);
        assert forall k <- keys | k != key :: k in keys - {key};
      } else {
        key := rest;
      }
    }
  }

  lemma EarliestExists(s: Limiter)
    requires s.events.Keys != {}
    ensures exists key :: IsEarliest(s, key)
  {
    var key := EarliestAmong(s, s.events.Keys);
    assert IsEarliest(s, key);
  }

  ghost function Earliest(s: Limiter): (key: string)
    requires s.events.Keys != {}
    ensures IsEarliest(s, key)
  {
    EarliestExists(s);
    var key :| IsEarliest(s, key);
    key
  }

  lemma EarliestIsUnique(s: Limiter, a: string, b: string)
    requires IsEarliest(s, a) && IsEarliest(s, b)
    ensures a == b
  {
    BeforeIsTotal(a, b);
  }

  ghost function MakeRoom(s: Limiter, maxKeys: nat, now: real): Limiter {
    if |s.events| < maxKeys then s
    else
      var live := AfterExpiry(s, now);
      if |live.events| < maxKeys || live.events.Keys == {} then live else Without(live, {Earliest(live)})
  }

  ghost function Admitted(s: Limiter, maxKeys: nat, key: string, now: real): (admitted: Limiter)
    ensures key in admitted.events
  {
    if key in s.events then s
    else
      var room := MakeRoom(s, maxKeys, now);
      room.(events := room.events[key := []])
  }

  ghost function Answered(s: Limiter, maxKeys: nat, c: Call): Step {
    if c.key == "" || c.limit < 1 || c.window < 1 then Step(s, Invalid)
    else
      var admitted := Admitted(s, maxKeys, c.key, c.now);
      var recent := Pruned(admitted.events[c.key], c.now - c.window as real);
      if |recent| >= c.limit then Step(admitted.(events := admitted.events[c.key := recent]), Denied)
      else
        var until := c.now + c.window as real;
        var kept := ExpiryOf(admitted, c.key, c.now);
        Step(Limiter(admitted.events[c.key := recent + [c.now]], admitted.expiresAt[c.key := if kept > until then kept else until]),
             Granted)
  }

  /** The limiter as it runs. */
  class SlidingWindowRateLimiter {
    const maxKeys: nat
    var events: map<string, seq<real>>
    var expiresAt: map<string, real>

    ghost function State(): Limiter
      reads this
    {
      Limiter(events, expiresAt)
    }

    constructor (maxKeys: nat)
      requires maxKeys >= 1
      ensures this.maxKeys == maxKeys && State() == Limiter(map[], map[])
    {
      this.maxKeys := maxKeys;
      events, expiresAt := map[], map[];
    }

    method Allow(key: string, limit: int, window: int, now: real) returns (reply: Reply)
      modifies this
      ensures Step(State(), reply) == Answered(old(State()), maxKeys, Call(key, limit, window, now))
    {
      hide MakeRoom;
      if key == "" || limit < 1 || window < 1 { return Invalid; }
      var cutoff := now - window as real;
      Admit(key, now);
      ghost var admitted := State();
      hide Admitted;
      while events[key] != [] && events[key][0] <= cutoff
        invariant key in events && expiresAt == admitted.expiresAt
        invariant events == admitted.events[key := events[key]]
        invariant Pruned(events[key], cutoff) == Pruned(admitted.events[key], cutoff)
        decreases |events[key]|
      {
        events := events[key := events[key][1..]];
      }
      if |events[key]| >= limit { return Denied; }
      events := events[key := events[key] + [now]];
      var kept := if key in expiresAt then expiresAt[key] else now;
      expiresAt := expiresAt[key := if kept > now + window as real then kept else now + window as real];
      return Granted;
    }

    /** The part of allow that makes room for a key it does not hold. */
    method Admit(key: string, now: real)
      modifies this
      ensures State() == Admitted(old(State()), maxKeys, key, now) && key in events
    {
      if key !in events {
        if |events| >= maxKeys { DiscardExpired(now); }
        if |events| >= maxKeys { DiscardEarliestExpiring(); }
        events := events[key := []];
      }
    }

    method DiscardExpired(now: real)
      modifies this
      ensures State() == AfterExpiry(old(State()), now)
    {
      hide Without;
      var todo := events.Keys;
      ghost var start := State();
      ghost var gone: set<string> := {};
      NoneGone(start);
      while todo != {}
        invariant todo <= start.events.Keys && todo !! gone
        invariant State() == Without(start, gone)
        invariant gone == set k | k in start.events && k !in todo && ExpiryOf(start, k, now) <= now
        decreases todo
      {
        var key :| key in todo;
        todo := todo - {key};
        OneMoreGone(start, gone, key);
        if (if key in expiresAt then expiresAt[key] else now) <= now {
          gone := gone + {key};
          events, expiresAt := events - {key}, expiresAt - {key};
        }
      }
      assert gone == set k | k in start.events && ExpiryOf(start, k, now) <= now;
    }

    method DiscardEarliestExpiring()
      modifies this
      ensures State() == if old(State()).events.Keys == {} then old(State()) else Without(old(State()), {Earliest(old(State()))})
    {
      if events.Keys == {} { return; }
      ghost var start := State();
      var key :| key in events;
      var todo := events.Keys - {key};
      while todo != {}
        invariant State() == start && todo <= events.Keys && key in events && key !in todo
        invariant forall k <- events.Keys - todo | k != key :: ExpiresBefore(start, key, k)
        decreases todo
      {
        var other :| other in todo;
        todo := todo - {other};
        BeforeIsTotal(key, other);
        var a := if key in expiresAt then expiresAt[key] else 0.0;
        var b := if other in expiresAt then expiresAt[other] else 0.0;
        if b < a || (b == a && Before(other, key)) {
          EarlierStays(start, other, key, events.Keys);
          key := other;
        }
      }
      EarliestIsUnique(start, key, Earliest(start));
      events, expiresAt := events - {key}, expiresAt - {key};
    }
  }

  lemma NoneGone(s: Limiter)
    ensures Without(s, {}) == s
  {
  }

  lemma OneMoreGone(s: Limiter, gone: set<string>, key: string)
    requires key !in gone
    ensures Without(s, gone + {key}) == Limiter(Without(s, gone).events - {key}, Without(s, gone).expiresAt - {key})
    ensures key in Without(s, gone).expiresAt <==> key in s.expiresAt
    ensures key in s.expiresAt ==> Without(s, gone).expiresAt[key] == s.expiresAt[key]
  {
  }

  lemma EarlierStays(s: Limiter, first: string, second: string, keys: set<string>)
    requires ExpiresBefore(s, first, second)
    ensures forall k <- keys | ExpiresBefore(s, second, k) :: ExpiresBefore(s, first, k)
  {
    forall k <- keys | ExpiresBefore(s, second, k) ensures ExpiresBefore(s, first, k) {
      if Before(first, second) && Before(second, k) { BeforeIsTransitive(first, second, k); }
    }
  }

  // ---- the limiter that forgets nothing

  type Log = map<string, seq<real>>

  function GrantsOf(log: Log, key: string): seq<real> {
    if key in log then log[key] else []
  }

  function CountIn(grants: seq<real>, after: real, upTo: real): nat {
    if grants == [] then 0
    else
      var n := |grants| - 1;
      CountIn(grants[..n], after, upTo) + if after < grants[n] <= upTo then 1 else 0
  }

  datatype Logged = Logged(log: Log, reply: Reply)

  /** Grant when fewer than `limit` of all the key's grants lie in the window that ends now. */
  function LogAllow(log: Log, c: Call): Logged {
    if c.key == "" || c.limit < 1 || c.window < 1 then Logged(log, Invalid)
    else if CountIn(GrantsOf(log, c.key), c.now - c.window as real, c.now) >= c.limit then Logged(log, Denied)
    else Logged(log[c.key := GrantsOf(log, c.key) + [c.now]], Granted)
  }

  datatype Rule = Rule(limit: int, window: int)

  /** Each key is always limited by its own rule. */
  predicate Follows(c: Call, rules: string -> Rule) {
    c.limit == rules(c.key).limit && c.window == rules(c.key).window
  }

  predicate Sorted(grants: seq<real>) {
    forall i, j | 0 <= i < j < |grants| :: grants[i] <= grants[j]
  }

  /** The key's kept grants are the tail of its log, and everything before that tail has left the window. */
  predicate Tail(kept: seq<real>, all: seq<real>, cutoff: real) {
    && |kept| <= |all|
    && kept == all[|all| - |kept|..]
    && forall i | 0 <= i < |all| - |kept| :: all[i] <= cutoff
  }

  ghost predicate KeyRemembered(s: Limiter, log: Log, key: string, window: real, now: real) {
    var all := GrantsOf(log, key);
    && Sorted(all)
    && (all != [] ==> all[|all| - 1] <= now)
    && (key in s.events <==> key in s.expiresAt)
    && (if key in s.events then
          all != [] && Tail(s.events[key], all, now - window) && s.expiresAt[key] == all[|all| - 1] + window
        else
          forall i | 0 <= i < |all| :: all[i] <= now - window)
  }

  /** At time `now` the limiter still knows every grant that a window ending now or later could contain. */
  ghost predicate Remembers(s: Limiter, log: Log, rules: string -> Rule, now: real) {
    forall key: string :: KeyRemembered(s, log, key, rules(key).window as real, now)
  }

  /** The keys that hold an unexpired grant. */
  function Crowd(s: Limiter, now: real): set<string> {
    set k | k in s.events && ExpiryOf(s, k, now) > now
  }

  /** A known key, or room for a new one once expired keys are gone. */
  predicate HasRoom(s: Limiter, maxKeys: nat, c: Call) {
    c.key in s.events || |Crowd(s, c.now)| < maxKeys
  }

  lemma TimePasses(s: Limiter, log: Log, rules: string -> Rule, earlier: real, now: real)
    requires Remembers(s, log, rules, earlier) && earlier <= now
    ensures Remembers(s, log, rules, now)
  {
    forall key: string ensures KeyRemembered(s, log, key, rules(key).window as real, now) {
      assert KeyRemembered(s, log, key, rules(key).window as real, earlier);
    }
  }

  /** Dropping expired keys forgets nothing; the keys left are those of the crowd. */
  lemma ExpiryForgetsNothing(s: Limiter, log: Log, rules: string -> Rule, now: real)
    requires Remembers(s, log, rules, now)
    ensures Remembers(AfterExpiry(s, now), log, rules, now) && AfterExpiry(s, now).events.Keys == Crowd(s, now)
  {
    var live := AfterExpiry(s, now);
    forall key: string ensures KeyRemembered(live, log, key, rules(key).window as real, now) {
      assert KeyRemembered(s, log, key, rules(key).window as real, now);
    }
  }

  /** Evicting a key of the crowd forgets a grant that still counts. */
  lemma EvictionForgets(s: Limiter, log: Log, rules: string -> Rule, now: real, victim: string)
    requires Remembers(s, log, rules, now) && victim in Crowd(s, now)
    ensures !KeyRemembered(Without(s, {victim}), log, victim, rules(victim).window as real, now)
  {
    assert KeyRemembered(s, log, victim, rules(victim).window as real, now);
    var all := GrantsOf(log, victim);
    assert all[|all| - 1] > now - rules(victim).window as real;
  }

  lemma RoomForgetsNothing(s: Limiter, log: Log, rules: string -> Rule, maxKeys: nat, now: real)
    requires Remembers(s, log, rules, now) && maxKeys >= 1
    ensures |Crowd(s, now)| < maxKeys ==> Remembers(MakeRoom(s, maxKeys, now), log, rules, now)
    ensures |Crowd(s, now)| >= maxKeys ==> exists victim <- Crowd(s, now) :: MakeRoom(s, maxKeys, now) == Without(AfterExpiry(s, now), {victim})
  {
    ExpiryForgetsNothing(s, log, rules, now);
    var live := AfterExpiry(s, now);
    hide Remembers;
    if |Crowd(s, now)| >= maxKeys {
      CrowdIsHeld(s, now);
      assert Earliest(live) in Crowd(s, now);
      assert MakeRoom(s, maxKeys, now) == Without(live, {Earliest(live)});
    }
  }

  lemma CrowdIsHeld(s: Limiter, now: real)
    ensures |Crowd(s, now)| <= |s.events|
  {
    SubsetIsSmaller(Crowd(s, now), s.events.Keys);
  }

  lemma {:induction false} SubsetIsSmaller(a: set<string>, b: set<string>)
    requires a <= b
    ensures |a| <= |b|
    decreases a
  {
    if a != {} {
      var x :| x in a;
      SubsetIsSmaller(a - {x}, b - {x});
    }
  }

  // ---- counting

  lemma {:induction false} CountAppend(a: seq<real>, b: seq<real>, after: real, upTo: real)
    ensures CountIn(a + b, after, upTo) == CountIn(a, after, upTo) + CountIn(b, after, upTo)
  {
    if b == [] {
      assert a + b == a;
    } else {
      assert (a + b)[..|a + b| - 1] == a + b[..|b| - 1];
      CountAppend(a, b[..|b| - 1], after, upTo);
    }
  }

  lemma {:induction false} CountNone(a: seq<real>, after: real, upTo: real)
    requires forall i | 0 <= i < |a| :: a[i] <= after
    ensures CountIn(a, after, upTo) == 0
  {
    if a != [] { CountNone(a[..|a| - 1], after, upTo); }
  }

  lemma {:induction false} CountAll(a: seq<real>, after: real, upTo: real)
    requires forall i | 0 <= i < |a| :: after < a[i] <= upTo
    ensures CountIn(a, after, upTo) == |a|
  {
    if a != [] { CountAll(a[..|a| - 1], after, upTo); }
  }

  /** Pruning a tail leaves a tail, and what is left is exactly the grants inside the window. */
  lemma {:induction false} PrunedCounts(kept: seq<real>, all: seq<real>, cutoff: real, now: real)
    requires Sorted(all) && Tail(kept, all, cutoff) && (all != [] ==> all[|all| - 1] <= now)
    ensures Tail(Pruned(kept, cutoff), all, cutoff) && |Pruned(kept, cutoff)| == CountIn(all, cutoff, now)
    decreases |kept|
  {
    if kept != [] && kept[0] <= cutoff {
      ShorterTail(kept, all, cutoff);
      hide Tail, Sorted;
      PrunedCounts(kept[1..], all, cutoff, now);
    } else {
      TailCounts(kept, all, cutoff, now);
      hide Tail, Sorted;
    }
  }

  lemma ShorterTail(kept: seq<real>, all: seq<real>, cutoff: real)
    requires Tail(kept, all, cutoff) && kept != [] && kept[0] <= cutoff
    ensures Tail(kept[1..], all, cutoff)
  {
    assert kept[1..] == all[|all| - |kept[1..]|..];
    assert kept[0] == all[|all| - |kept|];
  }

  lemma TailCounts(kept: seq<real>, all: seq<real>, cutoff: real, now: real)
    requires Sorted(all) && Tail(kept, all, cutoff) && (all != [] ==> all[|all| - 1] <= now)
    requires kept != [] ==> kept[0] > cutoff
    ensures CountIn(all, cutoff, now) == |kept|
  {
    hide CountIn, Sorted, Tail;
    TailSplits(kept, all, cutoff, now);
    var gone := all[..|all| - |kept|];
    CountAppend(gone, kept, cutoff, now);
    CountNone(gone, cutoff, now);
    CountAll(kept, cutoff, now);
  }

  lemma TailSplits(kept: seq<real>, all: seq<real>, cutoff: real, now: real)
    requires Sorted(all) && Tail(kept, all, cutoff) && (all != [] ==> all[|all| - 1] <= now)
    requires kept != [] ==> kept[0] > cutoff
    ensures |kept| <= |all| && all == all[..|all| - |kept|] + kept
    ensures forall i | 0 <= i < |all| - |kept| :: all[i] <= cutoff
    ensures forall i | 0 <= i < |kept| :: cutoff < kept[i] <= now
  {
    var g := |all| - |kept|;
    forall i | 0 <= i < |kept| ensures cutoff < kept[i] <= now {
      assert kept[i] == all[g + i] && kept[0] == all[g];
    }
  }

  // ---- one call, against the full log

  predicate Valid(c: Call) {
    c.key != "" && c.limit >= 1 && c.window >= 1
  }

  /** Given what it remembers of the caller's key, the limiter answers as the full log does. */
  lemma AnswersAsLog(s: Limiter, log: Log, maxKeys: nat, c: Call)
    requires KeyRemembered(s, log, c.key, c.window as real, c.now) && maxKeys >= 1
    ensures Answered(s, maxKeys, c).reply == LogAllow(log, c).reply
  {
    hide KeyRemembered, Admitted, CountIn, Pruned, Tail, Sorted;
    if Valid(c) {
      AdmittedTail(s, log, maxKeys, c);
      PrunedCounts(Admitted(s, maxKeys, c.key, c.now).events[c.key], GrantsOf(log, c.key), c.now - c.window as real, c.now);
    }
  }

  lemma AdmittedTail(s: Limiter, log: Log, maxKeys: nat, c: Call)
    requires KeyRemembered(s, log, c.key, c.window as real, c.now)
    ensures var all := GrantsOf(log, c.key);
      && Sorted(all) && (all != [] ==> all[|all| - 1] <= c.now)
      && Tail(Admitted(s, maxKeys, c.key, c.now).events[c.key], all, c.now - c.window as real)
  {
    hide MakeRoom;
  }

  /** What the call changes: only its own key, apart from the keys dropped to make room. */
  lemma OwnKeyRemembered(s: Limiter, log: Log, maxKeys: nat, c: Call)
    requires KeyRemembered(s, log, c.key, c.window as real, c.now) && Valid(c) && maxKeys >= 1
    ensures KeyRemembered(Answered(s, maxKeys, c).limiter, LogAllow(log, c).log, c.key, c.window as real, c.now)
  {
    hide Admitted, CountIn, Pruned, Tail, Sorted, KeyRemembered;
    AnswersAsLog(s, log, maxKeys, c);
    AdmittedTail(s, log, maxKeys, c);
    AdmittedExpiry(s, log, maxKeys, c);
    var admitted, cutoff := Admitted(s, maxKeys, c.key, c.now), c.now - c.window as real;
    PrunedCounts(admitted.events[c.key], GrantsOf(log, c.key), cutoff, c.now);
    PrunedIsShorter(admitted.events[c.key], cutoff);
    KeyRecorded(admitted, log, Pruned(admitted.events[c.key], cutoff), c);
  }

  lemma {:induction false} PrunedIsShorter(grants: seq<real>, cutoff: real)
    ensures |Pruned(grants, cutoff)| <= |grants|
    decreases |grants|
  {
    if grants != [] { PrunedIsShorter(grants[1..], cutoff); }
  }

  /** The key after a refused and after a granted call, given the pruned tail of its grants. */
  lemma KeyRecorded(s: Limiter, log: Log, recent: seq<real>, c: Call)
    requires var all := GrantsOf(log, c.key);
      && Sorted(all) && (all != [] ==> all[|all| - 1] <= c.now) && Tail(recent, all, c.now - c.window as real)
      && (c.key in s.expiresAt ==> all != [] && s.expiresAt[c.key] == all[|all| - 1] + c.window as real)
    ensures c.key in s.expiresAt ==>
      KeyRemembered(s.(events := s.events[c.key := recent]), log, c.key, c.window as real, c.now)
    ensures KeyRemembered(Limiter(s.events[c.key := recent + [c.now]], s.expiresAt[c.key := c.now + c.window as real]),
                          log[c.key := GrantsOf(log, c.key) + [c.now]], c.key, c.window as real, c.now)
  {
    hide Tail, Sorted;
    var all := GrantsOf(log, c.key);
    GrantedTail(recent, all, c.now - c.window as real, c.now);
    GrantRecorded(Limiter(s.events[c.key := recent + [c.now]], s.expiresAt[c.key := c.now + c.window as real]),
                  log[c.key := all + [c.now]], all + [c.now], recent + [c.now], c);
  }

  lemma GrantRecorded(s: Limiter, log: Log, all: seq<real>, kept: seq<real>, c: Call)
    requires c.key in log && log[c.key] == all && all != [] && all[|all| - 1] == c.now && Sorted(all)
    requires c.key in s.events && s.events[c.key] == kept && Tail(kept, all, c.now - c.window as real)
    requires c.key in s.expiresAt && s.expiresAt[c.key] == c.now + c.window as real
    ensures KeyRemembered(s, log, c.key, c.window as real, c.now)
  {
    hide Tail, Sorted;
  }

  lemma GrantedTail(kept: seq<real>, all: seq<real>, cutoff: real, now: real)
    requires Sorted(all) && Tail(kept, all, cutoff) && (all != [] ==> all[|all| - 1] <= now)
    ensures Sorted(all + [now]) && Tail(kept + [now], all + [now], cutoff)
  {
    hide Sorted, Tail;
    LastIsGreatest(all, now);
    SortedAppend(all, now);
    TailAppend(kept, all, cutoff, now);
  }

  lemma LastIsGreatest(all: seq<real>, now: real)
    requires Sorted(all) && (all != [] ==> all[|all| - 1] <= now)
    ensures forall i | 0 <= i < |all| :: all[i] <= now
  {
    forall i | 0 <= i < |all| ensures all[i] <= now {
      assert i < |all| - 1 ==> all[i] <= all[|all| - 1];
    }
  }

  lemma SortedAppend(all: seq<real>, now: real)
    requires Sorted(all) && forall i | 0 <= i < |all| :: all[i] <= now
    ensures Sorted(all + [now])
  {
  }

  lemma TailAppend(kept: seq<real>, all: seq<real>, cutoff: real, now: real)
    requires Tail(kept, all, cutoff)
    ensures Tail(kept + [now], all + [now], cutoff)
  {
    var all' := all + [now];
    assert kept + [now] == all'[|all'| - |kept + [now]|..];
  }

  lemma AdmittedExpiry(s: Limiter, log: Log, maxKeys: nat, c: Call)
    requires KeyRemembered(s, log, c.key, c.window as real, c.now)
    ensures var admitted, all := Admitted(s, maxKeys, c.key, c.now), GrantsOf(log, c.key);
      && (c.key in admitted.expiresAt ==>
            all != [] && all[|all| - 1] <= c.now && admitted.expiresAt[c.key] == all[|all| - 1] + c.window as real)
      && (admitted.events[c.key] != [] ==> c.key in admitted.expiresAt)
  {
    hide Tail, Sorted;
  }

  ghost function Roomy(s: Limiter, maxKeys: nat, c: Call): Limiter {
    if c.key in s.events then s else MakeRoom(s, maxKeys, c.now)
  }

  lemma OtherKeysKeep(s: Limiter, log: Log, maxKeys: nat, c: Call, key: string, window: real)
    requires key != c.key && Valid(c)
    ensures KeyRemembered(Answered(s, maxKeys, c).limiter, LogAllow(log, c).log, key, window, c.now)
       <==> KeyRemembered(Roomy(s, maxKeys, c), log, key, window, c.now)
  {
    hide MakeRoom, Pruned, CountIn, Sorted, Tail;
    OtherKeysSame(s, log, maxKeys, c, key);
  }

  lemma OtherKeysSame(s: Limiter, log: Log, maxKeys: nat, c: Call, key: string)
    requires key != c.key && Valid(c)
    ensures var s', base := Answered(s, maxKeys, c).limiter, Roomy(s, maxKeys, c);
      && GrantsOf(LogAllow(log, c).log, key) == GrantsOf(log, key)
      && (key in s'.events <==> key in base.events) && (key in s'.expiresAt <==> key in base.expiresAt)
      && (key in s'.events ==> s'.events[key] == base.events[key])
      && (key in s'.expiresAt ==> s'.expiresAt[key] == base.expiresAt[key])
  {
    hide MakeRoom, Pruned, CountIn;
  }

  /** A call leaves every grant that still counts remembered exactly when there was room for its key: with
      `maxKeys` unexpired keys held, admitting another forgets one of them. */
  lemma CallRemembersExactly(s: Limiter, log: Log, rules: string -> Rule, maxKeys: nat, c: Call)
    requires Remembers(s, log, rules, c.now) && Follows(c, rules) && Valid(c) && maxKeys >= 1
    ensures Remembers(Answered(s, maxKeys, c).limiter, LogAllow(log, c).log, rules, c.now) <==> HasRoom(s, maxKeys, c)
  {
    hide KeyRemembered, Answered, LogAllow, MakeRoom, AfterExpiry, Crowd;
    var s', log', base := Answered(s, maxKeys, c).limiter, LogAllow(log, c).log, Roomy(s, maxKeys, c);
    assert KeyRemembered(s, log, c.key, rules(c.key).window as real, c.now);
    OwnKeyRemembered(s, log, maxKeys, c);
    RoomForgetsNothing(s, log, rules, maxKeys, c.now);
    if HasRoom(s, maxKeys, c) {
      forall key: string ensures KeyRemembered(s', log', key, rules(key).window as real, c.now) {
        if key != c.key {
          assert KeyRemembered(base, log, key, rules(key).window as real, c.now);
          OtherKeysKeep(s, log, maxKeys, c, key, rules(key).window as real);
        }
      }
    } else {
      var victim :| victim in Crowd(s, c.now) && base == Without(AfterExpiry(s, c.now), {victim});
      ExpiryForgetsNothing(s, log, rules, c.now);
      CrowdKeys(s, AfterExpiry(s, c.now), c.now, victim);
      EvictionForgets(AfterExpiry(s, c.now), log, rules, c.now, victim);
      OtherKeysKeep(s, log, maxKeys, c, victim, rules(victim).window as real);
      assert !KeyRemembered(s', log', victim, rules(victim).window as real, c.now);
    }
  }

  lemma CrowdKeys(s: Limiter, live: Limiter, now: real, key: string)
    requires live == AfterExpiry(s, now) && key in Crowd(s, now)
    ensures key in s.events && key in Crowd(live, now)
  {
  }

  // ---- runs

  ghost function Replies(s: Limiter, maxKeys: nat, calls: seq<Call>): seq<Reply>
    decreases |calls|
  {
    if calls == [] then []
    else [Answered(s, maxKeys, calls[0]).reply] + Replies(Answered(s, maxKeys, calls[0]).limiter, maxKeys, calls[1..])
  }

  function LogReplies(log: Log, calls: seq<Call>): seq<Reply>
    decreases |calls|
  {
    if calls == [] then [] else [LogAllow(log, calls[0]).reply] + LogReplies(LogAllow(log, calls[0]).log, calls[1..])
  }

  function FinalLog(log: Log, calls: seq<Call>): Log
    decreases |calls|
  {
    if calls == [] then log else FinalLog(LogAllow(log, calls[0]).log, calls[1..])
  }

  /** The clock never runs backwards and every key keeps its rule. */
  predicate Ordered(calls: seq<Call>, start: real, rules: string -> Rule)
    decreases |calls|
  {
    calls == [] || (start <= calls[0].now && Follows(calls[0], rules) && Ordered(calls[1..], calls[0].now, rules))
  }

  /** Whenever a new key arrives, fewer than `maxKeys` keys hold unexpired grants. */
  ghost predicate AlwaysRoom(s: Limiter, maxKeys: nat, calls: seq<Call>)
    decreases |calls|
  {
    calls == []
    || ((Valid(calls[0]) ==> HasRoom(s, maxKeys, calls[0])) && AlwaysRoom(Answered(s, maxKeys, calls[0]).limiter, maxKeys, calls[1..]))
  }

  /** The bounded limiter answers every call of such a run exactly as the one that keeps the full log. */
  lemma {:induction false} RunAnswersAsLog(s: Limiter, log: Log, rules: string -> Rule, maxKeys: nat, start: real, calls: seq<Call>)
    requires Remembers(s, log, rules, start) && maxKeys >= 1
    requires Ordered(calls, start, rules) && AlwaysRoom(s, maxKeys, calls)
    ensures Replies(s, maxKeys, calls) == LogReplies(log, calls)
    decreases |calls|
  {
    hide Remembers, Answered, LogAllow, HasRoom;
    if calls != [] {
      var c := calls[0];
      TimePasses(s, log, rules, start, c.now);
      OwnRemembered(s, log, rules, c);
      AnswersAsLog(s, log, maxKeys, c);
      if Valid(c) {
        CallRemembersExactly(s, log, rules, maxKeys, c);
      } else {
        InvalidChangesNothing(s, log, maxKeys, c);
      }
      RunAnswersAsLog(Answered(s, maxKeys, c).limiter, LogAllow(log, c).log, rules, maxKeys, c.now, calls[1..]);
    }
  }

  lemma OwnRemembered(s: Limiter, log: Log, rules: string -> Rule, c: Call)
    requires Remembers(s, log, rules, c.now) && Follows(c, rules)
    ensures KeyRemembered(s, log, c.key, c.window as real, c.now)
  {
    assert KeyRemembered(s, log, c.key, rules(c.key).window as real, c.now);
  }

  lemma InvalidChangesNothing(s: Limiter, log: Log, maxKeys: nat, c: Call)
    requires !Valid(c)
    ensures Answered(s, maxKeys, c).limiter == s && LogAllow(log, c).log == log
  {
  }

  lemma FreshLimiterAnswersAsLog(rules: string -> Rule, maxKeys: nat, start: real, calls: seq<Call>)
    requires maxKeys >= 1 && Ordered(calls, start, rules) && AlwaysRoom(Limiter(map[], map[]), maxKeys, calls)
    ensures Replies(Limiter(map[], map[]), maxKeys, calls) == LogReplies(map[], calls)
  {
    RunAnswersAsLog(Limiter(map[], map[]), map[], rules, maxKeys, start, calls);
  }

  // ---- what the full log promises

  /** Any limit + 1 grants of a key span at least its window. */
  predicate Spaced(grants: seq<real>, rule: Rule) {
    forall i, j | 0 <= i < |grants| && 0 <= j < |grants| && i + rule.limit <= j :: grants[j] - grants[i] >= rule.window as real
  }

  ghost predicate LogSpaced(log: Log, rules: string -> Rule, now: real) {
    forall key: string :: GrantsSpaced(GrantsOf(log, key), rules(key), now)
  }

  predicate GrantsSpaced(grants: seq<real>, rule: Rule, now: real) {
    Sorted(grants) && Spaced(grants, rule) && forall i | 0 <= i < |grants| :: grants[i] <= now
  }

  /** A grant inside the window is counted together with all later ones. */
  lemma InsideCounts(grants: seq<real>, i: nat, after: real, now: real)
    requires Sorted(grants) && i < |grants| && forall k | 0 <= k < |grants| :: grants[k] <= now
    ensures grants[i] > after ==> CountIn(grants, after, now) >= |grants| - i
  {
    if grants[i] > after {
      assert grants == grants[..i] + grants[i..];
      CountAppend(grants[..i], grants[i..], after, now);
      CountAll(grants[i..], after, now);
    }
  }

  lemma GrantSpaced(grants: seq<real>, rule: Rule, now: real)
    requires Sorted(grants) && Spaced(grants, rule) && rule.limit >= 1 && rule.window >= 1
    requires forall i | 0 <= i < |grants| :: grants[i] <= now
    requires CountIn(grants, now - rule.window as real, now) < rule.limit
    ensures Sorted(grants + [now]) && Spaced(grants + [now], rule)
  {
    hide CountIn, Sorted, Spaced;
    SortedAppend(grants, now);
    forall i | 0 <= i && i + rule.limit <= |grants| ensures now - grants[i] >= rule.window as real {
      InsideCounts(grants, i, now - rule.window as real, now);
    }
    SpacedAppend(grants, rule, now);
  }

  lemma SpacedAppend(grants: seq<real>, rule: Rule, now: real)
    requires Spaced(grants, rule) && rule.limit >= 1
    requires forall i | 0 <= i && i + rule.limit <= |grants| :: now - grants[i] >= rule.window as real
    ensures Spaced(grants + [now], rule)
  {
  }

  lemma {:induction false} RunSpaced(log: Log, rules: string -> Rule, start: real, calls: seq<Call>) returns (end: real)
    requires LogSpaced(log, rules, start) && Ordered(calls, start, rules)
    ensures LogSpaced(FinalLog(log, calls), rules, end)
    decreases |calls|
  {
    end := start;
    if calls != [] {
      var c := calls[0];
      LogCallSpaced(log, rules, start, c);
      end := RunSpaced(LogAllow(log, c).log, rules, c.now, calls[1..]);
    }
  }

  lemma LogCallSpaced(log: Log, rules: string -> Rule, start: real, c: Call)
    requires LogSpaced(log, rules, start) && start <= c.now && Follows(c, rules)
    ensures LogSpaced(LogAllow(log, c).log, rules, c.now)
  {
    hide CountIn, GrantsSpaced;
    var log' := LogAllow(log, c).log;
    forall key: string ensures GrantsSpaced(GrantsOf(log', key), rules(key), c.now) {
      StillSpaced(GrantsOf(log, key), rules(key), start, c.now);
      if LogAllow(log, c).reply == Granted && key == c.key { GrantedSpaced(GrantsOf(log, key), rules(key), c.now); }
    }
  }

  lemma StillSpaced(grants: seq<real>, rule: Rule, earlier: real, now: real)
    requires GrantsSpaced(grants, rule, earlier) && earlier <= now
    ensures GrantsSpaced(grants, rule, now)
  {
    hide Sorted, Spaced;
  }

  lemma GrantedSpaced(grants: seq<real>, rule: Rule, now: real)
    requires GrantsSpaced(grants, rule, now) && rule.limit >= 1 && rule.window >= 1
    requires CountIn(grants, now - rule.window as real, now) < rule.limit
    ensures GrantsSpaced(grants + [now], rule, now)
  {
    hide Sorted, Spaced, CountIn;
    GrantSpaced(grants, rule, now);
  }

  lemma {:induction false} SpacedCount(grants: seq<real>, rule: Rule, until: real)
    requires Sorted(grants) && Spaced(grants, rule) && rule.limit >= 1
    ensures CountIn(grants, until - rule.window as real, until) <= rule.limit
    decreases |grants|
  {
    var n, after := |grants| - 1, until - rule.window as real;
    if n < rule.limit {
      CountAtMost(grants, after, until);
    } else if after < grants[n] <= until {
      var m := n - rule.limit + 1;
      assert grants[n] - grants[m - 1] >= rule.window as real;
      TailCount(grants, m, after, until);
    } else {
      assert Spaced(grants[..n], rule);
      SpacedCount(grants[..n], rule, until);
    }
  }

  lemma TailCount(grants: seq<real>, m: nat, after: real, upTo: real)
    requires Sorted(grants) && 0 < m <= |grants| && grants[m - 1] <= after
    ensures CountIn(grants, after, upTo) <= |grants| - m
  {
    assert grants == grants[..m] + grants[m..];
    CountAppend(grants[..m], grants[m..], after, upTo);
    CountNone(grants[..m], after, upTo);
    CountAtMost(grants[m..], after, upTo);
  }

  lemma {:induction false} CountAtMost(grants: seq<real>, after: real, upTo: real)
    ensures CountIn(grants, after, upTo) <= |grants|
  {
    if grants != [] { CountAtMost(grants[..|grants| - 1], after, upTo); }
  }

  lemma NoGrantsSpaced(rules: string -> Rule, now: real)
    ensures LogSpaced(map[], rules, now)
  {
    assert forall k: string :: GrantsOf(map[], k) == [];
  }

  lemma KeySpaced(log: Log, rules: string -> Rule, now: real, key: string)
    requires LogSpaced(log, rules, now)
    ensures Sorted(GrantsOf(log, key)) && Spaced(GrantsOf(log, key), rules(key))
  {
    assert GrantsSpaced(GrantsOf(log, key), rules(key), now);
    hide Sorted, Spaced;
  }

  /** No interval of a window's length, wherever it ends, holds more than `limit` grants of a key in the full log. */
  lemma LogNeverOverfull(rules: string -> Rule, start: real, calls: seq<Call>, key: string, until: real)
    requires Ordered(calls, start, rules) && rules(key).limit >= 1
    ensures CountIn(GrantsOf(FinalLog(map[], calls), key), until - rules(key).window as real, until) <= rules(key).limit
  {
    hide CountIn, Sorted, Spaced, LogSpaced, FinalLog;
    NoGrantsSpaced(rules, start);
    var end := RunSpaced(map[], rules, start, calls);
    KeySpaced(FinalLog(map[], calls), rules, end, key);
    SpacedCount(GrantsOf(FinalLog(map[], calls), key), rules(key), until);
  }

  /** With room for one key, a client that is not the one held is always granted, whatever it was granted before. */
  lemma NewcomerIsGranted(s: Limiter, c: Call)
    requires s.events.Keys == s.expiresAt.Keys && c.key !in s.events && |s.events| <= 1 && Valid(c)
    ensures Answered(s, 1, c) == Step(Limiter(map[c.key := [c.now]], map[c.key := c.now + c.window as real]), Granted)
  {
    var room := MakeRoom(s, 1, c.now);
    EmptiedForOne(s, c.now);
    var admitted := Admitted(s, 1, c.key, c.now);
    assert admitted.events == map[c.key := []] && admitted.expiresAt == map[];
    hide MakeRoom, Admitted;
    assert Pruned([], c.now - c.window as real) == [];
    assert [] + [c.now] == [c.now];
    assert admitted.events[c.key := [c.now]] == map[c.key := [c.now]];
    assert admitted.expiresAt[c.key := c.now + c.window as real] == map[c.key := c.now + c.window as real];
  }

  lemma EmptiedForOne(s: Limiter, now: real)
    requires s.events.Keys == s.expiresAt.Keys && |s.events| <= 1
    ensures MakeRoom(s, 1, now) == Limiter(map[], map[])
  {
    var live := AfterExpiry(s, now);
    if |s.events| == 1 {
      var k :| k in s.events;
      OnlyOne(s.events.Keys, k);
    }
    assert s.events == map[] || live.events == map[] || Without(live, {Earliest(live)}).events == map[];
    assert MakeRoom(s, 1, now).events == map[] && MakeRoom(s, 1, now).expiresAt == map[];
  }

  lemma OnlyOne(keys: set<string>, key: string)
    requires |keys| == 1 && key in keys
    ensures keys == {key}
  {
    assert |keys - {key}| == 0;
  }

  /** So two clients taking turns are never refused: with a limit of one in sixty seconds, the third call is
      granted although the full log denies it. */
  lemma EvictionOverfills()
    ensures var calls := [Call("a", 1, 60, 0.0), Call("b", 1, 60, 1.0), Call("a", 1, 60, 2.0)];
      Replies(Limiter(map[], map[]), 1, calls) == [Granted, Granted, Granted] && LogReplies(map[], calls) == [Granted, Granted, Denied]
  {
    var a, b, c := Call("a", 1, 60, 0.0), Call("b", 1, 60, 1.0), Call("a", 1, 60, 2.0);
    hide Answered, Replies, LogReplies, LogAllow;
    NewcomerIsGranted(Limiter(map[], map[]), a);
    NewcomerIsGranted(Limiter(map["a" := [0.0]], map["a" := 60.0]), b);
    NewcomerIsGranted(Limiter(map["b" := [1.0]], map["b" := 61.0]), c);
    LogRefusesThird(a, b, c);
    RepliesOfThree(Limiter(map[], map[]), Limiter(map["a" := [0.0]], map["a" := 60.0]), Limiter(map["b" := [1.0]], map["b" := 61.0]),
                   map[], map["a" := [0.0]], map["a" := [0.0], "b" := [1.0]], a, b, c);
  }

  lemma RepliesOfThree(s: Limiter, s1: Limiter, s2: Limiter, log: Log, log1: Log, log2: Log, a: Call, b: Call, c: Call)
    requires Answered(s, 1, a).limiter == s1 && Answered(s1, 1, b).limiter == s2
    requires LogAllow(log, a).log == log1 && LogAllow(log1, b).log == log2
    ensures Replies(s, 1, [a, b, c]) == [Answered(s, 1, a).reply, Answered(s1, 1, b).reply, Answered(s2, 1, c).reply]
    ensures LogReplies(log, [a, b, c]) == [LogAllow(log, a).reply, LogAllow(log1, b).reply, LogAllow(log2, c).reply]
  {
    hide Answered, LogAllow;
    assert [a, b, c][1..] == [b, c] && [b, c][1..] == [c] && [c][1..] == [];
    assert Replies(s2, 1, [c]) == [Answered(s2, 1, c).reply] + Replies(Answered(s2, 1, c).limiter, 1, []);
    assert Replies(s1, 1, [b, c]) == [Answered(s1, 1, b).reply] + Replies(s2, 1, [c]);
    assert LogReplies(log2, [c]) == [LogAllow(log2, c).reply] + LogReplies(LogAllow(log2, c).log, []);
    assert LogReplies(log1, [b, c]) == [LogAllow(log1, b).reply] + LogReplies(log2, [c]);
  }

  lemma LogRefusesThird(a: Call, b: Call, c: Call)
    requires a == Call("a", 1, 60, 0.0) && b == Call("b", 1, 60, 1.0) && c == Call("a", 1, 60, 2.0)
    ensures LogAllow(map[], a) == Logged(map["a" := [0.0]], Granted)
    ensures LogAllow(map["a" := [0.0]], b) == Logged(map["a" := [0.0], "b" := [1.0]], Granted)
    ensures LogAllow(map["a" := [0.0], "b" := [1.0]], c).reply == Denied
  {
    hide CountIn;
    CountOfNone(-60.0, 0.0);
    CountOfNone(-59.0, 1.0);
    CountOfOne(0.0, -58.0, 2.0);
    assert [] + [0.0] == [0.0] && [] + [1.0] == [1.0];
    assert map["a" := [0.0]]["b" := [1.0]] == map["a" := [0.0], "b" := [1.0]];
  }

  lemma CountOfNone(after: real, upTo: real)
    ensures CountIn([], after, upTo) == 0
  {
  }

  lemma CountOfOne(grant: real, after: real, upTo: real)
    requires after < grant <= upTo
    ensures CountIn([grant], after, upTo) == 1
  {
    assert [grant][..0] == [];
  }
}
