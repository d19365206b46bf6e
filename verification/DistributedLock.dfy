/** The distributed lock: set if absent with expiry, compare and delete, compare and extend. */
module DistributedLock {
  import opened Workflows

  type Key = string
  type Token = string

  datatype Entry = Entry(token: Token, expiresAt: real)

  /** What a worker may believe: it took the lock and has until the deadline. */
  datatype Claim = Claim(key: Key, deadline: real)

  /** The store with its clock; claims, and the keys tokens were made for, are only kept for the proofs. */
  datatype LockState = LockState(now: real, entries: map<Key, Entry>, claims: map<Token, Claim>, made: map<Token, Key>)

  datatype Op =
    | SetIfAbsent(key: Key, token: Token, ttl: real)
    | DeleteIfEqual(key: Key, token: Token)
    | ExpireIfEqual(key: Key, token: Token, ttl: real)
    | Pass(dt: real)

  predicate IsHeld(s: LockState, key: Key) {
    key in s.entries && s.now < s.entries[key].expiresAt
  }

  predicate HeldBy(s: LockState, key: Key, token: Token) {
    IsHeld(s, key) && s.entries[key].token == token
  }

  /** The store refuses an expiry that is not positive. */
  predicate Acquires(s: LockState, key: Key, ttl: real) {
    ttl > 0.0 && !IsHeld(s, key)
  }

  /** Tokens are fresh and time does not run backwards. */
  predicate Allowed(s: LockState, op: Op) {
    match op
    case SetIfAbsent(_, token, _) => token !in s.made
    case Pass(dt) => dt >= 0.0
    case _ => true
  }

  /** An extension by a time that is not positive deletes the key. */
  function Perform(s: LockState, op: Op): LockState {
    match op
    case SetIfAbsent(key, token, ttl) =>
      if Acquires(s, key, ttl) then
        s.(entries := s.entries[key := Entry(token, s.now + ttl)],
           claims := s.claims[token := Claim(key, s.now + ttl)],
           made := s.made[token := key])
      else s.(made := s.made[token := key])
    case DeleteIfEqual(key, token) =>
      s.(entries := if HeldBy(s, key, token) then s.entries - {key} else s.entries,
         claims := if token in s.claims && s.claims[token].key == key then s.claims - {token} else s.claims)
    case ExpireIfEqual(key, token, ttl) =>
      if HeldBy(s, key, token) then
        s.(entries := if ttl > 0.0 then s.entries[key := Entry(token, s.now + ttl)] else s.entries - {key},
           claims := s.claims[token := Claim(key, s.now + ttl)])
      else s
    case Pass(dt) => s.(now := s.now + dt)
  }

  lemma ExtendEffect(s: LockState, key: Key, token: Token, ttl: real)
    ensures var s' := Perform(s, ExpireIfEqual(key, token, ttl));
      if key in s.entries && s.now < s.entries[key].expiresAt && s.entries[key].token == token then
        s' == s.(entries := if ttl > 0.0 then s.entries[key := Entry(token, s.now + ttl)] else s.entries - {key},
                 claims := s.claims[token := Claim(key, s.now + ttl)])
      else s' == s
  {
  }

  const EMPTY_STORE := LockState(0.0, map[], map[], map[])

  // ------------------------------------------------------ mutual exclusion

  /** The worker still has time on its claim. */
  predicate Active(s: LockState, token: Token) {
    token in s.claims && s.now < s.claims[token].deadline
  }

  /** Every claim that still has time is what the store has under its key, to the same instant. */
  ghost predicate Sound(s: LockState) {
    && (forall t :: Active(s, t) ==>
          s.claims[t].key in s.entries && s.entries[s.claims[t].key] == Entry(t, s.claims[t].deadline))
    && (forall t :: t in s.claims ==> t in s.made && s.made[t] == s.claims[t].key)
    && (forall key :: key in s.entries ==> s.entries[key].token in s.made && s.made[s.entries[key].token] == key)
  }

  lemma SoundStep(s: LockState, op: Op)
    requires Sound(s) && Allowed(s, op)
    ensures Sound(Perform(s, op))
  {
  }

  ghost predicate IsRun(states: seq<LockState>, ops: seq<Op>) {
    && |states| == |ops| + 1 && states[0] == EMPTY_STORE
    && forall i :: 0 <= i < |ops| ==> Allowed(states[i], ops[i]) && states[i+1] == Perform(states[i], ops[i])
  }

  lemma {:induction false} RunSound(states: seq<LockState>, ops: seq<Op>, i: nat)
    requires IsRun(states, ops) && i < |states|
    ensures Sound(states[i])
  {
    hide Perform, Allowed;
    if i > 0 {
      RunSound(states, ops, i - 1);
      hide Sound;
      SoundStep(states[i-1], ops[i-1]);
    }
  }

  /** Two workers that both still have time never hold the same key, in any run. */
  lemma MutualExclusion(states: seq<LockState>, ops: seq<Op>, i: nat, t: Token, u: Token)
    requires IsRun(states, ops) && i < |states|
    requires Active(states[i], t) && Active(states[i], u) && t != u
    ensures HeldBy(states[i], states[i].claims[t].key, t)
    ensures states[i].claims[t].key != states[i].claims[u].key
  {
    RunSound(states, ops, i);
  }

  /** Whatever others do, late or not, a worker keeps its lock until its own deadline. */
  lemma OthersCannotInterfere(s: LockState, op: Op, t: Token)
    requires Sound(s) && Allowed(s, op) && Active(s, t)
    requires op.Pass? || op.token != t
    ensures Perform(s, op).claims[t] == s.claims[t]
    ensures s.entries[s.claims[t].key] == Perform(s, op).entries[s.claims[t].key] == Entry(t, s.claims[t].deadline)
  {
  }

  // ------------------------------------------------------------- options

  datatype LockOptions = LockOptions(
    ttl: Option<real>,
    autoRenew: Option<bool>,
    renewalRatio: Option<real>,
    maxRenewals: Option<int>,
    operationType: Option<string>)

  datatype LockConfig = LockConfig(ttl: real, autoRenew: bool, renewalRatio: real, maxRenewals: int)

  datatype WithLockOptions = Default | Ttl(ttl: real) | Options(options: LockOptions)

  const DEFAULT_TTL := 30000.0
  const TTL_PRESETS: map<string, real> :=
    map["fast" := 10000.0, "default" := 30000.0, "long" := 120000.0, "very-long" := 300000.0]

  function OrElse<T>(o: Option<T>, default: T): T {
    if o.Some? then o.value else default
  }

  function NormalizeOptions(options: WithLockOptions): LockConfig {
    match options
    case Default => LockConfig(DEFAULT_TTL, true, 0.5, 10)
    case Ttl(ttl) => LockConfig(ttl, true, 0.5, 10)
    case Options(o) =>
      var preset := o.operationType.Some? && o.operationType.value in TTL_PRESETS;
      LockConfig(if preset then TTL_PRESETS[o.operationType.value] else OrElse(o.ttl, DEFAULT_TTL),
                 OrElse(o.autoRenew, true), OrElse(o.renewalRatio, 0.5), OrElse(o.maxRenewals, 10))
  }

  /** The caller's choices, each with its default. A known operation type decides the time to live. */
  lemma OptionsMean(ttl: real, o: LockOptions)
    ensures NormalizeOptions(Default) == LockConfig(30000.0, true, 0.5, 10)
    ensures NormalizeOptions(Ttl(ttl)) == LockConfig(ttl, true, 0.5, 10)
    ensures var c := NormalizeOptions(Options(o));
      && (o.operationType == Some("fast") ==> c.ttl == 10000.0)
      && (o.operationType == Some("default") ==> c.ttl == 30000.0)
      && (o.operationType == Some("long") ==> c.ttl == 120000.0)
      && (o.operationType == Some("very-long") ==> c.ttl == 300000.0)
      && (o.operationType !in {Some("fast"), Some("default"), Some("long"), Some("very-long")} ==>
            c.ttl == match o.ttl case None => 30000.0 case Some(t) => t)
      && (c.autoRenew <==> o.autoRenew != Some(false))
      && (o.renewalRatio.None? ==> c.renewalRatio == 0.5) && (o.renewalRatio.Some? ==> c.renewalRatio == o.renewalRatio.value)
      && (o.maxRenewals.None? ==> c.maxRenewals == 10) && (o.maxRenewals.Some? ==> c.maxRenewals == o.maxRenewals.value)
  {
    PresetNames();
  }

  lemma PresetNames()
    ensures TTL_PRESETS.Keys == {"fast", "default", "long", "very-long"}
    ensures TTL_PRESETS["fast"] == 10000.0 && TTL_PRESETS["default"] == 30000.0
    ensures TTL_PRESETS["long"] == 120000.0 && TTL_PRESETS["very-long"] == 300000.0
  {
    assert |"fast"| == 4 && "fast"[0] != "long"[0] && |"default"| == 7 && |"very-long"| == 9;
  }

  /** The timer's period; a timer cannot have a period below a millisecond. */
  function RenewalInterval(c: LockConfig): real {
    if Period(c) >= 1.0 then Period(c) else 1.0
  }

  function Period(c: LockConfig): real {
    c.ttl * c.renewalRatio
  }

  function Renewals(c: LockConfig): nat {
    if c.maxRenewals > 0 then c.maxRenewals else 0
  }

  function Multiple(interval: real, n: nat): real {
    n as real * interval
  }

  lemma NextMultiple(interval: real, n: nat)
    ensures Multiple(interval, 0) == 0.0
    ensures Multiple(interval, n + 1) == Multiple(interval, n) + interval
  {
  }

  lemma {:induction false} MultiplesGrow(interval: real, n: nat, m: nat)
    requires n <= m && interval >= 0.0
    ensures Multiple(interval, n) <= Multiple(interval, m)
  {
    if n < m {
      MultiplesGrow(interval, n, m - 1);
      NextMultiple(interval, m - 1);
    }
  }

  /** How long a lock lasts under timely renewal, however long the function runs. */
  function HoldingTime(c: LockConfig): real {
    if c.autoRenew && RenewalInterval(c) < c.ttl then c.ttl + Multiple(RenewalInterval(c), Renewals(c)) else c.ttl
  }

  /** The holding time in terms of the options: renewals count only with a period below the time to live. */
  lemma HoldingTimeBound(c: LockConfig)
    requires c.ttl > 0.0
    ensures !c.autoRenew || c.maxRenewals <= 0 || c.renewalRatio >= 1.0 ==> HoldingTime(c) == c.ttl
    ensures c.autoRenew && c.maxRenewals > 0 && c.renewalRatio < 1.0 && Period(c) >= 1.0 ==>
      HoldingTime(c) == c.ttl + c.maxRenewals as real * Period(c)
    ensures c.autoRenew && c.maxRenewals > 0 && Period(c) < 1.0 < c.ttl ==> HoldingTime(c) == c.ttl + c.maxRenewals as real
    ensures Period(c) < 1.0 && c.ttl <= 1.0 ==> HoldingTime(c) == c.ttl
  {
    PeriodBelow(c);
    hide HoldingTime, Period;
    HoldingTimeFor(c, Period(c));
    HoldingTimeFor(c, 1.0);
  }

  lemma HoldingTimeFor(c: LockConfig, interval: real)
    ensures interval == RenewalInterval(c) ==>
      HoldingTime(c) == if c.autoRenew && c.maxRenewals > 0 && interval < c.ttl then c.ttl + c.maxRenewals as real * interval else c.ttl
    ensures interval == RenewalInterval(c) == 1.0 && c.autoRenew && c.maxRenewals > 0 && interval < c.ttl ==>
      HoldingTime(c) == c.ttl + c.maxRenewals as real
  {
    hide RenewalInterval;
    assert Multiple(interval, 0) == 0.0;
  }

  lemma PeriodBelow(c: LockConfig)
    requires c.ttl > 0.0
    ensures Period(c) == c.ttl * c.renewalRatio
    ensures Period(c) < c.ttl <==> c.renewalRatio < 1.0
  {
    if c.renewalRatio < 1.0 {
      assert c.ttl * (1.0 - c.renewalRatio) > 0.0;
    } else {
      assert c.ttl * (c.renewalRatio - 1.0) >= 0.0;
    }
  }

  /** Between ticks: so many renewals done, the timer still set or not, the expiry they lead to. */
  ghost predicate Renewing(c: LockConfig, start: real, count: nat, timer: bool, tick: real, expiry: real) {
    var interval := RenewalInterval(c);
    && count <= Renewals(c)
    && expiry == start + c.ttl + Multiple(interval, count)
    && (count > 0 ==> interval < c.ttl)
    && (timer ==> c.autoRenew && tick == start + Multiple(interval, count) + interval)
    && (!timer ==> !c.autoRenew || count == Renewals(c) || c.ttl <= interval)
    && (!c.autoRenew ==> count == 0)
  }

  lemma TimerSet(c: LockConfig, start: real)
    ensures Renewing(c, start, 0, c.autoRenew, start + RenewalInterval(c), start + c.ttl)
    ensures RenewalInterval(c) > 0.0
  {
  }

  /** At each tick the lock is still there exactly if the period is below the time to live. */
  lemma AtTick(c: LockConfig, start: real, count: nat, tick: real, expiry: real)
    requires Renewing(c, start, count, true, tick, expiry)
    ensures tick < expiry <==> RenewalInterval(c) < c.ttl
    ensures tick < expiry && count < Renewals(c) ==>
      Renewing(c, start, count + 1, true, tick + RenewalInterval(c), tick + c.ttl)
    ensures tick >= expiry || count == Renewals(c) ==>
      Renewing(c, start, count, false, tick + RenewalInterval(c), expiry)
  {
    NextMultiple(RenewalInterval(c), count);
    hide Multiple, RenewalInterval;
  }

  lemma AtEnd(c: LockConfig, start: real, count: nat, timer: bool, tick: real, expiry: real, runningTime: real)
    requires Renewing(c, start, count, timer, tick, expiry) && (timer ==> start + runningTime < tick)
    ensures start + runningTime < expiry <==> runningTime < HoldingTime(c)
  {
    var interval := RenewalInterval(c);
    NextMultiple(interval, count);
    MultiplesGrow(interval, count, Renewals(c));
    hide Multiple, RenewalInterval;
  }

  // ------------------------------------------------------------ the class

  class Lock {
    var now: real
    var entries: map<Key, Entry>
    var claims: map<Token, Claim>
    var made: map<Token, Key>
    /** What other clients try to do while time passes. */
    var others: seq<seq<Op>>

    constructor (others: seq<seq<Op>>)
      ensures Valid() && View() == EMPTY_STORE
    {
      now, entries, claims, made := 0.0, map[], map[], map[];
      this.others := others;
    }

    function View(): LockState
      reads this
    {
      LockState(now, entries, claims, made)
    }

    ghost predicate Valid()
      reads this
    {
      Sound(View())
    }

    /** The token's entry, if there is one, expires at this time; before that it is there. */
    ghost predicate Owns(key: Key, token: Token, expiry: real)
      reads this
    {
      && token in made && made[token] == key
      && (now < expiry ==> key in entries && entries[key] == Entry(token, expiry))
      && (key in entries && entries[key].token == token ==> entries[key].expiresAt == expiry)
    }

    method Acquire(key: Key, token: Token, ttl: real := DEFAULT_TTL) returns (acquired: bool)
      requires Valid() && token !in made
      modifies `entries, `claims, `made
      ensures Valid() && View() == Perform(old(View()), SetIfAbsent(key, token, ttl))
      ensures acquired <==> ttl > 0.0 && (key in old(entries) ==> old(entries)[key].expiresAt <= now)
      ensures entries == if acquired then old(entries)[key := Entry(token, now + ttl)] else old(entries)
      ensures acquired ==> Active(View(), token) && Owns(key, token, now + ttl)
    {
      hide Sound;
      SoundStep(View(), SetIfAbsent(key, token, ttl));
      acquired := ttl > 0.0 && !(key in entries && now < entries[key].expiresAt);
      made := made[token := key];
      if acquired {
        entries, claims := entries[key := Entry(token, now + ttl)], claims[token := Claim(key, now + ttl)];
      }
    }

    method Release(key: Key, token: Token) returns (released: bool)
      requires Valid()
      modifies `entries, `claims
      ensures Valid() && View() == Perform(old(View()), DeleteIfEqual(key, token))
      ensures released <==> key in old(entries) && now < old(entries)[key].expiresAt && old(entries)[key].token == token
      ensures entries == if released then old(entries) - {key} else old(entries)
    {
      SoundStep(View(), DeleteIfEqual(key, token));
      released := key in entries && now < entries[key].expiresAt && entries[key].token == token;
      if released {
        entries := entries - {key};
      }
      if token in claims && claims[token].key == key {
        claims := claims - {token};
      }
    }

    method Extend(key: Key, token: Token, ttl: real) returns (extended: bool)
      requires Valid()
      modifies `entries, `claims
      ensures Valid() && View() == Perform(old(View()), ExpireIfEqual(key, token, ttl))
      ensures extended <==> key in old(entries) && now < old(entries)[key].expiresAt && old(entries)[key].token == token
      ensures extended && ttl > 0.0 ==> entries == old(entries)[key := Entry(token, now + ttl)]
      ensures extended && ttl <= 0.0 ==> entries == old(entries) - {key}
      ensures extended ==> Owns(key, token, now + ttl)
      ensures !extended ==> View() == old(View())
    {
      TokenKey(View(), key);
      SoundStep(View(), ExpireIfEqual(key, token, ttl));
      ExtendEffect(View(), key, token, ttl);
      hide Sound, Perform;
      extended := key in entries && now < entries[key].expiresAt && entries[key].token == token;
      if extended {
        entries := if ttl > 0.0 then entries[key := Entry(token, now + ttl)] else entries - {key};
        claims := claims[token := Claim(key, now + ttl)];
      }
    }

    /** Time passes and others act on the lock, but not with this client's token. */
    method PassTo(t: real, key: Key, token: Token, ghost expiry: real)
      requires Valid() && now <= t && Owns(key, token, expiry)
      modifies this
      ensures Valid() && now == t && Owns(key, token, expiry)
    {
      if others != [] {
        var batch := others[0];
        others := others[1..];
        for i := 0 to |batch|
          invariant Valid() && now <= t && Owns(key, token, expiry)
        {
          OtherActs(batch[i], t, key, token, expiry);
        }
      }
      SoundStep(View(), Pass(t - now));
      now := t;
    }

    method OtherActs(op: Op, t: real, key: Key, token: Token, ghost expiry: real)
      requires Valid() && now <= t && Owns(key, token, expiry)
      modifies this
      ensures Valid() && now <= t && Owns(key, token, expiry) && others == old(others)
    {
      if Allowed(View(), op) && (if op.Pass? then now + op.dt <= t else op.token != token) {
        SoundStep(View(), op);
        var s := Perform(View(), op);
        now, entries, claims, made := s.now, s.entries, s.claims, s.made;
      }
    }

    /** The timer's ticks until the function ends; the result is the expiry they lead to. */
    method RenewUntil(end: real, key: Key, token: Token, config: LockConfig) returns (ghost expiry: real)
      requires Valid() && now <= end && Owns(key, token, now + config.ttl)
      modifies this
      ensures Valid() && old(now) <= now <= end && Owns(key, token, expiry)
      ensures end < expiry <==> end - old(now) < HoldingTime(config)
    {
      hide Multiple, RenewalInterval, Renewing, HoldingTime, Perform, Sound;
      var start, interval := now, RenewalInterval(config);
      var renewalCount: nat, timer, tick := 0, config.autoRenew, start + interval;
      expiry := start + config.ttl;
      TimerSet(config, start);
      while timer && tick <= end
        invariant Valid() && start <= now <= end && now <= tick && Owns(key, token, expiry)
        invariant Renewing(config, start, renewalCount, timer, tick, expiry) && renewalCount <= Renewals(config)
        decreases if timer then 1 + Renewals(config) - renewalCount else 0
      {
        PassTo(tick, key, token, expiry);
        AtTick(config, start, renewalCount, tick, expiry);
        if renewalCount >= config.maxRenewals {
          timer := false;
        } else {
          var extended := Extend(key, token, config.ttl);
          if extended {
            renewalCount := renewalCount + 1;
            expiry := now + config.ttl;
          } else {
            timer := false;
          }
        }
        tick := tick + interval;
      }
      AtEnd(config, start, renewalCount, timer, tick, expiry, end - start);
    }

    /**
     * Runs a function of the given running time under the lock, with renewal timers that fire
     * on time. The lock is there at the end exactly if the running time is below HoldingTime.
     */
    method WithLock(key: Key, token: Token, options: WithLockOptions, runningTime: real) returns (ran: bool, heldAtEnd: bool)
      requires Valid() && token !in made && runningTime >= 0.0
      modifies this
      ensures Valid()
      ensures ran <==> NormalizeOptions(options).ttl > 0.0 && (key in old(entries) ==> old(entries)[key].expiresAt <= old(now))
      ensures !ran ==> entries == old(entries)
      ensures ran ==> now == old(now) + runningTime
      ensures ran ==> (heldAtEnd <==> runningTime < HoldingTime(NormalizeOptions(options)))
      ensures ran ==> token !in claims && !HeldBy(View(), key, token)
    {
      hide HoldingTime, Sound, NormalizeOptions;
      var config := NormalizeOptions(options);
      var end := now + runningTime;
      ran := Acquire(key, token, config.ttl);
      heldAtEnd := false;
      if !ran { return; }
      ghost var expiry := RenewUntil(end, key, token, config);
      PassTo(end, key, token, expiry);
      heldAtEnd := HeldBy(View(), key, token);
      ClaimKey(View(), token);
      var _ := Release(key, token);
    }
  }

  lemma TokenKey(s: LockState, key: Key)
    requires Sound(s)
    ensures key in s.entries ==> s.entries[key].token in s.made && s.made[s.entries[key].token] == key
  {
  }

  lemma ClaimKey(s: LockState, t: Token)
    requires Sound(s)
    ensures t in s.claims ==> t in s.made && s.made[t] == s.claims[t].key
  {
  }
}
