/**
 * The cookie actor's state and its handlers. The actor processes one
 * message at a time, so each handler is an ordinary in-place update of
 * the rotation queue, the two sets and the sticky cache. Each method is
 * proved against the matching definition in PoolSpec.
 */
module CookieActor {
  import opened Wrappers
  import opened CookieConfig
  import opened PoolSpec

  /** `valid.retain(|c| c != cookie)`, also reporting whether an entry was dropped. */
  method Retain(s: seq<CookieStatus>, key: string) returns (kept: seq<CookieStatus>, found: bool)
    ensures kept == Without(s, key)
    ensures found <==> key in Keys(s)
  {
    kept, found := [], false;
    KeysNone();
    var i := 0;
    while i < |s|
      invariant 0 <= i <= |s|
      invariant kept == Without(s[..i], key)
      invariant found <==> key in Keys(s[..i])
    {
      assert s[..i + 1] == s[..i] + [s[i]];
      WithoutSnoc(s[..i], s[i], key);
      KeysSnoc(s[..i], s[i]);
      if s[i].cookie == key {
        found := true;
      } else {
        kept := kept + [s[i]];
      }
      i := i + 1;
    }
    assert s[..|s|] == s;
  }

  /** `valid.iter().find(|c| c == cookie)`: the position of the first entry of `key`. */
  method Find(s: seq<CookieStatus>, key: string) returns (r: Option<nat>)
    ensures r == FirstIndex(s, key)
  {
    var i := 0;
    while i < |s|
      invariant 0 <= i <= |s|
      invariant forall j :: 0 <= j < i ==> s[j].cookie != key
    {
      if s[i].cookie == key {
        return Some(i);
      }
      i := i + 1;
    }
    KeysAbsent(s, key);
    return None;
  }

  /** The `filter(reset_time.is_none())` pass of `pre_start`. */
  method CollectReady(cookies: seq<CookieStatus>) returns (ready: seq<CookieStatus>)
    ensures ready == Ready(cookies)
  {
    ready := [];
    var i := 0;
    while i < |cookies|
      invariant 0 <= i <= |cookies|
      invariant ready == Ready(cookies[..i])
    {
      assert cookies[..i + 1] == cookies[..i] + [cookies[i]];
      ReadySnoc(cookies[..i], cookies[i]);
      if cookies[i].resetTime.None? {
        ready := ready + [cookies[i]];
      }
      i := i + 1;
    }
    assert cookies[..|cookies|] == cookies;
  }

  /** The `filter(reset_time.is_some())` pass of `pre_start`, filling a hash set. */
  method CollectCooling(cookies: seq<CookieStatus>) returns (cooling: map<string, CookieStatus>)
    ensures cooling == Cooling(cookies)
  {
    cooling := map[];
    var i := 0;
    while i < |cookies|
      invariant 0 <= i <= |cookies|
      invariant cooling == Cooling(cookies[..i])
    {
      assert cookies[..i + 1] == cookies[..i] + [cookies[i]];
      CoolingSnoc(cookies[..i], cookies[i]);
      if cookies[i].resetTime.Some? && cookies[i].cookie !in cooling {
        cooling := cooling[cookies[i].cookie := cookies[i]];
      }
      i := i + 1;
    }
    assert cookies[..|cookies|] == cookies;
  }

  /** The discarded cookies of the configuration, filling a hash set. */
  method CollectDiscarded(wasted: seq<UselessCookie>) returns (discarded: map<string, Reason>)
    ensures discarded == Discarded(wasted)
  {
    discarded := map[];
    var i := 0;
    while i < |wasted|
      invariant 0 <= i <= |wasted|
      invariant discarded == Discarded(wasted[..i])
    {
      assert wasted[..i + 1] == wasted[..i] + [wasted[i]];
      DiscardedSnoc(wasted[..i], wasted[i]);
      if wasted[i].cookie !in discarded {
        discarded := discarded[wasted[i].cookie := wasted[i].reason];
      }
      i := i + 1;
    }
    assert wasted[..|wasted|] == wasted;
  }

  /**
   * The `exhausted.retain` pass of `reset`: each cooling-down cookie is
   * reset; those whose cooldown is cleared leave the set and are collected,
   * as reset, in the order the set is visited.
   */
  method ExpireCooling(ex: map<string, CookieStatus>, ops: StatusOps, now: int)
      returns (kept: map<string, CookieStatus>, revived: seq<CookieStatus>)
    requires ops.Sound() && KeyedMap(ex)
    ensures kept == StillCooling(ex, ops, now)
    ensures Revived(ex, revived, ops, now)
  {
    kept, revived := ex, [];
    KeysNone();
    var pending := ex.Keys;
    while pending != {}
      invariant pending <= ex.Keys
      invariant kept.Keys == ex.Keys - (ExpiredKeys(ex, ops, now) - pending)
      invariant forall k :: k in kept ==> kept[k] == ex[k]
      invariant NoDupKeys(revived)
      invariant Keys(revived) == ExpiredKeys(ex, ops, now) - pending
      invariant forall c :: c in revived ==> c.cookie in ex && c == ops.reset(ex[c.cookie], now)
      decreases pending
    {
      var k :| k in pending;
      var r := ops.reset(ex[k], now);
      if r.resetTime.None? {
        KeysSnoc(revived, r);
        KeysOne(r);
        NoDupAppend(revived, [r]);
        kept := kept - {k};
        revived := revived + [r];
      }
      pending := pending - {k};
    }
    assert kept == StillCooling(ex, ops, now);
  }

  /** The `valid.iter_mut()` pass of `refresh_usage_windows`. */
  method RefreshEach(s: seq<CookieStatus>, now: int) returns (r: seq<CookieStatus>, changed: bool)
    ensures r == RefreshQueue(s, now)
    ensures changed <==> exists j :: 0 <= j < |s| && Due(s[j], now)
  {
    r, changed := s, false;
    var i := 0;
    while i < |r|
      invariant 0 <= i <= |r| == |s|
      invariant forall j :: 0 <= j < i ==> r[j] == Refreshed(s[j], now)
      invariant forall j :: i <= j < |r| ==> r[j] == s[j]
      invariant changed <==> exists j :: 0 <= j < i && Due(s[j], now)
    {
      var (due, cookie) := ApplyResets(r[i], now);
      r := r[i := cookie];
      changed := changed || due;
      i := i + 1;
    }
  }

  /** The `exhausted.drain()` pass of `refresh_usage_windows`, refilling a new set. */
  method RefreshDrain(m: map<string, CookieStatus>, now: int) returns (r: map<string, CookieStatus>, changed: bool)
    requires KeyedMap(m)
    ensures r == RefreshSet(m, now)
    ensures changed <==> exists k :: k in m && Due(m[k], now)
  {
    r, changed := map[], false;
    var rest := m.Keys;
    while rest != {}
      invariant rest <= m.Keys
      invariant r.Keys == m.Keys - rest
      invariant forall k :: k in r ==> r[k] == Refreshed(m[k], now)
      invariant changed <==> exists k :: k in r && Due(m[k], now)
      decreases rest
    {
      var k :| k in rest;
      var (due, cookie) := ApplyResets(m[k], now);
      changed := changed || due;
      if cookie.cookie !in r {
        r := r[cookie.cookie := cookie];
      }
      rest := rest - {k};
    }
    assert r == RefreshSet(m, now);
  }

  /** `exhausted.iter().cloned().collect()` in `report`. */
  method ListCooling(m: map<string, CookieStatus>) returns (s: seq<CookieStatus>)
    requires KeyedMap(m)
    ensures ListsCookies(m, s)
  {
    s := [];
    KeysNone();
    var rest := m.Keys;
    while rest != {}
      invariant rest <= m.Keys
      invariant |s| + |rest| == |m.Keys|
      invariant NoDupKeys(s)
      invariant Keys(s) == m.Keys - rest
      invariant forall c :: c in s <==> c.cookie in m && c.cookie !in rest && m[c.cookie] == c
      decreases rest
    {
      var k :| k in rest;
      KeysSnoc(s, m[k]);
      KeysOne(m[k]);
      NoDupAppend(s, [m[k]]);
      s := s + [m[k]];
      rest := rest - {k};
    }
  }

  /** `invalid.iter().cloned().collect()` in `report`. */
  method ListDiscarded(m: map<string, Reason>) returns (s: seq<UselessCookie>)
    ensures ListsUseless(m, s)
  {
    s := [];
    var rest := m.Keys;
    while rest != {}
      invariant rest <= m.Keys
      invariant |s| + |rest| == |m.Keys|
      invariant forall i, j :: 0 <= i < j < |s| ==> s[i].cookie != s[j].cookie
      invariant forall u :: u in s ==> u.cookie !in rest
      invariant forall u :: u in s <==> u.cookie in m && u.cookie !in rest && m[u.cookie] == u.reason
      decreases rest
    {
      var k :| k in rest;
      s := s + [UselessCookie(k, m[k])];
      rest := rest - {k};
    }
  }

  class CookieActorState {
    /** The rotation queue of usable cookies (a `VecDeque`). */
    var valid: seq<CookieStatus>
    /** The cooling-down cookies, a hash set keyed by cookie string. */
    var exhausted: map<string, CookieStatus>
    /** The discarded cookies with their reasons, a hash set keyed by cookie string. */
    var invalid: map<string, Reason>
    /** The sticky-session cache from a request hash to a cookie. */
    var moka: map<nat, CookieStatus>
    /** `CookieStatus::reset` and `reset_window_usage`. */
    const ops: StatusOps

    function Snapshot(): Pool
      reads this
    {
      Pool(valid, exhausted, invalid, moka)
    }

    ghost predicate Valid()
      reads this
    {
      ops.Sound() && Keyed(Snapshot())
    }

    /**
     * `pre_start`: the configured cookies without a cooldown are queued in
     * order, those with one go to the cooling-down set, the discarded ones
     * to the invalid set; the sticky cache starts empty.
     */
    constructor (cookies: seq<CookieStatus>, wasted: seq<UselessCookie>, ops: StatusOps)
      requires ops.Sound()
      ensures Valid() && this.ops == ops
      ensures Snapshot() == Partition(cookies, wasted)
      ensures NoDupKeys(cookies) ==> Distinct(Snapshot())
    {
      var ready := CollectReady(cookies);
      var cooling := CollectCooling(cookies);
      var discarded := CollectDiscarded(wasted);
      valid, exhausted, invalid, moka := ready, cooling, discarded, map[];
      this.ops := ops;
      new;
      if NoDupKeys(cookies) {
        PartitionDistinct(cookies, wasted);
      }
    }

    /**
     * `reset`: every cooling-down cookie whose `reset` clears the cooldown
     * is taken out of the set and appended, as `reset` returned it, to the
     * back of the queue.
     */
    method ResetExpired(now: int)
      requires Valid()
      modifies this
      ensures Valid()
      ensures ResetsTo(old(Snapshot()), Snapshot(), ops, now)
      ensures old(Distinct(Snapshot())) ==> Distinct(Snapshot())
    {
      ghost var p := Snapshot();
      var kept, revived := ExpireCooling(exhausted, ops, now);
      exhausted := kept;
      if revived != [] {
        valid := valid + revived;
      }
      assert valid[..|p.valid|] == p.valid && valid[|p.valid|..] == revived;
      if Distinct(p) {
        ResetPreservesDistinct(p, Snapshot(), ops, now);
      }
    }

    /**
     * `refresh_usage_windows`: every cookie, queued or cooling down, has
     * its due usage windows rolled over; the result says whether any was.
     */
    method RefreshUsageWindows(now: int) returns (changed: bool)
      requires Valid()
      modifies this
      ensures Valid()
      ensures (Snapshot(), changed) == RefreshSpec(old(Snapshot()), now)
      ensures old(Distinct(Snapshot())) ==> Distinct(Snapshot())
    {
      ghost var p := Snapshot();
      var changedQueue;
      valid, changedQueue := RefreshEach(valid, now);
      var changedSet := false;
      if exhausted != map[] {
        exhausted, changedSet := RefreshDrain(exhausted, now);
      }
      changed := changedQueue || changedSet;
      RefreshKeepsMembership(p, now);
    }

    /**
     * `dispatch`: after cooldown expiry, the cookie cached for `hash` if it
     * is still queued (renewing the cache), otherwise the front of the
     * queue, moved to the back and cached for `hash`; with nothing queued,
     * `NoCookieAvailable`.
     */
    method Dispatch(hash: Option<nat>, now: int) returns (r: Result<CookieStatus, PoolError>)
      requires Valid()
      modifies this
      ensures Valid()
      ensures Dispatches(old(Snapshot()), Snapshot(), r, hash, ops, now)
      ensures r.Ok? ==> r.value in valid
      ensures r.Err? ==> r == Err(NoCookieAvailable) && Snapshot() == old(Snapshot())
      ensures old(Distinct(Snapshot())) ==> Distinct(Snapshot())
    {
      ghost var p := Snapshot();
      ResetExpired(now);
      ghost var mid := Snapshot();
      var hit: Option<nat> := None;
      if hash.Some? && hash.value in moka {
        hit := Find(valid, moka[hash.value].cookie);
      }
      assert hit == StickyHit(mid, hash);
      if hit.Some? {
        var cookie := valid[hit.value];
        moka := moka[hash.value := cookie];
        r := Ok(cookie);
      } else if valid == [] {
        r := Err(NoCookieAvailable);
      } else {
        var cookie := valid[0];
        valid := valid[1..];
        valid := valid + [cookie];
        if hash.Some? {
          moka := moka[hash.value := cookie];
        }
        r := Ok(cookie);
      }
      assert PickSpec(mid, hash) == (Snapshot(), r);
      assert Dispatches(p, Snapshot(), r, hash, ops, now);
      if r.Err? {
        DispatchErrorChangesNothing(p, Snapshot(), r, hash, ops, now);
      }
      if Distinct(p) {
        DispatchPreservesDistinct(p, Snapshot(), r, hash, ops, now);
      }
    }

    /** The `TooManyRequest` / `Restricted` arm of `collect`. */
    method ExhaustCookie(cookie: CookieStatus, until: int) returns (saved: bool)
      requires Valid()
      modifies this
      ensures Valid()
      ensures (Snapshot(), saved) == Exhaust(old(Snapshot()), cookie, until, ops)
    {
      var found;
      valid, found := Retain(valid, cookie.cookie);
      var cooled := ops.clearUsage(cookie.(resetTime := Some(until)));
      if cooled.cookie in exhausted {
        saved := false;
      } else {
        exhausted := exhausted[cooled.cookie := cooled];
        saved := true;
      }
    }

    /** The arm of `collect` for every other reason but `NormalPro`. */
    method DiscardCookie(cookie: CookieStatus, reason: Reason) returns (saved: bool)
      requires Valid()
      modifies this
      ensures Valid()
      ensures (Snapshot(), saved) == Discard(old(Snapshot()), cookie, reason)
    {
      var found;
      valid, found := Retain(valid, cookie.cookie);
      var removed := ops.clearUsage(cookie);
      var useless := UselessCookie(removed.cookie, reason);
      if useless.cookie in invalid {
        saved := false;
      } else {
        invalid := invalid[useless.cookie := useless.reason];
        saved := true;
      }
    }

    /**
     * `collect`: a returned cookie is moved according to the reason it was
     * returned with; the result says whether the handler persists the pool.
     */
    method Collect(cookie: CookieStatus, reason: Option<Reason>) returns (saved: bool)
      requires Valid()
      modifies this
      ensures Valid()
      ensures (Snapshot(), saved) == CollectSpec(old(Snapshot()), cookie, reason, ops)
      ensures old(Distinct(Snapshot())) ==> Distinct(Snapshot())
    {
      ghost var p := Snapshot();
      match reason {
      case None =>
        var i := Find(valid, cookie.cookie);
        if i.Some? {
          valid := valid[i.value := cookie];
          saved := true;
        } else {
          saved := false;
        }
      case Some(NormalPro) =>
        saved := false;
      case Some(TooManyRequest(until)) =>
        saved := ExhaustCookie(cookie, until);
      case Some(Restricted(until)) =>
        saved := ExhaustCookie(cookie, until);
      case Some(other) =>
        saved := DiscardCookie(cookie, other);
      }
      if Distinct(p) {
        CollectPreservesDistinct(p, cookie, reason, ops);
      }
    }

    /**
     * `accept`: a submitted cookie joins the back of the queue unless it is
     * already known; `known` holds the configured and discarded cookie
     * strings the source reads from the global configuration.
     */
    method Accept(known: set<string>, cookie: CookieStatus) returns (saved: bool)
      requires Valid()
      modifies this
      ensures Valid()
      ensures (Snapshot(), saved) == AcceptSpec(old(Snapshot()), known, cookie)
    {
      if cookie.cookie in known {
        saved := false;
      } else {
        valid := valid + [cookie];
        saved := true;
      }
    }

    /** `delete`: the cookie leaves every collection; an error if it was in none. */
    method Delete(cookie: CookieStatus) returns (r: Result<(), PoolError>)
      requires Valid()
      modifies this
      ensures Valid()
      ensures (Snapshot(), r) == DeleteSpec(old(Snapshot()), cookie.cookie)
      ensures old(Distinct(Snapshot())) ==> Distinct(Snapshot())
    {
      ghost var p := Snapshot();
      var found;
      valid, found := Retain(valid, cookie.cookie);
      var useless := UselessCookie(cookie.cookie, Null);
      var inExhausted := cookie.cookie in exhausted;
      exhausted := exhausted - {cookie.cookie};
      var inInvalid := useless.cookie in invalid;
      invalid := invalid - {useless.cookie};
      found := found || inExhausted || inInvalid;
      if found {
        r := Ok(());
      } else {
        r := Err(UnexpectedNone(DeleteNotFound));
      }
      if Distinct(p) {
        DeletePreservesDistinct(p, cookie.cookie);
      }
    }

    /** Cache eviction (capacity or idle time): the entry for `hash` is forgotten. */
    method Evict(hash: nat)
      requires Valid()
      modifies this
      ensures Valid()
      ensures Snapshot() == old(Snapshot()).(sticky := old(moka) - {hash})
    {
      moka := moka - {hash};
    }

    /** `report`: the queue in order, and each entry of both sets once. */
    method Report() returns (info: CookieStatusInfo)
      requires Valid()
      ensures Reports(Snapshot(), info)
    {
      var cooling := ListCooling(exhausted);
      var useless := ListDiscarded(invalid);
      info := CookieStatusInfo(valid, cooling, useless);
    }
  }
}
