/** The in-memory rate limiter behind the `rate_limit` decorator: a sliding
    window log per key, and the choice of the key a call is counted under
    (`<module>.<qualname>:<bucket>`, the bucket being the caller's user, the
    caller's IP address, or one global bucket).

    Time is an integer in one fixed unit, the same unit as the window, and
    is passed in as `now` instead of being read from the clock. */
module RateLimit {
  import opened Options
  import opened Sequences
  import opened Text

  // ------------------------------------------------------------ sliding window

  /** A timestamp is still in the window at `now` when fewer than `window`
      units separate them. */
  function InWindow(window: int, now: int): int -> bool {
    (ts: int) => now - ts < window
  }

  /** The list comprehension that drops the calls outside the window. */
  function Recent(ts: seq<int>, window: int, now: int): seq<int> {
    Filter(ts, InWindow(window, now))
  }

  /** One `is_allowed` decision on the timestamps stored for a key: whether
      the call is allowed, and the list stored back. An allowed call leaves
      at most `limit` timestamps, the last of them `now` and the others in
      the window; a refused one leaves at least `limit`, all in the window and
      `now` not added. Either way no timestamp is invented and none still in
      the window is lost. */
  function Admit(stored: seq<int>, limit: int, window: int, now: int): (r: (bool, seq<int>))
    ensures r.0 <==> |Recent(stored, window, now)| < limit
    ensures r.1 == Recent(stored, window, now) + (if r.0 then [now] else [])
    ensures r.0 ==> |r.1| <= limit && r.1 != [] && r.1[|r.1| - 1] == now
    ensures r.0 ==> forall i :: 0 <= i < |r.1| - 1 ==> now - r.1[i] < window
    ensures !r.0 ==> |r.1| >= limit && forall i :: 0 <= i < |r.1| ==> now - r.1[i] < window
    ensures forall ts <- r.1 :: ts in stored || (r.0 && ts == now)
    ensures forall ts <- stored :: now - ts < window ==> ts in r.1
  {
    var pruned := Recent(stored, window, now);
    forall ts | true
      ensures ts in pruned <==> ts in stored && now - ts < window
    {
      FilterMember(stored, InWindow(window, now), ts);
    }
    if |pruned| >= limit then (false, pruned) else (true, pruned + [now])
  }

  /** The limiter's state: for each key, the timestamps of its recent
      allowed calls, oldest first. */
  class RateLimiter {
    var calls: map<string, seq<int>>

    constructor()
      ensures calls == map[]
    {
      calls := map[];
    }

    /** `self._calls.get(key, [])`. */
    function Stored(key: string): seq<int>
      reads this
    {
      if key in calls then calls[key] else []
    }

    /** `is_allowed`: the decision of `Admit` on the key's stored list,
        which is replaced by the list `Admit` keeps; every other key keeps its
        list. */
    method IsAllowed(key: string, limit: int, window: int, now: int) returns (allowed: bool)
      modifies this
      ensures var r := Admit(old(Stored(key)), limit, window, now);
              allowed == r.0 && calls == old(calls)[key := r.1]
      ensures forall k <- old(calls) :: k != key ==> k in calls && calls[k] == old(calls)[k]
    {
      if key !in calls {
        calls := calls[key := []];
      }
      var timestamps := calls[key];
      timestamps := Recent(timestamps, window, now);
      if |timestamps| >= limit {
        calls := calls[key := timestamps];
        return false;
      }
      timestamps := timestamps + [now];
      calls := calls[key := timestamps];
      return true;
    }
  }

  // ------------------------------------------------------------ a run of calls

  /** The answers to calls at the instants `nows` on one fresh key, and the
      list stored for the key afterwards. */
  function Replay(limit: int, window: int, nows: seq<int>): (r: (seq<bool>, seq<int>))
    ensures |r.0| == |nows|
    decreases |nows|
  {
    if nows == [] then ([], [])
    else
      var prev := Replay(limit, window, nows[..|nows| - 1]);
      var step := Admit(prev.1, limit, window, nows[|nows| - 1]);
      (prev.0 + [step.0], step.1)
  }

  /** The instants of the calls that were allowed. */
  function Admitted(nows: seq<int>, answers: seq<bool>): seq<int>
    requires |nows| == |answers|
    decreases |nows|
  {
    if nows == [] then []
    else
      Admitted(nows[..|nows| - 1], answers[..|answers| - 1])
      + (if answers[|answers| - 1] then [nows[|nows| - 1]] else [])
  }

  predicate NonDecreasing(nows: seq<int>) {
    forall i, j :: 0 <= i < j < |nows| ==> nows[i] <= nows[j]
  }

  /** The answers to a prefix of the calls are a prefix of the answers. */
  lemma {:induction false} ReplayPrefix(limit: int, window: int, nows: seq<int>, k: nat)
    requires k <= |nows|
    ensures Replay(limit, window, nows[..k]).0 == Replay(limit, window, nows).0[..k]
    decreases |nows|
  {
    if k < |nows| {
      var init := nows[..|nows| - 1];
      ReplayPrefix(limit, window, init, k);
      assert init[..k] == nows[..k];
    } else {
      assert nows[..k] == nows;
    }
  }

  /** Filtering by a later window keeps nothing an earlier window dropped. */
  lemma WindowNarrows(s: seq<int>, window: int, earlier: int, later: int)
    requires earlier <= later
    ensures Filter(Filter(s, InWindow(window, earlier)), InWindow(window, later)) == Filter(s, InWindow(window, later))
  {
    FilterFilter(s, InWindow(window, earlier), InWindow(window, later), InWindow(window, later));
  }

  /** The stored list, seen from any later instant, is exactly the allowed
      calls still in the window then: pruning only on access loses nothing
      when time does not go backwards. */
  lemma {:induction false} ReplayLog(limit: int, window: int, nows: seq<int>, t: int)
    requires NonDecreasing(nows)
    requires nows != [] ==> nows[|nows| - 1] <= t
    ensures var r := Replay(limit, window, nows);
            Filter(r.1, InWindow(window, t)) == Filter(Admitted(nows, r.0), InWindow(window, t))
    decreases |nows|
  {
    if nows != [] {
      var n := |nows|;
      var init := nows[..n - 1];
      var now := nows[n - 1];
      var prev := Replay(limit, window, init);
      var step := Admit(prev.1, limit, window, now);
      var answers := Replay(limit, window, nows).0;
      assert answers == prev.0 + [step.0];
      assert answers[..n - 1] == prev.0;
      var a := Admitted(init, prev.0);
      assert Admitted(nows, answers) == a + (if step.0 then [now] else []);
      ReplayLog(limit, window, init, now);
      ReplayLog(limit, window, init, t);
      WindowNarrows(prev.1, window, now, t);
      if step.0 {
        FilterAppend(Recent(prev.1, window, now), [now], InWindow(window, t));
        FilterAppend(a, [now], InWindow(window, t));
      } else {
        assert Admitted(nows, answers) == a;
      }
    }
  }

  /** The sliding-window guarantee: call i is allowed exactly when fewer than
      `limit` of the calls before it were allowed within the window ending at
      call i. */
  lemma SlidingWindow(limit: int, window: int, nows: seq<int>, i: nat)
    requires NonDecreasing(nows) && i < |nows|
    ensures var answers := Replay(limit, window, nows).0;
            answers[i] <==> |Filter(Admitted(nows[..i], answers[..i]), InWindow(window, nows[i]))| < limit
  {
    var q := nows[..i];
    ReplayAt(limit, window, nows, i);
    assert NonDecreasing(q);
    ReplayLog(limit, window, q, nows[i]);
  }

  /** The i-th answer of a replay is the decision on the list stored after
      the calls before it, and the answers before it are those of the
      shorter replay. */
  lemma ReplayAt(limit: int, window: int, nows: seq<int>, i: nat)
    requires i < |nows|
    ensures var prev := Replay(limit, window, nows[..i]);
            && Replay(limit, window, nows).0[i] == Admit(prev.1, limit, window, nows[i]).0
            && Replay(limit, window, nows).0[..i] == prev.0
  {
    var p := nows[..i + 1];
    var q := nows[..i];
    assert p[..|p| - 1] == q && p[|p| - 1] == nows[i];
    ReplayPrefix(limit, window, nows, i + 1);
    ReplayPrefix(limit, window, nows, i);
  }

  /** After any allowed call, at most `limit` allowed calls lie in the window
      that ends at it, itself included. */
  lemma AllowedBound(limit: int, window: int, nows: seq<int>, i: nat)
    requires NonDecreasing(nows) && i < |nows| && window > 0
    requires Replay(limit, window, nows).0[i]
    ensures var answers := Replay(limit, window, nows).0;
            |Filter(Admitted(nows[..i + 1], answers[..i + 1]), InWindow(window, nows[i]))| <= limit
  {
    var answers := Replay(limit, window, nows).0;
    var p := nows[..i + 1];
    ReplayPrefix(limit, window, nows, i + 1);
    assert p[..i] == nows[..i];
    ReplayLog(limit, window, p, nows[i]);
    var stored := Replay(limit, window, p).1;
    assert stored == Admit(Replay(limit, window, nows[..i]).1, limit, window, nows[i]).1;
    assert |Filter(stored, InWindow(window, nows[i]))| <= |stored|;
  }

  // ------------------------------------------------------------ bucket and key

  /** What the decorated call's bound arguments offer to pick a bucket: the
      `current_user` and `user` objects (each with its `id` attribute, if
      any), a `user_id` argument, and a `request` with its client's host. */
  datatype UserArg = UserArg(id: Option<string>)
  datatype Client = Client(host: Option<string>)
  datatype Request = Request(client: Option<Client>)
  datatype Arguments = Arguments(currentUser: Option<UserArg>, user: Option<UserArg>,
                                 userId: Option<string>, request: Option<Request>)

  /** `bind_partial` raising `TypeError` (None) leaves no arguments. */
  function Bound(args: Option<Arguments>): Arguments {
    if args.Some? then args.value else Arguments(None, None, None, None)
  }

  /** `current_user or user`. */
  function UserObject(a: Arguments): Option<UserArg> {
    if a.currentUser.Some? then a.currentUser else a.user
  }

  /** The host of the request's client, when there is one. */
  function HostOf(a: Arguments): Option<string> {
    if a.request.Some? && a.request.value.client.Some? then a.request.value.client.value.host else None
  }

  /** `resolve_bucket`. */
  function ResolveBucket(identifier: string, args: Option<Arguments>): (r: string)
    ensures var a := Bound(args);
            var u := UserObject(a);
            && (identifier == "user" && u.Some? && u.value.id.Some? ==> r == "user:" + u.value.id.value)
            && (identifier == "user" && !(u.Some? && u.value.id.Some?) && a.userId.Some? ==> r == "user:" + a.userId.value)
            && (identifier == "user" && !(u.Some? && u.value.id.Some?) && a.userId.None? ==> r == "global")
            && (identifier == "ip" && HostOf(a).Some? && HostOf(a).value != "" ==> r == "ip:" + HostOf(a).value)
            && (identifier == "ip" && !(HostOf(a).Some? && HostOf(a).value != "") ==> r == "global")
            && (identifier != "user" && identifier != "ip" ==> r == "global")
  {
    var a := Bound(args);
    if identifier == "user" then
      var u := UserObject(a);
      if u.Some? && u.value.id.Some? then "user:" + u.value.id.value
      else if a.userId.Some? then "user:" + a.userId.value
      else "global"
    else if identifier == "ip" then
      var client := if a.request.Some? then a.request.value.client else None;
      var host := if client.Some? then client.value.host else None;
      if host.Some? && host.value != "" then "ip:" + host.value else "global"
    else "global"
  }

  /** A bucket names its kind: a user bucket only comes from `user`, an IP
      bucket only from `ip`, and the two never coincide with each other or
      with the global bucket. */
  lemma BucketKinds(identifier: string, args: Option<Arguments>)
    ensures var r := ResolveBucket(identifier, args);
            && (r == "global" || IsPrefix("user:", r) || IsPrefix("ip:", r))
            && (IsPrefix("user:", r) ==> identifier == "user" && r != "global" && !IsPrefix("ip:", r))
            && (IsPrefix("ip:", r) ==> identifier == "ip" && r != "global")
  {
    var r := ResolveBucket(identifier, args);
    if IsPrefix("user:", r) {
      assert r[..5] == "user:";
      assert r[..3] != "ip:" by { assert r[0] == 'u'; }
    }
    if IsPrefix("ip:", r) {
      assert r[..3] == "ip:";
      assert r[0] == 'i';
    }
  }

  /** `build_key`: the function's module and qualified name, then the bucket. */
  function BuildKey(moduleName: string, qualname: string, bucket: string): string {
    moduleName + "." + qualname + ":" + bucket
  }

  /** Splits a key at its first `:`; the inverse of `BuildKey` for names
      without one. */
  function SplitKey(key: string): (r: (string, string))
    ensures ':' !in r.0
    decreases |key|
  {
    if key == [] then ([], [])
    else if key[0] == ':' then ([], key[1..])
    else
      var rest := SplitKey(key[1..]);
      ([key[0]] + rest.0, rest.1)
  }

  lemma {:induction false} SplitKeyAt(name: string, bucket: string)
    requires ':' !in name
    ensures SplitKey(name + ":" + bucket) == (name, bucket)
    decreases |name|
  {
    if name == [] {
      assert name + ":" + bucket == [':'] + bucket;
    } else {
      assert (name + ":" + bucket)[1..] == name[1..] + ":" + bucket;
      assert name[0] != ':';
      SplitKeyAt(name[1..], bucket);
      assert [name[0]] + name[1..] == name;
    }
  }

  /** `BuildKey` round-trips through `SplitKey`: Python module paths and
      qualified names never contain `:`. */
  lemma BuildKeySplit(moduleName: string, qualname: string, bucket: string)
    requires ':' !in moduleName && ':' !in qualname
    ensures SplitKey(BuildKey(moduleName, qualname, bucket)) == (moduleName + "." + qualname, bucket)
  {
    assert ':' !in moduleName + "." + qualname;
    assert BuildKey(moduleName, qualname, bucket) == (moduleName + "." + qualname) + ":" + bucket;
    SplitKeyAt(moduleName + "." + qualname, bucket);
  }

  /** Two decorated functions share a key only when they have the same
      dotted name and the same bucket: different functions never share a
      counter. */
  lemma KeysSeparateFunctions(m1: string, q1: string, b1: string, m2: string, q2: string, b2: string)
    requires ':' !in m1 && ':' !in q1 && ':' !in m2 && ':' !in q2
    ensures BuildKey(m1, q1, b1) == BuildKey(m2, q2, b2) <==> m1 + "." + q1 == m2 + "." + q2 && b1 == b2
  {
    BuildKeySplit(m1, q1, b1);
    BuildKeySplit(m2, q2, b2);
  }
}
