/** The sliding-window request limiter: a pruned deque per key that must decide
    exactly as if the full history of accepted requests had been kept. */
module Limiter {

  /** The oldest-first prefix at or before `cutoff` removed, as the pruning loop leaves it. */
  function DropOld(bucket: seq<real>, cutoff: real): seq<real> {
    if bucket != [] && bucket[0] <= cutoff then DropOld(bucket[1..], cutoff) else bucket
  }

  function BucketOf(requests: map<string, seq<real>>, key: string): seq<real> {
    if key in requests then requests[key] else []
  }

  datatype Decision = Decision(allowed: bool, bucket: seq<real>)

  /** One decision on one key's deque. */
  function Admit(limit: int, window: int, bucket: seq<real>, now: real): Decision {
    var kept := DropOld(bucket, now - window as real);
    if |kept| >= limit then Decision(false, kept) else Decision(true, kept + [now])
  }

  class SlidingWindowLimiter {
    const limit: int
    const windowSeconds: int
    var requests: map<string, seq<real>>

    constructor (limit: int, windowSeconds: int)
      ensures this.limit == limit && this.windowSeconds == windowSeconds && requests == map[]
    {
      this.limit := limit;
      this.windowSeconds := windowSeconds;
      this.requests := map[];
    }

    method Allow(key: string, now: real) returns (allowed: bool)
      modifies this
      ensures allowed == Admit(limit, windowSeconds, BucketOf(old(requests), key), now).allowed
      ensures requests == old(requests)[key := Admit(limit, windowSeconds, BucketOf(old(requests), key), now).bucket]
    {
      var cutoff := now - windowSeconds as real;
      var bucket := BucketOf(requests, key);
      while bucket != [] && bucket[0] <= cutoff
        invariant DropOld(bucket, cutoff) == DropOld(BucketOf(old(requests), key), cutoff)
        decreases |bucket|
      {
        bucket := bucket[1..];
      }
      if |bucket| >= limit {
        requests := requests[key := bucket];
        return false;
      }
      requests := requests[key := bucket + [now]];
      return true;
    }
  }

  // ---------------------------------------------------------------- runs of the limiter

  datatype Request = Request(key: string, now: real)

  /** What a run leaves: the deques, and every accepted request in order, never pruned. */
  datatype Served = Served(requests: map<string, seq<real>>, accepted: seq<Request>)

  function Serve(limit: int, window: int, calls: seq<Request>): Served {
    if calls == [] then Served(map[], []) else
      var before := Serve(limit, window, calls[..|calls| - 1]);
      var call := calls[|calls| - 1];
      var d := Admit(limit, window, BucketOf(before.requests, call.key), call.now);
      Served(before.requests[call.key := d.bucket],
             if d.allowed then before.accepted + [call] else before.accepted)
  }

  /** The clock never runs backwards for the requests of one key. */
  predicate Monotone(calls: seq<Request>) {
    forall i, j :: 0 <= i < j < |calls| && calls[i].key == calls[j].key ==> calls[i].now <= calls[j].now
  }

  /** The full history of one key: all its accepted instants. */
  function History(accepted: seq<Request>, key: string): seq<real> {
    if accepted == [] then []
    else
      var rest := History(accepted[..|accepted| - 1], key);
      var last := accepted[|accepted| - 1];
      if last.key == key then rest + [last.now] else rest
  }

  /** The instants of `h` later than `lo`. */
  function Newer(h: seq<real>, lo: real): seq<real> {
    if h == [] then []
    else
      var rest := Newer(h[..|h| - 1], lo);
      if lo < h[|h| - 1] then rest + [h[|h| - 1]] else rest
  }

  /** The instants of `h` in the half-open interval `(lo, hi]`. */
  function Within(h: seq<real>, lo: real, hi: real): seq<real> {
    if h == [] then []
    else
      var rest := Within(h[..|h| - 1], lo, hi);
      if lo < h[|h| - 1] <= hi then rest + [h[|h| - 1]] else rest
  }

  predicate UpTo(h: seq<real>, now: real) {
    forall i :: 0 <= i < |h| ==> h[i] <= now
  }

  predicate Sorted(h: seq<real>) {
    forall i, j :: 0 <= i < j < |h| ==> h[i] <= h[j]
  }

  // ---------------------------------------------------------------- pruning is filtering, on sorted deques

  lemma {:induction false} DropOldSnoc(s: seq<real>, x: real, cutoff: real)
    ensures DropOld(s + [x], cutoff) ==
            if DropOld(s, cutoff) == [] then (if x <= cutoff then [] else [x]) else DropOld(s, cutoff) + [x]
  {
    if s == [] {
      assert s + [x] == [x];
    } else if s[0] <= cutoff {
      assert (s + [x])[1..] == s[1..] + [x];
      DropOldSnoc(s[1..], x, cutoff);
    }
  }

  lemma {:induction false} NewerMembers(h: seq<real>, lo: real)
    ensures forall i :: 0 <= i < |Newer(h, lo)| ==> Newer(h, lo)[i] in h && Newer(h, lo)[i] > lo
  {
    if h != [] {
      NewerMembers(h[..|h| - 1], lo);
    }
  }

  lemma {:induction false} DropOldTwice(s: seq<real>, lo: real, hi: real)
    requires lo <= hi
    ensures DropOld(DropOld(s, lo), hi) == DropOld(s, hi)
  {
    if s != [] && s[0] <= lo {
      DropOldTwice(s[1..], lo, hi);
    }
  }

  lemma {:induction false} WithinIsNewer(h: seq<real>, lo: real, now: real)
    requires UpTo(h, now)
    ensures Within(h, lo, now) == Newer(h, lo)
  {
    if h != [] {
      WithinIsNewer(h[..|h| - 1], lo, now);
    }
  }

  // ---------------------------------------------------------------- one key

  datatype Lane = Lane(bucket: seq<real>, history: seq<real>)

  /** The limiter as one key sees it: its deque, and its accepted instants never pruned. */
  function ServeOne(limit: int, window: int, times: seq<real>): Lane {
    if times == [] then Lane([], []) else
      var before := ServeOne(limit, window, times[..|times| - 1]);
      var now := times[|times| - 1];
      var d := Admit(limit, window, before.bucket, now);
      Lane(d.bucket, if d.allowed then before.history + [now] else before.history)
  }

  /** From `cut` on, pruning the deque gives what filtering the whole history gives. */
  ghost predicate Pruned(lane: Lane, cut: real) {
    forall cutoff :: cut <= cutoff ==> DropOld(lane.bucket, cutoff) == Newer(lane.history, cutoff)
  }

  lemma SortedInit(times: seq<real>)
    requires Sorted(times) && times != []
    ensures Sorted(times[..|times| - 1])
    ensures UpTo(times, times[|times| - 1]) && UpTo(times[..|times| - 1], times[|times| - 1])
  {
  }

  lemma {:induction false} HistoryBounded(limit: int, window: int, times: seq<real>, now: real)
    requires UpTo(times, now)
    ensures UpTo(ServeOne(limit, window, times).history, now)
  {
    if times != [] {
      HistoryBounded(limit, window, times[..|times| - 1], now);
    }
  }

  /** One more request keeps the deque and the history in step. */
  lemma StepPruned(limit: int, window: int, before: Lane, cut: real, now: real)
    requires Pruned(before, cut) && cut <= now - window as real
    requires UpTo(before.history, now)
    ensures var d := Admit(limit, window, before.bucket, now);
            Pruned(Lane(d.bucket, if d.allowed then before.history + [now] else before.history), now - window as real)
  {
    var lo := now - window as real;
    var d := Admit(limit, window, before.bucket, now);
    forall cutoff | lo <= cutoff
      ensures DropOld(d.bucket, cutoff) == Newer(if d.allowed then before.history + [now] else before.history, cutoff)
    {
      DropOldTwice(before.bucket, lo, cutoff);
      if d.allowed {
        DropOldSnoc(DropOld(before.bucket, lo), now, cutoff);
        assert (before.history + [now])[..|before.history|] == before.history;
        NewerMembers(before.history, cutoff);
        if Newer(before.history, cutoff) != [] {
          assert Newer(before.history, cutoff)[0] in before.history;
        }
      }
    }
  }

  lemma {:induction false} LanePruned(limit: int, window: int, times: seq<real>)
    requires Sorted(times) && times != []
    ensures Pruned(ServeOne(limit, window, times), times[|times| - 1] - window as real)
  {
    var init, now := times[..|times| - 1], times[|times| - 1];
    SortedInit(times);
    HistoryBounded(limit, window, init, now);
    if init == [] {
      StepPruned(limit, window, Lane([], []), now - window as real, now);
    } else {
      LanePruned(limit, window, init);
      assert init[|init| - 1] <= now;
      StepPruned(limit, window, ServeOne(limit, window, init), init[|init| - 1] - window as real, now);
    }
  }

  /** The decision on a pruned deque is the decision on the full history. */
  lemma LaneDecidesByHistory(limit: int, window: int, times: seq<real>, now: real)
    requires Sorted(times) && UpTo(times, now)
    ensures var lane := ServeOne(limit, window, times);
            DropOld(lane.bucket, now - window as real) == Within(lane.history, now - window as real, now)
  {
    var lane := ServeOne(limit, window, times);
    if times != [] {
      LanePruned(limit, window, times);
    }
    HistoryBounded(limit, window, times, now);
    WithinIsNewer(lane.history, now - window as real, now);
  }

  /** With a positive window the deque is exactly the accepted instants newer than the last cutoff. */
  lemma LaneKeepsRecent(limit: int, window: int, times: seq<real>)
    requires Sorted(times) && times != [] && window > 0
    ensures var lane := ServeOne(limit, window, times);
            lane.bucket == Newer(lane.history, times[|times| - 1] - window as real)
  {
    var init, now := times[..|times| - 1], times[|times| - 1];
    SortedInit(times);
    var before := ServeOne(limit, window, init);
    if init != [] {
      LanePruned(limit, window, init);
      assert init[|init| - 1] <= now;
    }
    assert (before.history + [now])[..|before.history|] == before.history;
  }

  lemma {:induction false} WithinShrinks(h: seq<real>, lo: real, hi: real, lo': real, hi': real)
    requires forall i :: 0 <= i < |h| ==> (lo < h[i] <= hi ==> lo' < h[i] <= hi')
    ensures |Within(h, lo, hi)| <= |Within(h, lo', hi')|
  {
    if h != [] {
      WithinShrinks(h[..|h| - 1], lo, hi, lo', hi');
    }
  }

  /** Accepting one more instant under the rule keeps every window within the limit. */
  lemma AcceptKeepsBound(h: seq<real>, now: real, limit: int, window: int, t: real)
    requires UpTo(h, now)
    requires |Within(h, now - window as real, now)| < limit
    requires |Within(h, t - window as real, t)| <= limit
    ensures |Within(h + [now], t - window as real, t)| <= limit
  {
    assert (h + [now])[..|h|] == h;
    if t - window as real < now <= t {
      WithinShrinks(h, t - window as real, t, now - window as real, now);
    }
  }

  lemma {:induction false} LaneNeverExceeds(limit: int, window: int, times: seq<real>, t: real)
    requires Sorted(times) && limit >= 0
    ensures |Within(ServeOne(limit, window, times).history, t - window as real, t)| <= limit
  {
    if times != [] {
      var init, now := times[..|times| - 1], times[|times| - 1];
      SortedInit(times);
      LaneNeverExceeds(limit, window, init, t);
      LaneDecidesByHistory(limit, window, init, now);
      HistoryBounded(limit, window, init, now);
      if |Within(ServeOne(limit, window, init).history, now - window as real, now)| < limit {
        AcceptKeepsBound(ServeOne(limit, window, init).history, now, limit, window, t);
      }
    }
  }

  // ---------------------------------------------------------------- all keys

  /** The instants at which one key was asked for. */
  function TimesOf(calls: seq<Request>, key: string): seq<real> {
    if calls == [] then []
    else
      var rest := TimesOf(calls[..|calls| - 1], key);
      if calls[|calls| - 1].key == key then rest + [calls[|calls| - 1].now] else rest
  }

  /** A key's deque and history depend on that key's own requests and on nothing else. */
  lemma {:induction false} KeysIndependent(limit: int, window: int, calls: seq<Request>, key: string)
    ensures var s, lane := Serve(limit, window, calls), ServeOne(limit, window, TimesOf(calls, key));
            BucketOf(s.requests, key) == lane.bucket && History(s.accepted, key) == lane.history
  {
    if calls != [] {
      var init, call := calls[..|calls| - 1], calls[|calls| - 1];
      KeysIndependent(limit, window, init, key);
      var before := Serve(limit, window, init);
      assert (before.accepted + [call])[..|before.accepted|] == before.accepted;
      if call.key == key {
        assert TimesOf(calls, key)[..|TimesOf(calls, key)| - 1] == TimesOf(init, key);
      }
    }
  }

  lemma {:induction false} TimesSorted(calls: seq<Request>, key: string)
    requires Monotone(calls)
    ensures Sorted(TimesOf(calls, key))
    ensures forall x :: x in TimesOf(calls, key) ==> exists i :: 0 <= i < |calls| && calls[i] == Request(key, x)
  {
    if calls != [] {
      var init, call := calls[..|calls| - 1], calls[|calls| - 1];
      TimesSorted(init, key);
      forall x | x in TimesOf(calls, key) ensures exists i :: 0 <= i < |calls| && calls[i] == Request(key, x) {
        if x in TimesOf(init, key) {
          var i :| 0 <= i < |init| && init[i] == Request(key, x);
          assert calls[i] == Request(key, x);
        } else {
          assert calls[|calls| - 1] == Request(key, x);
        }
      }
      if call.key == key {
        forall j | 0 <= j < |TimesOf(init, key)| ensures TimesOf(init, key)[j] <= call.now {
          assert TimesOf(init, key)[j] in TimesOf(init, key);
          var i :| 0 <= i < |init| && init[i] == Request(key, TimesOf(init, key)[j]);
          assert calls[i].now <= calls[|calls| - 1].now;
        }
      }
    }
  }

  lemma TimesBefore(calls: seq<Request>, call: Request)
    requires Monotone(calls + [call])
    ensures Sorted(TimesOf(calls, call.key)) && UpTo(TimesOf(calls, call.key), call.now)
  {
    TimesSorted(calls + [call], call.key);
    assert (calls + [call])[..|calls|] == calls;
    SortedInit(TimesOf(calls + [call], call.key));
    assert TimesOf(calls + [call], call.key)[..|TimesOf(calls, call.key)|] == TimesOf(calls, call.key);
  }

  lemma ServeSnoc(limit: int, window: int, calls: seq<Request>, call: Request)
    ensures var before := Serve(limit, window, calls);
            var d := Admit(limit, window, BucketOf(before.requests, call.key), call.now);
            Serve(limit, window, calls + [call]) ==
            Served(before.requests[call.key := d.bucket], if d.allowed then before.accepted + [call] else before.accepted)
  {
    assert (calls + [call])[..|calls|] == calls;
  }

  lemma KeyDecides(limit: int, window: int, calls: seq<Request>, call: Request)
    requires Monotone(calls + [call])
    ensures var s := Serve(limit, window, calls);
            DropOld(BucketOf(s.requests, call.key), call.now - window as real)
            == Within(History(s.accepted, call.key), call.now - window as real, call.now)
  {
    KeysIndependent(limit, window, calls, call.key);
    TimesBefore(calls, call);
    LaneDecidesByHistory(limit, window, TimesOf(calls, call.key), call.now);
  }

  /** The main result: on a clock that never runs backwards, a request is accepted exactly when
      fewer than `limit` accepted requests of its key lie in `(now - window, now]`. */
  lemma DecidesByFullHistory(limit: int, window: int, calls: seq<Request>, call: Request)
    requires Monotone(calls + [call])
    ensures var before := Serve(limit, window, calls).accepted;
            var recent := Within(History(before, call.key), call.now - window as real, call.now);
            Serve(limit, window, calls + [call]).accepted == if |recent| < limit then before + [call] else before
  {
    var before := Serve(limit, window, calls);
    var kept := DropOld(BucketOf(before.requests, call.key), call.now - window as real);
    assert Serve(limit, window, calls + [call]).accepted ==
           if |kept| < limit then before.accepted + [call] else before.accepted by {
      ServeSnoc(limit, window, calls, call);
    }
    assert kept == Within(History(before.accepted, call.key), call.now - window as real, call.now) by {
      KeyDecides(limit, window, calls, call);
    }
  }

  /** No window of the configured length, wherever it is placed, holds more than `limit` accepted requests. */
  lemma NeverExceedsLimit(limit: int, window: int, calls: seq<Request>, key: string, t: real)
    requires Monotone(calls) && limit >= 0
    ensures |Within(History(Serve(limit, window, calls).accepted, key), t - window as real, t)| <= limit
  {
    KeysIndependent(limit, window, calls, key);
    TimesSorted(calls, key);
    LaneNeverExceeds(limit, window, TimesOf(calls, key), t);
  }

  /** With a positive window the stored deque is the accepted history newer than the key's last cutoff. */
  lemma DequeIsRecentHistory(limit: int, window: int, calls: seq<Request>, last: Request)
    requires Monotone(calls + [last]) && window > 0
    ensures var s := Serve(limit, window, calls + [last]);
            BucketOf(s.requests, last.key) == Newer(History(s.accepted, last.key), last.now - window as real)
  {
    KeysIndependent(limit, window, calls + [last], last.key);
    TimesSorted(calls + [last], last.key);
    assert (calls + [last])[..|calls|] == calls;
    LaneKeepsRecent(limit, window, TimesOf(calls + [last], last.key));
  }

  lemma HistorySnoc(accepted: seq<Request>, call: Request)
    ensures History(accepted + [call], call.key) == History(accepted, call.key) + [call.now]
  {
    assert (accepted + [call])[..|accepted|] == accepted;
  }

  lemma WithinSnoc(h: seq<real>, x: real, lo: real, hi: real)
    ensures Within(h + [x], lo, hi) == Within(h, lo, hi) + if lo < x <= hi then [x] else []
  {
    assert (h + [x])[..|h|] == h;
  }

  /** Two requests, one a window later, and one at the first reading again. */
  function BackwardCalls(window: int): seq<Request> {
    [] + [Request("k", 0.0)] + [Request("k", 0.0)] + [Request("k", window as real)] + [Request("k", 0.0)]
  }

  lemma BackwardDecisions(window: int)
    requires window > 0
    ensures var t := window as real;
            && Admit(2, window, [], 0.0) == Decision(true, [0.0])
            && Admit(2, window, [0.0], 0.0) == Decision(true, [0.0, 0.0])
            && Admit(2, window, [0.0, 0.0], t) == Decision(true, [t])
            && Admit(2, window, [t], 0.0) == Decision(true, [t, 0.0])
  {
    var t := window as real;
    assert [0.0, 0.0][1..] == [0.0];
    assert DropOld([0.0], -t) == [0.0] && DropOld([t], -t) == [t];
    assert DropOld([0.0, 0.0], 0.0) == DropOld([0.0], 0.0) == [];
    assert [] + [t] == [t] && [] + [0.0] == [0.0];
  }

  /** Everything was accepted so far, and the one key has this deque. */
  predicate AllAccepted(window: int, calls: seq<Request>, bucket: seq<real>) {
    var s := Serve(2, window, calls);
    s.accepted == calls && BucketOf(s.requests, "k") == bucket
  }

  lemma AcceptedNext(window: int, calls: seq<Request>, now: real, before: seq<real>, after: seq<real>)
    requires AllAccepted(window, calls, before) && Admit(2, window, before, now) == Decision(true, after)
    ensures AllAccepted(window, calls + [Request("k", now)], after)
  {
    ServeSnoc(2, window, calls, Request("k", now));
    hide Serve, Admit;
  }

  lemma BackwardAccepted(window: int)
    requires window > 0
    ensures Serve(2, window, BackwardCalls(window)).accepted == BackwardCalls(window)
  {
    var t := window as real;
    var c, d := Request("k", 0.0), Request("k", t);
    BackwardDecisions(window);
    assert AllAccepted(window, [], []);
    hide Admit, Serve;
    AcceptedNext(window, [], 0.0, [], [0.0]);
    AcceptedNext(window, [] + [c], 0.0, [0.0], [0.0, 0.0]);
    AcceptedNext(window, [] + [c] + [c], t, [0.0, 0.0], [t]);
    AcceptedNext(window, [] + [c] + [c] + [d], 0.0, [t], [t, 0.0]);
  }

  lemma BackwardHistory(window: int)
    ensures History(BackwardCalls(window), "k") == [] + [0.0] + [0.0] + [window as real] + [0.0]
  {
    var c, d := Request("k", 0.0), Request("k", window as real);
    HistorySnoc([], c);
    HistorySnoc([] + [c], c);
    HistorySnoc([] + [c] + [c], d);
    HistorySnoc([] + [c] + [c] + [d], c);
  }

  /** A clock that steps back breaks the bound, whatever the window: what was pruned at a later reading is forgotten
      when the earlier one returns. */
  lemma BackwardClockOvershoots(window: int)
    requires window > 0
    ensures var calls := BackwardCalls(window);
            && !Monotone(calls)
            && |Within(History(Serve(2, window, calls).accepted, "k"), -(window as real), 0.0)| == 3
  {
    var t, calls := window as real, BackwardCalls(window);
    assert calls[2].key == calls[3].key && calls[2].now > calls[3].now;
    BackwardAccepted(window);
    BackwardHistory(window);
    hide Serve, History;
    WithinSnoc([], 0.0, -t, 0.0);
    WithinSnoc([] + [0.0], 0.0, -t, 0.0);
    WithinSnoc([] + [0.0] + [0.0], t, -t, 0.0);
    WithinSnoc([] + [0.0] + [0.0] + [t], 0.0, -t, 0.0);
  }
}
