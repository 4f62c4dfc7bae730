/** The in-memory sliding-window rate limiter (`RateLimiter`): per
    identifier, the times of the requests it accepted; a request is accepted
    while fewer than `max` accepted requests lie inside the window that ends
    now.

    Times are whole seconds since some origin (`datetime.utcnow()` is a
    parameter `now`); a window of `w` minutes is `60 * w` seconds.
 */
module RateLimiter {

  import opened Wrappers
  import Assoc

  type Requests = Assoc.Dict<string, seq<int>>

  /** The times strictly after `bound`, in order. */
  function Recientes(ts: seq<int>, bound: int): (r: seq<int>)
    ensures |r| <= |ts|
    ensures forall i :: 0 <= i < |r| ==> r[i] > bound
    decreases |ts|
  {
    if |ts| == 0 then []
    else (if ts[0] > bound then [ts[0]] else []) + Recientes(ts[1..], bound)
  }

  /** Filtering keeps exactly the times after the bound: each kept time comes
      from the input, and each input time after the bound is kept. */
  lemma {:induction false} RecientesMembers(ts: seq<int>, bound: int)
    ensures forall i :: 0 <= i < |Recientes(ts, bound)| ==> Recientes(ts, bound)[i] in ts
    ensures forall i :: 0 <= i < |ts| && ts[i] > bound ==> ts[i] in Recientes(ts, bound)
    decreases |ts|
  {
    if |ts| > 0 {
      RecientesMembers(ts[1..], bound);
      var r := Recientes(ts, bound);
      var rest := Recientes(ts[1..], bound);
      forall i | 0 <= i < |r|
        ensures r[i] in ts
      {
        if ts[0] > bound && i == 0 {
        } else {
          var j := if ts[0] > bound then i - 1 else i;
          assert r[i] == rest[j];
          assert rest[j] in ts[1..];
        }
      }
      forall i | 0 <= i < |ts| && ts[i] > bound
        ensures ts[i] in r
      {
        if i > 0 {
          assert ts[i] == ts[1..][i - 1];
        }
      }
    }
  }

  lemma {:induction false} RecientesAppend(a: seq<int>, b: seq<int>, bound: int)
    ensures Recientes(a + b, bound) == Recientes(a, bound) + Recientes(b, bound)
    decreases |a|
  {
    if |a| > 0 {
      assert (a + b)[1..] == a[1..] + b;
      RecientesAppend(a[1..], b, bound);
    } else {
      assert a + b == b;
    }
  }

  /** Filtering with a later bound after an earlier one is filtering with the
      later bound alone. */
  lemma {:induction false} RecientesTwice(ts: seq<int>, b1: int, b2: int)
    requires b1 <= b2
    ensures Recientes(Recientes(ts, b1), b2) == Recientes(ts, b2)
    decreases |ts|
  {
    if |ts| > 0 {
      RecientesTwice(ts[1..], b1, b2);
      var head := if ts[0] > b1 then [ts[0]] else [];
      RecientesAppend(head, Recientes(ts[1..], b1), b2);
    }
  }

  /** Every time is kept when all lie after the bound. */
  lemma {:induction false} RecientesAll(ts: seq<int>, bound: int)
    requires forall i :: 0 <= i < |ts| ==> ts[i] > bound
    ensures Recientes(ts, bound) == ts
    decreases |ts|
  {
    if |ts| > 0 {
      RecientesAll(ts[1..], bound);
    }
  }

  function Min(ts: seq<int>): (m: int)
    requires |ts| > 0
    ensures m in ts
    ensures forall i :: 0 <= i < |ts| ==> m <= ts[i]
  {
    if |ts| == 1 then ts[0]
    else
      var rest := Min(ts[1..]);
      if ts[0] <= rest then ts[0] else rest
  }

  /** The error `min` raises on an empty list. */
  const MinVacio: string := "min() arg is an empty sequence"

  /** The answer `(permitido, requests_restantes, tiempo_hasta_reset)`. */
  datatype Decision = Decision(permitido: bool, restantes: int, hastaReset: int)

  /** What a check leaves for the identifier and answers. */
  datatype Checked = Checked(kept: seq<int>, decision: Decision)

  /** `check_rate_limit` for one identifier's stored times. Times at or
      before the window start are dropped; at `max` or more the request is
      refused and the reset time is measured from the oldest stored time;
      otherwise `now` is stored. With `max <= 0` and nothing stored, taking
      the oldest time of an empty list fails. */
  function CheckTimes(stored: seq<int>, max: int, windowMinutes: int, now: int): (r: Result<Checked, string>)
    ensures var w := Recientes(stored, now - 60 * windowMinutes);
      && (r.Err? <==> |w| >= max && |w| == 0)
      && (r.Ok? && |w| >= max ==>
            r.value.kept == w && !r.value.decision.permitido && r.value.decision.restantes == 0
            && r.value.decision.hastaReset == Min(w) + 60 * windowMinutes - now)
      && (|w| < max ==>
            r.Ok? && r.value.kept == w + [now]
            && r.value.decision == Decision(true, max - (|w| + 1), 0))
  {
    var w := Recientes(stored, now - 60 * windowMinutes);
    if |w| >= max then
      if |w| == 0 then Err(MinVacio)
      else Ok(Checked(w, Decision(false, 0, Min(w) + 60 * windowMinutes - now)))
    else Ok(Checked(w + [now], Decision(true, max - (|w| + 1), 0)))
  }

  /** `check_rate_limit` on the whole table: only the identifier's entry
      changes (it is created when missing, as with a `defaultdict`). On the
      failing path the source has already stored the empty window under the
      identifier when `min` raises; the model returns the error alone. That
      path needs `max <= 0`, which no configured limit has
      (`LimitesConfiguradosNoFallan`). */
  function CheckRateLimit(reqs: Requests, id: string, max: int, windowMinutes: int, now: int): (r: Result<(Requests, Decision), string>)
    ensures var c := CheckTimes(Assoc.Get(reqs, id).GetOr([]), max, windowMinutes, now);
      (r.Ok? <==> c.Ok?)
      && (r.Ok? ==> r.value == (Assoc.Put(reqs, id, c.value.kept), c.value.decision))
  {
    var c :- CheckTimes(Assoc.Get(reqs, id).GetOr([]), max, windowMinutes, now);
    Ok((Assoc.Put(reqs, id, c.kept), c.decision))
  }

  /** A check touches no other identifier. */
  lemma CheckIsolated(reqs: Requests, id: string, other: string, max: int, windowMinutes: int, now: int)
    requires Assoc.DistinctKeys(reqs) && other != id
    requires CheckRateLimit(reqs, id, max, windowMinutes, now).Ok?
    ensures Assoc.Get(CheckRateLimit(reqs, id, max, windowMinutes, now).value.0, other) == Assoc.Get(reqs, other)
  {
    var c := CheckTimes(Assoc.Get(reqs, id).GetOr([]), max, windowMinutes, now);
    Assoc.PutSpec(reqs, id, c.value.kept);
  }

  // ---------------------------------------------------------------------------
  // The sliding-window guarantee
  // ---------------------------------------------------------------------------

  predicate NonDecreasing(ts: seq<int>) {
    forall i, j :: 0 <= i < j < |ts| ==> ts[i] <= ts[j]
  }

  /** One identifier's history: what is stored and every time accepted. */
  datatype Trace = Trace(stored: seq<int>, accepted: seq<int>)

  /** One check on a history; a check that fails changes nothing. */
  function Step(prev: Trace, now: int, max: int, windowMinutes: int): Trace {
    match CheckTimes(prev.stored, max, windowMinutes, now)
    case Err(_) => prev
    case Ok(c) => Trace(c.kept, prev.accepted + (if c.decision.permitido then [now] else []))
  }

  /** Checks at the given times, first to last, with fixed limits. */
  function Run(times: seq<int>, max: int, windowMinutes: int): Trace
    decreases |times|
  {
    if |times| == 0 then Trace([], [])
    else Step(Run(times[..|times| - 1], max, windowMinutes), times[|times| - 1], max, windowMinutes)
  }

  /** The history invariant at a check made at time `last`: what is stored
      is exactly the accepted times inside the window ending at `last`, at
      most `max` of them, and nothing was accepted after `last`. */
  predicate Invariant(t: Trace, last: int, max: int, windowMinutes: int) {
    t.stored == Recientes(t.accepted, last - 60 * windowMinutes)
    && |t.stored| <= (if max < 0 then 0 else max)
    && forall i :: 0 <= i < |t.accepted| ==> t.accepted[i] <= last
  }

  /** A check made no earlier than the previous one keeps the invariant. */
  lemma StepInvariant(prev: Trace, before: int, now: int, max: int, windowMinutes: int)
    requires Invariant(prev, before, max, windowMinutes)
    requires before <= now && windowMinutes >= 1
    ensures Invariant(Step(prev, now, max, windowMinutes), now, max, windowMinutes)
  {
    if |Recientes(prev.stored, now - 60 * windowMinutes)| < max {
      StepAccepted(prev, before, now, max, windowMinutes);
    } else {
      StepRefused(prev, before, now, max, windowMinutes);
    }
  }

  /** Re-filtering what was stored at an earlier check gives the accepted
      times inside the current window, and appending `now` keeps that so. */
  lemma WindowMoves(acc: seq<int>, pbound: int, bound: int, now: int)
    requires pbound <= bound < now
    ensures Recientes(Recientes(acc, pbound), bound) == Recientes(acc, bound)
    ensures Recientes(acc + [now], bound) == Recientes(acc, bound) + [now]
  {
    RecientesTwice(acc, pbound, bound);
    RecientesAppend(acc, [now], bound);
    RecientesAll([now], bound);
  }

  /** The refusing and failing cases of `StepInvariant`. */
  lemma StepRefused(prev: Trace, before: int, now: int, max: int, windowMinutes: int)
    requires Invariant(prev, before, max, windowMinutes)
    requires before <= now && windowMinutes >= 1
    requires |Recientes(prev.stored, now - 60 * windowMinutes)| >= max
    ensures Invariant(Step(prev, now, max, windowMinutes), now, max, windowMinutes)
  {
    var bound := now - 60 * windowMinutes;
    var w := Recientes(prev.stored, bound);
    StoredMoves(prev.stored, prev.accepted, before - 60 * windowMinutes, bound);
    var next := Step(prev, now, max, windowMinutes);
    var c := CheckTimes(prev.stored, max, windowMinutes, now);
    if |w| == 0 {
      assert c.Err?;
      assert prev.stored == [];
      assert next == prev;
      assert next.stored == Recientes(next.accepted, bound);
    } else {
      assert c.Ok? && c.value.kept == w && !c.value.decision.permitido;
      assert next == Trace(w, prev.accepted + []);
      assert prev.accepted + [] == prev.accepted;
      assert next.stored == Recientes(next.accepted, bound);
    }
    assert next.accepted == prev.accepted;
    assert |next.stored| <= |prev.stored|;
  }

  /** What was stored at an earlier check, filtered again, is what the
      current window holds of the accepted times. */
  lemma StoredMoves(stored: seq<int>, acc: seq<int>, pbound: int, bound: int)
    requires stored == Recientes(acc, pbound) && pbound <= bound
    ensures Recientes(stored, bound) == Recientes(acc, bound)
  {
    RecientesTwice(acc, pbound, bound);
  }

  /** The accepting case of `StepInvariant`. */
  lemma StepAccepted(prev: Trace, before: int, now: int, max: int, windowMinutes: int)
    requires Invariant(prev, before, max, windowMinutes)
    requires before <= now && windowMinutes >= 1
    requires |Recientes(prev.stored, now - 60 * windowMinutes)| < max
    ensures Invariant(Step(prev, now, max, windowMinutes), now, max, windowMinutes)
  {
    var bound := now - 60 * windowMinutes;
    WindowMoves(prev.accepted, before - 60 * windowMinutes, bound, now);
    var w := Recientes(prev.stored, bound);
    assert Step(prev, now, max, windowMinutes) == Trace(w + [now], prev.accepted + [now]);
  }

  /** Every history of checks at non-decreasing times keeps the invariant. */
  lemma {:induction false} RunInvariant(times: seq<int>, max: int, windowMinutes: int)
    requires |times| > 0 && NonDecreasing(times) && windowMinutes >= 1
    ensures Invariant(Run(times, max, windowMinutes), times[|times| - 1], max, windowMinutes)
    decreases |times|
  {
    var now := times[|times| - 1];
    var init := times[..|times| - 1];
    if |times| == 1 {
      assert Run(init, max, windowMinutes) == Trace([], []);
      assert Invariant(Trace([], []), now, max, windowMinutes);
      StepInvariant(Trace([], []), now, now, max, windowMinutes);
    } else {
      assert NonDecreasing(init);
      RunInvariant(init, max, windowMinutes);
      StepInvariant(Run(init, max, windowMinutes), init[|init| - 1], now, max, windowMinutes);
    }
  }

  /** When nothing lies after a bound, nothing lies after any later one. */
  lemma RecientesEmpty(ts: seq<int>, b1: int, b2: int)
    requires b1 <= b2 && Recientes(ts, b1) == []
    ensures Recientes(ts, b2) == []
  {
    RecientesTwice(ts, b1, b2);
  }

  /** The guarantee: at every check, the accepted requests inside the window
      ending at that check number at most `max`. */
  lemma SlidingWindowBound(times: seq<int>, max: int, windowMinutes: int, k: nat)
    requires NonDecreasing(times) && windowMinutes >= 1 && k < |times|
    ensures var t := Run(times[..k + 1], max, windowMinutes);
      |Recientes(t.accepted, times[k] - 60 * windowMinutes)| <= (if max < 0 then 0 else max)
  {
    var p := times[..k + 1];
    assert NonDecreasing(p);
    RunInvariant(p, max, windowMinutes);
    assert p[|p| - 1] == times[k];
  }

  // ---------------------------------------------------------------------------
  // Cleanup and endpoint limits
  // ---------------------------------------------------------------------------

  /** `_cleanup_old_requests`: keep the times less than five minutes old and
      drop identifiers left with none. */
  function Cleanup(reqs: Requests, now: int): (r: Requests)
    ensures forall i :: 0 <= i < |r| ==> |r[i].1| > 0
    ensures forall i :: 0 <= i < |r| ==> forall j :: 0 <= j < |r[i].1| ==> now - r[i].1[j] < 300
    ensures |r| <= |reqs|
    decreases |reqs|
  {
    if |reqs| == 0 then []
    else
      var kept := Recientes(reqs[0].1, now - 300);
      (if |kept| > 0 then [(reqs[0].0, kept)] else []) + Cleanup(reqs[1..], now)
  }

  /** With distinct keys, the first key does not occur again. */
  lemma HeadKeyUnique(reqs: Requests)
    requires Assoc.DistinctKeys(reqs) && |reqs| > 0
    ensures !Assoc.HasKey(reqs[1..], reqs[0].0)
  {
    var rest := reqs[1..];
    forall j | 0 <= j < |rest|
      ensures rest[j].0 != reqs[0].0
    {
      assert rest[j] == reqs[j + 1];
    }
  }

  /** Cleanup introduces no key. */
  lemma {:induction false} CleanupNoNewKey(reqs: Requests, now: int, k: string)
    requires !Assoc.HasKey(reqs, k)
    ensures !Assoc.HasKey(Cleanup(reqs, now), k)
    decreases |reqs|
  {
    if |reqs| > 0 {
      var rest := reqs[1..];
      forall j | 0 <= j < |rest|
        ensures rest[j].0 != k
      {
        assert rest[j] == reqs[j + 1];
      }
      CleanupNoNewKey(rest, now, k);
      var r := Cleanup(reqs, now);
      var tail := Cleanup(rest, now);
      var kept := Recientes(reqs[0].1, now - 300);
      var head: Requests := if |kept| > 0 then [(reqs[0].0, kept)] else [];
      assert r == head + tail;
      forall j | 0 <= j < |r|
        ensures r[j].0 != k
      {
        if j < |head| {
          assert r[j] == head[j];
        } else {
          assert r[j] == tail[j - |head|];
        }
      }
    }
  }

  /** Cleanup keeps keys distinct. */
  lemma {:induction false} CleanupDistinct(reqs: Requests, now: int)
    requires Assoc.DistinctKeys(reqs)
    ensures Assoc.DistinctKeys(Cleanup(reqs, now))
    decreases |reqs|
  {
    if |reqs| > 0 {
      var rest := reqs[1..];
      CleanupDistinct(rest, now);
      HeadKeyUnique(reqs);
      CleanupNoNewKey(rest, now, reqs[0].0);
      var tail := Cleanup(rest, now);
      var kept := Recientes(reqs[0].1, now - 300);
      if |kept| > 0 {
        var r := Cleanup(reqs, now);
        assert r == [(reqs[0].0, kept)] + tail;
        forall i, j | 0 <= i < j < |r|
          ensures r[i].0 != r[j].0
        {
          assert r[j] == tail[j - 1];
          if i > 0 {
            assert r[i] == tail[i - 1];
          }
        }
      }
    }
  }

  /** An identifier with a recent time keeps exactly its recent times; one
      without any disappears. */
  lemma {:induction false} CleanupSpec(reqs: Requests, now: int, id: string)
    requires Assoc.DistinctKeys(reqs)
    ensures Assoc.DistinctKeys(Cleanup(reqs, now))
    ensures var before := Assoc.Get(reqs, id);
      Assoc.Get(Cleanup(reqs, now), id) ==
        if before.Some? && |Recientes(before.value, now - 300)| > 0
        then Some(Recientes(before.value, now - 300)) else None
    decreases |reqs|
  {
    CleanupDistinct(reqs, now);
    if |reqs| > 0 {
      var rest := reqs[1..];
      assert reqs == [reqs[0]] + rest;
      CleanupSpec(rest, now, id);
      Assoc.GetCons(reqs[0], rest, id);
      var kept := Recientes(reqs[0].1, now - 300);
      var tail := Cleanup(rest, now);
      if |kept| > 0 {
        assert Cleanup(reqs, now) == [(reqs[0].0, kept)] + tail;
        Assoc.GetCons((reqs[0].0, kept), tail, id);
      } else {
        assert Cleanup(reqs, now) == tail;
      }
      if reqs[0].0 == id {
        HeadKeyUnique(reqs);
        CleanupNoNewKey(rest, now, id);
      }
    }
  }

  /** The limits of an endpoint type. */
  datatype Limite = Limite(maxRequests: int, windowMinutes: int)

  /** `get_rate_limit_for_endpoint`: the table entry, the "general" limits for
      an unknown type. */
  function LimiteDe(tipo: string): (r: Limite)
    ensures tipo == "estado_cero" ==> r == Limite(10, 1)
    ensures tipo == "planificar" ==> r == Limite(20, 1)
    ensures tipo == "health" ==> r == Limite(300, 1)
    ensures tipo !in {"estado_cero", "planificar", "health"} ==> r == Limite(100, 1)
  {
    if tipo == "estado_cero" then Limite(10, 1)
    else if tipo == "planificar" then Limite(20, 1)
    else if tipo == "health" then Limite(300, 1)
    else Limite(100, 1)
  }

  /** With any configured limit the check never takes the failing path. */
  lemma LimitesConfiguradosNoFallan(reqs: Requests, id: string, tipo: string, now: int)
    ensures CheckRateLimit(reqs, id, LimiteDe(tipo).maxRequests, LimiteDe(tipo).windowMinutes, now).Ok?
  {
    assert LimiteDe(tipo).maxRequests > 0;
  }
}
