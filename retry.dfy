/** The shape of every retry loop in the ingester: attempts numbered from 0
    for as long as the count is below the maximum; an optional sleep before
    an attempt; one request per attempt; then the answer either sends the loop
    on to the next attempt or ends it with a value (returned or raised).
    Running out of attempts ends the loop with a fixed value. Each draft's loop
    is a method proved to follow `Run` for its own classification of answers
    and its own pauses; what `Run` does is proved here once. */
module Retry {
  import opened Py
  import opened Http

  /** What a loop does with the outcome of one attempt. */
  datatype Step<T> = Continue | Stop(result: T)

  /** When a loop sleeps. */
  datatype Pauses =
      /** never */
    | NoPauses
      /** `seconds` before every attempt except the first */
    | Fixed(seconds: int)
      /** `seconds[k - 1]` before attempt `k >= 1` */
    | Listed(delays: seq<int>)

  /** The sleep, if any, that precedes attempt `k`. */
  function PauseBefore(pauses: Pauses, k: nat): (r: seq<Event>)
    ensures |r| <= 1 && (k == 0 ==> r == [])
    ensures forall i :: 0 <= i < |r| ==> r[i].Sleep?
  {
    match pauses
    case NoPauses => []
    case Fixed(s) => if k >= 1 then [Sleep(s)] else []
    case Listed(ss) => if 1 <= k <= |ss| then [Sleep(ss[k - 1])] else []
  }

  /** The loop from attempt `k` on: its value and the events it performs. */
  function Run<T>(classify: Attempt -> Step<T>, exhausted: T, request: Event, pauses: Pauses,
                  respond: nat -> Attempt, maxTries: int, k: nat): (T, seq<Event>)
    decreases maxTries - k
  {
    if k >= maxTries then (exhausted, [])
    else
      var head := PauseBefore(pauses, k) + [request];
      match classify(respond(k))
      case Stop(v) => (v, head)
      case Continue =>
        var rest := Run(classify, exhausted, request, pauses, respond, maxTries, k + 1);
        (rest.0, head + rest.1)
  }

  /** The invariant of a loop that follows `Run`: `total` is what the whole
      loop yields, `done` the events so far, attempt `k` the next one. */
  ghost predicate Follows<T>(total: (T, seq<Event>), done: seq<Event>, classify: Attempt -> Step<T>, exhausted: T,
                       request: Event, pauses: Pauses, respond: nat -> Attempt, maxTries: int, k: nat)
  {
    var rest := Run(classify, exhausted, request, pauses, respond, maxTries, k);
    total.0 == rest.0 && total.1 == done + rest.1
  }

  /** The events of one attempt, appended one by one, are its pause and its
      request appended together. */
  lemma AttemptEvents(done: seq<Event>, pause: seq<Event>, request: Event)
    ensures done + pause + [request] == done + (pause + [request])
  {
  }

  /** An attempt that does not stop the loop: after its events the loop
      goes on with the next attempt. */
  lemma RunContinues<T>(total: (T, seq<Event>), done: seq<Event>, classify: Attempt -> Step<T>, exhausted: T,
                        request: Event, pauses: Pauses, respond: nat -> Attempt, maxTries: int, k: nat)
    requires Follows(total, done, classify, exhausted, request, pauses, respond, maxTries, k)
    requires k < maxTries && classify(respond(k)).Continue?
    ensures Follows(total, done + (PauseBefore(pauses, k) + [request]), classify, exhausted, request, pauses, respond, maxTries, k + 1)
  {
  }

  /** An attempt that stops the loop ends it with its value and its events. */
  lemma RunStops<T>(total: (T, seq<Event>), done: seq<Event>, classify: Attempt -> Step<T>, exhausted: T,
                    request: Event, pauses: Pauses, respond: nat -> Attempt, maxTries: int, k: nat)
    requires Follows(total, done, classify, exhausted, request, pauses, respond, maxTries, k)
    requires k < maxTries && classify(respond(k)).Stop?
    ensures total == (classify(respond(k)).result, done + (PauseBefore(pauses, k) + [request]))
  {
  }

  /** Out of attempts, the loop ends with the exhaustion value. */
  lemma RunExhausted<T>(total: (T, seq<Event>), done: seq<Event>, classify: Attempt -> Step<T>, exhausted: T,
                        request: Event, pauses: Pauses, respond: nat -> Attempt, maxTries: int, k: nat)
    requires Follows(total, done, classify, exhausted, request, pauses, respond, maxTries, k)
    requires k >= maxTries
    ensures total == (exhausted, done)
  {
    assert done + [] == done;
  }

  /** The events of `count` attempts numbered from `from`. */
  function Schedule(request: Event, pauses: Pauses, from: nat, count: nat): seq<Event>
    decreases count
  {
    if count == 0 then []
    else PauseBefore(pauses, from) + [request] + Schedule(request, pauses, from + 1, count - 1)
  }

  /** The first attempt in `[from, maxTries)` that ends the loop, if any. */
  function FirstStop<T>(classify: Attempt -> Step<T>, respond: nat -> Attempt, from: nat, maxTries: int): (r: Option<nat>)
    ensures r.Some? ==> from <= r.value < maxTries && classify(respond(r.value)).Stop?
    ensures r.Some? ==> forall k :: from <= k < r.value ==> classify(respond(k)).Continue?
    ensures r.None? ==> forall k :: from <= k < maxTries ==> classify(respond(k)).Continue?
    decreases maxTries - from
  {
    if from >= maxTries then None
    else if classify(respond(from)).Stop? then Some(from)
    else FirstStop(classify, respond, from + 1, maxTries)
  }

  /** Number of attempts the loop makes from attempt `from` on. */
  function AttemptsMade<T>(classify: Attempt -> Step<T>, respond: nat -> Attempt, from: nat, maxTries: int): nat {
    match FirstStop(classify, respond, from, maxTries)
    case Some(s) => s - from + 1
    case None => if from < maxTries then maxTries - from else 0
  }

  /** The loop ends with the first attempt that stops it, after exactly the
      attempts up to it; when no attempt stops it, it ends with the exhaustion
      value after all the attempts it was allowed. */
  lemma {:induction false} RunOutcome<T>(classify: Attempt -> Step<T>, exhausted: T, request: Event, pauses: Pauses,
                                         respond: nat -> Attempt, maxTries: int, k: nat)
    ensures Run(classify, exhausted, request, pauses, respond, maxTries, k).1
         == Schedule(request, pauses, k, AttemptsMade(classify, respond, k, maxTries))
    ensures Run(classify, exhausted, request, pauses, respond, maxTries, k).0
         == match FirstStop(classify, respond, k, maxTries)
            case Some(s) => classify(respond(s)).result
            case None => exhausted
    decreases maxTries - k
  {
    if k < maxTries && classify(respond(k)).Continue? {
      RunOutcome(classify, exhausted, request, pauses, respond, maxTries, k + 1);
      var n := AttemptsMade(classify, respond, k + 1, maxTries);
      assert AttemptsMade(classify, respond, k, maxTries) == n + 1;
      assert Schedule(request, pauses, k, n + 1)
          == PauseBefore(pauses, k) + [request] + Schedule(request, pauses, k + 1, n);
    }
  }

  lemma {:induction false} ScheduleAppend(request: Event, pauses: Pauses, from: nat, m: nat, n: nat)
    ensures Schedule(request, pauses, from, m + n)
         == Schedule(request, pauses, from, m) + Schedule(request, pauses, from + m, n)
    decreases m
  {
    if m > 0 {
      ScheduleAppend(request, pauses, from + 1, m - 1, n);
    }
  }

  /** Every attempt makes exactly one request. */
  lemma {:induction false} ScheduleRequests(request: Event, pauses: Pauses, from: nat, count: nat)
    requires !request.Sleep?
    ensures Requests(Schedule(request, pauses, from, count)) == count
    decreases count
  {
    if count > 0 {
      var p := PauseBefore(pauses, from);
      ScheduleRequests(request, pauses, from + 1, count - 1);
      RequestsAppend(p + [request], Schedule(request, pauses, from + 1, count - 1));
      RequestsAppend(p, [request]);
      assert Requests(p) == 0 by {
        if p != [] {
          assert p[1..] == [];
        }
      }
    }
  }

  /** The requests all go to the same place and nothing else but sleeps happens. */
  lemma {:induction false} ScheduleEvents(request: Event, pauses: Pauses, from: nat, count: nat)
    ensures forall e :: e in Schedule(request, pauses, from, count) ==> e == request || e.Sleep?
    decreases count
  {
    if count > 0 {
      ScheduleEvents(request, pauses, from + 1, count - 1);
    }
  }

  lemma SleepsOfPause(pauses: Pauses, k: nat)
    ensures Sleeps(PauseBefore(pauses, k)) == if PauseBefore(pauses, k) == [] then [] else [PauseBefore(pauses, k)[0].seconds]
  {
    var p := PauseBefore(pauses, k);
    if p != [] {
      assert p[1..] == [];
    }
  }

  lemma SleepsOfStep(request: Event, pauses: Pauses, from: nat, count: nat)
    requires !request.Sleep? && count > 0
    ensures Sleeps(Schedule(request, pauses, from, count))
         == Sleeps(PauseBefore(pauses, from)) + Sleeps(Schedule(request, pauses, from + 1, count - 1))
  {
    var p := PauseBefore(pauses, from);
    var rest := Schedule(request, pauses, from + 1, count - 1);
    SleepsAppend(p + [request], rest);
    SleepsAppend(p, [request]);
    assert [request][1..] == [];
  }

  /** A loop without pauses never sleeps. */
  lemma {:induction false} ScheduleNoPauses(request: Event, from: nat, count: nat)
    requires !request.Sleep?
    ensures Sleeps(Schedule(request, NoPauses, from, count)) == []
    decreases count
  {
    if count > 0 {
      SleepsOfStep(request, NoPauses, from, count);
      ScheduleNoPauses(request, from + 1, count - 1);
    }
  }

  /** A fixed delay: one sleep of that length before each attempt after the first. */
  lemma {:induction false} ScheduleFixed(request: Event, seconds: int, from: nat, count: nat)
    requires !request.Sleep?
    ensures Sleeps(Schedule(request, Fixed(seconds), from, count))
         == seq(if from == 0 && count > 0 then count - 1 else count, _ => seconds)
    decreases count
  {
    if count > 0 {
      SleepsOfStep(request, Fixed(seconds), from, count);
      SleepsOfPause(Fixed(seconds), from);
      ScheduleFixed(request, seconds, from + 1, count - 1);
    }
  }

  /** A list of delays: before attempt k >= 1 the loop sleeps the (k-1)-th, so
      n attempts from the first sleep through the first n - 1 delays in order. */
  lemma {:induction false} ScheduleListed(request: Event, seconds: seq<int>, from: nat, count: nat)
    requires !request.Sleep?
    requires from >= 1 && from + count <= |seconds| + 1
    ensures Sleeps(Schedule(request, Listed(seconds), from, count)) == seconds[from - 1..from - 1 + count]
    decreases count
  {
    if count > 0 {
      SleepsOfStep(request, Listed(seconds), from, count);
      SleepsOfPause(Listed(seconds), from);
      ScheduleListed(request, seconds, from + 1, count - 1);
      assert seconds[from - 1..from - 1 + count] == [seconds[from - 1]] + seconds[from..from + count - 1];
    }
  }

  lemma ScheduleListedFromStart(request: Event, seconds: seq<int>, count: nat)
    requires !request.Sleep?
    requires 1 <= count <= |seconds| + 1
    ensures Sleeps(Schedule(request, Listed(seconds), 0, count)) == seconds[..count - 1]
  {
    SleepsOfStep(request, Listed(seconds), 0, count);
    ScheduleListed(request, seconds, 1, count - 1);
  }
}
