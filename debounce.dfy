/** The debouncer wrapped around every autocomplete input handler: each call
    cancels the pending timer and schedules the handler again, so a burst of
    calls runs the handler once, with the last call's argument, once the
    delay has passed. Time is counted in abstract ticks (milliseconds). */
module Debounce {
  import opened Records

  /** The delay every autocomplete field uses. */
  const InputDelay: nat := 300

  /** The one pending call: when it is due and the argument it will run with. */
  datatype Scheduled<A> = Scheduled(due: int, arg: A)

  /** What happens to a debouncer: a call at an instant, or time reaching an instant. */
  datatype Event<A> = Invoke(at: int, arg: A) | Wait(until: int)

  /** One event. A call replaces whatever is pending (clearTimeout, then
      setTimeout); time passing runs the pending call once it is due. Returns
      the new pending slot and the calls that ran. */
  function Step<A>(pending: Option<Scheduled<A>>, delay: nat, e: Event<A>): (Option<Scheduled<A>>, seq<Scheduled<A>>)
  {
    match e
    case Invoke(t, a) => (Some(Scheduled(t + delay, a)), [])
    case Wait(t) =>
      if pending.Some? && pending.value.due <= t then (None, [pending.value]) else (pending, [])
  }

  /** A run of events from a given pending slot: the final slot and every call
      that ran, in order. */
  function Run<A>(pending: Option<Scheduled<A>>, delay: nat, events: seq<Event<A>>): (Option<Scheduled<A>>, seq<Scheduled<A>>)
    decreases |events|
  {
    if events == [] then (pending, [])
    else
      var now := Step(pending, delay, events[0]);
      var later := Run(now.0, delay, events[1..]);
      (later.0, now.1 + later.1)
  }

  /** A burst of calls, each at the instant time has reached: [Wait(t0),
      Invoke(t0, a0), Wait(t1), Invoke(t1, a1), ...]. */
  function Burst<A>(calls: seq<(int, A)>): (events: seq<Event<A>>)
    ensures |events| == 2 * |calls|
  {
    if calls == [] then []
    else [Wait(calls[0].0), Invoke(calls[0].0, calls[0].1)] + Burst(calls[1..])
  }

  /** Each call comes before the previous one was due. */
  predicate Quick<A>(calls: seq<(int, A)>, delay: nat)
  {
    forall i :: 0 <= i < |calls| - 1 ==> calls[i + 1].0 < calls[i].0 + delay
  }

  /** Only the last call of a burst runs: when every call of the burst comes
      within the delay of the one before and nothing that was pending is due
      at the first call, then until the last call's deadline nothing runs and
      the last call is the one pending; once time reaches that deadline,
      exactly one call runs, with the last call's argument, at the last call's
      instant plus the delay, and nothing is left pending. */
  lemma {:induction false} BurstRunsLastOnly<A>(pending: Option<Scheduled<A>>, delay: nat, calls: seq<(int, A)>, until: int)
    requires |calls| > 0 && Quick(calls, delay)
    requires pending.Some? ==> pending.value.due > calls[0].0
    ensures Run(pending, delay, Burst(calls) + [Wait(until)])
         == (var last := Scheduled(calls[|calls| - 1].0 + delay, calls[|calls| - 1].1);
             if until >= last.due then (None, [last]) else (Some(last), []))
    decreases |calls|
  {
    var evs := Burst(calls) + [Wait(until)];
    var t0, a0 := calls[0].0, calls[0].1;
    var next := Some(Scheduled(t0 + delay, a0));
    assert evs[0] == Wait(t0) && evs[1] == Invoke(t0, a0);
    assert evs[2..] == Burst(calls[1..]) + [Wait(until)];
    assert Step(pending, delay, evs[0]) == (pending, []);
    assert Step(pending, delay, evs[1]) == (next, []);
    var r1 := Run(pending, delay, evs[1..]);
    assert Run(pending, delay, evs) == (r1.0, [] + r1.1);
    assert [] + r1.1 == r1.1;
    var r2 := Run(next, delay, evs[2..]);
    assert evs[1..][0] == evs[1] && evs[1..][1..] == evs[2..];
    assert r1 == (r2.0, [] + r2.1);
    assert [] + r2.1 == r2.1;
    if |calls| == 1 {
      assert evs[2..] == [Wait(until)];
      assert evs[2..][1..] == [];
      var st := Step(next, delay, Wait(until));
      assert Run(st.0, delay, []) == (st.0, []);
      assert r2 == (st.0, st.1 + []);
      assert st.1 + [] == st.1;
    } else {
      assert Quick(calls[1..], delay) by {
        forall i | 0 <= i < |calls[1..]| - 1
          ensures calls[1..][i + 1].0 < calls[1..][i].0 + delay
        {
          assert calls[1..][i + 1] == calls[i + 2] && calls[1..][i] == calls[i + 1];
        }
      }
      BurstRunsLastOnly(next, delay, calls[1..], until);
    }
  }

  /** Typing at 0, 50 and 100 ms with the 300 ms delay: nothing has run by
      399 ms, and one run, at 400 ms, with the text typed at 100 ms. */
  lemma TypingBurst()
    ensures Run(None, InputDelay, Burst([(0, "V"), (50, "Vi"), (100, "Via")]) + [Wait(399)])
         == (Some(Scheduled(400, "Via")), [])
    ensures Run(None, InputDelay, Burst([(0, "V"), (50, "Vi"), (100, "Via")]) + [Wait(400)])
         == (None, [Scheduled(400, "Via")])
  {
    BurstRunsLastOnly(None, InputDelay, [(0, "V"), (50, "Vi"), (100, "Via")], 399);
    BurstRunsLastOnly(None, InputDelay, [(0, "V"), (50, "Vi"), (100, "Via")], 400);
  }

  /** The timer slot of one debounced handler. */
  class Debouncer<A> {
    const delay: nat
    var pending: Option<Scheduled<A>>

    constructor (delay: nat)
      ensures this.delay == delay && pending == None
    {
      this.delay := delay;
      pending := None;
    }

    /** The debounced function is called: the pending call is cancelled and
        this one is scheduled. */
    method Call(now: int, arg: A)
      modifies this
      ensures pending == Step(old(pending), delay, Invoke(now, arg)).0
      ensures pending == Some(Scheduled(now + delay, arg))
    {
      pending := Some(Scheduled(now + delay, arg));
    }

    /** Time reaches `now`: the pending call runs if it is due, and its
        argument is returned. */
    method Elapse(now: int) returns (ran: Option<A>)
      modifies this
      ensures ran.Some? <==> old(pending).Some? && old(pending).value.due <= now
      ensures Step(old(pending), delay, Wait(now)) == (pending, if ran.Some? then [old(pending).value] else [])
      ensures ran.Some? ==> ran.value == old(pending).value.arg && pending == None
      ensures ran.None? ==> pending == old(pending)
    {
      if pending.Some? && pending.value.due <= now {
        ran := Some(pending.value.arg);
        pending := None;
      } else {
        ran := None;
      }
    }
  }
}
