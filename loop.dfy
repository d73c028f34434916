/**
 * The render loop shared by all consumers of one provider: a set of frame callbacks and the
 * time of the previous tick (`lastNow`, 0 meaning "no previous tick").
 */
module RenderLoop {

  /** The identity of a frame callback (a function object in the library). */
  type CallbackId = nat

  /** One call `cb(dt, now)` made by a tick. */
  datatype Invocation = Invocation(callback: CallbackId, dt: real, now: real)

  /** Milliseconds to seconds, as `step` does it. */
  function Seconds(timeMs: real): real
  {
    timeMs * 0.001
  }

  /** The delta a tick reports: 0 when there was no previous tick, the elapsed time otherwise. */
  function FrameDelta(lastNow: real, now: real): real
  {
    if lastNow == 0.0 then 0.0 else now - lastNow
  }

  /** Calls every callback of the snapshot `callbacks` exactly once with the same `(dt, now)`. */
  method Invocations(callbacks: set<CallbackId>, dt: real, now: real) returns (calls: seq<Invocation>)
    ensures |calls| == |callbacks|
    ensures forall i :: 0 <= i < |calls| ==>
      calls[i].callback in callbacks && calls[i].dt == dt && calls[i].now == now
    ensures forall cb :: cb in callbacks ==> exists i :: 0 <= i < |calls| && calls[i].callback == cb
    ensures forall i, j :: 0 <= i < j < |calls| ==> calls[i].callback != calls[j].callback
  {
    var pending := callbacks;
    calls := [];
    while pending != {}
      invariant pending <= callbacks
      invariant |calls| + |pending| == |callbacks|
      invariant forall i :: 0 <= i < |calls| ==>
        calls[i].callback in callbacks - pending && calls[i].dt == dt && calls[i].now == now
      invariant forall cb :: cb in callbacks - pending ==> exists i :: 0 <= i < |calls| && calls[i].callback == cb
      invariant forall i, j :: 0 <= i < j < |calls| ==> calls[i].callback != calls[j].callback
      decreases pending
    {
      var cb :| cb in pending;
      ghost var before := calls;
      calls := calls + [Invocation(cb, dt, now)];
      forall c | c in callbacks - (pending - {cb})
        ensures exists i :: 0 <= i < |calls| && calls[i].callback == c
      {
        if c == cb {
          assert calls[|calls| - 1].callback == c;
        } else {
          assert c in callbacks - pending;
          var k :| 0 <= k < |before| && before[k].callback == c;
          assert calls[k].callback == c;
        }
      }
      pending := pending - {cb};
    }
    assert callbacks - pending == callbacks;
  }

  class Loop {
    var callbacks: set<CallbackId>
    var lastNow: real

    /** `createRenderLoop()`. */
    constructor ()
      ensures callbacks == {} && lastNow == 0.0
    {
      callbacks := {};
      lastNow := 0.0;
    }

    /** Registers `cb`; registering it again changes nothing (set semantics). */
    method Add(cb: CallbackId)
      modifies this`callbacks
      ensures callbacks == old(callbacks) + {cb}
      ensures cb in old(callbacks) ==> callbacks == old(callbacks)
    {
      callbacks := callbacks + {cb};
    }

    /** Unregisters `cb`; the unsubscribe function `add` returns. Removing an absent callback changes nothing. */
    method Remove(cb: CallbackId)
      modifies this`callbacks
      ensures callbacks == old(callbacks) - {cb}
      ensures cb !in old(callbacks) ==> callbacks == old(callbacks)
    {
      callbacks := callbacks - {cb};
    }

    /**
     * One tick: `now` is the time in seconds; every registered callback is called exactly once
     * with the same `(dt, now)`; `lastNow` becomes `now` even when nothing is registered.
     */
    method Step(timeMs: real) returns (calls: seq<Invocation>)
      modifies this`lastNow
      ensures lastNow == Seconds(timeMs)
      ensures callbacks == {} ==> calls == []
      ensures |calls| == |callbacks|
      ensures forall i :: 0 <= i < |calls| ==>
        calls[i].callback in callbacks && calls[i].now == Seconds(timeMs)
        && calls[i].dt == FrameDelta(old(lastNow), Seconds(timeMs))
      ensures forall cb :: cb in callbacks ==> exists i :: 0 <= i < |calls| && calls[i].callback == cb
      ensures forall i, j :: 0 <= i < j < |calls| ==> calls[i].callback != calls[j].callback
    {
      var now := Seconds(timeMs);
      if |callbacks| == 0 {
        lastNow := now;
        return [];
      }
      var dt := if lastNow == 0.0 then 0.0 else now - lastNow;
      lastNow := now;
      calls := Invocations(callbacks, dt, now);
    }

    /** Forgets the previous tick, so that the next tick reports `dt == 0`; callbacks stay. */
    method Reset()
      modifies this`lastNow
      ensures lastNow == 0.0
    {
      lastNow := 0.0;
    }
  }

  /** The deltas reported by a run of ticks at `timesMs`, starting from `lastNow`. */
  function Deltas(lastNow: real, timesMs: seq<real>): seq<real>
    decreases |timesMs|
  {
    if timesMs == [] then []
    else [FrameDelta(lastNow, Seconds(timesMs[0]))] + Deltas(Seconds(timesMs[0]), timesMs[1..])
  }

  /**
   * Over a run of ticks started fresh (or just after a reset), the first tick reports 0 and
   * every later one the seconds elapsed since the tick before it, provided no tick falls at
   * time 0 (a tick at time 0 leaves the "no previous tick" sentinel in place).
   */
  lemma {:induction false} DeltasOfFreshRun(lastNow: real, timesMs: seq<real>)
    requires forall i :: 0 <= i < |timesMs| ==> timesMs[i] != 0.0
    ensures |Deltas(lastNow, timesMs)| == |timesMs|
    ensures |timesMs| > 0 && lastNow == 0.0 ==> Deltas(lastNow, timesMs)[0] == 0.0
    ensures |timesMs| > 0 && lastNow != 0.0 ==> Deltas(lastNow, timesMs)[0] == Seconds(timesMs[0]) - lastNow
    ensures forall i :: 0 < i < |timesMs| ==>
      Deltas(lastNow, timesMs)[i] == Seconds(timesMs[i]) - Seconds(timesMs[i - 1])
    decreases |timesMs|
  {
    if timesMs != [] {
      var rest := timesMs[1..];
      DeltasOfFreshRun(Seconds(timesMs[0]), rest);
      var d := Deltas(lastNow, timesMs);
      assert d == [FrameDelta(lastNow, Seconds(timesMs[0]))] + Deltas(Seconds(timesMs[0]), rest);
      forall i | 0 < i < |timesMs|
        ensures d[i] == Seconds(timesMs[i]) - Seconds(timesMs[i - 1])
      {
        if i == 1 {
          assert d[1] == Deltas(Seconds(timesMs[0]), rest)[0];
        } else {
          assert d[i] == Deltas(Seconds(timesMs[0]), rest)[i - 1];
          assert rest[i - 1] == timesMs[i] && rest[i - 2] == timesMs[i - 1];
        }
      }
    }
  }

  /** A loop driven the way the provider drives it: two subscribers, a reset, a repeated add. */
  method TickScenario()
  {
    var loop := new Loop();
    loop.Add(1);
    loop.Add(2);
    loop.Add(1);
    assert loop.callbacks == {1, 2};
    var first := loop.Step(1000.0);
    assert |first| == 2 && first[0].dt == 0.0 && first[0].now == 1.0;
    var second := loop.Step(1500.0);
    assert second[0].dt == 0.5 && second[1].dt == 0.5;
    loop.Reset();
    var third := loop.Step(3000.0);
    assert third[0].dt == 0.0;
    loop.Remove(2);
    loop.Remove(2);
    assert loop.callbacks == {1};
  }
}
