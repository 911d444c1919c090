/** A tween evaluated frame after frame: the outcomes of a sequence of
    evaluations, each starting from the record the previous one left. */
module Playback {
  import opened TweenTypes
  import opened Evaluator

  /** The outcomes of evaluating a tween at each of `positions` in turn. */
  function Run(p: Params, s: State, positions: seq<real>, catalog: Catalog): (trace: seq<Outcome>)
    ensures |trace| == |positions|
    ensures |positions| > 0 ==> trace[0] == Step(p, s, positions[0], catalog)
    decreases |positions|
  {
    if positions == [] then []
    else
      var o := Step(p, s, positions[0], catalog);
      [o] + Run(p, o.state, positions[1..], catalog)
  }

  /** Each evaluation of a run starts from the record the previous one left. */
  lemma {:induction false} RunChains(p: Params, s: State, positions: seq<real>, catalog: Catalog)
    ensures forall i :: 0 < i < |positions| ==>
              Run(p, s, positions, catalog)[i] == Step(p, Run(p, s, positions, catalog)[i - 1].state, positions[i], catalog)
    decreases |positions|
  {
    if positions != [] {
      var o := Step(p, s, positions[0], catalog);
      var rest := Run(p, o.state, positions[1..], catalog);
      RunChains(p, o.state, positions[1..], catalog);
      var trace := Run(p, s, positions, catalog);
      assert trace == [o] + rest;
      forall i | 0 < i < |trace|
        ensures trace[i] == Step(p, trace[i - 1].state, positions[i], catalog)
      {
        assert trace[i] == rest[i - 1] && positions[i] == positions[1..][i - 1];
        if i > 1 {
          assert trace[i - 1] == rest[i - 2];
        }
      }
    }
  }

  // ---------------------------------------------------------------------------
  // Absorbing states and the kill queue

  /** Once Invalid or Killed, every later evaluation only clears the flags
      and never asks for a kill. */
  lemma {:induction false} AbsorbingRun(p: Params, s: State, positions: seq<real>, catalog: Catalog)
    requires s.status == Invalid || s.status == Killed
    ensures forall i :: 0 <= i < |positions| ==> Run(p, s, positions, catalog)[i] == Outcome(Cleared(s), false)
    decreases |positions|
  {
    if positions != [] {
      assert Cleared(Cleared(s)) == Cleared(s);
      AbsorbingRun(p, Cleared(s), positions[1..], catalog);
    }
  }

  /** The event `e` is raised by at most one evaluation of `trace`. */
  predicate RaisedAtMostOnce(trace: seq<Outcome>, e: Callback)
  {
    forall i, j :: 0 <= i < j < |trace| && e in trace[i].state.callbackFlags ==> e !in trace[j].state.callbackFlags
  }

  /** Prefixing an evaluation keeps `e` raised at most once if, when that
      evaluation raises it, no later one does. */
  lemma RaisedAtMostOnceCons(o: Outcome, rest: seq<Outcome>, e: Callback)
    requires RaisedAtMostOnce(rest, e)
    requires e in o.state.callbackFlags ==> forall j :: 0 <= j < |rest| ==> e !in rest[j].state.callbackFlags
    ensures RaisedAtMostOnce([o] + rest, e)
  {

  }

  /** However the playhead moves, OnKill is raised, and so the tween appended
      to the kill queue, at most once. */
  lemma {:induction false} KilledAtMostOnce(p: Params, s: State, positions: seq<real>, catalog: Catalog)
    ensures RaisedAtMostOnce(Run(p, s, positions, catalog), OnKill)
    decreases |positions|
  {
    if positions != [] {
      var o := Step(p, s, positions[0], catalog);
      var rest := Run(p, o.state, positions[1..], catalog);
      assert Run(p, s, positions, catalog) == [o] + rest;
      KilledAtMostOnce(p, o.state, positions[1..], catalog);
      if OnKill in o.state.callbackFlags {
        AbsorbingRun(p, o.state, positions[1..], catalog);
      }
      RaisedAtMostOnceCons(o, rest, OnKill);
    }
  }

  // ---------------------------------------------------------------------------
  // Forward playback

  /** The playhead never moves back. */
  predicate Forward(positions: seq<real>, from: real)
  {
    (forall i :: 0 <= i < |positions| ==> from <= positions[i])
    && (forall i, j :: 0 <= i < j < |positions| ==> positions[i] <= positions[j])
  }

  /** What a record evaluated up to position `last` keeps while played
      forward: a started tween is past its delay, and a tween that has not
      started yet is the only kind that waits or is delayed. */
  predicate Settled(p: Params, s: State, last: real)
  {
    (s.started ==> last - p.delay >= 0.0)
    && (s.status == WaitingForStart || s.status == Delayed ==> !s.started)
  }

  /** A new tween is settled at every position. */
  lemma InitialSettled(p: Params, last: real)
    ensures Settled(p, InitialState, last)
  {
  }

  /** One forward evaluation of a settled record: it raises no OnRewind, it
      raises OnStart only if the tween had not started, a started tween stays
      started, and the new record is settled at the new position. */
  lemma ForwardStep(p: Params, s: State, last: real, currentPosition: real, catalog: Catalog)
    requires Settled(p, s, last) && last <= currentPosition
    ensures var r := Step(p, s, currentPosition, catalog).state;
            OnRewind !in r.callbackFlags
            && (OnStart in r.callbackFlags ==> !s.started)
            && (s.started ==> r.started)
            && Settled(p, r, currentPosition)
  {

  }

  /** Played forward from a settled record, a tween never raises OnRewind. */
  lemma {:induction false} ForwardNeverRewinds(p: Params, s: State, last: real, positions: seq<real>, catalog: Catalog)
    requires Settled(p, s, last) && Forward(positions, last)
    ensures forall i :: 0 <= i < |positions| ==> OnRewind !in Run(p, s, positions, catalog)[i].state.callbackFlags
    decreases |positions|
  {
    if positions != [] {
      ForwardStep(p, s, last, positions[0], catalog);
      var o := Step(p, s, positions[0], catalog);
      ForwardNeverRewinds(p, o.state, positions[0], positions[1..], catalog);
      assert Run(p, s, positions, catalog) == [o] + Run(p, o.state, positions[1..], catalog);
    }
  }

  /** Played forward, a started tween stays started and never raises OnStart
      again. */
  lemma {:induction false} StartedStaysStarted(p: Params, s: State, last: real, positions: seq<real>, catalog: Catalog)
    requires Settled(p, s, last) && Forward(positions, last) && s.started
    ensures forall i :: 0 <= i < |positions| ==>
              Run(p, s, positions, catalog)[i].state.started
              && OnStart !in Run(p, s, positions, catalog)[i].state.callbackFlags
    decreases |positions|
  {
    if positions != [] {
      ForwardStep(p, s, last, positions[0], catalog);
      var o := Step(p, s, positions[0], catalog);
      StartedStaysStarted(p, o.state, positions[0], positions[1..], catalog);
      assert Run(p, s, positions, catalog) == [o] + Run(p, o.state, positions[1..], catalog);
    }
  }

  /** Played forward from a settled record, OnStart is raised at most once. */
  lemma {:induction false} ForwardStartsOnce(p: Params, s: State, last: real, positions: seq<real>, catalog: Catalog)
    requires Settled(p, s, last) && Forward(positions, last)
    ensures RaisedAtMostOnce(Run(p, s, positions, catalog), OnStart)
    decreases |positions|
  {
    if positions != [] {
      ForwardStep(p, s, last, positions[0], catalog);
      var o := Step(p, s, positions[0], catalog);
      var rest := Run(p, o.state, positions[1..], catalog);
      assert Run(p, s, positions, catalog) == [o] + rest;
      ForwardStartsOnce(p, o.state, positions[0], positions[1..], catalog);
      if OnStart in o.state.callbackFlags {
        StartedStaysStarted(p, o.state, positions[0], positions[1..], catalog);
      }
      RaisedAtMostOnceCons(o, rest, OnStart);
    }
  }
}
