/**
 * What a simulation tick reports: the `{type, playerIndex}` events and the
 * `{ball, events, ballReset}` result that classic and goals mode share in
 * shape (shared/src/classic-simulation.ts, shared/src/goals-simulation.ts).
 */
module SimEvents {
  import opened Types

  datatype EventKind = PaddleHit | Scored

  datatype SimEvent = SimEvent(kind: EventKind, playerIndex: nat)

  datatype SimResult = SimResult(ball: BallState, events: seq<SimEvent>, ballReset: bool)

  /** All events but the last are paddle hits. */
  predicate HitsBeforeLast(events: seq<SimEvent>) {
    forall k :: 0 <= k < |events| - 1 ==> events[k].kind == PaddleHit
  }

  /** Whether the last event is a goal. */
  predicate EndsWithGoal(events: seq<SimEvent>) {
    |events| > 0 && events[|events| - 1].kind == Scored
  }

  /** Every event in `events` satisfies `ok`. */
  predicate AllSatisfy(events: seq<SimEvent>, ok: SimEvent -> bool) {
    forall k :: 0 <= k < |events| ==> ok(events[k])
  }

  lemma ConcatSatisfies(events: seq<SimEvent>, more: seq<SimEvent>, ok: SimEvent -> bool)
    requires AllSatisfy(events, ok) && AllSatisfy(more, ok)
    ensures AllSatisfy(events + more, ok)
  {
    forall k | 0 <= k < |events + more|
      ensures ok((events + more)[k])
    {
      if k >= |events| {
        assert (events + more)[k] == more[k - |events|];
      }
    }
  }
}
