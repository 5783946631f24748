/** The last-writer-wins guard of `resolveEvent`: the `activePromise` slot
    seen as a state machine over explicit events. `Start(p)` is a call of
    `resolveEvent` whose event was associated with promise `p` (or a fresh
    resolved one); `Settle(p, throws)` is one `.then` continuation of `p`
    running, where `throws` says whether `navigate`, if called, throws (which
    skips the clearing of the slot after it). */
module Guard {
  import opened Wrappers

  datatype GuardEvent<P> = Start(p: P) | Settle(p: P, throws: bool)

  /** One event: the new `activePromise` and whether `navigate` is called. */
  function Step<P(==)>(active: Option<P>, e: GuardEvent<P>): (r: (Option<P>, bool))
    ensures e.Start? ==> r == (Some(e.p), false)
    ensures e.Settle? ==> (r.1 <==> active == Some(e.p))
    ensures e.Settle? ==> (r.0 == None <==> !(r.1 && e.throws))
    ensures e.Settle? && r.0.Some? ==> r.0 == active
  {
    match e
    case Start(p) => (Some(p), false)
    case Settle(p, throws) =>
      var nav := active == Some(p);
      (if nav && throws then active else None, nav)
  }

  /** The slot after a sequence of events. */
  function ActiveAfter<P(==)>(active: Option<P>, events: seq<GuardEvent<P>>): Option<P>
    decreases |events|
  {
    if events == [] then active else ActiveAfter(Step(active, events[0]).0, events[1..])
  }

  /** For each event of the sequence, whether it called `navigate`. */
  function Navigations<P(==)>(active: Option<P>, events: seq<GuardEvent<P>>): (r: seq<bool>)
    ensures |r| == |events|
    decreases |events|
  {
    if events == [] then []
    else var s := Step(active, events[0]); [s.1] + Navigations(s.0, events[1..])
  }

  lemma {:induction false} ActiveAfterPrefix<P>(active: Option<P>, events: seq<GuardEvent<P>>, k: nat)
    requires 0 < k <= |events|
    ensures ActiveAfter(active, events[..k]) == Step(ActiveAfter(active, events[..k - 1]), events[k - 1]).0
    decreases k
  {
    if k > 1 {
      assert events[..k][1..] == events[1..][..k - 1];
      assert events[..k - 1][1..] == events[1..][..k - 2];
      ActiveAfterPrefix(Step(active, events[0]).0, events[1..], k - 1);
    }
  }

  lemma {:induction false} NavigationsAt<P>(active: Option<P>, events: seq<GuardEvent<P>>, k: nat)
    requires k < |events|
    ensures Navigations(active, events)[k] == Step(ActiveAfter(active, events[..k]), events[k]).1
    decreases k
  {
    if k > 0 {
      assert events[..k][1..] == events[1..][..k - 1];
      NavigationsAt(Step(active, events[0]).0, events[1..], k - 1);
    }
  }

  /** Last writer wins, and a stale continuation still clears the slot: the
      continuation at position `k` navigates exactly when the event just
      before it started the same promise, or was a continuation of that
      promise that navigated and threw (or, at position 0, when that promise
      was already active). */
  lemma SettleNavigates<P>(active: Option<P>, events: seq<GuardEvent<P>>, k: nat)
    requires k < |events| && events[k].Settle?
    ensures k == 0 ==> (Navigations(active, events)[k] <==> active == Some(events[k].p))
    ensures k > 0 ==> (Navigations(active, events)[k] <==>
      events[k - 1] == Start(events[k].p) ||
      (events[k - 1] == Settle(events[k].p, true) && Navigations(active, events)[k - 1]))
  {
    NavigationsAt(active, events, k);
    if k > 0 {
      ActiveAfterPrefix(active, events, k);
      NavigationsAt(active, events, k - 1);
    }
  }

  /** Two overlapping guarded attempts where the older one settles first:
      the older is dropped, and clearing the slot drops the newer one too. */
  lemma StaleSettleDropsNewer<P>(p: P, q: P)
    requires p != q
    ensures Navigations<P>(None, [Start(p), Start(q), Settle(p, false), Settle(q, false)]) == [false, false, false, false]
  {
    var evs: seq<GuardEvent<P>> := [Start(p), Start(q), Settle(p, false), Settle(q, false)];
    assert evs[1..][1..][1..][1..] == [];
    assert Navigations(None, evs) == [false] + Navigations(Some(p), evs[1..]);
    assert Navigations(Some(p), evs[1..]) == [false] + Navigations(Some(q), evs[1..][1..]);
    assert Navigations(Some(q), evs[1..][1..]) == [false] + Navigations(None, evs[1..][1..][1..]);
    assert Navigations(None, evs[1..][1..][1..]) == [false];
  }

  /** When the newer attempt settles first only it navigates. */
  lemma NewerSettlesFirst<P>(p: P, q: P)
    requires p != q
    ensures Navigations<P>(None, [Start(p), Start(q), Settle(q, false), Settle(p, false)]) == [false, false, true, false]
  {
    var evs: seq<GuardEvent<P>> := [Start(p), Start(q), Settle(q, false), Settle(p, false)];
    assert evs[1..][1..][1..][1..] == [];
    assert Navigations(None, evs) == [false] + Navigations(Some(p), evs[1..]);
    assert Navigations(Some(p), evs[1..]) == [false] + Navigations(Some(q), evs[1..][1..]);
    assert Navigations(Some(q), evs[1..][1..]) == [true] + Navigations(None, evs[1..][1..][1..]);
    assert Navigations(None, evs[1..][1..][1..]) == [false];
  }

  /** `navigate` throwing skips `activePromise = null`: a second continuation
      of the same promise still finds it active and navigates again. */
  lemma ThrowKeepsSlot<P>(p: P)
    ensures Navigations<P>(None, [Start(p), Start(p), Settle(p, true), Settle(p, false)]) == [false, false, true, true]
  {
    var evs: seq<GuardEvent<P>> := [Start(p), Start(p), Settle(p, true), Settle(p, false)];
    assert evs[1..][1..][1..][1..] == [];
    assert Navigations(None, evs) == [false] + Navigations(Some(p), evs[1..]);
    assert Navigations(Some(p), evs[1..]) == [false] + Navigations(Some(p), evs[1..][1..]);
    assert Navigations(Some(p), evs[1..][1..]) == [true] + Navigations(Some(p), evs[1..][1..][1..]);
    assert Navigations(Some(p), evs[1..][1..][1..]) == [true];
  }
}
