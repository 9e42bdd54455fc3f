/**
 * The drain primitive used for graceful shutdown. A `Signal` starts a drain;
 * every `Watch` learns of it through a retained "signaled" state, and the
 * drain completes only once every sender handle (each `Watch` and each
 * `ReleaseShutdown` derived from one) has been dropped. The completion
 * channel carries no values; only the number of live senders matters.
 *
 * The shared state is a `DrainState`; `Next` says how each event changes it.
 * The classes are the handles, and each of their methods performs one or two
 * of these events. Waiting is modelled by methods that report whether the
 * awaited condition already holds.
 */
module Drain {
  import opened Options

  /**
   * The state shared by one `Signal` and its handles: whether the drain was
   * signaled, whether the signal's sender is still alive (the `Signal`, or
   * its pending `drain`), how many sender handles are alive, and whether
   * `drain` has completed.
   */
  datatype DrainState = DrainState(signaled: bool, signalAlive: bool, holders: nat, drained: bool)

  /** The state `channel()` creates: one `Signal`, one `Watch`, nothing signaled. */
  const INITIAL: DrainState := DrainState(false, true, 1, false)

  datatype Event =
    | Send         // `drain` updates the signal state
    | DropSignal   // the `Signal` is dropped without draining
    | CloneHandle  // a `Watch` or `ReleaseShutdown` is cloned
    | DropHandle   // a `Watch` or `ReleaseShutdown` is dropped
    | Observe      // `signaled` stops waiting
    | Complete     // `drain` stops waiting and returns

  /** The effect of one event, or `None` when the event cannot happen in `s`. */
  function Next(s: DrainState, e: Event): Option<DrainState> {
    match e
    case Send => if s.signalAlive && !s.signaled then Some(s.(signaled := true)) else None
    case DropSignal => if s.signalAlive && !s.signaled then Some(s.(signalAlive := false)) else None
    case CloneHandle => if s.holders > 0 then Some(s.(holders := s.holders + 1)) else None
    case DropHandle => if s.holders > 0 then Some(s.(holders := s.holders - 1)) else None
    case Observe => if s.signaled || !s.signalAlive then Some(s) else None
    case Complete =>
      if s.signaled && s.signalAlive && s.holders == 0
      then Some(s.(drained := true, signalAlive := false))
      else None
  }

  /** The state after a sequence of events, or `None` if one of them cannot happen. */
  function Run(s: DrainState, events: seq<Event>): Option<DrainState>
    decreases |events|
  {
    if |events| == 0 then Some(s)
    else
      match Next(s, events[0])
      case None => None
      case Some(t) => Run(t, events[1..])
  }

  /** How many times `e` occurs in `events`. */
  function Occurrences(events: seq<Event>, e: Event): nat
    decreases |events|
  {
    if |events| == 0 then 0
    else (if events[0] == e then 1 else 0) + Occurrences(events[1..], e)
  }

  /** A drain has completed exactly when it was signaled and its sender is gone; no holder remains then. */
  ghost predicate Inv(s: DrainState) {
    && (s.drained <==> s.signaled && !s.signalAlive)
    && (s.drained ==> s.holders == 0)
  }

  lemma NextKeepsInv(s: DrainState, e: Event)
    requires Inv(s) && Next(s, e).Some?
    ensures Inv(Next(s, e).value)
  {
  }

  /** Every reachable state satisfies the invariant. */
  lemma {:induction false} RunKeepsInv(s: DrainState, events: seq<Event>)
    requires Inv(s) && Run(s, events).Some?
    ensures Inv(Run(s, events).value)
    decreases |events|
  {
    if |events| > 0 {
      NextKeepsInv(s, events[0]);
      RunKeepsInv(Next(s, events[0]).value, events[1..]);
    }
  }

  /** The signal is a state, not an edge: once signaled, it stays signaled whatever happens next. */
  lemma {:induction false} SignalIsRetained(s: DrainState, events: seq<Event>)
    requires s.signaled && Run(s, events).Some?
    ensures Run(s, events).value.signaled
    decreases |events|
  {
    if |events| > 0 {
      SignalIsRetained(Next(s, events[0]).value, events[1..]);
    }
  }

  /**
   * The number of live holders is the initial number plus the clones minus
   * the drops: a handle is counted from its creation to its drop, and moving
   * a sender into a `ReleaseShutdown` does not change the count.
   */
  lemma {:induction false} HolderBalance(s: DrainState, events: seq<Event>)
    requires Run(s, events).Some?
    ensures Run(s, events).value.holders + Occurrences(events, DropHandle)
         == s.holders + Occurrences(events, CloneHandle)
    decreases |events|
  {
    if |events| > 0 {
      HolderBalance(Next(s, events[0]).value, events[1..]);
    }
  }

  /** Once completed, a drain stays completed and no holder can appear again. */
  lemma {:induction false} DrainedIsFinal(s: DrainState, events: seq<Event>)
    requires Inv(s) && s.drained && Run(s, events).Some?
    ensures Run(s, events).value.drained && Run(s, events).value.holders == 0
    decreases |events|
  {
    if |events| > 0 {
      NextKeepsInv(s, events[0]);
      DrainedIsFinal(Next(s, events[0]).value, events[1..]);
    }
  }

  /** `drain` returns at most once. */
  lemma {:induction false} CompletesAtMostOnce(s: DrainState, events: seq<Event>)
    requires Inv(s) && Run(s, events).Some?
    ensures Occurrences(events, Complete) <= (if s.drained then 0 else 1)
    decreases |events|
  {
    if |events| > 0 {
      var t := Next(s, events[0]).value;
      NextKeepsInv(s, events[0]);
      CompletesAtMostOnce(t, events[1..]);
    }
  }

  /**
   * A completed drain has waited for every handle: from `channel()` on, the
   * drops balance the one initial `Watch` and all the clones.
   */
  lemma DrainWaitsForEveryHandle(events: seq<Event>)
    requires Run(INITIAL, events).Some? && Run(INITIAL, events).value.drained
    ensures Occurrences(events, DropHandle) == Occurrences(events, CloneHandle) + 1
  {
    RunKeepsInv(INITIAL, events);
    HolderBalance(INITIAL, events);
  }

  /**
   * Two tasks that each called `ignore_signaled` on their own `Watch` hold
   * the drain until both have released, whether one of them releases before
   * the signal or both after it; with no handle left at all, the drain
   * completes at once.
   */
  lemma DrainScenarios()
    ensures Run(INITIAL, [CloneHandle, Send, Complete]) == None
    ensures Run(INITIAL, [CloneHandle, Send, DropHandle, Complete]) == None
    ensures Run(INITIAL, [CloneHandle, Send, DropHandle, DropHandle, Complete]).Some?
    ensures Run(INITIAL, [CloneHandle, DropHandle, Send, Complete]) == None
    ensures Run(INITIAL, [CloneHandle, DropHandle, Send, DropHandle, Complete]).Some?
    ensures Run(INITIAL, [DropHandle, Send, Complete]).Some?
  {
  }

  // ---------------------------------------------------------------------
  // The handles

  /** The state shared by a `Signal` and all handles of its channel. */
  class Channel {
    var state: DrainState
    /** The live sender handles; their number is the holder count. */
    ghost var senders: set<object>

    ghost predicate Valid()
      reads this
    {
      state.holders == |senders| && Inv(state)
    }

    constructor ()
      ensures state == INITIAL && senders == {}
    {
      state := INITIAL;
      senders := {};
    }
  }

  lemma MemberMeansNonEmpty(s: set<object>, x: object)
    requires x in s
    ensures |s| >= 1 && |s - {x}| == |s| - 1
  {
  }

  /** `channel()`: a `Signal` and a `Watch` sharing a fresh, unsignaled state with one holder. */
  method NewChannel() returns (signal: Signal, watch: Watch)
    ensures fresh(signal) && fresh(watch) && fresh(signal.chan)
    ensures signal.chan == watch.chan
    ensures signal.chan.state == INITIAL && signal.chan.senders == {watch}
    ensures signal.live && !signal.pending && watch.live
    ensures signal.Valid() && watch.Valid()
  {
    var chan := new Channel();
    signal := new Signal(chan);
    watch := new Watch(chan);
    chan.senders := {watch};
  }

  /** Starts a drain; single-use. */
  class Signal {
    const chan: Channel
    /** Not yet consumed by `drain` or dropped. */
    var live: bool
    /** A `drain` that is still waiting for the holders. */
    var pending: bool

    ghost predicate Valid()
      reads this, chan
    {
      && chan.Valid()
      && !(live && pending)
      && (live ==> chan.state.signalAlive && !chan.state.signaled)
      && (pending ==> chan.state.signalAlive && chan.state.signaled)
    }

    constructor (chan: Channel)
      ensures this.chan == chan && live && !pending
    {
      this.chan := chan;
      live := true;
      pending := false;
    }

    /**
     * `drain`: sets the signal state, then waits until no holder is left.
     * `completed` tells whether it has returned already; if not, the drain
     * is pending and `Poll` continues the wait.
     */
    method Drain() returns (completed: bool)
      requires Valid() && live
      modifies this, chan
      ensures Valid() && !live
      ensures completed <==> old(chan.state.holders) == 0
      ensures pending == !completed
      ensures var signaled := Next(old(chan.state), Send).value;
        chan.state == if completed then Next(signaled, Complete).value else signaled
      ensures chan.state.signaled
      ensures chan.senders == old(chan.senders)
    {
      chan.state := chan.state.(signaled := true);
      live := false;
      pending := true;
      completed := Poll();
    }

    /** Continues a pending `drain`: it returns exactly when no holder is left. */
    method Poll() returns (completed: bool)
      requires Valid() && pending
      modifies this, chan
      ensures Valid() && live == old(live)
      ensures completed <==> old(chan.state.holders) == 0
      ensures pending == !completed
      ensures chan.state == if completed then Next(old(chan.state), Complete).value else old(chan.state)
      ensures completed ==> chan.state.drained
      ensures chan.senders == old(chan.senders)
    {
      completed := chan.state.holders == 0;
      if completed {
        chan.state := chan.state.(drained := true, signalAlive := false);
        pending := false;
      }
    }

    /** Dropping the `Signal` without draining releases every `signaled` waiter. */
    method Drop()
      requires Valid() && live
      modifies this, chan
      ensures Valid() && !live && !pending
      ensures chan.state == Next(old(chan.state), DropSignal).value
      ensures chan.senders == old(chan.senders)
    {
      chan.state := chan.state.(signalAlive := false);
      live := false;
    }
  }

  /** A handle that is notified when a drain is signaled; holds the drain while alive. */
  class Watch {
    const chan: Channel
    var live: bool

    ghost predicate Valid()
      reads this, chan
    {
      chan.Valid() && (live <==> this in chan.senders)
    }

    constructor (chan: Channel)
      ensures this.chan == chan && live
    {
      this.chan := chan;
      live := true;
    }

    /** Cloning adds one holder. */
    method Clone() returns (w: Watch)
      requires Valid() && live
      modifies chan
      ensures fresh(w) && w.chan == chan && w.live
      ensures Valid() && w.Valid()
      ensures chan.state == Next(old(chan.state), CloneHandle).value
      ensures chan.senders == old(chan.senders) + {w}
    {
      MemberMeansNonEmpty(chan.senders, this);
      w := new Watch(chan);
      chan.senders := chan.senders + {w};
      chan.state := chan.state.(holders := chan.state.holders + 1);
    }

    /** Dropping removes one holder. */
    method Drop()
      requires Valid() && live
      modifies this, chan
      ensures Valid() && !live
      ensures chan.state == Next(old(chan.state), DropHandle).value
      ensures chan.senders == old(chan.senders) - {this}
    {
      MemberMeansNonEmpty(chan.senders, this);
      chan.senders := chan.senders - {this};
      chan.state := chan.state.(holders := chan.state.holders - 1);
      live := false;
    }

    /**
     * `signaled`: waits until the drain is signaled or the `Signal` is gone,
     * then hands this handle's sender to a `ReleaseShutdown`; the number of
     * holders does not change. `rel` is null while it is still waiting.
     */
    method Signaled() returns (rel: ReleaseShutdown?)
      requires Valid() && live
      modifies this, chan
      ensures rel != null <==> Next(old(chan.state), Observe).Some?
      ensures chan.state == old(chan.state)
      ensures rel == null ==> live && Valid() && chan.senders == old(chan.senders)
      ensures rel != null ==>
        && fresh(rel) && rel.chan == chan && rel.live && rel.Valid()
        && !live && chan.senders == old(chan.senders) - {this} + {rel}
    {
      if chan.state.signaled || !chan.state.signalAlive {
        rel := IgnoreSignaled();
      } else {
        rel := null;
      }
    }

    /** `ignore_signaled`: hands this handle's sender to a `ReleaseShutdown` at once. */
    method IgnoreSignaled() returns (rel: ReleaseShutdown)
      requires Valid() && live
      modifies this, chan
      ensures fresh(rel) && rel.chan == chan && rel.live && rel.Valid()
      ensures !live
      ensures chan.state == old(chan.state)
      ensures chan.senders == old(chan.senders) - {this} + {rel}
    {
      MemberMeansNonEmpty(chan.senders, this);
      rel := new ReleaseShutdown(chan);
      chan.senders := chan.senders - {this} + {rel};
      live := false;
    }

    /**
     * `watch`: races a future against the drain. `output(asked)` is what the
     * future yields, `asked` telling whether `on_drain` asked it to wind
     * down first; `drainFirst` is which branch wins, and the drain branch
     * can only win once `signaled` can return. Either way the result is the
     * future's own, `on_drain` runs once in the drain branch and never in
     * the other, and this handle's holder is released at the end.
     */
    method Watch<T>(output: bool -> T, drainFirst: bool) returns (res: T, onDrainCalls: nat)
      requires Valid() && live
      requires drainFirst ==> Next(chan.state, Observe).Some?
      modifies this, chan
      ensures res == output(drainFirst)
      ensures onDrainCalls == if drainFirst then 1 else 0
      ensures Valid() && !live
      ensures chan.state == Next(old(chan.state), DropHandle).value
      ensures chan.senders == old(chan.senders) - {this}
    {
      if drainFirst {
        var shutdown := Signaled();
        onDrainCalls := 1;
        res := shutdown.ReleaseAfter(output(true));
      } else {
        // The future finished first: the waiting `signaled` call, and this handle with it, is dropped.
        res := output(false);
        onDrainCalls := 0;
        Drop();
      }
    }
  }

  /** Proof that a task still holds the drain; dropping it releases the drain. */
  class ReleaseShutdown {
    const chan: Channel
    var live: bool

    ghost predicate Valid()
      reads this, chan
    {
      chan.Valid() && (live <==> this in chan.senders)
    }

    constructor (chan: Channel)
      ensures this.chan == chan && live
    {
      this.chan := chan;
      live := true;
    }

    /** Cloning adds one holder. */
    method Clone() returns (r: ReleaseShutdown)
      requires Valid() && live
      modifies chan
      ensures fresh(r) && r.chan == chan && r.live
      ensures Valid() && r.Valid()
      ensures chan.state == Next(old(chan.state), CloneHandle).value
      ensures chan.senders == old(chan.senders) + {r}
    {
      MemberMeansNonEmpty(chan.senders, this);
      r := new ReleaseShutdown(chan);
      chan.senders := chan.senders + {r};
      chan.state := chan.state.(holders := chan.state.holders + 1);
    }

    /** Dropping removes one holder. */
    method Drop()
      requires Valid() && live
      modifies this, chan
      ensures Valid() && !live
      ensures chan.state == Next(old(chan.state), DropHandle).value
      ensures chan.senders == old(chan.senders) - {this}
    {
      MemberMeansNonEmpty(chan.senders, this);
      chan.senders := chan.senders - {this};
      chan.state := chan.state.(holders := chan.state.holders - 1);
      live := false;
    }

    /** `release_after`: yields the future's result, releasing this holder once the future is done. */
    method ReleaseAfter<T>(output: T) returns (res: T)
      requires Valid() && live
      modifies this, chan
      ensures res == output
      ensures Valid() && !live
      ensures chan.state == Next(old(chan.state), DropHandle).value
      ensures chan.senders == old(chan.senders) - {this}
    {
      res := output;
      Drop();
    }
  }

  /**
   * Two tasks each hold a `ReleaseShutdown` obtained through
   * `ignore_signaled`; the drain waits until both are released, here the second one first.
   */
  method SecondReleasedFirst()
  {
    var signal, watch := NewChannel();
    var other := watch.Clone();
    var first := watch.IgnoreSignaled();
    var second := other.IgnoreSignaled();
    var done := signal.Drain();
    assert !done;
    second.Drop();
    done := signal.Poll();
    assert !done;
    first.Drop();
    done := signal.Poll();
    assert done && signal.chan.state.drained;
  }

  /**
   * Two tasks each hold a `ReleaseShutdown` obtained through
   * `ignore_signaled`; the drain waits until both are released, here the first one first.
   */
  method FirstReleasedFirst()
  {
    var signal, watch := NewChannel();
    var other := watch.Clone();
    var first := watch.IgnoreSignaled();
    var second := other.IgnoreSignaled();
    var done := signal.Drain();
    assert !done;
    first.Drop();
    done := signal.Poll();
    assert !done;
    second.Drop();
    done := signal.Poll();
    assert done && signal.chan.state.drained;
  }
}
