/**
 * The "Copied!" indicator every catalogue panel keeps: `copyCode` sets
 * `copied` and schedules `setTimeout(() => setCopied(false), 2000)`; no
 * timer is ever cleared.  Time is not modelled in milliseconds: every reset
 * has the same delay, so scheduled resets fire in the order they were
 * scheduled, and each firing is an explicit event taken from the head of a
 * FIFO queue.  A reset is named by the number of the copy that scheduled it.
 */
module CopyFeedback {

  /** `copied`, the queue of resets not yet fired, and how many copies have scheduled one. */
  datatype Feedback = Feedback(copied: bool, pending: seq<nat>, scheduled: nat)

  /** The state when the panel mounts: not copied, no timer. */
  const Initial := Feedback(false, [], 0)

  /**
   * The reachable states: the indicator is only on while a reset is still
   * due, and the queue holds distinct copy numbers in scheduling order.
   */
  ghost predicate Consistent(f: Feedback)
  {
    && (f.copied ==> f.pending != [])
    && (forall k :: 0 <= k < |f.pending| ==> f.pending[k] < f.scheduled)
    && (forall k, l :: 0 <= k < l < |f.pending| ==> f.pending[k] < f.pending[l])
  }

  /** `copyCode`: set `copied` and queue one more reset. */
  function AfterCopy(f: Feedback): Feedback
  {
    Feedback(true, f.pending + [f.scheduled], f.scheduled + 1)
  }

  /** The oldest pending timer fires: `setCopied(false)`. */
  function AfterReset(f: Feedback): Feedback
    requires f.pending != []
  {
    Feedback(false, f.pending[1..], f.scheduled)
  }

  /** Both transitions keep the state consistent. */
  lemma StepsKeepConsistent(f: Feedback)
    requires Consistent(f)
    ensures Consistent(AfterCopy(f))
    ensures f.pending != [] ==> Consistent(AfterReset(f))
  {
  }

  /** What can happen to the indicator: a click on "Copy Code", or a timer firing. */
  datatype Event = CopyClick | ResetFires

  /** Every `ResetFires` in `evs` finds a timer that was scheduled and has not fired. */
  ghost predicate Feasible(f: Feedback, evs: seq<Event>)
    decreases |evs|
  {
    evs == [] ||
    (match evs[0]
     case CopyClick => Feasible(AfterCopy(f), evs[1..])
     case ResetFires => f.pending != [] && Feasible(AfterReset(f), evs[1..]))
  }

  /** The state after the events, in order. */
  function Run(f: Feedback, evs: seq<Event>): Feedback
    requires Feasible(f, evs)
    decreases |evs|
  {
    if evs == [] then f
    else match evs[0]
      case CopyClick => Run(AfterCopy(f), evs[1..])
      case ResetFires => Run(AfterReset(f), evs[1..])
  }

  /** The copy numbers of the resets that fire during the events, in firing order. */
  function Fired(f: Feedback, evs: seq<Event>): seq<nat>
    requires Feasible(f, evs)
    decreases |evs|
  {
    if evs == [] then []
    else match evs[0]
      case CopyClick => Fired(AfterCopy(f), evs[1..])
      case ResetFires => [f.pending[0]] + Fired(AfterReset(f), evs[1..])
  }

  /** The number of occurrences of `e` in `evs`. */
  function Count(evs: seq<Event>, e: Event): nat
  {
    if evs == [] then 0 else (if evs[0] == e then 1 else 0) + Count(evs[1..], e)
  }

  /** The copy numbers `from`, `from + 1`, ..., `from + n - 1`. */
  function Numbers(from: nat, n: nat): (s: seq<nat>)
    ensures |s| == n
    ensures forall k :: 0 <= k < n ==> s[k] == from + k
    decreases n
  {
    if n == 0 then [] else [from] + Numbers(from + 1, n - 1)
  }

  /** Any run of events from a consistent state ends in a consistent state. */
  lemma {:induction false} RunConsistent(f: Feedback, evs: seq<Event>)
    requires Consistent(f) && Feasible(f, evs)
    ensures Consistent(Run(f, evs))
    decreases |evs|
  {
    if evs != [] {
      StepsKeepConsistent(f);
      match evs[0]
      case CopyClick => RunConsistent(AfterCopy(f), evs[1..]);
      case ResetFires => RunConsistent(AfterReset(f), evs[1..]);
    }
  }

  /**
   * The indicator shows the latest event: on after a copy, off after any
   * reset fires -- even a reset scheduled by an earlier copy, since later
   * copies cancel nothing.
   */
  lemma {:induction false} CopiedIffLastEventIsCopy(f: Feedback, evs: seq<Event>)
    requires Feasible(f, evs)
    ensures Run(f, evs).copied == if evs == [] then f.copied else evs[|evs| - 1] == CopyClick
    decreases |evs|
  {
    if evs != [] {
      match evs[0]
      case CopyClick => CopiedIffLastEventIsCopy(AfterCopy(f), evs[1..]);
      case ResetFires => CopiedIffLastEventIsCopy(AfterReset(f), evs[1..]);
    }
  }

  /**
   * No reset is ever dropped or reordered: the resets that fired, followed by
   * those still pending, are the resets pending at the start followed by one
   * new reset per copy, in copy order.
   */
  lemma {:induction false} ResetsFireInCopyOrder(f: Feedback, evs: seq<Event>)
    requires Feasible(f, evs)
    ensures Fired(f, evs) + Run(f, evs).pending == f.pending + Numbers(f.scheduled, Count(evs, CopyClick))
    ensures Run(f, evs).scheduled == f.scheduled + Count(evs, CopyClick)
    decreases |evs|
  {
    if evs != [] {
      var rest := evs[1..];
      match evs[0]
      case CopyClick =>
        var g := AfterCopy(f);
        ResetsFireInCopyOrder(g, rest);
        assert Numbers(f.scheduled, Count(evs, CopyClick))
            == [f.scheduled] + Numbers(g.scheduled, Count(rest, CopyClick));
      case ResetFires =>
        var g := AfterReset(f);
        ResetsFireInCopyOrder(g, rest);
        assert Count(evs, CopyClick) == Count(rest, CopyClick);
        calc {
          Fired(f, evs) + Run(f, evs).pending;
          ([f.pending[0]] + Fired(g, rest)) + Run(g, rest).pending;
          [f.pending[0]] + (Fired(g, rest) + Run(g, rest).pending);
          [f.pending[0]] + (g.pending + Numbers(g.scheduled, Count(rest, CopyClick)));
          ([f.pending[0]] + g.pending) + Numbers(f.scheduled, Count(evs, CopyClick));
          { assert f.pending == [f.pending[0]] + g.pending; }
          f.pending + Numbers(f.scheduled, Count(evs, CopyClick));
        }
    }
  }

  /**
   * Two copies one after the other do not extend the indicator's lifetime:
   * the first copy's reset turns it off while the second copy's reset is
   * still pending.
   */
  lemma SecondCopyDoesNotRestartTimer()
    ensures Feasible(Initial, [CopyClick, CopyClick, ResetFires])
    ensures Run(Initial, [CopyClick, CopyClick, ResetFires]) == Feedback(false, [1], 2)
    ensures Fired(Initial, [CopyClick, CopyClick, ResetFires]) == [0]
  {
    var evs := [CopyClick, CopyClick, ResetFires];
    assert evs[1..] == [CopyClick, ResetFires] && evs[1..][1..] == [ResetFires];
    assert evs[1..][1..][1..] == [];
  }

  /** The panel's `copied` state together with the timers it has scheduled. */
  class CopyButton {
    var copied: bool
    var pending: seq<nat>
    var scheduled: nat

    function State(): Feedback
      reads this
    {
      Feedback(copied, pending, scheduled)
    }

    ghost predicate Valid()
      reads this
    {
      Consistent(State())
    }

    /** `useState(false)`. */
    constructor ()
      ensures State() == Initial && Valid()
    {
      copied, pending, scheduled := false, [], 0;
    }

    /**
     * `setCopied(true); setTimeout(...)`.  Nothing here depends on the
     * clipboard write: its promise is neither awaited nor checked.
     */
    method Copy()
      requires Valid()
      modifies this
      ensures State() == AfterCopy(old(State())) && Valid()
    {
      StepsKeepConsistent(State());
      copied := true;
      pending := pending + [scheduled];
      scheduled := scheduled + 1;
    }

    /** The oldest scheduled timer fires; returns the number of the copy that scheduled it. */
    method FireReset() returns (copyNumber: nat)
      requires Valid() && pending != []
      modifies this
      ensures copyNumber == old(pending[0])
      ensures State() == AfterReset(old(State())) && Valid()
    {
      StepsKeepConsistent(State());
      copyNumber := pending[0];
      copied := false;
      pending := pending[1..];
    }
  }
}
