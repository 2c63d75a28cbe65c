/**
 * Signal lifecycle: a fired signal becomes the live signal and schedules a
 * timer; when the timer fires, exactly that signal is appended to the
 * history and the live slot goes back to waiting, whichever signal is
 * showing by then. Timers are never cancelled.
 *
 * Wall-clock time is the field `now` (milliseconds), advanced by `Tick`;
 * the deferred callbacks are the `pending` entries.
 */
module Lifecycle {
  import opened Wrappers
  import opened Candles
  import opened Detector

  /** Observation window before a signal is archived: 15 minutes in ms. */
  const Delay: int := 15 * 60 * 1000

  /** A scheduled archival: the signal and the time its timer fires. */
  datatype Timer = Timer(signal: Signal, deadline: int)

  function SignalsOf(timers: seq<Timer>): (r: seq<Signal>)
    ensures |r| == |timers| && forall i :: 0 <= i < |timers| ==> r[i] == timers[i].signal
  {
    seq(|timers|, i requires 0 <= i < |timers| => timers[i].signal)
  }

  /** Number of leading timers that are due at time `t`. */
  function DueCount(timers: seq<Timer>, t: int): (k: nat)
    ensures k <= |timers|
    ensures forall i :: 0 <= i < k ==> timers[i].deadline <= t
    ensures k < |timers| ==> timers[k].deadline > t
  {
    if timers == [] || timers[0].deadline > t then 0
    else 1 + DueCount(timers[1..], t)
  }

  /** Deadlines in non-decreasing order. */
  ghost predicate Sorted(timers: seq<Timer>) {
    |timers| <= 1 || (timers[0].deadline <= timers[1].deadline && Sorted(timers[1..]))
  }

  /** No deadline before `lo`. */
  ghost predicate AtLeast(timers: seq<Timer>, lo: int) {
    timers == [] || (lo <= timers[0].deadline && AtLeast(timers[1..], lo))
  }

  /** No deadline after `hi`. */
  ghost predicate AtMost(timers: seq<Timer>, hi: int) {
    timers == [] || (timers[0].deadline <= hi && AtMost(timers[1..], hi))
  }

  /** Timers in scheduling order, none overdue at `now` and none more than
      one delay after it. */
  ghost predicate WellScheduled(timers: seq<Timer>, now: int) {
    Sorted(timers) && AtLeast(timers, now) && AtMost(timers, now + Delay)
  }

  lemma {:induction false} AtLeastMeans(timers: seq<Timer>, lo: int)
    ensures AtLeast(timers, lo) <==> forall i :: 0 <= i < |timers| ==> lo <= timers[i].deadline
  {
    if timers != [] {
      AtLeastMeans(timers[1..], lo);
      assert forall i :: 1 <= i < |timers| ==> timers[i] == timers[1..][i - 1];
    }
  }

  /** In a sorted schedule the first deadline is the earliest. */
  lemma {:induction false} SortedFirstEarliest(timers: seq<Timer>)
    requires Sorted(timers) && |timers| > 0
    ensures AtLeast(timers, timers[0].deadline)
  {
    if |timers| > 1 {
      SortedFirstEarliest(timers[1..]);
      AtLeastWeaken(timers[1..], timers[1].deadline, timers[0].deadline);
    }
  }

  lemma {:induction false} AtLeastWeaken(timers: seq<Timer>, lo: int, lo': int)
    requires AtLeast(timers, lo) && lo' <= lo
    ensures AtLeast(timers, lo')
  {
    if timers != [] {
      AtLeastWeaken(timers[1..], lo, lo');
    }
  }

  lemma {:induction false} AtMostWeaken(timers: seq<Timer>, hi: int, hi': int)
    requires AtMost(timers, hi) && hi <= hi'
    ensures AtMost(timers, hi')
  {
    if timers != [] {
      AtMostWeaken(timers[1..], hi, hi');
    }
  }

  /** Appending a timer due no earlier than every scheduled one. */
  lemma {:induction false} PushLast(timers: seq<Timer>, x: Timer, lo: int, hi: int)
    requires Sorted(timers) && AtMost(timers, x.deadline)
    requires AtLeast(timers, lo) && AtMost(timers, hi) && lo <= x.deadline <= hi
    ensures Sorted(timers + [x]) && AtLeast(timers + [x], lo) && AtMost(timers + [x], hi)
  {
    if timers != [] {
      assert (timers + [x])[1..] == timers[1..] + [x];
      PushLast(timers[1..], x, lo, hi);
    }
  }

  /** Every timer is due once the clock passes the latest deadline. */
  lemma {:induction false} AllDue(timers: seq<Timer>, t: int)
    requires AtMost(timers, t)
    ensures DueCount(timers, t) == |timers|
  {
    if timers != [] {
      AllDue(timers[1..], t);
    }
  }

  /** Firing the earliest timer moves the clock to its deadline and keeps
      the rest well scheduled. */
  lemma WellScheduledTail(timers: seq<Timer>, now: int)
    requires WellScheduled(timers, now) && |timers| > 0
    ensures WellScheduled(timers[1..], timers[0].deadline)
  {
    SortedFirstEarliest(timers);
    AtMostWeaken(timers[1..], now + Delay, timers[0].deadline + Delay);
  }

  /** A timer scheduled one delay from now comes after every earlier one. */
  lemma WellScheduledPush(timers: seq<Timer>, now: int, s: Signal)
    requires WellScheduled(timers, now)
    ensures WellScheduled(timers + [Timer(s, now + Delay)], now)
  {
    PushLast(timers, Timer(s, now + Delay), now, now + Delay);
  }

  /** When the earliest timer is not due at `t`, none is, and the clock can
      move to `t`. */
  lemma WellScheduledAdvance(timers: seq<Timer>, now: int, t: int)
    requires WellScheduled(timers, now) && now <= t
    requires timers == [] || timers[0].deadline > t
    ensures WellScheduled(timers, t)
    ensures forall i :: 0 <= i < |timers| ==> timers[i].deadline > t
  {
    if timers != [] {
      SortedFirstEarliest(timers);
      AtLeastWeaken(timers, timers[0].deadline, t + 1);
      AtLeastWeaken(timers, t + 1, t);
      AtLeastMeans(timers, t + 1);
    }
    AtMostWeaken(timers, now + Delay, t + Delay);
  }

  /** The lifecycle invariant on the board's values: every displayed signal
      is archived or pending, in display order, and the timers are well
      scheduled. */
  ghost predicate Consistent(issued: seq<Signal>, history: seq<Signal>, pending: seq<Timer>, now: int) {
    issued == history + SignalsOf(pending) && WellScheduled(pending, now)
  }

  /** Archiving the earliest pending signal keeps the invariant. */
  lemma ArchiveStep(issued: seq<Signal>, history: seq<Signal>, pending: seq<Timer>, now: int)
    requires Consistent(issued, history, pending, now) && |pending| > 0
    ensures Consistent(issued, history + [pending[0].signal], pending[1..], pending[0].deadline)
  {
    SignalsOfTail(history, pending);
    WellScheduledTail(pending, now);
  }

  /** Moving the earliest timer's signal to the end of the history keeps
      the concatenation of history and pending signals. */
  lemma SignalsOfTail(history: seq<Signal>, pending: seq<Timer>)
    requires |pending| > 0
    ensures history + SignalsOf(pending) == (history + [pending[0].signal]) + SignalsOf(pending[1..])
  {
    var first, rest := pending[0].signal, SignalsOf(pending[1..]);
    assert SignalsOf(pending) == [first] + rest;
    assert history + ([first] + rest) == (history + [first]) + rest;
  }

  class SignalBoard {
    /** The symbol under observation, used to tag signals. */
    var currentSymbol: string
    /** The signal shown as live, or `None` while waiting for data. */
    var live: Option<Signal>
    /** Timers not yet fired, in the order they were scheduled. */
    var pending: seq<Timer>
    /** Archived signals, in archival order. */
    var history: seq<Signal>
    /** Current time in ms. */
    var now: int
    /** Every signal ever displayed, in display order. */
    ghost var issued: seq<Signal>

    /** Every displayed signal is either archived or still pending, in
        display order; timers fire in scheduling order, none is overdue
        and none lies more than one delay in the future. */
    ghost predicate Valid()
      reads this
    {
      Consistent(issued, history, pending, now)
    }

    constructor (symbol: string)
      ensures Valid()
      ensures currentSymbol == symbol && live == None && pending == [] && history == [] && now == 0
      ensures issued == []
    {
      currentSymbol := symbol;
      live := None;
      pending := [];
      history := [];
      now := 0;
      issued := [];
    }

    /** Choosing another pair in the list. */
    method SelectSymbol(symbol: string)
      requires Valid()
      modifies this
      ensures Valid()
      ensures currentSymbol == symbol
      ensures live == old(live) && pending == old(pending) && history == old(history)
      ensures now == old(now) && issued == old(issued)
    {
      currentSymbol := symbol;
    }

    /** Shows `s` as live and schedules its archival one delay from now;
        earlier timers stay scheduled. */
    method DisplayLiveSignal(s: Signal)
      requires Valid()
      modifies this
      ensures Valid()
      ensures live == Some(s)
      ensures pending == old(pending) + [Timer(s, old(now) + Delay)]
      ensures history == old(history) && issued == old(issued) + [s]
      ensures now == old(now) && currentSymbol == old(currentSymbol)
    {
      WellScheduledPush(pending, now, s);
      live := Some(s);
      pending := pending + [Timer(s, now + Delay)];
      issued := issued + [s];
      assert SignalsOf(pending) == SignalsOf(old(pending)) + [s];
    }

    /** One detection pass over `data`: a fired signal, tagged with the
        current symbol, is displayed; otherwise nothing changes. */
    method CheckForSignal(data: seq<Candle>) returns (r: Option<Signal>)
      requires Valid()
      requires |data| > 0
      modifies this
      ensures Valid()
      ensures r == Detect(data, old(currentSymbol))
      ensures r.Some? ==> live == Some(r.value) &&
                          pending == old(pending) + [Timer(r.value, old(now) + Delay)] &&
                          issued == old(issued) + [r.value]
      ensures r.None? ==> live == old(live) && pending == old(pending) && issued == old(issued)
      ensures history == old(history) && now == old(now) && currentSymbol == old(currentSymbol)
    {
      r := Detect(data, currentSymbol);
      if r.Some? {
        DisplayLiveSignal(r.value);
      }
    }

    /** The earliest timer fires: time advances to its deadline, its own
        signal is archived and the live slot is reset to waiting. */
    method Fire()
      requires Valid()
      requires |pending| > 0
      modifies this
      ensures Valid()
      ensures now == old(pending[0].deadline)
      ensures history == old(history) + [old(pending[0].signal)]
      ensures |history| == |old(history)| + 1
      ensures pending == old(pending[1..])
      ensures live == None
      ensures issued == old(issued) && currentSymbol == old(currentSymbol)
    {
      var t := pending[0];
      ArchiveStep(issued, history, pending, now);
      history := history + [t.signal];
      pending := pending[1..];
      now := t.deadline;
      live := None;
    }

    /** Time advances to `t`: every timer due by then fires, in scheduling
        order, and none is left due. */
    method Tick(t: int)
      requires Valid()
      requires now <= t
      modifies this
      ensures Valid()
      ensures now == t
      ensures var k := DueCount(old(pending), t);
        history == old(history) + SignalsOf(old(pending)[..k]) &&
        pending == old(pending)[k..] &&
        live == (if k > 0 then None else old(live))
      ensures forall i :: 0 <= i < |pending| ==> pending[i].deadline > t
      // once a full delay has passed, every displayed signal is archived
      ensures old(now) + Delay <= t ==> pending == [] && history == issued
      ensures issued == old(issued) && currentSymbol == old(currentSymbol)
    {
      if now + Delay <= t {
        AtMostWeaken(pending, now + Delay, t);
        AllDue(pending, t);
      }
      ghost var k := 0;
      while |pending| > 0 && pending[0].deadline <= t
        invariant Valid()
        invariant old(now) <= now <= t
        invariant k <= |old(pending)|
        invariant pending == old(pending)[k..]
        invariant history == old(history) + SignalsOf(old(pending)[..k])
        invariant live == (if k > 0 then None else old(live))
        invariant DueCount(old(pending), t) == k + DueCount(pending, t)
        invariant issued == old(issued) && currentSymbol == old(currentSymbol)
        decreases |pending|
      {
        assert old(pending)[..k + 1] == old(pending)[..k] + [pending[0]];
        assert SignalsOf(old(pending)[..k + 1]) == SignalsOf(old(pending)[..k]) + [pending[0].signal];
        Fire();
        k := k + 1;
      }
      WellScheduledAdvance(pending, now, t);
      assert old(now) + Delay <= t ==> old(pending)[..k] == old(pending);
      now := t;
    }
  }

  /** A newer signal overwrites the live slot but does not cancel the older
      timer: when that timer fires, the older signal is archived and the
      slot shows "waiting" although the newer signal is still pending. */
  method OverwrittenLiveSignal(first: Signal, second: Signal, gap: int) returns (h: seq<Signal>, shown: Option<Signal>, waiting: seq<Signal>)
    requires 0 < gap < Delay
    ensures h == [first] && shown == None && waiting == [second]
  {
    var board := new SignalBoard("BTCUSDT");
    board.DisplayLiveSignal(first);
    assert DueCount(board.pending, gap) == 0;
    board.Tick(gap);
    board.DisplayLiveSignal(second);
    ghost var timers := board.pending;
    assert timers == [Timer(first, Delay), Timer(second, gap + Delay)];
    assert DueCount(timers, Delay) == 1;
    assert timers[..1] == [Timer(first, Delay)];
    board.Tick(Delay);
    h, shown, waiting := board.history, board.live, SignalsOf(board.pending);
  }
}
