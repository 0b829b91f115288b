/**
 * The bounded telemetry queue (app/src/benchmark.ts:178-227, 385-447): events are pushed, drained in batches to the backend
 * and put back in front when a send fails, with every loss counted.
 */
module BenchmarkBuffer {
  import opened Wrappers

  const LOCAL_EVENT_CAPACITY: nat := 1024
  const FLUSH_BATCH_SIZE: nat := 128
  const MAX_SAFE_INTEGER: int := 0x1F_FFFF_FFFF_FFFF

  // ----- The buffer -----

  function Most(a: nat, b: nat): nat {
    if a < b then b else a
  }

  datatype Buffer<T> = Buffer(capacity: nat, values: seq<T>, highWaterMark: nat, dropped: nat)

  function Pushed<T>(b: Buffer<T>, value: T): Buffer<T> {
    if |b.values| >= b.capacity then b.(dropped := b.dropped + 1)
    else b.(values := b.values + [value], highWaterMark := Most(b.highWaterMark, |b.values| + 1))
  }

  /** Of the returned values, the newest ones for which there is room. */
  function Fitting<T>(b: Buffer<T>, values: seq<T>): seq<T> {
    var available := if b.capacity >= |b.values| then b.capacity - |b.values| else 0;
    values[if |values| >= available then |values| - available else 0..]
  }

  function Prepended<T>(b: Buffer<T>, values: seq<T>): Buffer<T> {
    if values == [] then b
    else
      var accepted := Fitting(b, values);
      b.(values := accepted + b.values, dropped := b.dropped + |values| - |accepted|,
         highWaterMark := Most(b.highWaterMark, |accepted| + |b.values|))
  }

  function Batch<T>(b: Buffer<T>, maximum: int): seq<T> {
    if maximum <= 0 || maximum > MAX_SAFE_INTEGER then []
    else if maximum < |b.values| then b.values[..maximum] else b.values
  }

  function Drained<T>(b: Buffer<T>, maximum: int): Buffer<T> {
    b.(values := b.values[|Batch(b, maximum)|..])
  }

  ghost predicate WithinCapacity<T>(b: Buffer<T>) {
    |b.values| <= b.highWaterMark <= b.capacity
  }

  class BoundedEventBuffer<T> {
    const capacity: nat
    var values: seq<T>
    var highWaterMark: nat
    var dropped: nat

    constructor (capacity: nat)
      requires 0 < capacity <= MAX_SAFE_INTEGER
      ensures View() == Buffer(capacity, [], 0, 0) && WithinCapacity(View())
    {
      this.capacity := capacity;
      values, highWaterMark, dropped := [], 0, 0;
    }

    function View(): Buffer<T>
      reads this
    {
      Buffer(capacity, values, highWaterMark, dropped)
    }

    method Push(value: T) returns (accepted: bool)
      requires WithinCapacity(View())
      modifies this
      ensures View() == Pushed(old(View()), value) && WithinCapacity(View())
      ensures accepted <==> |old(values)| < capacity
    {
      if |values| >= capacity {
        dropped := dropped + 1;
        return false;
      }
      values := values + [value];
      highWaterMark := Most(highWaterMark, |values|);
      return true;
    }

    method Prepend(returned: seq<T>)
      requires WithinCapacity(View())
      modifies this
      ensures View() == Prepended(old(View()), returned) && WithinCapacity(View())
    {
      if |returned| == 0 {
        return;
      }
      var accepted := Fitting(View(), returned);
      dropped := dropped + |returned| - |accepted|;
      values := accepted + values;
      highWaterMark := Most(highWaterMark, |values|);
    }

    method Drain(maximum: int) returns (batch: seq<T>)
      requires WithinCapacity(View())
      modifies this
      ensures batch == Batch(old(View()), maximum) && View() == Drained(old(View()), maximum)
      ensures old(values) == batch + values && WithinCapacity(View())
    {
      if maximum <= 0 || maximum > MAX_SAFE_INTEGER {
        return [];
      }
      var count := if maximum < |values| then maximum else |values|;
      batch := values[..count];
      values := values[count..];
    }
  }

  // ----- Subsequences -----

  /** xs is ys with some elements left out. */
  ghost predicate Subsequence<T>(xs: seq<T>, ys: seq<T>) {
    if xs == [] then true
    else if ys == [] then false
    else
      || (xs[|xs| - 1] == ys[|ys| - 1] && Subsequence(xs[..|xs| - 1], ys[..|ys| - 1]))
      || Subsequence(xs, ys[..|ys| - 1])
  }

  lemma AppendBoth<T>(xs: seq<T>, ys: seq<T>, x: T)
    requires Subsequence(xs, ys)
    ensures Subsequence(xs + [x], ys + [x]) && Subsequence(xs, ys + [x])
  {
    assert (xs + [x])[..|xs|] == xs && (ys + [x])[..|ys|] == ys;
  }

  /** Leaving out more keeps the order of the rest. */
  lemma {:induction false} LeaveOut<T>(front: seq<T>, middle: seq<T>, back: seq<T>, ys: seq<T>)
    requires Subsequence(front + middle + back, ys)
    ensures Subsequence(front + back, ys)
    decreases |ys|
  {
    var xs := front + middle + back;
    if front + back != [] && ys != [] {
      var rest := ys[..|ys| - 1];
      if Subsequence(xs, rest) {
        LeaveOut(front, middle, back, rest);
      } else if back != [] {
        assert xs[..|xs| - 1] == front + middle + back[..|back| - 1];
        LeaveOut(front, middle, back[..|back| - 1], rest);
        assert (front + back)[..|front + back| - 1] == front + back[..|back| - 1];
      } else if middle != [] {
        assert xs[..|xs| - 1] == front + middle[..|middle| - 1] + [];
        LeaveOut(front, middle[..|middle| - 1], [], rest);
        assert front + back == front + [];
      } else {
        assert xs == front + back;
      }
    }
  }

  // ----- The observer -----

  /**
   * inFlight is the batch whose send the running flush awaits; flushes counts the links of the flush chain behind it.
   * offered and delivered record what emit was given and what the backend has answered for.
   */
  datatype State<T> = State(buffer: Buffer<T>, inFlight: Option<seq<T>>, flushes: nat, offered: seq<T>, delivered: seq<T>,
                            remoteDropped: nat)

  function Sending<T>(s: State<T>): seq<T> {
    if s.inFlight.Some? then s.inFlight.value else []
  }

  function Initial<T>(): State<T> {
    State(Buffer(LOCAL_EVENT_CAPACITY, [], 0, 0), None, 0, [], [], 0)
  }

  function Emit<T>(s: State<T>, value: T): State<T> {
    var b := Pushed(s.buffer, value);
    s.(buffer := b, offered := s.offered + [value], flushes := if |b.values| >= FLUSH_BATCH_SIZE then s.flushes + 1 else s.flushes)
  }

  /** The flush loop's test: another batch, or the end of the link. */
  function Continue<T>(s: State<T>): State<T> {
    if s.buffer.values == [] then s.(inFlight := None)
    else s.(inFlight := Some(Batch(s.buffer, FLUSH_BATCH_SIZE)), buffer := Drained(s.buffer, FLUSH_BATCH_SIZE))
  }

  function StartLink<T>(s: State<T>): State<T>
    requires s.inFlight.None? && s.flushes > 0
  {
    Continue(s.(flushes := s.flushes - 1))
  }

  function Answered<T>(s: State<T>, accepted: bool): State<T>
    requires s.inFlight.Some?
  {
    var batch := s.inFlight.value;
    Continue(s.(delivered := s.delivered + batch, inFlight := None,
                remoteDropped := if accepted then s.remoteDropped else s.remoteDropped + |batch|))
  }

  /** A failed send puts its batch back in front and ends the link. */
  function SendFailed<T>(s: State<T>): State<T>
    requires s.inFlight.Some?
  {
    s.(inFlight := None, buffer := Prepended(s.buffer, s.inFlight.value))
  }

  datatype Event<T> = Emitted(value: T) | FlushAsked | LinkStarted | SendAnswered(accepted: bool) | SendRejected

  predicate Enabled<T>(s: State<T>, e: Event<T>) {
    && (e.LinkStarted? ==> s.inFlight.None? && s.flushes > 0)
    && (e.SendAnswered? || e.SendRejected? ==> s.inFlight.Some?)
  }

  function Step<T>(s: State<T>, e: Event<T>): State<T>
    requires Enabled(s, e)
  {
    match e
    case Emitted(value) => Emit(s, value)
    case FlushAsked => s.(flushes := s.flushes + 1)
    case LinkStarted => StartLink(s)
    case SendAnswered(accepted) => Answered(s, accepted)
    case SendRejected => SendFailed(s)
  }

  /** Everything offered is delivered, in flight, buffered or counted as dropped; and what is left of it is in order. */
  ghost predicate Inv<T>(s: State<T>) {
    && s.buffer.capacity == LOCAL_EVENT_CAPACITY && WithinCapacity(s.buffer)
    && |s.offered| == |s.delivered| + |Sending(s)| + |s.buffer.values| + s.buffer.dropped
    && Subsequence(s.delivered + Sending(s) + s.buffer.values, s.offered)
    && |Sending(s)| <= FLUSH_BATCH_SIZE
    && s.remoteDropped <= |s.delivered|
  }

  lemma EmitKeeps<T>(s: State<T>, value: T)
    requires Inv(s)
    ensures Inv(Emit(s, value))
  {
    OrderAppends(s.delivered, Sending(s), s.buffer.values, s.offered, value);
    hide Subsequence;
  }

  lemma OrderAppends<T>(front: seq<T>, middle: seq<T>, back: seq<T>, ys: seq<T>, x: T)
    requires Subsequence(front + middle + back, ys)
    ensures Subsequence(front + middle + (back + [x]), ys + [x]) && Subsequence(front + middle + back, ys + [x])
  {
    AppendBoth(front + middle + back, ys, x);
    hide Subsequence;
    assert front + middle + back + [x] == front + middle + (back + [x]);
  }

  /** Putting the newest part of a batch back in front of the buffer leaves out the oldest part, and nothing else. */
  lemma OrderReturns<T>(front: seq<T>, batch: seq<T>, n: nat, back: seq<T>, ys: seq<T>)
    requires n <= |batch| && Subsequence(front + batch + back, ys)
    ensures Subsequence(front + [] + (batch[n..] + back), ys)
  {
    var rest := batch[n..] + back;
    assert front + batch + back == front + batch[..n] + rest by {
      hide Subsequence;
      assert batch == batch[..n] + batch[n..];
    }
    LeaveOut(front, batch[..n], rest, ys);
    hide Subsequence;
    assert front + rest == front + [] + rest;
  }

  lemma ContinueKeeps<T>(s: State<T>)
    requires Inv(s) && s.inFlight.None?
    ensures Inv(Continue(s))
  {
    hide Subsequence;
    var b := Continue(s);
    assert s.delivered + [] + s.buffer.values == b.delivered + Sending(b) + b.buffer.values by {
      assert s.buffer.values == Sending(b) + b.buffer.values;
    }
  }

  lemma AnsweredKeeps<T>(s: State<T>, accepted: bool)
    requires Inv(s) && s.inFlight.Some?
    ensures Inv(Answered(s, accepted))
  {
    hide Subsequence;
    var batch := s.inFlight.value;
    assert s.delivered + batch + s.buffer.values == (s.delivered + batch) + [] + s.buffer.values;
    ContinueKeeps(s.(delivered := s.delivered + batch, inFlight := None,
                     remoteDropped := if accepted then s.remoteDropped else s.remoteDropped + |batch|));
  }

  lemma SendFailedKeeps<T>(s: State<T>)
    requires Inv(s) && s.inFlight.Some?
    ensures Inv(SendFailed(s))
  {
    var batch := s.inFlight.value;
    var accepted := Fitting(s.buffer, batch);
    OrderReturns(s.delivered, batch, |batch| - |accepted|, s.buffer.values, s.offered);
    hide Subsequence;
    if batch == [] {
      assert s.delivered + batch + s.buffer.values == s.delivered + [] + s.buffer.values;
    }
  }

  lemma StepKeepsInv<T>(s: State<T>, e: Event<T>)
    requires Inv(s) && Enabled(s, e)
    ensures Inv(Step(s, e))
  {
    match e
    case Emitted(value) => EmitKeeps(s, value);
    case FlushAsked =>
    case LinkStarted => ContinueKeeps(s.(flushes := s.flushes - 1));
    case SendAnswered(accepted) => AnsweredKeeps(s, accepted);
    case SendRejected => SendFailedKeeps(s);
  }

  ghost predicate IsRun<T>(states: seq<State<T>>, events: seq<Event<T>>) {
    && |states| == |events| + 1 && states[0] == Initial()
    && forall i :: 0 <= i < |events| ==> Takes(states[i], events[i], states[i + 1])
  }

  ghost predicate Takes<T>(a: State<T>, e: Event<T>, b: State<T>) {
    Enabled(a, e) && b == Step(a, e)
  }

  /** No event is unaccounted for, none overtakes another, and the buffer never exceeds its capacity, over any run. */
  lemma {:induction false} EventsAreAccountedFor<T>(states: seq<State<T>>, events: seq<Event<T>>, i: nat)
    requires IsRun(states, events) && i < |states|
    ensures var s := states[i];
            && |s.offered| == |s.delivered| + |Sending(s)| + |s.buffer.values| + s.buffer.dropped
            && Subsequence(s.delivered + Sending(s) + s.buffer.values, s.offered)
            && |s.buffer.values| <= s.buffer.highWaterMark <= LOCAL_EVENT_CAPACITY
    ensures Inv(states[i])
  {
    if i > 0 {
      EventsAreAccountedFor(states, events, i - 1);
      assert Takes(states[i - 1], events[i - 1], states[i]);
      StepKeepsInv(states[i - 1], events[i - 1]);
    }
  }

  /** While no send fails and the buffer never fills, delivery is the offered events themselves, in order. */
  lemma {:induction false} LosslessDelivery<T>(xs: seq<T>, ys: seq<T>)
    requires Subsequence(xs, ys) && |xs| == |ys|
    ensures xs == ys
  {
    if xs != [] {
      if Subsequence(xs, ys[..|ys| - 1]) {
        SubsequenceIsNoLonger(xs, ys[..|ys| - 1]);
      } else {
        LosslessDelivery(xs[..|xs| - 1], ys[..|ys| - 1]);
      }
    }
  }

  lemma {:induction false} SubsequenceIsNoLonger<T>(xs: seq<T>, ys: seq<T>)
    requires Subsequence(xs, ys)
    ensures |xs| <= |ys|
  {
    if xs != [] {
      if Subsequence(xs, ys[..|ys| - 1]) {
        SubsequenceIsNoLonger(xs, ys[..|ys| - 1]);
      } else {
        SubsequenceIsNoLonger(xs[..|xs| - 1], ys[..|ys| - 1]);
      }
    }
  }

  /** A run that has dropped nothing has delivered, is sending and holds exactly what it was offered, in order. */
  lemma NothingDroppedMeansNothingLost<T>(states: seq<State<T>>, events: seq<Event<T>>, i: nat)
    requires IsRun(states, events) && i < |states| && states[i].buffer.dropped == 0
    ensures states[i].delivered + Sending(states[i]) + states[i].buffer.values == states[i].offered
  {
    EventsAreAccountedFor(states, events, i);
    LosslessDelivery(states[i].delivered + Sending(states[i]) + states[i].buffer.values, states[i].offered);
  }

  class ReplayBenchmarkObserver<T> {
    const buffer: BoundedEventBuffer<T>
    var inFlight: Option<seq<T>>
    var flushes: nat
    var remoteDropped: nat
    ghost var offered: seq<T>
    ghost var delivered: seq<T>

    constructor ()
      ensures View() == Initial() && Inv(View()) && fresh(buffer)
    {
      buffer := new BoundedEventBuffer(LOCAL_EVENT_CAPACITY);
      inFlight, flushes, remoteDropped := None, 0, 0;
      offered, delivered := [], [];
    }

    ghost function View(): State<T>
      reads this, buffer
    {
      State(buffer.View(), inFlight, flushes, offered, delivered, remoteDropped)
    }

    method Record(value: T) returns (accepted: bool)
      requires Inv(View())
      modifies this, buffer
      ensures View() == Emit(old(View()), value) && Inv(View())
      ensures accepted <==> |old(buffer.values)| < LOCAL_EVENT_CAPACITY
    {
      EmitKeeps(View(), value);
      offered := offered + [value];
      accepted := buffer.Push(value);
      if |buffer.values| >= FLUSH_BATCH_SIZE {
        flushes := flushes + 1;
      }
    }

    /** One round of the flush loop: a batch to send, or the end of the link. */
    method NextBatch()
      requires WithinCapacity(buffer.View())
      modifies this, buffer
      ensures View() == Continue(old(View()))
    {
      if |buffer.values| == 0 {
        inFlight := None;
        return;
      }
      var batch := buffer.Drain(FLUSH_BATCH_SIZE);
      inFlight := Some(batch);
    }

    method RunLink()
      requires Inv(View()) && inFlight.None? && flushes > 0
      modifies this, buffer
      ensures View() == StartLink(old(View())) && Inv(View())
    {
      StepKeepsInv(View(), LinkStarted);
      flushes := flushes - 1;
      NextBatch();
    }

    method BackendAnswers(accepted: bool)
      requires Inv(View()) && inFlight.Some?
      modifies this, buffer
      ensures View() == Answered(old(View()), accepted) && Inv(View())
    {
      AnsweredKeeps(View(), accepted);
      if !accepted {
        remoteDropped := remoteDropped + |inFlight.value|;
      }
      delivered := delivered + inFlight.value;
      inFlight := None;
      NextBatch();
    }

    method BackendFails()
      requires Inv(View()) && inFlight.Some?
      modifies this, buffer
      ensures View() == SendFailed(old(View())) && Inv(View())
    {
      SendFailedKeeps(View());
      buffer.Prepend(inFlight.value);
      inFlight := None;
    }

    /** Every event of a run, handled by the method it reaches. */
    method Handle(e: Event<T>)
      requires Inv(View()) && Enabled(View(), e)
      modifies this, buffer
      ensures View() == Step(old(View()), e) && Inv(View())
    {
      hide Subsequence, Pushed, Prepended, Drained, Batch;
      match e
      case Emitted(value) => var accepted := Record(value);
      case FlushAsked => flushes := flushes + 1;
      case LinkStarted => RunLink();
      case SendAnswered(accepted) => BackendAnswers(accepted);
      case SendRejected => BackendFails();
    }
  }
}
