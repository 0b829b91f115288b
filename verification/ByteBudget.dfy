/**
 * One exact byte budget for two pipes (media-runtime/src/lib.rs:700-923): both readers reserve from one counter with a weak
 * compare-and-swap, in any interleaving, and the process succeeds exactly when both outputs together fit.
 */
module ByteBudget {
  import opened Wrappers

  const CHUNK: nat := 16 * 1024

  type Byte = b: nat | b < 256 witness 0

  // ----- The two readers, one atomic action at a time -----

  datatype Pipe = Stdout | Stderr

  /** Where a reader is: about to read, about to load the counter, about to swap it, at the end, or over the limit. */
  datatype Phase = Reading | Loading(chunk: seq<Byte>) | Swapping(chunk: seq<Byte>, seen: nat) | Ended | Over

  datatype Drain = Drain(rest: seq<Byte>, bytes: seq<Byte>, phase: Phase)

  datatype State = State(total: nat, stdout: Drain, stderr: Drain)

  function Reader(s: State, pipe: Pipe): Drain {
    if pipe.Stdout? then s.stdout else s.stderr
  }

  function With(s: State, pipe: Pipe, drain: Drain): State {
    if pipe.Stdout? then s.(stdout := drain) else s.(stderr := drain)
  }

  /** A read returns any nonempty part of what is left that fits the buffer, or nothing at the end. */
  datatype Action = Read(pipe: Pipe, length: nat) | LoadTotal(pipe: Pipe) | Swap(pipe: Pipe, spurious: bool)

  function Least(a: nat, b: nat): nat {
    if a < b then a else b
  }

  /** What may still be reserved when the counter stands at current, of what is requested. */
  function Retained(current: nat, limit: nat, requested: nat): nat {
    Least(if limit >= current then limit - current else 0, requested)
  }

  predicate Enabled(s: State, a: Action) {
    var drain := Reader(s, a.pipe);
    match a
    case Read(_, length) =>
      drain.phase.Reading? && length <= |drain.rest| && length <= CHUNK && (length == 0 <==> drain.rest == [])
    case LoadTotal(_) => drain.phase.Loading?
    case Swap(_, _) => drain.phase.Swapping?
  }

  function AfterRead(drain: Drain, length: nat): Drain
    requires length <= |drain.rest|
  {
    if length == 0 then drain.(phase := Ended)
    else drain.(rest := drain.rest[length..], phase := Loading(drain.rest[..length]))
  }

  /** The reservation was made: keep what was granted, and stop at the first byte that was not. */
  function AfterReserve(drain: Drain, chunk: seq<Byte>, retained: nat): Drain
    requires retained <= |chunk|
  {
    drain.(bytes := drain.bytes + chunk[..retained], phase := if retained < |chunk| then Over else Reading)
  }

  function Step(s: State, limit: nat, a: Action): State
    requires Enabled(s, a)
  {
    var drain := Reader(s, a.pipe);
    match a
    case Read(pipe, length) => With(s, pipe, AfterRead(drain, length))
    case LoadTotal(pipe) => With(s, pipe, drain.(phase := Swapping(drain.phase.chunk, s.total)))
    case Swap(pipe, spurious) =>
      var Swapping(chunk, seen) := drain.phase;
      var retained := Retained(seen, limit, |chunk|);
      if seen == s.total && !spurious
      then With(s.(total := seen + retained), pipe, AfterReserve(drain, chunk, retained))
      else With(s, pipe, drain.(phase := Swapping(chunk, s.total)))
  }

  function Initial(stdout: seq<Byte>, stderr: seq<Byte>): State {
    State(0, Drain(stdout, [], Reading), Drain(stderr, [], Reading))
  }

  // ----- What every interleaving keeps -----

  function InHand(phase: Phase): seq<Byte> {
    if phase.Loading? || phase.Swapping? then phase.chunk else []
  }

  /** A reader has lost nothing of its stream, unless it is over the limit, and then it is because the budget is spent. */
  ghost predicate DrainInv(drain: Drain, stream: seq<Byte>, total: nat, limit: nat) {
    && (!drain.phase.Over? ==> stream == drain.bytes + InHand(drain.phase) + drain.rest)
    && (drain.phase.Over? ==> drain.bytes < stream && total == limit)
    && (drain.phase.Ended? ==> drain.rest == [])
    && (drain.phase.Loading? || drain.phase.Swapping? ==> 0 < |drain.phase.chunk| <= CHUNK)
    && (drain.phase.Swapping? ==> drain.phase.seen <= total)
  }

  ghost predicate Inv(s: State, limit: nat, stdout: seq<Byte>, stderr: seq<Byte>) {
    && s.total == |s.stdout.bytes| + |s.stderr.bytes| <= limit
    && DrainInv(s.stdout, stdout, s.total, limit) && DrainInv(s.stderr, stderr, s.total, limit)
  }

  lemma ReadKeeps(drain: Drain, stream: seq<Byte>, total: nat, limit: nat, length: nat)
    requires DrainInv(drain, stream, total, limit) && drain.phase.Reading?
    requires length <= |drain.rest| && length <= CHUNK && (length == 0 <==> drain.rest == [])
    ensures DrainInv(AfterRead(drain, length), stream, total, limit) && AfterRead(drain, length).bytes == drain.bytes
  {
    assert drain.rest == drain.rest[..length] + drain.rest[length..];
    assert drain.bytes + [] + drain.rest == drain.bytes + drain.rest;
    assert drain.bytes + drain.rest[..length] + drain.rest[length..] == drain.bytes + drain.rest;
  }

  lemma ReserveKeeps(drain: Drain, stream: seq<Byte>, total: nat, limit: nat)
    requires DrainInv(drain, stream, total, limit) && drain.phase.Swapping? && drain.phase.seen == total <= limit
    ensures var chunk, retained := drain.phase.chunk, Retained(total, limit, |drain.phase.chunk|);
            var after := AfterReserve(drain, chunk, retained);
            && DrainInv(after, stream, total + retained, limit) && total + retained <= limit
            && |after.bytes| == |drain.bytes| + retained
            && (total == limit ==> retained == 0)
  {
    var chunk, retained := drain.phase.chunk, Retained(total, limit, |drain.phase.chunk|);
    assert chunk == chunk[..retained] + chunk[retained..];
    if retained < |chunk| {
      var kept := drain.bytes + chunk[..retained];
      assert stream == kept + (chunk[retained..] + drain.rest);
    } else {
      assert stream == (drain.bytes + chunk[..retained]) + [] + drain.rest;
    }
  }

  /** The counter only grows, so the other reader keeps what it knew of it. */
  lemma OtherKeeps(drain: Drain, stream: seq<Byte>, total: nat, more: nat, limit: nat)
    requires DrainInv(drain, stream, total, limit) && total + more <= limit && (total == limit ==> more == 0)
    ensures DrainInv(drain, stream, total + more, limit)
  {
  }

  lemma StepKeepsInv(s: State, limit: nat, stdout: seq<Byte>, stderr: seq<Byte>, a: Action)
    requires Inv(s, limit, stdout, stderr) && Enabled(s, a)
    ensures Inv(Step(s, limit, a), limit, stdout, stderr)
  {
    var stream := if a.pipe.Stdout? then stdout else stderr;
    var drain := Reader(s, a.pipe);
    match a
    case Read(pipe, length) => ReadKeeps(drain, stream, s.total, limit, length);
    case LoadTotal(pipe) =>
    case Swap(pipe, spurious) =>
      if drain.phase.seen == s.total && !spurious {
        ReserveKeeps(drain, stream, s.total, limit);
        var retained := Retained(s.total, limit, |drain.phase.chunk|);
        OtherKeeps(s.stdout, stdout, s.total, retained, limit);
        OtherKeeps(s.stderr, stderr, s.total, retained, limit);
      }
  }

  /** Any interleaving, any chunking, any number of spurious failures. */
  ghost predicate IsRun(states: seq<State>, actions: seq<Action>, limit: nat, stdout: seq<Byte>, stderr: seq<Byte>) {
    && |states| == |actions| + 1 && states[0] == Initial(stdout, stderr)
    && forall i :: 0 <= i < |actions| ==> Takes(states[i], actions[i], limit, states[i + 1])
  }

  ghost predicate Takes(s: State, a: Action, limit: nat, b: State) {
    Enabled(s, a) && b == Step(s, limit, a)
  }

  lemma {:induction false} RunKeepsInv(states: seq<State>, actions: seq<Action>, limit: nat, stdout: seq<Byte>,
                                       stderr: seq<Byte>, i: nat)
    requires IsRun(states, actions, limit, stdout, stderr) && i < |states|
    ensures Inv(states[i], limit, stdout, stderr)
  {
    if i == 0 {
      assert stdout == [] + [] + stdout && stderr == [] + [] + stderr;
    } else {
      hide Inv, Step, Enabled;
      RunKeepsInv(states, actions, limit, stdout, stderr, i - 1);
      assert Takes(states[i - 1], actions[i - 1], limit, states[i]);
      StepKeepsInv(states[i - 1], limit, stdout, stderr, actions[i - 1]);
    }
  }

  predicate Done(drain: Drain) {
    drain.phase.Ended? || drain.phase.Over?
  }

  /** The counter is at every moment exactly the bytes kept, and never above the limit. */
  lemma BudgetIsExact(states: seq<State>, actions: seq<Action>, limit: nat, stdout: seq<Byte>, stderr: seq<Byte>, i: nat)
    requires IsRun(states, actions, limit, stdout, stderr) && i < |states|
    ensures states[i].total == |states[i].stdout.bytes| + |states[i].stderr.bytes| <= limit
    ensures states[i].stdout.bytes <= stdout && states[i].stderr.bytes <= stderr
    ensures states[i].stdout.phase.Ended? ==> states[i].stdout.bytes == stdout
    ensures states[i].stderr.phase.Ended? ==> states[i].stderr.bytes == stderr
  {
    RunKeepsInv(states, actions, limit, stdout, stderr, i);
    var s := states[i];
    if !s.stdout.phase.Over? {
      assert stdout == s.stdout.bytes + (InHand(s.stdout.phase) + s.stdout.rest);
    }
    if !s.stderr.phase.Over? {
      assert stderr == s.stderr.bytes + (InHand(s.stderr.phase) + s.stderr.rest);
    }
  }

  /** A reader is refused only if the two outputs together exceed the limit: output equal to the limit succeeds. */
  lemma RefusedOnlyOverTheLimit(states: seq<State>, actions: seq<Action>, limit: nat, stdout: seq<Byte>, stderr: seq<Byte>,
                                i: nat)
    requires IsRun(states, actions, limit, stdout, stderr) && i < |states|
    requires states[i].stdout.phase.Over? || states[i].stderr.phase.Over?
    ensures |stdout| + |stderr| > limit && states[i].total == limit
  {
    RunKeepsInv(states, actions, limit, stdout, stderr, i);
    BudgetIsExact(states, actions, limit, stdout, stderr, i);
  }

  /** When both readers are done, both succeeded exactly when the outputs together fit, whatever the schedule was. */
  lemma BothSucceedIffTheyFit(states: seq<State>, actions: seq<Action>, limit: nat, stdout: seq<Byte>, stderr: seq<Byte>, i: nat)
    requires IsRun(states, actions, limit, stdout, stderr) && i < |states|
    requires Done(states[i].stdout) && Done(states[i].stderr)
    ensures states[i].stdout.phase.Ended? && states[i].stderr.phase.Ended? <==> |stdout| + |stderr| <= limit
    ensures |stdout| + |stderr| <= limit ==> states[i].stdout.bytes == stdout && states[i].stderr.bytes == stderr
  {
    BudgetIsExact(states, actions, limit, stdout, stderr, i);
    if states[i].stdout.phase.Over? || states[i].stderr.phase.Over? {
      RefusedOnlyOverTheLimit(states, actions, limit, stdout, stderr, i);
    }
  }

  // ----- The readers' own loops -----

  /**
   * The shared counter as one reader sees it: between any two of its own atomic actions the other reader may reserve more,
   * within the limit. others is what the other reader has reserved so far.
   */
  class SharedTotal {
    const limit: nat
    var value: nat
    ghost var others: nat

    constructor (limit: nat)
      ensures this.limit == limit && value == 0 && others == 0
    {
      this.limit := limit;
      value, others := 0, 0;
    }

    /** The other reader's turn. */
    method Interfere()
      requires value <= limit
      modifies this
      ensures old(value) <= value <= limit && value - old(value) == others - old(others) && old(others) <= others
    {
      var more: int := *;
      if 0 <= more && value + more <= limit {
        value := value + more;
        others := others + more;
      }
    }

    method Load() returns (current: nat)
      ensures current == value
    {
      current := value;
    }

    /** May fail for no reason at all. */
    method CompareExchangeWeak(current: nat, next: nat) returns (ok: bool, actual: nat)
      modifies `value
      ensures actual == old(value)
      ensures ok ==> old(value) == current && value == next
      ensures !ok ==> value == old(value)
    {
      actual := value;
      var spurious := *;
      ok := value == current && !spurious;
      if ok {
        value := next;
      }
    }

    /**
     * reserve_combined_output, for any finite number of failed exchanges: what is granted is all that was left of the limit
     * at the moment of the exchange, and no more than was asked for.
     */
    method Reserve(requested: nat, failures: nat) returns (retained: Option<nat>)
      requires value <= limit
      modifies this
      ensures value <= limit && old(others) <= others
      ensures retained.Some? ==> retained.value <= requested
      ensures value - old(value) == others - old(others) + if retained.Some? then retained.value else 0
      ensures retained.Some? && retained.value < requested ==> value == limit
    {
      var current: nat := Load();
      Interfere();
      var i := 0;
      while i <= failures
        invariant value <= limit && current <= value && old(others) <= others
        invariant value - old(value) == others - old(others)
        decreases failures + 1 - i
      {
        var granted := Retained(current, limit, requested);
        var ok, actual := CompareExchangeWeak(current, current + granted);
        if ok {
          return Some(granted);
        }
        current := actual;
        Interfere();
        i := i + 1;
      }
      return None;
    }

    /**
     * drain_bounded_combined over a reader that yields the stream in any chunks: the whole stream, or the part of it that
     * was still within the limit when the limit was reached. starved says the exchange failed more often than allowed for.
     */
    method DrainBounded(stream: seq<Byte>, failures: nat) returns (bytes: seq<Byte>, over: bool, starved: bool)
      requires value <= limit
      modifies this
      ensures value <= limit && old(others) <= others
      ensures bytes <= stream && value - old(value) == others - old(others) + |bytes|
      ensures !starved && !over ==> bytes == stream
      ensures !starved && over ==> |bytes| < |stream| && value == limit
    {
      bytes, over, starved := [], false, false;
      while |bytes| < |stream|
        invariant value <= limit && old(others) <= others
        invariant bytes <= stream && value - old(value) == others - old(others) + |bytes|
        decreases |stream| - |bytes|
      {
        Interfere();
        var length: nat :| 1 <= length <= CHUNK && |bytes| + length <= |stream|;
        var chunk := stream[|bytes|..|bytes| + length];
        var retained := Reserve(length, failures);
        if retained.None? {
          starved := true;
          return;
        }
        bytes := bytes + chunk[..retained.value];
        if retained.value < length {
          over := true;
          return;
        }
      }
    }
  }

  // ----- The completion loop of run_bounded_process -----

  datatype DrainResult = Drained(bytes: seq<Byte>) | LimitHit | ReadFailed

  /** One round of the select: what became ready. */
  datatype Turn =
    | DeadlinePassed
    | ChildExited(status: int)
    | WaitFailed
    | PipeEnded(pipe: Pipe, result: DrainResult)
    | TaskFailed
    | NoTaskLeft

  datatype Failure = Timeout | OutputLimit | Execution

  datatype Progress =
    | Waiting(status: Option<int>, stdout: Option<seq<Byte>>, stderr: Option<seq<Byte>>)
    | Completed(code: int, out: seq<Byte>, err: seq<Byte>)
    | Failed(failure: Failure)

  /** The guards of the select: no wait after the exit, no join after both pipes. */
  predicate Possible(p: Progress, turn: Turn) {
    && p.Waiting?
    && (turn.ChildExited? || turn.WaitFailed? ==> p.status.None?)
    && (turn.PipeEnded? || turn.TaskFailed? || turn.NoTaskLeft? ==> p.stdout.None? || p.stderr.None?)
  }

  function Settle(p: Progress): Progress {
    if p.Waiting? && p.status.Some? && p.stdout.Some? && p.stderr.Some?
    then Completed(p.status.value, p.stdout.value, p.stderr.value) else p
  }

  function Advance(p: Progress, turn: Turn): Progress
    requires p.Waiting?
  {
    match turn
    case DeadlinePassed => Failed(Timeout)
    case ChildExited(status) => Settle(p.(status := Some(status)))
    case WaitFailed => Failed(Execution)
    case PipeEnded(pipe, Drained(bytes)) =>
      if pipe.Stdout? && p.stdout.None? then Settle(p.(stdout := Some(bytes)))
      else if pipe.Stderr? && p.stderr.None? then Settle(p.(stderr := Some(bytes)))
      else Failed(Execution)
    case PipeEnded(_, LimitHit) => Failed(OutputLimit)
    case PipeEnded(_, ReadFailed) => Failed(Execution)
    case TaskFailed => Failed(Execution)
    case NoTaskLeft => Failed(Execution)
  }

  /** Where the loop is after some rounds; rounds after the end change nothing. */
  function Outcome(turns: seq<Turn>): Progress {
    if turns == [] then Waiting(None, None, None)
    else
      var before := Outcome(turns[..|turns| - 1]);
      if before.Waiting? then Advance(before, turns[|turns| - 1]) else before
  }

  method CompletionLoop(turns: seq<Turn>) returns (progress: Progress)
    ensures progress == Outcome(turns)
  {
    var status: Option<int> := None;
    var stdout: Option<seq<Byte>> := None;
    var stderr: Option<seq<Byte>> := None;
    var i := 0;
    while i < |turns| && (status.None? || stdout.None? || stderr.None?)
      invariant i <= |turns|
      invariant Outcome(turns[..i]) == Settle(Waiting(status, stdout, stderr))
    {
      var turn := turns[i];
      assert turns[..i + 1][..i] == turns[..i];
      i := i + 1;
      match turn {
        case DeadlinePassed => progress := Failed(Timeout); EndedStays(turns, i); return;
        case ChildExited(code) => status := Some(code);
        case WaitFailed => progress := Failed(Execution); EndedStays(turns, i); return;
        case PipeEnded(pipe, Drained(bytes)) =>
          if pipe.Stdout? && stdout.None? {
            stdout := Some(bytes);
          } else if pipe.Stderr? && stderr.None? {
            stderr := Some(bytes);
          } else {
            progress := Failed(Execution);
            EndedStays(turns, i);
            return;
          }
        case PipeEnded(pipe, LimitHit) => progress := Failed(OutputLimit); EndedStays(turns, i); return;
        case PipeEnded(pipe, ReadFailed) => progress := Failed(Execution); EndedStays(turns, i); return;
        case TaskFailed => progress := Failed(Execution); EndedStays(turns, i); return;
        case NoTaskLeft => progress := Failed(Execution); EndedStays(turns, i); return;
      }
    }
    if i < |turns| {
      EndedStays(turns, i);
    } else {
      assert turns[..i] == turns;
    }
    progress := Waiting(status, stdout, stderr);
    if status.Some? && stdout.Some? && stderr.Some? {
      progress := Completed(status.value, stdout.value, stderr.value);
    }
  }

  lemma {:induction false} EndedStays(turns: seq<Turn>, i: nat)
    requires i <= |turns| && !Outcome(turns[..i]).Waiting?
    ensures Outcome(turns) == Outcome(turns[..i])
    decreases |turns| - i
  {
    if i < |turns| {
      assert turns[..i + 1][..i] == turns[..i];
      EndedStays(turns, i + 1);
    } else {
      assert turns[..i] == turns;
    }
  }

  /**
   * Rounds in which nothing fails from outside: pipes end as their readers did, each once, and the child exits once.
   */
  ghost predicate Faithful(turns: seq<Turn>, s: State) {
    && (forall i :: 0 <= i < |turns| ==>
          && (turns[i].ChildExited? || turns[i].PipeEnded?)
          && (turns[i].PipeEnded? ==>
                var drain := Reader(s, turns[i].pipe);
                Done(drain) && turns[i].result == if drain.phase.Ended? then Drained(drain.bytes) else LimitHit))
    && (forall i, j :: 0 <= i < j < |turns| && turns[i].PipeEnded? && turns[j].PipeEnded? ==> turns[i].pipe != turns[j].pipe)
  }

  /** What the loop holds of each pipe is that reader's whole output. */
  ghost predicate Gathered(p: Progress, turns: seq<Turn>, s: State) {
    match p
    case Waiting(status, stdout, stderr) =>
      && (stdout.Some? ==> s.stdout.phase.Ended? && stdout.value == s.stdout.bytes)
      && (stderr.Some? ==> s.stderr.phase.Ended? && stderr.value == s.stderr.bytes)
      && (stdout.Some? ==> exists i :: 0 <= i < |turns| && turns[i].PipeEnded? && turns[i].pipe == Stdout)
      && (stderr.Some? ==> exists i :: 0 <= i < |turns| && turns[i].PipeEnded? && turns[i].pipe == Stderr)
    case Completed(code, out, err) =>
      s.stdout.phase.Ended? && s.stderr.phase.Ended? && out == s.stdout.bytes && err == s.stderr.bytes
    case Failed(failure) => failure == OutputLimit && (s.stdout.phase.Over? || s.stderr.phase.Over?)
  }

  lemma {:induction false} LoopGathers(turns: seq<Turn>, s: State)
    requires Faithful(turns, s)
    ensures Gathered(Outcome(turns), turns, s)
  {
    if turns != [] {
      var front, last := turns[..|turns| - 1], turns[|turns| - 1];
      assert forall i :: 0 <= i < |front| ==> front[i] == turns[i];
      LoopGathers(front, s);
      assert turns[|turns| - 1].ChildExited? || turns[|turns| - 1].PipeEnded?;
      if Outcome(front).Waiting? {
        if i :| 0 <= i < |front| && front[i].PipeEnded? && front[i].pipe == Stdout {
          assert turns[i].PipeEnded? && turns[i].pipe == Stdout;
        }
        if i :| 0 <= i < |front| && front[i].PipeEnded? && front[i].pipe == Stderr {
          assert turns[i].PipeEnded? && turns[i].pipe == Stderr;
        }
      }
    }
  }

  /**
   * Without outside failures, a process that ends ends well exactly when its two outputs together are within the limit,
   * and then it returns them byte for byte; otherwise it fails for its output limit.
   */
  lemma ProcessSucceedsIffOutputFits(states: seq<State>, actions: seq<Action>, limit: nat, stdout: seq<Byte>, stderr: seq<Byte>,
                                     turns: seq<Turn>)
    requires IsRun(states, actions, limit, stdout, stderr)
    requires Faithful(turns, states[|states| - 1]) && !Outcome(turns).Waiting?
    ensures Outcome(turns).Completed? <==> |stdout| + |stderr| <= limit
    ensures Outcome(turns).Completed? ==> Outcome(turns).out == stdout && Outcome(turns).err == stderr
    ensures !Outcome(turns).Completed? ==> Outcome(turns) == Failed(OutputLimit)
  {
    var i := |states| - 1;
    LoopGathers(turns, states[i]);
    BudgetIsExact(states, actions, limit, stdout, stderr, i);
    if states[i].stdout.phase.Over? || states[i].stderr.phase.Over? {
      RefusedOnlyOverTheLimit(states, actions, limit, stdout, stderr, i);
    }
  }
}
