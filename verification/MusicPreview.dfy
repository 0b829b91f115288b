/**
 * The imported-music preview (app/src/importedMusicPreview.ts): selections serialized on one promise chain, so that a
 * prepared preview is always either held or handed back, and only the newest selection is heard.
 */
module MusicPreview {
  import opened Wrappers

  // ----- Data -----

  datatype Preview = Preview(token: string, url: string)

  /** A selection's link of the chain. */
  datatype Job = Job(generation: nat, path: string)

  /** The await the running link is suspended at. */
  datatype Await = Releasing | Preparing | Discarding

  datatype Running = Running(job: Job, at: Await)

  /**
   * jobs are the links that have not started. prepared and handed record every preview the server prepared and every one
   * handed to release; url is what was last published.
   */
  datatype State = State(
    generation: nat, disposed: bool, current: Option<Preview>, jobs: seq<Job>, running: Option<Running>,
    url: string, prepared: seq<Preview>, handed: seq<Preview>, failures: nat)

  function Initial(): State {
    State(0, false, None, [], None, "", [], [], 0)
  }

  // ----- Steps -----

  predicate Newest(s: State, job: Job) {
    !s.disposed && job.generation == s.generation
  }

  function Select(s: State, path: string): State {
    if s.disposed then s
    else s.(generation := s.generation + 1, url := "", jobs := s.jobs + [Job(s.generation + 1, path)])
  }

  function Dispose(s: State): State {
    if s.disposed then s else Select(s, "").(disposed := true)
  }

  function Hand(s: State, preview: Option<Preview>): State {
    if preview.Some? then s.(handed := s.handed + [preview.value]) else s
  }

  /** The next link starts: what was held is let go and handed back. */
  function Start(s: State): State
    requires s.running.None? && s.jobs != []
  {
    Hand(s, s.current).(current := None, jobs := s.jobs[1..], running := Some(Running(s.jobs[0], Releasing)))
  }

  /** A rejected await ends the link; only the newest selection reports it. */
  function Failed(s: State): State
    requires s.running.Some?
  {
    s.(running := None, failures := if Newest(s, s.running.value.job) then s.failures + 1 else s.failures)
  }

  function Released(s: State): State
    requires s.running.Some?
  {
    var job := s.running.value.job;
    if !Newest(s, job) || job.path == "" then s.(running := None) else s.(running := Some(Running(job, Preparing)))
  }

  /** A preview that comes too late is handed straight back; the newest selection's is held and published. */
  function Prepared(s: State, preview: Preview): State
    requires s.running.Some?
  {
    var job := s.running.value.job;
    var taken := s.(prepared := s.prepared + [preview]);
    if Newest(s, job) then taken.(current := Some(preview), url := preview.url, running := None)
    else Hand(taken, Some(preview)).(running := Some(Running(job, Discarding)))
  }

  datatype Event =
    | Selected(path: string)
    | Disposed
    | LinkStarted
    | AwaitFailed
    | ReleaseDone
    | PrepareDone(preview: Preview)
    | DiscardDone

  predicate At(s: State, at: Await) {
    s.running.Some? && s.running.value.at == at
  }

  predicate Enabled(s: State, e: Event) {
    match e
    case LinkStarted => s.running.None? && s.jobs != []
    case AwaitFailed => s.running.Some?
    case ReleaseDone => At(s, Releasing)
    case PrepareDone(_) => At(s, Preparing)
    case DiscardDone => At(s, Discarding)
    case _ => true
  }

  function Step(s: State, e: Event): State
    requires Enabled(s, e)
  {
    match e
    case Selected(path) => Select(s, path)
    case Disposed => Dispose(s)
    case LinkStarted => Start(s)
    case AwaitFailed => Failed(s)
    case ReleaseDone => Released(s)
    case PrepareDone(preview) => Prepared(s, preview)
    case DiscardDone => s.(running := None)
  }

  // ----- Invariant -----

  ghost function Held(s: State): multiset<Preview> {
    if s.current.Some? then multiset{s.current.value} else multiset{}
  }

  ghost predicate Inv(s: State) {
    // Every prepared preview is the held one or was handed back, each exactly as often as it was prepared.
    && multiset(s.prepared) == multiset(s.handed) + Held(s)
    // Links run in the order of their selections, the newest last.
    && (forall i :: 0 <= i < |s.jobs| ==> s.jobs[i].generation == s.generation - |s.jobs| + 1 + i)
    && |s.jobs| <= s.generation
    && (s.running.Some? ==> s.running.value.job.generation == s.generation - |s.jobs|)
    // A link lets go of what was held before anything else happens.
    && (s.running.Some? ==> s.current.None?)
    && (s.current.Some? && s.jobs == [] ==> !s.disposed && s.url == s.current.value.url)
    && (s.jobs != [] || s.running.Some? ==> s.url == "")
    && (s.current.None? ==> s.url == "")
    && (s.disposed ==> s.url == "")
  }

  lemma HandKeepsCount(s: State, preview: Preview)
    ensures multiset(s.handed + [preview]) == multiset(s.handed) + multiset{preview}
    ensures multiset(s.prepared + [preview]) == multiset(s.prepared) + multiset{preview}
  {
  }

  lemma StartKeeps(s: State)
    requires Inv(s) && s.running.None? && s.jobs != []
    ensures Inv(Start(s))
  {
    if s.current.Some? {
      HandKeepsCount(s, s.current.value);
    }
  }

  lemma PreparedKeeps(s: State, preview: Preview)
    requires Inv(s) && At(s, Preparing)
    ensures Inv(Prepared(s, preview))
  {
    HandKeepsCount(s, preview);
  }

  lemma SelectKeeps(s: State, path: string)
    requires Inv(s)
    ensures Inv(Select(s, path)) && Inv(Dispose(s))
  {
  }

  lemma StepKeepsInv(s: State, e: Event)
    requires Inv(s) && Enabled(s, e)
    ensures Inv(Step(s, e))
  {
    hide Inv, Select, Dispose, Start, Prepared, Failed, Released;
    match e
    case Selected(path) => SelectKeeps(s, path);
    case Disposed => SelectKeeps(s, "");
    case LinkStarted => StartKeeps(s);
    case PrepareDone(preview) => PreparedKeeps(s, preview);
    case _ => EndKeeps(s, e);
  }

  lemma EndKeeps(s: State, e: Event)
    requires Inv(s) && Enabled(s, e) && (e.AwaitFailed? || e.ReleaseDone? || e.DiscardDone?)
    ensures Inv(Step(s, e))
  {
  }

  // ----- Whole runs -----

  ghost predicate IsRun(states: seq<State>, events: seq<Event>) {
    && |states| == |events| + 1 && states[0] == Initial()
    && forall i :: 0 <= i < |events| ==> Takes(states[i], events[i], states[i + 1])
  }

  ghost predicate Takes(a: State, e: Event, b: State) {
    Enabled(a, e) && b == Step(a, e)
  }

  lemma {:induction false} RunKeepsInv(states: seq<State>, events: seq<Event>, i: nat)
    requires IsRun(states, events) && i < |states|
    ensures Inv(states[i])
  {
    if i > 0 {
      hide Inv, Step, Enabled;
      RunKeepsInv(states, events, i - 1);
      assert Takes(states[i - 1], events[i - 1], states[i]);
      StepKeepsInv(states[i - 1], events[i - 1]);
    }
  }

  /** Previews are conserved: what is prepared is handed back exactly once, but for at most one that is still held. */
  lemma PreviewsAreConserved(states: seq<State>, events: seq<Event>, i: nat)
    requires IsRun(states, events) && i < |states|
    ensures multiset(states[i].handed) <= multiset(states[i].prepared)
    ensures |states[i].prepared| == |states[i].handed| + (if states[i].current.Some? then 1 else 0)
    ensures forall p :: multiset(states[i].prepared)[p] ==
              multiset(states[i].handed)[p] + if states[i].current == Some(p) then 1 else 0
  {
    RunKeepsInv(states, events, i);
    var s := states[i];
    assert |multiset(s.prepared)| == |s.prepared| && |multiset(s.handed)| == |s.handed|;
  }

  /** Once the work that dispose queued has settled, nothing is held. */
  lemma NothingHeldAfterDispose(states: seq<State>, events: seq<Event>, i: nat)
    requires IsRun(states, events) && i < |states| && states[i].disposed && states[i].jobs == []
    ensures states[i].current.None? && multiset(states[i].prepared) == multiset(states[i].handed) && states[i].url == ""
  {
    RunKeepsInv(states, events, i);
  }

  /** A url is heard only while its preview is held, undisposed, and no newer selection has been made. */
  lemma HeardUrlIsTheNewest(states: seq<State>, events: seq<Event>, i: nat)
    requires IsRun(states, events) && i < |states| && states[i].url != ""
    ensures states[i].current.Some? && states[i].current.value.url == states[i].url && !states[i].disposed
    ensures states[i].jobs == [] && states[i].running.None?
  {
    RunKeepsInv(states, events, i);
  }

  /** A url is published only by the link of the newest selection. */
  lemma PublishedByTheNewestSelection(states: seq<State>, events: seq<Event>, i: nat)
    requires IsRun(states, events) && i < |events| && states[i + 1].url != "" && states[i + 1].url != states[i].url
    ensures events[i].PrepareDone? && events[i].preview.url == states[i + 1].url
    ensures states[i].running.Some? && states[i].running.value.job.generation == states[i].generation && !states[i].disposed
    ensures states[i + 1].handed == states[i].handed
  {
    assert Takes(states[i], events[i], states[i + 1]);
  }

  // ----- The preview itself -----

  class ImportedMusicPreview {
    var generation: nat
    var disposed: bool
    var current: Option<Preview>
    var jobs: seq<Job>
    var running: Option<Running>
    var url: string
    ghost var prepared: seq<Preview>
    ghost var handed: seq<Preview>
    var failures: nat

    constructor ()
      ensures View() == Initial() && Inv(View())
    {
      generation, disposed, current, jobs, running := 0, false, None, [], None;
      url, prepared, handed, failures := "", [], [], 0;
    }

    ghost function View(): State
      reads this
    {
      State(generation, disposed, current, jobs, running, url, prepared, handed, failures)
    }

    method Choose(path: string)
      requires Inv(View())
      modifies this
      ensures View() == Select(old(View()), path) && Inv(View())
    {
      hide Inv;
      StepKeepsInv(View(), Selected(path));
      if disposed {
        return;
      }
      generation := generation + 1;
      url := "";
      jobs := jobs + [Job(generation, path)];
    }

    method Close()
      requires Inv(View())
      modifies this
      ensures View() == Dispose(old(View())) && Inv(View())
    {
      hide Inv;
      StepKeepsInv(View(), Disposed);
      if disposed {
        return;
      }
      Choose("");
      disposed := true;
    }

    /** ports.release is called with the preview's token. */
    method Return(preview: Preview)
      modifies `handed
      ensures handed == old(handed) + [preview]
    {
      handed := handed + [preview];
    }

    method StartLink()
      requires Inv(View()) && running.None? && jobs != []
      modifies this
      ensures View() == Start(old(View())) && Inv(View())
    {
      hide Inv;
      StepKeepsInv(View(), LinkStarted);
      var previous := current;
      current := None;
      running := Some(Running(jobs[0], Releasing));
      jobs := jobs[1..];
      if previous.Some? {
        Return(previous.value);
      }
    }

    method EndLink(failed: bool)
      requires Inv(View()) && running.Some?
      modifies this
      ensures View() == (if failed then Failed(old(View())) else old(View()).(running := None)) && Inv(View())
    {
      if failed && !disposed && running.value.job.generation == generation {
        failures := failures + 1;
      }
      running := None;
    }

    method AfterRelease()
      requires Inv(View()) && At(View(), Releasing)
      modifies this
      ensures View() == Released(old(View())) && Inv(View())
    {
      hide Inv;
      StepKeepsInv(View(), ReleaseDone);
      var job := running.value.job;
      if disposed || job.generation != generation || job.path == "" {
        running := None;
        return;
      }
      running := Some(Running(job, Preparing));
    }

    method AfterPrepare(preview: Preview)
      requires Inv(View()) && At(View(), Preparing)
      modifies this
      ensures View() == Prepared(old(View()), preview) && Inv(View())
    {
      hide Inv;
      StepKeepsInv(View(), PrepareDone(preview));
      var job := running.value.job;
      prepared := prepared + [preview];
      if disposed || job.generation != generation {
        Return(preview);
        running := Some(Running(job, Discarding));
      } else {
        current := Some(preview);
        url := preview.url;
        running := None;
      }
    }

    /** Every event of a run, handled by the method it reaches. */
    method Handle(e: Event)
      requires Inv(View()) && Enabled(View(), e)
      modifies this
      ensures View() == Step(old(View()), e) && Inv(View())
    {
      hide Inv, Select, Dispose, Start, Prepared, Failed, Released;
      StepKeepsInv(View(), e);
      match e
      case Selected(path) => Choose(path);
      case Disposed => Close();
      case LinkStarted => StartLink();
      case AwaitFailed => EndLink(true);
      case ReleaseDone => AfterRelease();
      case PrepareDone(preview) => AfterPrepare(preview);
      case DiscardDone => EndLink(false);
    }
  }
}
