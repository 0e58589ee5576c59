/** The export queue: any number of callers enqueue, one worker drains a bounded channel. Each
    critical section and each channel operation is one atomic step; runs are arbitrary
    interleavings of them. */
module ExportQueue {
  import opened Domain

  datatype ExportStatus = ExportPending | Running | Done | ExportFailed

  datatype ExportResult = ExportResult(status: ExportStatus, storageId: string, error: string)

  datatype Worker = Idle | Picked(id: string) | Exporting(id: string)

  /** `registered` holds the ids whose caller is between its critical section and its send. The last
      three fields are the history: ids accepted by the channel, ids turned away by it, ids finished. */
  datatype State = State(
    results: map<string, ExportResult>,
    queue: seq<string>,
    worker: Worker,
    registered: set<string>,
    taken: seq<string>,
    turnedAway: set<string>,
    finished: seq<string>)

  const INITIAL := State(map[], [], Idle, {}, [], {}, [])

  const NEW_RESULT := ExportResult(ExportPending, "", "")

  /** Finish carries the outcome of the export: a storage id or an error text. */
  datatype Step =
    | Register(id: string)
    | Send(id: string)
    | Receive
    | Start
    | Finish(outcome: Outcome)

  datatype Outcome = Stored(storageId: string) | Broken(error: string)

  predicate Enabled(s: State, step: Step) {
    match step
    case Register(_) => true
    case Send(id) => id in s.registered
    case Receive => s.worker == Idle && s.queue != []
    case Start => s.worker.Picked?
    case Finish(_) => s.worker.Exporting?
  }

  function Next(s: State, step: Step, capacity: nat): State
    requires Enabled(s, step)
  {
    match step
    case Register(id) =>
      if id in s.results then s
      else s.(results := s.results[id := NEW_RESULT], registered := s.registered + {id})
    case Send(id) =>
      if |s.queue| < capacity then
        s.(queue := s.queue + [id], registered := s.registered - {id}, taken := s.taken + [id])
      else s.(registered := s.registered - {id}, turnedAway := s.turnedAway + {id})
    case Receive => s.(queue := s.queue[1..], worker := Picked(s.queue[0]))
    case Start =>
      if s.worker.id in s.results then
        s.(results := s.results[s.worker.id := s.results[s.worker.id].(status := Running)], worker := Exporting(s.worker.id))
      else s.(worker := Idle)
    case Finish(outcome) =>
      if s.worker.id in s.results then
        s.(results := s.results[s.worker.id := Finished(s.results[s.worker.id], outcome)],
           worker := Idle, finished := s.finished + [s.worker.id])
      else s.(worker := Idle)
  }

  function Finished(r: ExportResult, outcome: Outcome): ExportResult {
    match outcome
    case Stored(storageId) => r.(status := Done, storageId := storageId)
    case Broken(error) => r.(status := ExportFailed, error := error)
  }

  // ----- the invariant ----------------------------------------------------------------------

  /** The ids the worker holds: none or one. */
  function Held(w: Worker): seq<string> {
    match w
    case Idle => []
    case Picked(id) => [id]
    case Exporting(id) => [id]
  }

  ghost predicate Distinct(ids: seq<string>) {
    forall i, j :: 0 <= i < j < |ids| ==> ids[i] != ids[j]
  }

  predicate Terminal(status: ExportStatus) {
    status == Done || status == ExportFailed
  }

  /** Everything accepted is finished, held by the worker or waiting, in this order. */
  ghost predicate Conserved(s: State) {
    s.taken == s.finished + Held(s.worker) + s.queue
  }

  /** The status of an entry says where its id is. */
  ghost predicate StatusTells(s: State) {
    && (forall id :: id in s.finished ==> id in s.results && Terminal(s.results[id].status))
    && (forall id :: id in s.queue ==> id in s.results && s.results[id].status == ExportPending)
    && (s.worker.Picked? ==> s.worker.id in s.results && s.results[s.worker.id].status == ExportPending)
    && (s.worker.Exporting? ==> s.worker.id in s.results && s.results[s.worker.id].status == Running)
    && (forall id :: id in s.registered || id in s.turnedAway ==> id in s.results && s.results[id].status == ExportPending)
    && (forall id :: id in s.results && s.results[id].status == Running ==> s.worker == Exporting(id))
  }

  /** No id is in two places, and every entry is in one. */
  ghost predicate Apart(s: State) {
    && Distinct(s.taken)
    && (forall id :: id in s.taken ==> id !in s.registered && id !in s.turnedAway)
    && s.registered !! s.turnedAway
    && (forall id :: id in s.results ==> id in s.taken || id in s.registered || id in s.turnedAway)
  }

  ghost predicate Invariant(s: State, capacity: nat) {
    Conserved(s) && StatusTells(s) && Apart(s) && |s.queue| <= capacity
  }

  lemma InitialHolds(capacity: nat)
    ensures Invariant(INITIAL, capacity)
  {
  }

  lemma TakenParts(s: State)
    requires Conserved(s)
    ensures forall id :: id in s.taken <==> id in s.finished || id in Held(s.worker) || id in s.queue
  {
    forall id ensures id in s.taken <==> id in s.finished || id in Held(s.worker) || id in s.queue {
      assert s.taken == s.finished + (Held(s.worker) + s.queue);
    }
  }

  /** Distinct ids in the three parts of the accepted sequence do not meet. */
  lemma PartsApart(s: State)
    requires Conserved(s) && Distinct(s.taken)
    ensures forall id :: id in s.queue ==> id !in s.finished && id !in Held(s.worker)
    ensures forall id :: id in Held(s.worker) ==> id !in s.finished
    ensures Distinct(s.queue)
  {
    var f, h := |s.finished|, |Held(s.worker)|;
    forall i | 0 <= i < |s.queue| ensures s.taken[f + h + i] == s.queue[i] {
    }
    forall i | 0 <= i < h ensures s.taken[f + i] == Held(s.worker)[i] {
    }
    forall i | 0 <= i < f ensures s.taken[i] == s.finished[i] {
    }
  }

  lemma RegisterHolds(s: State, id: string, capacity: nat)
    requires Invariant(s, capacity)
    ensures Invariant(Next(s, Register(id), capacity), capacity)
  {
    TakenParts(s);
  }

  lemma SendHolds(s: State, id: string, capacity: nat)
    requires Invariant(s, capacity) && Enabled(s, Send(id))
    ensures Invariant(Next(s, Send(id), capacity), capacity)
  {
    var t := Next(s, Send(id), capacity);
    TakenParts(s);
    if |s.queue| < capacity {
      assert t.taken == t.finished + Held(t.worker) + t.queue;
      forall i, j | 0 <= i < j < |t.taken| ensures t.taken[i] != t.taken[j] {
        assert t.taken[i] in s.taken;
      }
      forall x ensures x in t.queue <==> x in s.queue || x == id {
      }
      forall x ensures x in t.taken <==> x in s.taken || x == id {
      }
    }
  }

  lemma ReceiveHolds(s: State, capacity: nat)
    requires Invariant(s, capacity) && Enabled(s, Receive)
    ensures Invariant(Next(s, Receive, capacity), capacity)
  {
    var t := Next(s, Receive, capacity);
    assert s.queue[0] in s.queue;
    assert s.queue == [s.queue[0]] + s.queue[1..];
    assert Held(t.worker) + t.queue == s.queue;
    assert t.taken == t.finished + (Held(t.worker) + t.queue);
    forall x | x in t.queue ensures x in s.queue {
    }
  }

  lemma StartHolds(s: State, capacity: nat)
    requires Invariant(s, capacity) && Enabled(s, Start)
    ensures Invariant(Next(s, Start, capacity), capacity)
    ensures Next(s, Start, capacity).worker == Exporting(s.worker.id)
  {
    PartsApart(s);
    TakenParts(s);
    assert s.worker.id in Held(s.worker);
  }

  lemma FinishHolds(s: State, outcome: Outcome, capacity: nat)
    requires Invariant(s, capacity) && Enabled(s, Finish(outcome))
    ensures Invariant(Next(s, Finish(outcome), capacity), capacity)
  {
    var t := Next(s, Finish(outcome), capacity);
    PartsApart(s);
    TakenParts(s);
    assert s.worker.id in Held(s.worker);
    assert t.finished == s.finished + Held(s.worker);
    assert t.taken == t.finished + Held(t.worker) + t.queue;
    forall x ensures x in t.finished <==> x in s.finished || x == s.worker.id {
    }
  }

  lemma StepHolds(s: State, step: Step, capacity: nat)
    requires Invariant(s, capacity) && Enabled(s, step)
    ensures Invariant(Next(s, step, capacity), capacity)
  {
    match step {
      case Register(id) => RegisterHolds(s, id, capacity);
      case Send(id) => SendHolds(s, id, capacity);
      case Receive => ReceiveHolds(s, capacity);
      case Start => StartHolds(s, capacity);
      case Finish(outcome) => FinishHolds(s, outcome, capacity);
    }
  }

  // ----- runs -------------------------------------------------------------------------------

  ghost predicate Run(states: seq<State>, steps: seq<Step>, capacity: nat) {
    && |states| == |steps| + 1 && states[0] == INITIAL
    && forall i :: 0 <= i < |steps| ==> Enabled(states[i], steps[i]) && states[i + 1] == Next(states[i], steps[i], capacity)
  }

  /** Every reachable state satisfies the invariant. */
  lemma {:induction false} RunHolds(states: seq<State>, steps: seq<Step>, capacity: nat, n: nat)
    requires Run(states, steps, capacity) && n < |states|
    ensures Invariant(states[n], capacity)
  {
    if n > 0 {
      RunHolds(states, steps, capacity, n - 1);
      StepHolds(states[n - 1], steps[n - 1], capacity);
    }
  }

  /** What a caller can rely on in any reachable state: an id is sent at most once, at most one
      export runs, the worker never meets an unknown id, and exports finish in the order they were
      accepted. */
  lemma RunFacts(states: seq<State>, steps: seq<Step>, capacity: nat, n: nat)
    requires Run(states, steps, capacity) && n < |states|
    ensures var s := states[n];
            && Distinct(s.taken)
            && (s.worker.Picked? ==> s.worker.id in s.results)
            && (forall x, y :: x in s.results && y in s.results && s.results[x].status == Running && s.results[y].status == Running ==> x == y)
            && s.finished <= s.taken
  {
    RunHolds(states, steps, capacity, n);
    var s := states[n];
    assert s.taken == s.finished + (Held(s.worker) + s.queue);
  }

  /** The order of statuses: pending, then running, then one of the two terminal ones for good. */
  predicate Forward(before: ExportStatus, after: ExportStatus) {
    before == after || (before == ExportPending && after == Running) || (before == Running && Terminal(after))
  }

  lemma StepForward(s: State, step: Step, capacity: nat, id: string)
    requires Invariant(s, capacity) && Enabled(s, step) && id in s.results
    ensures var t := Next(s, step, capacity);
            && id in t.results && Forward(s.results[id].status, t.results[id].status)
            && (Terminal(s.results[id].status) ==> t.results[id] == s.results[id])
            && s.taken <= t.taken && s.finished <= t.finished
  {
    TakenParts(s);
  }

  predicate Rank(before: ExportStatus, after: ExportStatus) {
    match before
    case ExportPending => true
    case Running => after == Running || Terminal(after)
    case Done => after == Done
    case ExportFailed => after == ExportFailed
  }

  /** Over a whole run an entry stays, its status only moves forward, and a finished entry is final. */
  lemma {:induction false} RunForward(states: seq<State>, steps: seq<Step>, capacity: nat, m: nat, n: nat, id: string)
    requires Run(states, steps, capacity) && m <= n < |states| && id in states[m].results
    ensures id in states[n].results && Rank(states[m].results[id].status, states[n].results[id].status)
    ensures Terminal(states[m].results[id].status) ==> states[n].results[id] == states[m].results[id]
    decreases n
  {
    if m < n {
      RunForward(states, steps, capacity, m, n - 1, id);
      RunHolds(states, steps, capacity, n - 1);
      StepForward(states[n - 1], steps[n - 1], capacity, id);
    }
  }

  /** An id that found the channel full can neither be sent nor enqueued again: it stays pending. */
  lemma {:induction false} TurnedAwayForGood(states: seq<State>, steps: seq<Step>, capacity: nat, m: nat, n: nat, id: string)
    requires Run(states, steps, capacity) && m <= n < |states| && id in states[m].turnedAway
    ensures id in states[n].turnedAway && id in states[n].results && states[n].results[id].status == ExportPending
    ensures id !in states[n].taken
    decreases n
  {
    RunHolds(states, steps, capacity, n);
    if m < n {
      TurnedAwayForGood(states, steps, capacity, m, n - 1, id);
      RunHolds(states, steps, capacity, n - 1);
    }
  }

  // ----- outcomes ---------------------------------------------------------------------------

  /** Only a finished entry has an outcome, and only the one that goes with its status. */
  ghost predicate OutcomesFit(s: State) {
    forall id :: id in s.results ==>
      && (s.results[id].status != Done ==> s.results[id].storageId == "")
      && (s.results[id].status != ExportFailed ==> s.results[id].error == "")
  }

  lemma StepFits(s: State, step: Step, capacity: nat)
    requires Invariant(s, capacity) && Enabled(s, step) && OutcomesFit(s)
    ensures OutcomesFit(Next(s, step, capacity))
  {
    TakenParts(s);
  }

  /** In every reachable state a pending or running entry has neither a storage id nor an error. */
  lemma {:induction false} RunFits(states: seq<State>, steps: seq<Step>, capacity: nat, n: nat)
    requires Run(states, steps, capacity) && n < |states|
    ensures OutcomesFit(states[n])
  {
    if n > 0 {
      RunFits(states, steps, capacity, n - 1);
      RunHolds(states, steps, capacity, n - 1);
      StepFits(states[n - 1], steps[n - 1], capacity);
    }
  }

  /** The entry that an outcome comes to. */
  lemma FinishStep(s: State, outcome: Outcome, capacity: nat)
    requires Invariant(s, capacity) && OutcomesFit(s) && Enabled(s, Finish(outcome))
    ensures var t, id := Next(s, Finish(outcome), capacity), s.worker.id;
            && id in t.results && Terminal(t.results[id].status)
            && (outcome.Stored? ==> t.results[id] == ExportResult(Done, outcome.storageId, ""))
            && (outcome.Broken? ==> t.results[id] == ExportResult(ExportFailed, "", outcome.error))
  {
  }

  /** From the end of an export on, its entry is done with the storage id that was stored, or failed
      with the error, for good. */
  lemma FinishTells(states: seq<State>, steps: seq<Step>, capacity: nat, k: nat, n: nat)
    requires Run(states, steps, capacity) && k < n < |states| && steps[k].Finish?
    ensures states[k].worker.Exporting? && states[k].worker.id in states[n].results
    ensures var entry := states[n].results[states[k].worker.id];
            match steps[k].outcome
            case Stored(storageId) => entry == ExportResult(Done, storageId, "")
            case Broken(error) => entry == ExportResult(ExportFailed, "", error)
  {
    RunHolds(states, steps, capacity, k);
    RunFits(states, steps, capacity, k);
    FinishStep(states[k], steps[k].outcome, capacity);
    RunForward(states, steps, capacity, k + 1, n, states[k].worker.id);
  }

  /** Every finished id was finished by one such step. */
  lemma {:induction false} FinishedBy(states: seq<State>, steps: seq<Step>, capacity: nat, n: nat, id: string) returns (k: nat)
    requires Run(states, steps, capacity) && n < |states| && id in states[n].finished
    ensures k < n && steps[k].Finish? && states[k].worker == Exporting(id)
  {
    if id in states[n - 1].finished {
      k := FinishedBy(states, steps, capacity, n - 1, id);
    } else {
      k := n - 1;
    }
  }

  // ----- draining ---------------------------------------------------------------------------

  /** Steps the worker has left with what is in the channel. */
  function Work(s: State): nat {
    3 * |s.queue| + match s.worker case Idle => 0 case Picked(_) => 2 case Exporting(_) => 1
  }

  predicate IsWorkerStep(step: Step) {
    step.Receive? || step.Start? || step.Finish?
  }

  /** While anything is left the worker can step, each of its steps leaves less, and when nothing is
      left every accepted export is finished. */
  lemma DrainStep(s: State, step: Step, capacity: nat)
    requires Invariant(s, capacity)
    ensures Enabled(s, step) && IsWorkerStep(step) ==> Work(Next(s, step, capacity)) < Work(s)
    ensures Work(s) > 0 ==> exists d: Step :: IsWorkerStep(d) && Enabled(s, d)
    ensures Work(s) == 0 ==> s.finished == s.taken && forall id :: id in s.taken ==> id in s.results && Terminal(s.results[id].status)
  {
    if Work(s) > 0 {
      match s.worker {
        case Idle => assert Enabled(s, Receive);
        case Picked(_) => assert Enabled(s, Start);
        case Exporting(_) => assert Enabled(s, Finish(Stored("")));
      }
    } else {
      assert s.taken == s.finished + [] + [];
    }
  }

  // ----- the manager ------------------------------------------------------------------------

  /** The entry of an export that has come to an outcome. */
  function Entry(outcome: Outcome): ExportResult {
    match outcome
    case Stored(storageId) => ExportResult(Done, storageId, "")
    case Broken(error) => ExportResult(ExportFailed, "", error)
  }

  /** Three steps of the worker, from the channel to an outcome. */
  lemma DrainedState(s: State, outcome: Outcome, capacity: nat)
    requires Invariant(s, capacity) && OutcomesFit(s) && s.worker == Idle && s.queue != []
    ensures var picked := Next(s, Receive, capacity);
            && Enabled(picked, Start)
            && Enabled(Next(picked, Start, capacity), Finish(outcome))
            && var t := Next(Next(picked, Start, capacity), Finish(outcome), capacity);
               && t.queue == s.queue[1..] && t.taken == s.taken && t.worker == Idle
               && t.results == s.results[s.queue[0] := Entry(outcome)]
  {
    assert s.queue[0] in s.queue;
  }

  class Manager {
    const capacity: nat
    var results: map<string, ExportResult>
    var queue: seq<string>
    ghost var worker: Worker
    ghost var registered: set<string>
    ghost var taken: seq<string>
    ghost var turnedAway: set<string>
    ghost var finished: seq<string>

    constructor (capacity: nat)
      ensures this.capacity == capacity && View() == INITIAL && Valid()
    {
      this.capacity := capacity;
      results, queue := map[], [];
      worker, registered, taken, turnedAway, finished := Idle, {}, [], {}, [];
      new;
      InitialHolds(capacity);
    }

    ghost function View(): State
      reads this
    {
      State(results, queue, worker, registered, taken, turnedAway, finished)
    }

    ghost predicate Valid()
      reads this
    {
      Invariant(View(), capacity) && OutcomesFit(View())
    }

    /** First half of Enqueue: the critical section. */
    method RegisterEntry(id: string) returns (added: bool)
      requires Valid()
      modifies this
      ensures Valid() && View() == Next(old(View()), Register(id), capacity)
      ensures added <==> id !in old(results)
      ensures added ==> id in registered
    {
      RegisterHolds(View(), id, capacity);
      StepFits(View(), Register(id), capacity);
      added := id !in results;
      if added {
        results := results[id := NEW_RESULT];
        registered := registered + {id};
      }
    }

    /** Second half of Enqueue: the send that does not wait. Other steps may come in between. */
    method SendEntry(id: string) returns (ok: bool)
      requires Valid() && id in registered
      modifies this
      ensures Valid() && View() == Next(old(View()), Send(id), capacity)
      ensures ok <==> |old(queue)| < capacity
    {
      SendHolds(View(), id, capacity);
      StepFits(View(), Send(id), capacity);
      ok := |queue| < capacity;
      if ok {
        queue := queue + [id];
        taken := taken + [id];
      } else {
        turnedAway := turnedAway + {id};
      }
      registered := registered - {id};
    }

    method Get(id: string) returns (r: Option<ExportResult>)
      ensures r == if id in results then Some(results[id]) else None
    {
      r := if id in results then Some(results[id]) else None;
    }

    /** The worker's receive from the channel. */
    method ReceiveEntry() returns (id: string)
      requires Valid() && worker == Idle && queue != []
      modifies this
      ensures Valid() && View() == Next(old(View()), Receive, capacity) && worker == Picked(id)
      ensures |queue| < |old(queue)| && taken == old(taken)
    {
      ReceiveHolds(View(), capacity);
      StepFits(View(), Receive, capacity);
      id := queue[0];
      queue := queue[1..];
      worker := Picked(id);
    }

    /** The worker's first critical section: the entry is there and becomes running. */
    method StartEntry(id: string)
      requires Valid() && worker == Picked(id)
      modifies this`results, this`worker
      ensures Valid() && View() == Next(old(View()), Start, capacity) && worker == Exporting(id)
    {
      StartHolds(View(), capacity);
      StepFits(View(), Start, capacity);
      results := results[id := results[id].(status := Running)];
      worker := Exporting(id);
    }

    /** The worker's second critical section. */
    method FinishEntry(id: string, outcome: Outcome)
      requires Valid() && worker == Exporting(id)
      modifies this`results, this`worker, this`finished
      ensures Valid() && View() == Next(old(View()), Finish(outcome), capacity) && worker == Idle
      ensures outcome.Stored? ==> results == old(results)[id := ExportResult(Done, outcome.storageId, "")]
      ensures outcome.Broken? ==> results == old(results)[id := ExportResult(ExportFailed, "", outcome.error)]
    {
      FinishHolds(View(), outcome, capacity);
      StepFits(View(), Finish(outcome), capacity);
      results := results[id := Finished(results[id], outcome)];
      worker := Idle;
      finished := finished + [id];
    }

    /** One export from the channel to its outcome. */
    method DrainOne(generate: string -> Outcome)
      requires Valid() && worker == Idle && queue != []
      modifies this
      ensures Valid() && worker == Idle && queue == old(queue)[1..] && taken == old(taken)
      ensures results == old(results)[old(queue)[0] := Entry(generate(old(queue)[0]))]
    {
      DrainedState(View(), generate(queue[0]), capacity);
      var id := ReceiveEntry();
      StartEntry(id);
      FinishEntry(id, generate(id));
    }

    /** The worker with no caller around: it empties the channel and finishes every accepted export
        in order, as done or failed just as `generate`, which stands for generating and saving an id,
        comes out; other entries stay. */
    method Drain(generate: string -> Outcome)
      requires Valid() && worker == Idle
      modifies this
      ensures Valid() && worker == Idle && queue == []
      ensures taken == old(taken) && finished == taken
      ensures forall id :: id in taken ==> id in results && Terminal(results[id].status)
      ensures forall id :: id in old(queue) && generate(id).Stored? ==>
                id in results && results[id] == ExportResult(Done, generate(id).storageId, "")
      ensures forall id :: id in old(queue) && generate(id).Broken? ==>
                id in results && results[id] == ExportResult(ExportFailed, "", generate(id).error)
      ensures forall id :: id in old(results) && id !in old(queue) ==> id in results && results[id] == old(results)[id]
    {
      ghost var done := 0;
      ghost var waiting, before := queue, results;
      PartsApart(View());
      while queue != []
        invariant Valid() && worker == Idle && taken == old(taken)
        invariant done <= |waiting| && queue == waiting[done..]
        invariant Drained(results, before, waiting, done, generate)
        decreases |queue|
      {
        DrainMore(results, before, waiting, done, generate);
        DrainOne(generate);
        done := done + 1;
      }
      assert finished + Held(worker) + queue == finished;
      assert waiting[..done] == waiting;
    }
  }

  /** The entries after the first n waiting exports. */
  ghost predicate Drained(results: map<string, ExportResult>, before: map<string, ExportResult>, waiting: seq<string>, n: nat, generate: string -> Outcome)
    requires n <= |waiting|
  {
    && (forall i :: 0 <= i < n ==> waiting[i] in results && results[waiting[i]] == Entry(generate(waiting[i])))
    && (forall id :: id in before && id !in waiting[..n] ==> id in results && results[id] == before[id])
  }

  lemma DrainMore(results: map<string, ExportResult>, before: map<string, ExportResult>, waiting: seq<string>, n: nat, generate: string -> Outcome)
    requires n < |waiting| && Distinct(waiting) && Drained(results, before, waiting, n, generate)
    ensures Drained(results[waiting[n] := Entry(generate(waiting[n]))], before, waiting, n + 1, generate)
  {
    assert waiting[..n + 1] == waiting[..n] + [waiting[n]];
  }
}
