/**
 The command pipeline (crates/infra/src/command_dispatcher.rs): load, rehydrate, decide, append, publish.

 `Dispatch` is the pipeline run without interference; `Step` and `Run` interleave any number of
 pipelines, each store and bus access being one step.
 */
module Dispatcher {
  import opened Core
  import opened EventStore
  import opened Sorting

  datatype DispatchError =
    | IsolationError
    | DomainFailure(cause: DomainError)
    | Deserialize
    | StoreFailure(fault: StoreError)
    | PublishFailure

  /**
   The `Aggregate` contract as a record. `evolve` is `None` when the stored payload does not
   deserialize into the aggregate's event type; `targets` says that a command names the stream
   it is dispatched to.
   */
  datatype Domain<!A, !C, !E> = Domain(
    kind: C -> AggregateType,
    make: (AggregateType, StreamKey) -> A,
    evolve: (A, E) -> Option<A>,
    decide: (A, C) -> Result<seq<E>, DomainError>,
    occurredAt: E -> Time,
    targets: (C, StreamKey) -> bool)

  function Payloads<E>(stream: seq<StoredEvent<E>>): seq<E> {
    seq(|stream|, i requires 0 <= i < |stream| => stream[i].payload)
  }

  /** The aggregate after a history, or `None` if some payload is foreign to it. */
  function Evolved<A, C, E>(dom: Domain<A, C, E>, a: A, history: seq<E>): Option<A> {
    if history == [] then Some(a)
    else
      var last := |history| - 1;
      match Evolved(dom, a, history[..last])
      case None => None
      case Some(b) => dom.evolve(b, history[last])
  }

  function EventFault<E>(key: StreamKey, last: nat, e: StoredEvent<E>): Option<DispatchError> {
    if e.key.tenant != key.tenant || e.key.aggregate != key.aggregate then Some(IsolationError)
    else if e.seqNo == 0 || e.seqNo <= last then Some(StoreFailure(InvalidAppend))
    else None
  }

  /** The first fault of a loaded stream, if any. */
  function StreamFault<E>(key: StreamKey, stream: seq<StoredEvent<E>>): Option<DispatchError> {
    if stream == [] then None
    else
      var n := |stream| - 1;
      var earlier := StreamFault(key, stream[..n]);
      if earlier.Some? then earlier else EventFault(key, CurrentVersion(stream[..n]), stream[n])
  }

  ghost predicate Fits<E>(key: StreamKey, stream: seq<StoredEvent<E>>, i: nat)
    requires i < |stream|
  {
    stream[i].key == key && stream[i].seqNo > (if i == 0 then 0 else stream[i - 1].seqNo)
  }

  /** A stream passes validation exactly when it holds only its own events, strictly increasing from above zero. */
  lemma {:induction false} FaultFreeIsSorted<E>(key: StreamKey, stream: seq<StoredEvent<E>>)
    ensures StreamFault(key, stream).None? <==> forall i | 0 <= i < |stream| :: Fits(key, stream, i)
    ensures StreamFault(key, stream).None? ==>
              forall i, j | 0 <= i < j < |stream| :: stream[i].seqNo < stream[j].seqNo
  {
    if stream != [] {
      var n := |stream| - 1;
      var init := stream[..n];
      FaultFreeIsSorted(key, init);
      assert forall i | 0 <= i < n :: Fits(key, init, i) <==> Fits(key, stream, i);
      assert StreamFault(key, stream).None? <==> StreamFault(key, init).None? && Fits(key, stream, n);
      if StreamFault(key, stream).None? {
        forall i, j | 0 <= i < j < |stream|
          ensures stream[i].seqNo < stream[j].seqNo
        {
          if j == n {
            assert Fits(key, stream, n);
            assert i == n - 1 || init[i].seqNo < init[n - 1].seqNo;
          } else {
            assert init[i].seqNo < init[j].seqNo;
          }
        }
      }
    }
  }

  /** The fault reported is that of the first misfit: a foreign event breaks isolation, any other has a bad number. */
  lemma {:induction false} FaultIsFirst<E>(key: StreamKey, stream: seq<StoredEvent<E>>) returns (i: nat)
    requires StreamFault(key, stream).Some?
    ensures i < |stream| && !Fits(key, stream, i) && forall j | 0 <= j < i :: Fits(key, stream, j)
    ensures StreamFault(key, stream).value == if stream[i].key != key then IsolationError else StoreFailure(InvalidAppend)
  {
    var n := |stream| - 1;
    var init := stream[..n];
    assert forall j | 0 <= j < n :: Fits(key, init, j) <==> Fits(key, stream, j);
    if StreamFault(key, init).Some? {
      i := FaultIsFirst(key, init);
    } else {
      FaultFreeIsSorted(key, init);
      i := n;
    }
  }

  predicate BySequence<E>(a: StoredEvent<E>, b: StoredEvent<E>) {
    a.seqNo <= b.seqNo
  }

  /** The command's events on a given history. */
  function Decision<A, C, E>(dom: Domain<A, C, E>, key: StreamKey, cmd: C, history: seq<StoredEvent<E>>)
    : Result<seq<E>, DispatchError>
  {
    match StreamFault(key, history)
    case Some(fault) => Err(fault)
    case None =>
      match Evolved(dom, dom.make(dom.kind(cmd), key), Payloads(history))
      case None => Err(Deserialize)
      case Some(a) =>
        match dom.decide(a, cmd)
        case Err(cause) => Err(DomainFailure(cause))
        case Ok(events) => Ok(events)
  }

  function Uncommitted<A, C, E>(dom: Domain<A, C, E>, key: StreamKey, cmd: C, batch: seq<E>)
    : seq<UncommittedEvent<E>>
  {
    seq(|batch|, i requires 0 <= i < |batch| =>
      UncommittedEvent(key, dom.kind(cmd), dom.occurredAt(batch[i]), batch[i]))
  }

  function Stored<A, C, E>(dom: Domain<A, C, E>, key: StreamKey, cmd: C, batch: seq<E>, version: nat)
    : seq<StoredEvent<E>>
  {
    Sequenced(Uncommitted(dom, key, cmd, batch), version)
  }

  /** What one undisturbed dispatch commits on a stream. */
  function AtomicOutcome<A, C, E>(dom: Domain<A, C, E>, key: StreamKey, cmd: C, stream: seq<StoredEvent<E>>)
    : Result<seq<StoredEvent<E>>, DispatchError>
  {
    match Decision(dom, key, cmd, stream)
    case Err(e) => Err(e)
    case Ok(batch) =>
      if batch == [] then Ok([])
      else
        match Verdict(stream, dom.kind(cmd), Exact(CurrentVersion(stream)))
        case Some(fault) => Err(StoreFailure(fault))
        case None => Ok(Stored(dom, key, cmd, batch, CurrentVersion(stream)))
  }

  // ---------------------------------------------------------------------------
  // The pipeline, executed step by step
  // ---------------------------------------------------------------------------

  method ValidateLoadedStream<E>(key: StreamKey, stream: seq<StoredEvent<E>>) returns (fault: Option<DispatchError>)
    ensures fault == StreamFault(key, stream)
  {
    var last := 0;
    for i := 0 to |stream|
      invariant StreamFault(key, stream[..i]).None?
      invariant last == CurrentVersion(stream[..i])
    {
      assert stream[..i + 1][..i] == stream[..i];
      var e := stream[i];
      fault := EventFault(key, last, e);
      if fault.Some? {
        FirstFaultStays(key, stream, i + 1);
        return;
      }
      last := e.seqNo;
    }
    assert stream[..|stream|] == stream;
    fault := None;
  }

  lemma {:induction false} FirstFaultStays<E>(key: StreamKey, stream: seq<StoredEvent<E>>, i: nat)
    requires i <= |stream|
    requires StreamFault(key, stream[..i]).Some?
    ensures StreamFault(key, stream) == StreamFault(key, stream[..i])
  {
    if i == |stream| {
      assert stream[..i] == stream;
    } else {
      var n := |stream| - 1;
      assert stream[..n][..i] == stream[..i];
      FirstFaultStays(key, stream[..n], i);
    }
  }

  lemma {:induction false} EvolvedFails<A, C, E>(dom: Domain<A, C, E>, a: A, history: seq<E>, i: nat)
    requires i <= |history|
    requires Evolved(dom, a, history[..i]).None?
    ensures Evolved(dom, a, history).None?
  {
    if i == |history| {
      assert history[..i] == history;
    } else {
      var n := |history| - 1;
      assert history[..n][..i] == history[..i];
      EvolvedFails(dom, a, history[..n], i);
    }
  }

  lemma ValidStreamIsSorted<E>(key: StreamKey, stream: seq<StoredEvent<E>>)
    requires StreamFault(key, stream).None?
    ensures SortBy(stream, BySequence) == stream
  {
    FaultFreeIsSorted(key, stream);
    SortByIdentity(stream, BySequence);
  }

  /** The sort is a no-op on validated streams, so the result is the plain fold. */
  method ApplyHistory<A(!new), C(!new), E(!new)>(dom: Domain<A, C, E>, start: A, key: StreamKey, history: seq<StoredEvent<E>>)
    returns (r: Option<A>)
    requires StreamFault(key, history).None?
    ensures r == Evolved(dom, start, Payloads(history))
  {
    var sorted := SortBy(history, BySequence);
    ValidStreamIsSorted(key, history);
    var a := start;
    ghost var payloads := Payloads(history);
    for i := 0 to |sorted|
      invariant Evolved(dom, start, payloads[..i]) == Some(a)
    {
      assert payloads[..i + 1][..i] == payloads[..i];
      var next := dom.evolve(a, sorted[i].payload);
      if next.None? {
        EvolvedFails(dom, start, payloads, i + 1);
        return None;
      }
      a := next.value;
    }
    assert payloads[..|sorted|] == payloads;
    return Some(a);
  }

  class EventBus<E> {
    var published: seq<StoredEvent<E>>

    constructor ()
      ensures published == []
    {
      published := [];
    }

    method Publish(e: StoredEvent<E>)
      modifies this
      ensures published == old(published) + [e]
    {
      published := published + [e];
    }

    /** Publishes in order until the bus, which takes `accepts` more, fails. */
    method PublishAll(events: seq<StoredEvent<E>>, accepts: nat) returns (ok: bool)
      modifies this
      ensures ok <==> accepts >= |events|
      ensures published == old(published) + if ok then events else events[..accepts]
    {
      for i := 0 to |events|
        invariant i <= accepts
        invariant published == old(published) + events[..i]
      {
        if i == accepts {
          return false;
        }
        Publish(events[i]);
        assert events[..i] + [events[i]] == events[..i + 1];
      }
      assert events[..|events|] == events;
      return true;
    }
  }

  /**
   One pipeline without interference. `busAccepts` is how many publications the bus takes
   before it fails: the events are stored all the same.
   */
  method Dispatch<A(!new), C(!new), E(!new)>(
    dom: Domain<A, C, E>, store: InMemoryEventStore<E>, bus: EventBus<E>, key: StreamKey, cmd: C, busAccepts: nat)
    returns (r: Result<seq<StoredEvent<E>>, DispatchError>)
    modifies store, bus
    ensures var outcome := AtomicOutcome(dom, key, cmd, StreamOf(old(store.streams), key));
            match outcome
            case Err(e) =>
              r == Err(e) && SameStreams(store.streams, old(store.streams)) && bus.published == old(bus.published)
            case Ok(committed) =>
              && Extends(old(store.streams), store.streams, key, committed)
              && (busAccepts >= |committed| ==> r == Ok(committed) && bus.published == old(bus.published) + committed)
              && (busAccepts < |committed| ==>
                    r == Err(PublishFailure) && bus.published == old(bus.published) + committed[..busAccepts])
    ensures old(Numbered(store.streams)) ==> Numbered(store.streams)
  {
    var history := store.LoadStream(key);
    var fault := ValidateLoadedStream(key, history);
    if fault.Some? {
      return Err(fault.value);
    }
    var expected := Exact(CurrentVersion(history));
    var aggregate := ApplyHistory(dom, dom.make(dom.kind(cmd), key), key, history);
    if aggregate.None? {
      return Err(Deserialize);
    }
    var decided := dom.decide(aggregate.value, cmd);
    if decided.Err? {
      return Err(DomainFailure(decided.error));
    }
    if decided.value == [] {
      return Ok([]);
    }
    var uncommitted := Uncommitted(dom, key, cmd, decided.value);
    assert SingleStream(uncommitted);
    var appended := store.Append(uncommitted, expected);
    if appended.Err? {
      return Err(StoreFailure(appended.error));
    }
    var committed := appended.value;
    var published := bus.PublishAll(committed, busAccepts);
    if !published {
      return Err(PublishFailure);
    }
    return Ok(committed);
  }

  // ---------------------------------------------------------------------------
  // Many pipelines interleaved
  // ---------------------------------------------------------------------------

  type ClientId = nat

  datatype Phase<+C, +E> =
    | Idle
    | Loaded(key: StreamKey, cmd: C, history: seq<StoredEvent<E>>)
    | Decided(key: StreamKey, cmd: C, version: nat, batch: seq<E>)
    | Publishing(rest: seq<StoredEvent<E>>)

  /** A commit: which command extended which stream, from which version, with what. */
  datatype Commit<+C, +E> = Commit(key: StreamKey, cmd: C, version: nat, stored: seq<StoredEvent<E>>)

  datatype System<C, E> = System(
    streams: Streams<E>,
    clients: map<ClientId, Phase<C, E>>,
    bus: seq<StoredEvent<E>>,
    commits: seq<Commit<C, E>>)

  datatype Step<+C> =
    | Load(client: ClientId, key: StreamKey, cmd: C)
    | Decide(client: ClientId)
    | Append(client: ClientId)
    | Publish(client: ClientId)
    | BusDown(client: ClientId)

  function PhaseOf<C, E>(s: System<C, E>, client: ClientId): Phase<C, E> {
    if client in s.clients then s.clients[client] else Idle
  }

  function Initial<C, E>(): System<C, E> {
    System(map[], map[], [], [])
  }

  /** One step of one client; a step the client is not ready for does nothing. */
  function Next<A, C, E>(dom: Domain<A, C, E>, s: System<C, E>, step: Step<C>): System<C, E> {
    var phase := PhaseOf(s, step.client);
    match step
    case Load(client, key, cmd) =>
      if phase.Idle? && dom.targets(cmd, key)
      then s.(clients := s.clients[client := Loaded(key, cmd, StreamOf(s.streams, key))])
      else s
    case Decide(client) =>
      if !phase.Loaded? then s
      else
        var decision := Decision(dom, phase.key, phase.cmd, phase.history);
        if decision.Err? || decision.value == [] then s.(clients := s.clients[client := Idle])
        else s.(clients := s.clients[client := Decided(phase.key, phase.cmd, CurrentVersion(phase.history), decision.value)])
    case Append(client) =>
      if !phase.Decided? then s
      else
        var stream := StreamOf(s.streams, phase.key);
        if Verdict(stream, dom.kind(phase.cmd), Exact(phase.version)).Some?
        then s.(clients := s.clients[client := Idle], streams := s.streams[phase.key := stream])
        else
          var stored := Stored(dom, phase.key, phase.cmd, phase.batch, CurrentVersion(stream));
          s.(streams := s.streams[phase.key := stream + stored],
             clients := s.clients[client := Publishing(stored)],
             commits := s.commits + [Commit(phase.key, phase.cmd, phase.version, stored)])
    case Publish(client) =>
      if !phase.Publishing? then s
      else if phase.rest == [] then s.(clients := s.clients[client := Idle])
      else s.(bus := s.bus + [phase.rest[0]], clients := s.clients[client := Publishing(phase.rest[1..])])
    case BusDown(client) =>
      if !phase.Publishing? then s else s.(clients := s.clients[client := Idle])
  }

  function Run<A, C, E>(dom: Domain<A, C, E>, steps: seq<Step<C>>): System<C, E> {
    if steps == [] then Initial()
    else Next(dom, Run(dom, steps[..|steps| - 1]), steps[|steps| - 1])
  }

  /** The commands of a commit log, executed one after the other by undisturbed dispatches. */
  function Serial<A, C, E>(dom: Domain<A, C, E>, commits: seq<Commit<C, E>>): Streams<E> {
    if commits == [] then map[]
    else
      var n := |commits| - 1;
      var before := Serial(dom, commits[..n]);
      var stream := StreamOf(before, commits[n].key);
      match AtomicOutcome(dom, commits[n].key, commits[n].cmd, stream)
      case Err(_) => before
      case Ok(stored) => before[commits[n].key := stream + stored]
  }

  /** The interleaved run did exactly what the undisturbed dispatches do, commit by commit. */
  ghost predicate Serializable<A(!new), C(!new), E(!new)>(dom: Domain<A, C, E>, commits: seq<Commit<C, E>>, streams: Streams<E>) {
    && SameStreams(streams, Serial(dom, commits))
    && forall i | 0 <= i < |commits| ::
         var before := StreamOf(Serial(dom, commits[..i]), commits[i].key);
         && commits[i].version == |before|
         && commits[i].stored != []
         && AtomicOutcome(dom, commits[i].key, commits[i].cmd, before) == Ok(commits[i].stored)
  }

  ghost predicate PhaseSound<A(!new), C(!new), E(!new)>(dom: Domain<A, C, E>, streams: Streams<E>, phase: Phase<C, E>) {
    match phase
    case Idle => true
    case Loaded(key, cmd, history) => dom.targets(cmd, key) && history <= StreamOf(streams, key)
    case Decided(key, cmd, version, batch) =>
      && dom.targets(cmd, key)
      && batch != []
      && version <= |StreamOf(streams, key)|
      && Decision(dom, key, cmd, StreamOf(streams, key)[..version]) == Ok(batch)
    case Publishing(rest) => forall e | e in rest :: InStore(streams, e)
  }

  /** The history of a stream, cut into batches each decided on what came before it. */
  ghost predicate AcceptedHistory<A(!new), C(!new), E(!new)>(dom: Domain<A, C, E>, key: StreamKey, kind: AggregateType, history: seq<E>)
    decreases |history|
  {
    history == [] ||
    exists n: nat, cmd: C, a: A ::
      && n < |history|
      && dom.kind(cmd) == kind && dom.targets(cmd, key)
      && AcceptedHistory(dom, key, kind, history[..n])
      && Evolved(dom, dom.make(kind, key), history[..n]) == Some(a)
      && dom.decide(a, cmd) == Ok(history[n..])
  }

  ghost predicate StreamAccepted<A(!new), C(!new), E(!new)>(dom: Domain<A, C, E>, streams: Streams<E>, key: StreamKey) {
    var stream := StreamOf(streams, key);
    stream == [] || AcceptedHistory(dom, key, stream[0].kind, Payloads(stream))
  }

  ghost predicate CommitsOrdered<C(!new), E(!new)>(commits: seq<Commit<C, E>>, streams: Streams<E>) {
    && (forall i | 0 <= i < |commits| ::
          commits[i].version + |commits[i].stored| <= |StreamOf(streams, commits[i].key)|)
    && (forall i, j | 0 <= i < j < |commits| && commits[i].key == commits[j].key ::
          commits[i].version + |commits[i].stored| <= commits[j].version)
  }

  ghost predicate LogInvariant<A(!new), C(!new), E(!new)>(dom: Domain<A, C, E>, streams: Streams<E>, commits: seq<Commit<C, E>>) {
    && Numbered(streams)
    && (forall key :: StreamAccepted(dom, streams, key))
    && CommitsOrdered(commits, streams)
    && Serializable(dom, commits, streams)
  }

  ghost predicate ClientsSound<A(!new), C(!new), E(!new)>(dom: Domain<A, C, E>, streams: Streams<E>, clients: map<ClientId, Phase<C, E>>) {
    forall client | client in clients :: PhaseSound(dom, streams, clients[client])
  }

  ghost predicate Invariant<A(!new), C(!new), E(!new)>(dom: Domain<A, C, E>, s: System<C, E>) {
    && LogInvariant(dom, s.streams, s.commits)
    && ClientsSound(dom, s.streams, s.clients)
    && (forall e | e in s.bus :: InStore(s.streams, e))
  }

  /** On gap-free streams that only grow, the version determines the history. */
  lemma VersionDeterminesHistory<E>(streams: Streams<E>, key: StreamKey, history: seq<StoredEvent<E>>, later: seq<StoredEvent<E>>)
    requires Numbered(streams)
    requires history <= StreamOf(streams, key) && later <= StreamOf(streams, key)
    requires CurrentVersion(history) == CurrentVersion(later)
    ensures history == later
    ensures CurrentVersion(history) == |history|
  {
  }

  lemma SoundAfterGrowth<A(!new), C(!new), E(!new)>(
    dom: Domain<A, C, E>, before: Streams<E>, after: Streams<E>, key: StreamKey, batch: seq<StoredEvent<E>>, phase: Phase<C, E>)
    requires Extends(before, after, key, batch)
    requires PhaseSound(dom, before, phase)
    ensures PhaseSound(dom, after, phase)
  {
    match phase
    case Idle =>
    case Loaded(k, cmd, history) =>
      assert StreamOf(before, k) <= StreamOf(after, k);
    case Decided(k, cmd, version, b) =>
      assert StreamOf(after, k)[..version] == StreamOf(before, k)[..version];
    case Publishing(rest) =>
  }

  /** The committed batch was decided on exactly the stream it was appended to. */
  lemma CommitIsAtomic<A(!new), C(!new), E(!new)>(dom: Domain<A, C, E>, streams: Streams<E>, phase: Phase<C, E>)
    requires Numbered(streams)
    requires phase.Decided? && PhaseSound(dom, streams, phase)
    requires Verdict(StreamOf(streams, phase.key), dom.kind(phase.cmd), Exact(phase.version)).None?
    ensures phase.version == |StreamOf(streams, phase.key)|
    ensures AtomicOutcome(dom, phase.key, phase.cmd, StreamOf(streams, phase.key))
              == Ok(Stored(dom, phase.key, phase.cmd, phase.batch, |StreamOf(streams, phase.key)|))
    ensures Stored(dom, phase.key, phase.cmd, phase.batch, |StreamOf(streams, phase.key)|) != []
  {
    var stream := StreamOf(streams, phase.key);
    NumberedVersion(streams, phase.key);
    assert stream[..phase.version] == stream;
  }

  lemma CommitExtendsHistory<A(!new), C(!new), E(!new)>(dom: Domain<A, C, E>, streams: Streams<E>, after: Streams<E>, phase: Phase<C, E>)
    requires Numbered(streams)
    requires phase.Decided? && PhaseSound(dom, streams, phase)
    requires Verdict(StreamOf(streams, phase.key), dom.kind(phase.cmd), Exact(phase.version)).None?
    requires StreamAccepted(dom, streams, phase.key)
    requires Extends(streams, after, phase.key,
                     Stored(dom, phase.key, phase.cmd, phase.batch, |StreamOf(streams, phase.key)|))
    ensures StreamAccepted(dom, after, phase.key)
  {
    var stream := StreamOf(streams, phase.key);
    var longer := StreamOf(after, phase.key);
    var kind := dom.kind(phase.cmd);
    var n := |stream|;
    CommitIsAtomic(dom, streams, phase);
    assert stream[..phase.version] == stream;
    var history := Payloads(longer);
    assert history[..n] == Payloads(stream);
    assert history[n..] == phase.batch;
    var a := Evolved(dom, dom.make(kind, phase.key), history[..n]).value;
    assert AcceptedHistory(dom, phase.key, kind, history[..n]);
    assert dom.decide(a, phase.cmd) == Ok(history[n..]);
    assert longer[0].kind == kind;
  }

  lemma SerialExtends<A(!new), C(!new), E(!new)>(dom: Domain<A, C, E>, s: System<C, E>, c: Commit<C, E>, after: Streams<E>)
    requires Serializable(dom, s.commits, s.streams)
    requires c.version == |StreamOf(s.streams, c.key)| && c.stored != []
    requires AtomicOutcome(dom, c.key, c.cmd, StreamOf(s.streams, c.key)) == Ok(c.stored)
    requires Extends(s.streams, after, c.key, c.stored)
    ensures Serializable(dom, s.commits + [c], after)
  {
    hide AtomicOutcome;
    var commits := s.commits + [c];
    var n := |s.commits|;
    assert commits[..n] == s.commits;
    forall i | 0 <= i < |commits|
      ensures var before := StreamOf(Serial(dom, commits[..i]), commits[i].key);
              && commits[i].version == |before|
              && commits[i].stored != []
              && AtomicOutcome(dom, commits[i].key, commits[i].cmd, before) == Ok(commits[i].stored)
    {
      if i < n {
        assert commits[..i] == s.commits[..i];
      }
    }
    forall key
      ensures StreamOf(after, key) == StreamOf(Serial(dom, commits), key)
    {
      assert StreamOf(s.streams, key) == StreamOf(Serial(dom, s.commits), key);
    }
  }

  /** A refused append changes no stream. */
  lemma RefusalKeepsLog<A(!new), C(!new), E(!new)>(dom: Domain<A, C, E>, streams: Streams<E>, commits: seq<Commit<C, E>>, key: StreamKey)
    requires LogInvariant(dom, streams, commits)
    ensures LogInvariant(dom, streams[key := StreamOf(streams, key)], commits)
  {
    hide AcceptedHistory, Serial, AtomicOutcome;
    var after := streams[key := StreamOf(streams, key)];
    assert SameStreams(after, streams);
    forall k
      ensures StreamAccepted(dom, after, k)
    {
      assert StreamAccepted(dom, streams, k);
    }
    assert SameStreams(after, Serial(dom, commits));
  }

  lemma CommitKeepsLog<A(!new), C(!new), E(!new)>(dom: Domain<A, C, E>, s: System<C, E>, phase: Phase<C, E>, after: Streams<E>)
    requires LogInvariant(dom, s.streams, s.commits)
    requires phase.Decided? && PhaseSound(dom, s.streams, phase)
    requires Verdict(StreamOf(s.streams, phase.key), dom.kind(phase.cmd), Exact(phase.version)).None?
    requires var stored := Stored(dom, phase.key, phase.cmd, phase.batch, |StreamOf(s.streams, phase.key)|);
             Extends(s.streams, after, phase.key, stored)
    ensures var stored := Stored(dom, phase.key, phase.cmd, phase.batch, |StreamOf(s.streams, phase.key)|);
            LogInvariant(dom, after, s.commits + [Commit(phase.key, phase.cmd, phase.version, stored)])
  {
    hide AcceptedHistory, Serial, AtomicOutcome, Decision;
    var stored := Stored(dom, phase.key, phase.cmd, phase.batch, |StreamOf(s.streams, phase.key)|);
    var c := Commit(phase.key, phase.cmd, phase.version, stored);
    var events := Uncommitted(dom, phase.key, phase.cmd, phase.batch);
    CommitIsAtomic(dom, s.streams, phase);
    assert Numbered(after) by {
      NumberedVersion(s.streams, phase.key);
      assert SingleStream(events);
      AppendKeepsNumbering(s.streams, after, events, Exact(phase.version));
    }
    SerialExtends(dom, s, c, after);
    CommitExtendsHistory(dom, s.streams, after, phase);
    forall key
      ensures StreamAccepted(dom, after, key)
    {
      assert StreamAccepted(dom, s.streams, key);
    }
    assert CommitsOrdered(s.commits + [c], after);
  }

  lemma GrowthKeepsClients<A(!new), C(!new), E(!new)>(
    dom: Domain<A, C, E>, before: Streams<E>, after: Streams<E>, key: StreamKey, batch: seq<StoredEvent<E>>, clients: map<ClientId, Phase<C, E>>)
    requires Extends(before, after, key, batch)
    requires ClientsSound(dom, before, clients)
    ensures ClientsSound(dom, after, clients)
  {
    forall c | c in clients
      ensures PhaseSound(dom, after, clients[c])
    {
      SoundAfterGrowth(dom, before, after, key, batch, clients[c]);
    }
  }

  lemma StoredAreInStore<A(!new), C(!new), E(!new)>(
    dom: Domain<A, C, E>, streams: Streams<E>, after: Streams<E>, key: StreamKey, cmd: C, batch: seq<E>)
    requires Extends(streams, after, key, Stored(dom, key, cmd, batch, |StreamOf(streams, key)|))
    ensures forall e | e in Stored(dom, key, cmd, batch, |StreamOf(streams, key)|) :: InStore(after, e)
  {
    var n := |StreamOf(streams, key)|;
    var stored := Stored(dom, key, cmd, batch, n);
    forall e | e in stored
      ensures InStore(after, e)
    {
      var i :| 0 <= i < |stored| && stored[i] == e;
      assert StreamOf(after, key)[n + i] == e;
    }
  }

  lemma AppendKeepsInvariant<A(!new), C(!new), E(!new)>(dom: Domain<A, C, E>, s: System<C, E>, client: ClientId)
    requires Invariant(dom, s)
    ensures Invariant(dom, Next(dom, s, Step.Append(client)))
  {
    hide AcceptedHistory, Serializable, CommitsOrdered;
    var phase := PhaseOf(s, client);
    var after := Next(dom, s, Step.Append(client));
    if phase.Decided? {
      var stream := StreamOf(s.streams, phase.key);
      if Verdict(stream, dom.kind(phase.cmd), Exact(phase.version)).Some? {
        assert Extends(s.streams, after.streams, phase.key, []);
        RefusalKeepsLog(dom, s.streams, s.commits, phase.key);
        GrowthKeepsClients(dom, s.streams, after.streams, phase.key, [], s.clients);
      } else {
        CommitIsAtomic(dom, s.streams, phase);
        var stored := Stored(dom, phase.key, phase.cmd, phase.batch, |stream|);
        assert Extends(s.streams, after.streams, phase.key, stored);
        CommitKeepsLog(dom, s, phase, after.streams);
        GrowthKeepsClients(dom, s.streams, after.streams, phase.key, stored, s.clients);
        StoredAreInStore(dom, s.streams, after.streams, phase.key, phase.cmd, phase.batch);
      }
    }
  }

  lemma DecideKeepsInvariant<A(!new), C(!new), E(!new)>(dom: Domain<A, C, E>, s: System<C, E>, client: ClientId)
    requires Invariant(dom, s)
    ensures Invariant(dom, Next(dom, s, Decide(client)))
  {
    hide AcceptedHistory, Serializable, CommitsOrdered;
    var phase := PhaseOf(s, client);
    if phase.Loaded? {
      var stream := StreamOf(s.streams, phase.key);
      assert PhaseSound(dom, s.streams, phase);
      VersionDeterminesHistory(s.streams, phase.key, phase.history, phase.history);
      assert phase.history == stream[..CurrentVersion(phase.history)];
    }
  }

  lemma StepKeepsInvariant<A(!new), C(!new), E(!new)>(dom: Domain<A, C, E>, s: System<C, E>, step: Step<C>)
    requires Invariant(dom, s)
    ensures Invariant(dom, Next(dom, s, step))
  {
    hide LogInvariant;
    match step
    case Append(client) => AppendKeepsInvariant(dom, s, client);
    case Decide(client) => DecideKeepsInvariant(dom, s, client);
    case Load(_, _, _) =>
    case Publish(_) =>
    case BusDown(_) =>
  }

  lemma {:induction false} RunKeepsInvariant<A(!new), C(!new), E(!new)>(dom: Domain<A, C, E>, steps: seq<Step<C>>)
    ensures Invariant(dom, Run(dom, steps))
  {
    if steps != [] {
      RunKeepsInvariant(dom, steps[..|steps| - 1]);
      StepKeepsInvariant(dom, Run(dom, steps[..|steps| - 1]), steps[|steps| - 1]);
    }
  }

  /**
   For every interleaving: streams are gap-free, the store is the one the committed commands
   produce when dispatched one at a time in commit order, only stored events are published, and
   two commits to one stream never start from the same version.
   */
  lemma EveryRunIsSerializable<A(!new), C(!new), E(!new)>(dom: Domain<A, C, E>, steps: seq<Step<C>>)
    ensures var s := Run(dom, steps);
            && Numbered(s.streams)
            && Serializable(dom, s.commits, s.streams)
            && (forall e | e in s.bus :: InStore(s.streams, e))
            && (forall i, j | 0 <= i < j < |s.commits| && s.commits[i].key == s.commits[j].key ::
                  s.commits[i].version < s.commits[j].version)
  {
    RunKeepsInvariant(dom, steps);
  }
}
