/** The in-memory append-only event store (crates/infra/src/event_store/in_memory.rs). */
module EventStore {
  import opened Core

  datatype UncommittedEvent<+E> =
    UncommittedEvent(key: StreamKey, kind: AggregateType, occurredAt: Time, payload: E)

  datatype StoredEvent<+E> =
    StoredEvent(key: StreamKey, kind: AggregateType, seqNo: nat, occurredAt: Time, payload: E)

  datatype StoreError = Concurrency | TenantIsolation | AggregateTypeMismatch | InvalidAppend

  type Streams<E> = map<StreamKey, seq<StoredEvent<E>>>

  /** A stream that was never written is empty. */
  function StreamOf<E>(streams: Streams<E>, key: StreamKey): seq<StoredEvent<E>> {
    if key in streams then streams[key] else []
  }

  function CurrentVersion<E>(stream: seq<StoredEvent<E>>): nat {
    if stream == [] then 0 else stream[|stream| - 1].seqNo
  }

  /** The batch as stored when the stream is at version `current`. */
  function Sequenced<E>(events: seq<UncommittedEvent<E>>, current: nat): seq<StoredEvent<E>> {
    seq(|events|, i requires 0 <= i < |events| =>
      StoredEvent(events[i].key, events[i].kind, current + 1 + i, events[i].occurredAt, events[i].payload))
  }

  /** How the `i`-th event of a batch breaks the single-stream rule, if it does. */
  function Mismatch<E>(first: UncommittedEvent<E>, e: UncommittedEvent<E>): Option<StoreError> {
    if e.key.tenant != first.key.tenant then Some(TenantIsolation)
    else if e.key.aggregate != first.key.aggregate then Some(InvalidAppend)
    else if e.kind != first.kind then Some(AggregateTypeMismatch)
    else None
  }

  predicate SingleStream<E>(events: seq<UncommittedEvent<E>>) {
    forall i | 0 <= i < |events| :: Mismatch(events[0], events[i]).None?
  }

  /** Every stream holds its own events, all of one type, numbered 1, 2, 3 and so on without gaps. */
  ghost predicate Numbered<E>(streams: Streams<E>) {
    forall key, i | key in streams && 0 <= i < |streams[key]| ::
      && streams[key][i].seqNo == i + 1
      && streams[key][i].key == key
      && streams[key][i].kind == streams[key][0].kind
  }

  /** What `append` does to the streams when it accepts a single-stream batch. */
  ghost predicate Extends<E>(before: Streams<E>, after: Streams<E>, key: StreamKey, batch: seq<StoredEvent<E>>) {
    && StreamOf(after, key) == StreamOf(before, key) + batch
    && forall k | k != key :: StreamOf(after, k) == StreamOf(before, k)
  }

  ghost predicate SameStreams<E>(a: Streams<E>, b: Streams<E>) {
    forall key :: StreamOf(a, key) == StreamOf(b, key)
  }

  /** The event is stored, at the place its number says. */
  ghost predicate InStore<E>(streams: Streams<E>, e: StoredEvent<E>) {
    1 <= e.seqNo <= |StreamOf(streams, e.key)| && StreamOf(streams, e.key)[e.seqNo - 1] == e
  }

  /** The verdict of `append`: an error, or the stored batch. */
  function Verdict<E>(stream: seq<StoredEvent<E>>, kind: AggregateType, expected: ExpectedVersion): Option<StoreError> {
    if !expected.Matches(CurrentVersion(stream)) then Some(Concurrency)
    else if stream != [] && stream[0].kind != kind then Some(AggregateTypeMismatch)
    else None
  }

  /** An append is refused for a stale version first, then for another aggregate type; without an expectation only for the type. */
  lemma VerdictIs<E>(stream: seq<StoredEvent<E>>, kind: AggregateType, version: nat)
    ensures var current := if stream == [] then 0 else stream[|stream| - 1].seqNo;
            var typed := stream == [] || stream[0].kind == kind;
            && (version != current ==> Verdict(stream, kind, Exact(version)) == Some(Concurrency))
            && (version == current && !typed ==> Verdict(stream, kind, Exact(version)) == Some(AggregateTypeMismatch))
            && (version == current && typed ==> Verdict(stream, kind, Exact(version)).None?)
            && (Verdict(stream, kind, Any) == if typed then None else Some(AggregateTypeMismatch))
  {
  }

  /** A batch is refused at an event of another tenant, another aggregate or another type, in that order of precedence. */
  lemma MismatchIs<E>(first: UncommittedEvent<E>, e: UncommittedEvent<E>)
    ensures Mismatch(first, e).None? <==> e.key == first.key && e.kind == first.kind
    ensures e.key.tenant != first.key.tenant ==> Mismatch(first, e) == Some(TenantIsolation)
    ensures e.key.tenant == first.key.tenant && e.key.aggregate != first.key.aggregate ==> Mismatch(first, e) == Some(InvalidAppend)
    ensures e.key == first.key && e.kind != first.kind ==> Mismatch(first, e) == Some(AggregateTypeMismatch)
  {
  }

  lemma NumberedVersion<E>(streams: Streams<E>, key: StreamKey)
    requires Numbered(streams)
    ensures CurrentVersion(StreamOf(streams, key)) == |StreamOf(streams, key)|
  {
  }

  lemma SameStreamsSameNumbering<E>(a: Streams<E>, b: Streams<E>)
    requires SameStreams(a, b)
    ensures Numbered(a) ==> Numbered(b)
  {
    forall key, i | Numbered(a) && key in b && 0 <= i < |b[key]|
      ensures b[key][i].seqNo == i + 1 && b[key][i].key == key && b[key][i].kind == b[key][0].kind
    {
      assert StreamOf(b, key) == StreamOf(a, key);
    }
  }

  /** An accepted append keeps every stream gap-free. */
  lemma AppendKeepsNumbering<E>(before: Streams<E>, after: Streams<E>, events: seq<UncommittedEvent<E>>, expected: ExpectedVersion)
    requires Numbered(before)
    requires events != [] && SingleStream(events)
    requires Verdict(StreamOf(before, events[0].key), events[0].kind, expected).None?
    requires Extends(before, after, events[0].key,
                     Sequenced(events, CurrentVersion(StreamOf(before, events[0].key))))
    ensures Numbered(after)
  {
    var key := events[0].key;
    NumberedVersion(before, key);
    forall k, i | k in after && 0 <= i < |after[k]|
      ensures after[k][i].seqNo == i + 1 && after[k][i].key == k && after[k][i].kind == after[k][0].kind
    {
      assert after[k] == StreamOf(after, k);
      if k == key && i >= |StreamOf(before, key)| {
        assert Mismatch(events[0], events[i - |StreamOf(before, key)|]).None?;
      }
    }
  }

  class InMemoryEventStore<E(!new)> {
    var streams: Streams<E>

    constructor ()
      ensures streams == map[]
    {
      streams := map[];
    }

    /** A refused batch leaves every stream as it was; an accepted one is numbered on from the current version. */
    method Append(events: seq<UncommittedEvent<E>>, expected: ExpectedVersion)
      returns (r: Result<seq<StoredEvent<E>>, StoreError>)
      modifies this
      ensures events == [] ==> r == Ok([]) && SameStreams(streams, old(streams))
      ensures events != [] && SingleStream(events) && Verdict(StreamOf(old(streams), events[0].key), events[0].kind, expected).None? ==>
                && r == Ok(Sequenced(events, CurrentVersion(StreamOf(old(streams), events[0].key))))
                && Extends(old(streams), streams, events[0].key, r.value)
      ensures events != [] && SingleStream(events) && Verdict(StreamOf(old(streams), events[0].key), events[0].kind, expected).Some? ==>
                r == Err(Verdict(StreamOf(old(streams), events[0].key), events[0].kind, expected).value)
      ensures !SingleStream(events) ==>
                exists i | 0 <= i < |events| ::
                  && (forall j | 0 <= j < i :: Mismatch(events[0], events[j]).None?)
                  && Mismatch(events[0], events[i]).Some?
                  && r == Err(Mismatch(events[0], events[i]).value)
      ensures r.Err? ==> SameStreams(streams, old(streams))
      ensures old(Numbered(streams)) ==> Numbered(streams)
    {
      hide Numbered, Sequenced;
      if events == [] {
        return Ok([]);
      }
      var first := events[0];
      var mismatch := FirstMismatch(events);
      if mismatch.Some? {
        return Err(mismatch.value);
      }
      var key := first.key;
      var stream := StreamOf(streams, key);
      var current := CurrentVersion(stream);
      ghost var before := streams;
      streams := streams[key := stream];
      SameStreamsSameNumbering(before, streams);
      if !expected.Matches(current) {
        return Err(Concurrency);
      }
      if stream != [] && stream[0].kind != first.kind {
        return Err(AggregateTypeMismatch);
      }
      var committed := Write(key, events);
      assert streams[key] == stream + committed;
      assert Extends(before, streams, key, committed);
      if Numbered(before) {
        AppendKeepsNumbering(before, streams, events, expected);
      }
      return Ok(committed);
    }

    /** Numbers the events on from the stream's version, one after the other. */
    method Write(key: StreamKey, events: seq<UncommittedEvent<E>>) returns (committed: seq<StoredEvent<E>>)
      requires key in streams
      modifies this
      ensures committed == Sequenced(events, CurrentVersion(old(streams)[key]))
      ensures streams == old(streams)[key := old(streams)[key] + committed]
    {
      ghost var before := streams;
      var stream := streams[key];
      var current := CurrentVersion(stream);
      var next := current + 1;
      committed := [];
      assert stream + committed == stream;
      for i := 0 to |events|
        invariant next == current + 1 + i
        invariant committed == Sequenced(events, current)[..i]
        invariant streams == before[key := stream + committed]
      {
        var e := events[i];
        var stored := StoredEvent(e.key, e.kind, next, e.occurredAt, e.payload);
        next := next + 1;
        streams := streams[key := streams[key] + [stored]];
        committed := committed + [stored];
        assert stream + committed[..i] + [stored] == stream + committed;
      }
      assert committed == Sequenced(events, current);
    }

    /** The single-stream check. */
    method FirstMismatch(events: seq<UncommittedEvent<E>>) returns (r: Option<StoreError>)
      ensures r.None? <==> SingleStream(events)
      ensures r.Some? ==>
                exists i | 0 <= i < |events| ::
                  && (forall j | 0 <= j < i :: Mismatch(events[0], events[j]).None?)
                  && Mismatch(events[0], events[i]).Some?
                  && r == Mismatch(events[0], events[i])
    {
      for i := 0 to |events|
        invariant forall j | 0 <= j < i :: Mismatch(events[0], events[j]).None?
      {
        r := Mismatch(events[0], events[i]);
        if r.Some? {
          return;
        }
      }
      return None;
    }

    method LoadStream(key: StreamKey) returns (r: seq<StoredEvent<E>>)
      ensures r == StreamOf(streams, key)
    {
      if key in streams {
        r := streams[key];
      } else {
        r := [];
      }
    }
  }
}
