/** What interleaved dispatchers put on the bus (crates/infra/src/command_dispatcher.rs). */
module Publication {
  import opened Core
  import opened EventStore
  import opened Dispatcher
  import opened Sums
  import CursorProjection

  function Pending<C, E(==)>(e: StoredEvent<E>): (ClientId, Phase<C, E>) -> int {
    (client: ClientId, phase: Phase<C, E>) => if phase.Publishing? then multiset(phase.rest)[e] else 0
  }

  /** How often an event has been published or is still to be. */
  ghost function Emissions<C, E>(s: System<C, E>, e: StoredEvent<E>): int {
    multiset(s.bus)[e] + MapSum(s.clients, Pending(e))
  }

  ghost function StoredOnce<E>(streams: Streams<E>, e: StoredEvent<E>): int {
    if InStore(streams, e) then 1 else 0
  }

  /** A client's phase moves the emissions by what it has pending. */
  lemma PhaseMoves<C, E>(clients: map<ClientId, Phase<C, E>>, client: ClientId, phase: Phase<C, E>, e: StoredEvent<E>)
    ensures MapSum(clients[client := phase], Pending(e)) ==
              MapSum(clients, Pending(e)) + Pending(e)(client, phase)
                - Pending(e)(client, if client in clients then clients[client] else Idle)
  {
    hide MapSum;
    MapSumPut(clients, client, phase, Pending(e));
  }

  /** A commit stores exactly its batch, each event once and none of them before. */
  lemma CommitStores<E>(before: Streams<E>, after: Streams<E>, key: StreamKey, stored: seq<StoredEvent<E>>, e: StoredEvent<E>)
    requires Extends(before, after, key, stored)
    requires forall i | 0 <= i < |stored| :: stored[i].key == key && stored[i].seqNo == |StreamOf(before, key)| + 1 + i
    ensures StoredOnce(after, e) == StoredOnce(before, e) + multiset(stored)[e]
  {
    assert CursorProjection.Distinct(stored);
    CursorProjection.DistinctCount(stored, e);
    if e in stored {
      var i :| 0 <= i < |stored| && stored[i] == e;
      assert StreamOf(after, key)[e.seqNo - 1] == e;
    }
  }

  lemma AppendBalances<A(!new), C(!new), E(!new)>(dom: Domain<A, C, E>, s: System<C, E>, client: ClientId, e: StoredEvent<E>)
    requires Numbered(s.streams)
    ensures var s' := Next(dom, s, Step.Append(client));
            Emissions(s', e) - Emissions(s, e) == StoredOnce(s'.streams, e) - StoredOnce(s.streams, e)
  {
    hide MapSum, Numbered, InStore;
    var phase, s' := PhaseOf(s, client), Next(dom, s, Step.Append(client));
    if phase.Decided? {
      var stream := StreamOf(s.streams, phase.key);
      PhaseMoves(s.clients, client, s'.clients[client], e);
      if Verdict(stream, dom.kind(phase.cmd), Exact(phase.version)).Some? {
        assert Extends(s.streams, s'.streams, phase.key, []);
        CommitStores(s.streams, s'.streams, phase.key, [], e);
      } else {
        NumberedVersion(s.streams, phase.key);
        var stored := Stored(dom, phase.key, phase.cmd, phase.batch, CurrentVersion(stream));
        assert Extends(s.streams, s'.streams, phase.key, stored);
        CommitStores(s.streams, s'.streams, phase.key, stored, e);
      }
    }
  }

  lemma PublishBalances<A(!new), C(!new), E(!new)>(dom: Domain<A, C, E>, s: System<C, E>, client: ClientId, e: StoredEvent<E>)
    ensures var s' := Next(dom, s, Step.Publish(client));
            Emissions(s', e) == Emissions(s, e) && s'.streams == s.streams
  {
    hide MapSum;
    var phase, s' := PhaseOf(s, client), Next(dom, s, Step.Publish(client));
    if phase.Publishing? {
      PhaseMoves(s.clients, client, s'.clients[client], e);
      if phase.rest != [] {
        assert phase.rest == [phase.rest[0]] + phase.rest[1..];
        assert multiset(phase.rest)[e] == multiset([phase.rest[0]])[e] + multiset(phase.rest[1..])[e];
      }
    }
  }

  /** Every step stores what it owes to the bus, and only a bus failure gives up what is owed. */
  lemma StepBalances<A(!new), C(!new), E(!new)>(dom: Domain<A, C, E>, s: System<C, E>, step: Step<C>, e: StoredEvent<E>)
    requires Numbered(s.streams)
    ensures var s' := Next(dom, s, step);
            var emitted, stored := Emissions(s', e) - Emissions(s, e), StoredOnce(s'.streams, e) - StoredOnce(s.streams, e);
            emitted <= stored && (!step.BusDown? ==> emitted == stored)
  {
    hide MapSum, Numbered, Decision, InStore;
    match step
    case Append(client) => AppendBalances(dom, s, client, e);
    case Publish(client) => PublishBalances(dom, s, client, e);
    case Load(client, key, cmd) =>
      var s' := Next(dom, s, step);
      if s' != s {
        PhaseMoves(s.clients, client, s'.clients[client], e);
      }
    case Decide(client) =>
      var s' := Next(dom, s, step);
      if PhaseOf(s, client).Loaded? {
        PhaseMoves(s.clients, client, s'.clients[client], e);
      }
    case BusDown(client) =>
      if PhaseOf(s, client).Publishing? {
        PhaseMoves(s.clients, client, Idle, e);
      }
  }

  lemma StartBalances<C, E>(e: StoredEvent<E>)
    ensures Emissions(Initial<C, E>(), e) == 0 == StoredOnce(Initial<C, E>().streams, e)
  {
  }

  lemma {:induction false} RunBalances<A(!new), C(!new), E(!new)>(dom: Domain<A, C, E>, steps: seq<Step<C>>, e: StoredEvent<E>)
    ensures var s := Run(dom, steps); Emissions(s, e) <= StoredOnce(s.streams, e)
    ensures (forall i | 0 <= i < |steps| :: !steps[i].BusDown?) ==> var s := Run(dom, steps); Emissions(s, e) == StoredOnce(s.streams, e)
  {
    hide Emissions, StoredOnce, Next;
    if steps == [] {
      StartBalances<C, E>(e);
    } else {
      var n := |steps| - 1;
      RunBalances(dom, steps[..n], e);
      EveryRunIsSerializable(dom, steps[..n]);
      StepBalances(dom, Run(dom, steps[..n]), steps[n], e);
    }
  }

  lemma PendingIsNonNegative<C, E>(s: System<C, E>, e: StoredEvent<E>)
    ensures multiset(s.bus)[e] <= Emissions(s, e)
    ensures (forall client | client in s.clients :: s.clients[client].Idle?) ==> multiset(s.bus)[e] == Emissions(s, e)
  {
    hide MapSum;
    var w: (ClientId, Phase<C, E>) -> int := Pending(e);
    MapSumBounds(s.clients, w);
    if forall client | client in s.clients :: s.clients[client].Idle? {
      MapSumZero(s.clients, w);
    }
  }

  /** In every interleaving each stored event is published at most once, and nothing else is. */
  lemma PublishedAtMostOnce<A(!new), C(!new), E(!new)>(dom: Domain<A, C, E>, steps: seq<Step<C>>, e: StoredEvent<E>)
    ensures var s := Run(dom, steps); multiset(s.bus)[e] <= if InStore(s.streams, e) then 1 else 0
  {
    hide Run, Emissions;
    RunBalances(dom, steps, e);
    PendingIsNonNegative(Run(dom, steps), e);
  }

  /** If the bus never fails, then whenever all clients are idle the bus holds exactly the log, each event once. */
  lemma PublishedIsTheLog<A(!new), C(!new), E(!new)>(dom: Domain<A, C, E>, steps: seq<Step<C>>, e: StoredEvent<E>)
    requires forall i | 0 <= i < |steps| :: !steps[i].BusDown?
    requires forall client | client in Run(dom, steps).clients :: Run(dom, steps).clients[client].Idle?
    ensures var s := Run(dom, steps); multiset(s.bus)[e] == if InStore(s.streams, e) then 1 else 0
  {
    hide Run, Emissions;
    RunBalances(dom, steps, e);
    PendingIsNonNegative(Run(dom, steps), e);
  }
}
