/** The lane object: its methods update the fields in place and are proved to
    compute the steps of `LaneModel`. */
module AdmissionLanes {
  import opened Wrappers
  import opened Submissions
  import opened LaneModel

  class AdmissionLane {
    const capacity: Capacity
    var accepting: bool
    var active: nat
    var queue: seq<Entry<()>>
    var settled: set<nat>
    var aborted: set<nat>
    var submitted: nat
    ghost var ledger: Ledger<()>

    ghost function State(): Lane
      reads this
    {
      Lane(capacity, accepting, active, queue, settled, aborted, ledger)
    }

    ghost predicate Valid()
      reads this
    {
      Inv(State()) && submitted == |ledger.subs|
    }

    constructor (capacity: Capacity)
      ensures Valid() && State() == Open(capacity)
    {
      this.capacity := capacity;
      accepting, active, queue, settled, aborted, submitted := true, 0, [], {}, {}, 0;
      ledger := Ledger([], []);
      new;
      hide Inv, Evolves;
      OpenInv(capacity);
    }

    method IsIdle() returns (idle: bool)
      ensures idle <==> Idle(State())
    {
      idle := active == 0 && queue == [];
    }

    /** Admits, queues or refuses; `fate` is what the caller learns at once. */
    method Submit(signal: Option<nat>) returns (id: nat, fate: Fate)
      requires Valid()
      modifies this
      ensures Valid() && State() == Run(old(State()), signal)
      ensures id == |old(ledger.subs)| && fate == ledger.subs[id].fate
    {
      RunKeeps(State(), signal);
      hide Inv, Evolves;
      id := submitted;
      submitted := submitted + 1;
      if !accepting {
        ledger := Enter(ledger, (), Closed);
        return id, Closed;
      }
      if signal.Some? && signal.value in aborted {
        ledger := Enter(ledger, (), CancelledAtEntry);
        return id, CancelledAtEntry;
      }
      if active < capacity.concurrency {
        ledger := Enter(ledger, (), Waiting);
        StartTask(id);
        return id, Running;
      }
      if |queue| >= capacity.queueDepth {
        ledger := Enter(ledger, (), Refused);
        return id, Refused;
      }
      ledger := Enter(ledger, (), Waiting);
      queue := queue + [Entry(id, (), signal)];
      return id, Waiting;
    }

    method StartTask(id: nat)
      requires id < |ledger.subs|
      modifies this`active, this`ledger
      ensures State() == Start(old(State()), id)
    {
      active := active + 1;
      ledger := Begin(ledger, id);
    }

    /** What runs when the task of `id` settles, either way. */
    method SettleTask(id: nat)
      requires Valid() && id < |ledger.subs| && ledger.subs[id].fate.Running?
      modifies this
      ensures Valid() && old(State().active) > 0 && State() == Settled(old(State()), id)
    {
      hide Inv, Evolves, DrainOne;
      SettledKeeps(State(), id);
      active := active - 1;
      ledger := Mark(ledger, id, Finished);
      DrainOldest();
    }

    /** Promotes the oldest waiting entry when there is room. */
    method DrainOldest()
      requires InRange(State())
      modifies this
      ensures State() == DrainOne(old(State())) && submitted == old(submitted)
      ensures |ledger.subs| == |old(ledger.subs)|
      decreases |queue|
    {
      if !accepting || active >= capacity.concurrency || queue == [] {
        return;
      }
      var entry := queue[0];
      queue := queue[1..];
      if entry.id in settled {
        DrainOldest();
        return;
      }
      settled := settled + {entry.id};
      StartTask(entry.id);
    }

    /** A caller's signal fires. */
    method AbortSignal(signal: nat)
      requires Valid()
      modifies this
      ensures Valid() && State() == Aborted(old(State()), signal)
    {
      AbortedKeeps(State(), signal);
      QueueInRange(State());
      hide Inv, Evolves, Cancelled;
      CancelledByListeners(HeldBy(State()), signal);
      aborted := aborted + {signal};
      Dispatch(queue, signal);
    }

    /** Calls the listeners of a fired signal: the entries that wait under it. */
    method Dispatch(listeners: seq<Entry<()>>, signal: nat)
      requires forall k :: 0 <= k < |listeners| ==> listeners[k].id < |ledger.subs|
      modifies this`queue, this`settled, this`ledger
      ensures HeldBy(State()) == CancelEach(old(HeldBy(State())), listeners, signal)
      ensures |ledger.subs| == |old(ledger.subs)|
    {
      hide CancelOne;
      var i := 0;
      while i < |listeners|
        invariant 0 <= i <= |listeners|
        invariant |ledger.subs| == |old(ledger.subs)|
        invariant CancelEach(HeldBy(State()), listeners[i..], signal) == CancelEach(old(HeldBy(State())), listeners, signal)
      {
        if listeners[i].signal == Some(signal) {
          CancelQueued(listeners[i]);
        }
        i := i + 1;
      }
    }

    /** The abort listener of one queued entry. */
    method CancelQueued(entry: Entry<()>)
      requires entry.id < |ledger.subs|
      modifies this`queue, this`settled, this`ledger
      ensures HeldBy(State()) == CancelOne(old(HeldBy(State())), entry)
      ensures |ledger.subs| == |old(ledger.subs)|
    {
      if entry.id in settled {
        return;
      }
      settled := settled + {entry.id};
      RemoveQueued(entry.id);
      ledger := Mark(ledger, entry.id, CancelledWaiting);
    }

    /** Takes the first entry with this id out of the queue, if there is one. */
    method RemoveQueued(id: nat)
      modifies this`queue
      ensures queue == WithoutFirst(old(queue), id)
    {
      var index := 0;
      while index < |queue| && queue[index].id != id
        invariant 0 <= index <= |queue|
        invariant forall k :: 0 <= k < index ==> queue[k].id != id
      {
        index := index + 1;
      }
      WithoutFirstAt(queue, id, index);
      if index < |queue| {
        queue := queue[..index] + queue[index + 1..];
      }
    }

    /** Stops admitting, and refuses everything waiting. */
    method StopAccepting()
      requires Valid()
      modifies this
      ensures Valid() && State() == Stopped(old(State()))
    {
      hide Inv, Evolves;
      StoppedKeeps(State());
      QueueInRange(State());
      ghost var before := HeldBy(State()).(queue := []);
      CloseEachIs(before, queue);
      hide CloseOne, MarkAll;
      accepting := false;
      var taken := queue;
      queue := [];
      CloseAll(taken);
    }

    method CloseAll(entries: seq<Entry<()>>)
      requires forall k :: 0 <= k < |entries| ==> entries[k].id < |ledger.subs|
      modifies this`settled, this`ledger
      ensures HeldBy(State()) == CloseEach(old(HeldBy(State())), entries)
      ensures |ledger.subs| == |old(ledger.subs)|
    {
      hide CloseOne;
      var i := 0;
      while i < |entries|
        invariant 0 <= i <= |entries|
        invariant |ledger.subs| == |old(ledger.subs)|
        invariant CloseEach(HeldBy(State()), entries[i..]) == CloseEach(old(HeldBy(State())), entries)
      {
        CloseTaken(entries[i]);
        i := i + 1;
      }
    }

    /** Refuses one entry taken from the queue. */
    method CloseTaken(entry: Entry<()>)
      requires entry.id < |ledger.subs|
      modifies this`settled, this`ledger
      ensures HeldBy(State()) == CloseOne(old(HeldBy(State())), entry)
      ensures |ledger.subs| == |old(ledger.subs)|
    {
      if entry.id !in settled {
        settled := settled + {entry.id};
        ledger := Mark(ledger, entry.id, ClosedWaiting);
      }
    }
  }
}
