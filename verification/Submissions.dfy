/**
 What became of every submission to a bounded queue.

 A ledger records, for each submission in arrival order, its kind and its fate,
 and separately the order in which submissions were started.  The admission lane
 and the embedding scheduler both keep one; the facts proved here are the ones
 their invariants share.
 */
module Submissions {
  import opened Wrappers

  datatype Fate =
    | Refused            // the queue was full
    | Closed             // submitted after the owner stopped accepting
    | CancelledAtEntry   // the caller's signal had already fired
    | Waiting            // in a queue
    | CancelledWaiting   // the caller's signal fired while it waited
    | ClosedWaiting      // the owner stopped accepting while it waited
    | Running
    | Finished
  {
    predicate Started() { Running? || Finished? }
  }

  datatype Submission<K> = Submission(kind: K, fate: Fate)

  datatype Entry<K> = Entry(id: nat, kind: K, signal: Option<nat>)

  datatype Ledger<K> = Ledger(subs: seq<Submission<K>>, order: seq<nat>)

  // ---------------------------------------------------------------- operations

  predicate Fired(signal: Option<nat>, aborted: set<nat>) {
    signal.Some? && signal.value in aborted
  }

  function Enter<K>(l: Ledger<K>, kind: K, fate: Fate): Ledger<K> {
    l.(subs := l.subs + [Submission(kind, fate)])
  }

  function MarkAll<K>(l: Ledger<K>, ids: set<nat>, fate: Fate): Ledger<K> {
    l.(subs := seq(|l.subs|, i requires 0 <= i < |l.subs| =>
         if i in ids then l.subs[i].(fate := fate) else l.subs[i]))
  }

  function Mark<K>(l: Ledger<K>, id: nat, fate: Fate): Ledger<K>
    requires id < |l.subs|
  {
    l.(subs := l.subs[id := l.subs[id].(fate := fate)])
  }

  function Begin<K>(l: Ledger<K>, id: nat): Ledger<K>
    requires id < |l.subs|
  {
    var m := Mark(l, id, Running);
    m.(order := m.order + [id])
  }

  lemma MarkNone<K>(l: Ledger<K>, fate: Fate)
    ensures MarkAll(l, {}, fate) == l
  {
    assert MarkAll(l, {}, fate).subs == l.subs;
  }

  lemma MarkMore<K>(l: Ledger<K>, ids: set<nat>, id: nat, fate: Fate)
    requires id < |l.subs|
    ensures MarkAll(Mark(l, id, fate), ids, fate) == MarkAll(l, ids + {id}, fate)
  {
    assert MarkAll(Mark(l, id, fate), ids, fate).subs == MarkAll(l, ids + {id}, fate).subs;
  }

  // ---------------------------------------------------------------- soundness

  /** The start order is exactly the started submissions, and within one kind it
      is the submission order: nothing that started came after something that
      still waits. */
  ghost predicate Sound<K(!new)>(l: Ledger<K>) {
    && (forall i :: 0 <= i < |l.order| ==> l.order[i] < |l.subs| && l.subs[l.order[i]].fate.Started())
    && (forall id :: 0 <= id < |l.subs| && l.subs[id].fate.Started() ==> id in l.order)
    && (forall i, j :: 0 <= i < j < |l.order| && l.subs[l.order[i]].kind == l.subs[l.order[j]].kind
          ==> l.order[i] < l.order[j])
    && (forall i, w ::
          0 <= i < |l.order| && 0 <= w < |l.subs| && l.subs[w].fate.Waiting? && l.subs[w].kind == l.subs[l.order[i]].kind
          ==> l.order[i] < w)
  }

  ghost predicate Sorted<K(!new)>(queue: seq<Entry<K>>) {
    forall i, j :: 0 <= i < j < |queue| ==> queue[i].id < queue[j].id
  }

  predicate HasId<K>(queue: seq<Entry<K>>, id: nat) {
    exists i :: 0 <= i < |queue| && queue[i].id == id
  }

  /** The queue holds exactly the waiting submissions of its kind, oldest first. */
  ghost predicate Tracks<K(!new)>(l: Ledger<K>, queue: seq<Entry<K>>, kind: K) {
    && Sorted(queue)
    && (forall i :: 0 <= i < |queue| ==>
          queue[i].id < |l.subs| && queue[i].kind == kind && l.subs[queue[i].id] == Submission(kind, Waiting))
    && (forall id :: 0 <= id < |l.subs| && l.subs[id] == Submission(kind, Waiting) ==> HasId(queue, id))
  }

  /** How a fate may change: a waiting entry is started, cancelled or closed, a
      running one finishes, and every other fate is final. */
  predicate Advances(before: Fate, after: Fate) {
    || before == after
    || (before.Waiting? && (after.CancelledWaiting? || after.ClosedWaiting? || after.Started()))
    || (before.Running? && after.Finished?)
  }

  ghost predicate Evolves<K(!new)>(a: Ledger<K>, b: Ledger<K>) {
    && |a.subs| <= |b.subs|
    && a.order <= b.order
    && (forall i :: 0 <= i < |a.subs| ==> a.subs[i].kind == b.subs[i].kind && Advances(a.subs[i].fate, b.subs[i].fate))
  }

  lemma EvolvesSelf<K(!new)>(l: Ledger<K>)
    ensures Evolves(l, l)
  {
  }

  lemma EvolvesTransitive<K(!new)>(a: Ledger<K>, b: Ledger<K>, c: Ledger<K>)
    requires Evolves(a, b) && Evolves(b, c)
    ensures Evolves(a, c)
  {
    assert forall i :: 0 <= i < |a.order| ==> a.order[i] == b.order[i] == c.order[i];
    forall i | 0 <= i < |a.subs|
      ensures a.subs[i].kind == c.subs[i].kind && Advances(a.subs[i].fate, c.subs[i].fate)
    {
      assert a.subs[i].kind == b.subs[i].kind == c.subs[i].kind;
      assert Advances(a.subs[i].fate, b.subs[i].fate) && Advances(b.subs[i].fate, c.subs[i].fate);
    }
  }

  // ------------------------------------------------------ the steps keep it all

  lemma EnterKeeps<K(!new)>(l: Ledger<K>, kind: K, fate: Fate)
    requires Sound(l) && !fate.Started()
    ensures Sound(Enter(l, kind, fate)) && Evolves(l, Enter(l, kind, fate))
  {
  }

  lemma EnterTracks<K(!new)>(l: Ledger<K>, queue: seq<Entry<K>>, k: K, kind: K, fate: Fate)
    requires Tracks(l, queue, k)
    requires fate.Waiting? ==> k != kind
    ensures Tracks(Enter(l, kind, fate), queue, k)
  {
  }

  lemma EnterQueues<K(!new)>(l: Ledger<K>, queue: seq<Entry<K>>, kind: K, signal: Option<nat>)
    requires Tracks(l, queue, kind)
    ensures Tracks(Enter(l, kind, Waiting), queue + [Entry(|l.subs|, kind, signal)], kind)
  {
    var q := queue + [Entry(|l.subs|, kind, signal)];
    var m := Enter(l, kind, Waiting);
    forall id | 0 <= id < |m.subs| && m.subs[id] == Submission(kind, Waiting)
      ensures HasId(q, id)
    {
      if id == |l.subs| {
        assert q[|queue|].id == id;
      } else {
        assert l.subs[id] == m.subs[id];
        var i :| 0 <= i < |queue| && queue[i].id == id;
        assert q[i].id == id;
      }
    }
  }

  /** Starting the oldest waiting submission of a kind keeps the order. */
  lemma BeginKeeps<K(!new)>(l: Ledger<K>, id: nat)
    requires Sound(l) && id < |l.subs| && l.subs[id].fate.Waiting?
    requires forall w :: 0 <= w < |l.subs| && l.subs[w] == l.subs[id] ==> id <= w
    ensures Sound(Begin(l, id)) && Evolves(l, Begin(l, id))
  {
    BeginStarted(l, id);
    BeginSorted(l, id);
    BeginAhead(l, id);
  }

  lemma BeginStarted<K(!new)>(l: Ledger<K>, id: nat)
    requires Sound(l) && id < |l.subs|
    ensures var m := Begin(l, id);
            && (forall i :: 0 <= i < |m.order| ==> m.order[i] < |m.subs| && m.subs[m.order[i]].fate.Started())
            && forall k :: 0 <= k < |m.subs| && m.subs[k].fate.Started() ==> k in m.order
  {
    var m := Begin(l, id);
    assert m.order[|l.order|] == id;
    forall k | 0 <= k < |m.subs| && m.subs[k].fate.Started() ensures k in m.order {
      if k != id {
        assert l.subs[k] == m.subs[k];
        assert k in l.order;
      }
    }
  }

  lemma BeginAhead<K(!new)>(l: Ledger<K>, id: nat)
    requires Sound(l) && id < |l.subs|
    requires forall w :: 0 <= w < |l.subs| && l.subs[w] == l.subs[id] ==> id <= w
    requires l.subs[id].fate.Waiting?
    ensures var m := Begin(l, id);
            forall i, w ::
              0 <= i < |m.order| && 0 <= w < |m.subs| && m.subs[w].fate.Waiting?
              && m.order[i] < |m.subs| && m.subs[w].kind == m.subs[m.order[i]].kind
              ==> m.order[i] < w
  {
    var m := Begin(l, id);
    forall i, w | 0 <= i < |m.order| && 0 <= w < |m.subs| && m.subs[w].fate.Waiting?
          && m.order[i] < |m.subs| && m.subs[w].kind == m.subs[m.order[i]].kind
      ensures m.order[i] < w
    {
      assert w != id && l.subs[w] == m.subs[w];
      if i < |l.order| {
        assert l.order[i] == m.order[i];
      } else {
        assert l.subs[w] == l.subs[id];
      }
    }
  }

  lemma BeginSorted<K(!new)>(l: Ledger<K>, id: nat)
    requires Sound(l) && id < |l.subs| && l.subs[id].fate.Waiting?
    ensures var m := Begin(l, id);
            forall i, j ::
              0 <= i < j < |m.order| && m.order[i] < |m.subs| && m.order[j] < |m.subs|
              && m.subs[m.order[i]].kind == m.subs[m.order[j]].kind
              ==> m.order[i] < m.order[j]
  {
    var m := Begin(l, id);
    forall i, j | 0 <= i < j < |m.order| && m.order[i] < |m.subs| && m.order[j] < |m.subs|
          && m.subs[m.order[i]].kind == m.subs[m.order[j]].kind
      ensures m.order[i] < m.order[j]
    {
      assert l.order[i] == m.order[i];
      if j < |l.order| {
        assert l.order[j] == m.order[j];
      } else {
        assert l.subs[id].fate.Waiting?;
      }
    }
  }

  lemma BeginTracks<K(!new)>(l: Ledger<K>, queue: seq<Entry<K>>, kind: K)
    requires Tracks(l, queue, kind) && queue != []
    ensures Tracks(Begin(l, queue[0].id), queue[1..], kind)
    ensures forall w :: 0 <= w < |l.subs| && l.subs[w] == l.subs[queue[0].id] ==> queue[0].id <= w
  {
    var m := Begin(l, queue[0].id);
    forall w | 0 <= w < |l.subs| && l.subs[w] == l.subs[queue[0].id]
      ensures queue[0].id <= w
    {
      assert HasId(queue, w);
    }
    forall id | 0 <= id < |m.subs| && m.subs[id] == Submission(kind, Waiting)
      ensures HasId(queue[1..], id)
    {
      assert l.subs[id] == m.subs[id];
      var i :| 0 <= i < |queue| && queue[i].id == id;
      assert i != 0;
      assert queue[1..][i - 1].id == id;
    }
  }

  lemma BeginTracksOther<K(!new)>(l: Ledger<K>, queue: seq<Entry<K>>, kind: K, id: nat)
    requires Tracks(l, queue, kind) && id < |l.subs| && l.subs[id].kind != kind
    ensures Tracks(Begin(l, id), queue, kind)
  {
  }

  /** The order stays sound when the same submissions have been started and no
      more of them wait. */
  lemma SoundAlong<K(!new)>(l: Ledger<K>, m: Ledger<K>)
    requires Sound(l) && m.order == l.order && |m.subs| == |l.subs|
    requires forall i :: 0 <= i < |l.subs| ==>
               && m.subs[i].kind == l.subs[i].kind
               && (m.subs[i].fate.Started() <==> l.subs[i].fate.Started())
               && (m.subs[i].fate.Waiting? ==> l.subs[i].fate.Waiting?)
    ensures Sound(m)
  {
    forall k | 0 <= k < |m.subs| && m.subs[k].fate.Started() ensures k in m.order {
      assert l.subs[k].fate.Started();
    }
    forall i, w | 0 <= i < |m.order| && 0 <= w < |m.subs| && m.subs[w].fate.Waiting?
          && m.subs[w].kind == m.subs[m.order[i]].kind
      ensures m.order[i] < w
    {
      assert l.subs[w].fate.Waiting? && l.subs[w].kind == l.subs[l.order[i]].kind;
    }
    forall i, j | 0 <= i < j < |m.order| && m.subs[m.order[i]].kind == m.subs[m.order[j]].kind
      ensures m.order[i] < m.order[j]
    {
      assert l.subs[l.order[i]].kind == l.subs[l.order[j]].kind;
    }
  }

  lemma FinishKeeps<K(!new)>(l: Ledger<K>, id: nat)
    requires Sound(l) && id < |l.subs| && l.subs[id].fate.Running?
    ensures Sound(Mark(l, id, Finished)) && Evolves(l, Mark(l, id, Finished))
  {
    hide Sound;
    SoundAlong(l, Mark(l, id, Finished));
  }

  lemma FinishTracks<K(!new)>(l: Ledger<K>, queue: seq<Entry<K>>, kind: K, id: nat)
    requires Tracks(l, queue, kind) && id < |l.subs| && l.subs[id].fate.Running?
    ensures Tracks(Mark(l, id, Finished), queue, kind)
  {
  }

  lemma DropKeeps<K(!new)>(l: Ledger<K>, ids: set<nat>, fate: Fate)
    requires Sound(l) && (fate.CancelledWaiting? || fate.ClosedWaiting?)
    requires forall id :: id in ids ==> id < |l.subs| && l.subs[id].fate.Waiting?
    ensures Sound(MarkAll(l, ids, fate)) && Evolves(l, MarkAll(l, ids, fate))
  {
    hide Sound;
    SoundAlong(l, MarkAll(l, ids, fate));
  }

  // --------------------------------------------------- removing from the queue

  ghost function Ids<K>(queue: seq<Entry<K>>): set<nat> {
    set e | e in queue :: e.id
  }

  /** The entries whose signal is not the one that fired, in the same order. */
  function Unsignalled<K>(queue: seq<Entry<K>>, signal: nat): seq<Entry<K>> {
    if queue == [] then []
    else if queue[0].signal == Some(signal) then Unsignalled(queue[1..], signal)
    else [queue[0]] + Unsignalled(queue[1..], signal)
  }

  /** The waiting submissions a signal belongs to. */
  ghost function SignalledIds<K>(queue: seq<Entry<K>>, signal: nat): set<nat> {
    set e | e in queue && e.signal == Some(signal) :: e.id
  }

  lemma {:induction false} UnsignalledMembers<K(!new)>(queue: seq<Entry<K>>, signal: nat)
    ensures forall e :: e in Unsignalled(queue, signal) <==> e in queue && e.signal != Some(signal)
    ensures |Unsignalled(queue, signal)| <= |queue|
  {
    if queue != [] {
      UnsignalledMembers(queue[1..], signal);
      assert queue == [queue[0]] + queue[1..];
    }
  }

  lemma {:induction false} UnsignalledSorted<K(!new)>(queue: seq<Entry<K>>, signal: nat)
    requires Sorted(queue)
    ensures Sorted(Unsignalled(queue, signal))
  {
    if queue != [] {
      var rest := Unsignalled(queue[1..], signal);
      UnsignalledSorted(queue[1..], signal);
      UnsignalledMembers(queue[1..], signal);
      forall i | 0 <= i < |rest| ensures queue[0].id < rest[i].id {
        assert rest[i] in queue[1..];
      }
    }
  }

  lemma {:induction false} UnsignalledAppend<K(!new)>(queue: seq<Entry<K>>, e: Entry<K>, signal: nat)
    ensures Unsignalled(queue + [e], signal)
            == Unsignalled(queue, signal) + (if e.signal == Some(signal) then [] else [e])
  {
    if queue == [] {
      assert [e][1..] == [];
    } else {
      assert (queue + [e])[1..] == queue[1..] + [e];
      UnsignalledAppend(queue[1..], e, signal);
    }
  }

  function WithoutFirst<K>(queue: seq<Entry<K>>, id: nat): seq<Entry<K>> {
    if queue == [] then []
    else if queue[0].id == id then queue[1..]
    else [queue[0]] + WithoutFirst(queue[1..], id)
  }

  lemma {:induction false} WithoutFirstAt<K>(queue: seq<Entry<K>>, id: nat, place: nat)
    requires place <= |queue| && forall k :: 0 <= k < place ==> queue[k].id != id
    requires place < |queue| ==> queue[place].id == id
    ensures WithoutFirst(queue, id) == if place < |queue| then queue[..place] + queue[place + 1..] else queue
  {
    if queue != [] && place > 0 {
      WithoutFirstAt(queue[1..], id, place - 1);
      assert queue == [queue[0]] + queue[1..];
    }
  }

  lemma SortedWithout<K(!new)>(left: seq<Entry<K>>, e: Entry<K>, right: seq<Entry<K>>)
    requires Sorted(left + [e] + right)
    ensures Sorted(left + right)
    ensures forall k :: 0 <= k < |left| ==> left[k].id != e.id
    ensures forall k :: 0 <= k < |right| ==> right[k].id != e.id
  {
    var q := left + [e] + right;
    assert q[|left|] == e;
    assert forall k :: 0 <= k < |left| ==> q[k] == left[k];
    assert forall k :: 0 <= k < |right| ==> q[|left| + 1 + k] == right[k];
    forall i, j | 0 <= i < j < |left + right| ensures (left + right)[i].id < (left + right)[j].id {
      assert (left + right)[i] == q[if i < |left| then i else i + 1];
      assert (left + right)[j] == q[if j < |left| then j else j + 1];
    }
  }

  /** The submission waits in the queue under this signal. */
  predicate WaitsUnder<K>(queue: seq<Entry<K>>, id: nat, signal: nat) {
    exists i :: 0 <= i < |queue| && queue[i].id == id && queue[i].signal == Some(signal)
  }

  lemma SignalledWaits<K>(queue: seq<Entry<K>>, id: nat, signal: nat)
    ensures id in SignalledIds(queue, signal) <==> WaitsUnder(queue, id, signal)
  {
    if WaitsUnder(queue, id, signal) {
      var i :| 0 <= i < |queue| && queue[i].id == id && queue[i].signal == Some(signal);
      assert queue[i] in queue;
    }
  }

  lemma SignalledExactly<K(!new)>(queue: seq<Entry<K>>, signal: nat)
    requires Sorted(queue)
    ensures forall e :: e in queue ==> (e.id in SignalledIds(queue, signal) <==> e.signal == Some(signal))
  {
  }

  // ------------------------------------------------- a signal reaching a queue

  /** A queue with the flags of its entries and the history behind it. */
  datatype Held<K> = Held(queue: seq<Entry<K>>, settled: set<nat>, ledger: Ledger<K>)

  /** What the abort listener of one entry does. */
  function CancelOne<K>(h: Held<K>, entry: Entry<K>): Held<K>
    requires entry.id < |h.ledger.subs|
  {
    if entry.id in h.settled then h
    else Held(WithoutFirst(h.queue, entry.id), h.settled + {entry.id}, Mark(h.ledger, entry.id, CancelledWaiting))
  }

  function CancelEach<K>(h: Held<K>, listeners: seq<Entry<K>>, signal: nat): Held<K>
    requires forall k :: 0 <= k < |listeners| ==> listeners[k].id < |h.ledger.subs|
    decreases |listeners|
  {
    if listeners == [] then h
    else if listeners[0].signal == Some(signal) then CancelEach(CancelOne(h, listeners[0]), listeners[1..], signal)
    else CancelEach(h, listeners[1..], signal)
  }

  /** What a fired signal leaves: exactly its own entries are gone. */
  ghost function Cancelled<K>(h: Held<K>, signal: nat): Held<K> {
    var ids := SignalledIds(h.queue, signal);
    Held(Unsignalled(h.queue, signal), h.settled + ids, MarkAll(h.ledger, ids, CancelledWaiting))
  }

  ghost predicate Unsettled<K(!new)>(queue: seq<Entry<K>>, h: Held<K>) {
    forall k :: 0 <= k < |queue| ==> queue[k].id !in h.settled && queue[k].id < |h.ledger.subs|
  }

  /** Dispatching to the listeners one after another cancels exactly the entries
      under the signal. */
  lemma CancelledByListeners<K(!new)>(h: Held<K>, signal: nat)
    requires Sorted(h.queue) && Unsettled(h.queue, h)
    ensures CancelEach(h, h.queue, signal) == Cancelled(h, signal)
  {
    CancelEachIs(h, [], h.queue, signal) by {
      assert h.queue == [] + h.queue;
    }
    assert [] + Unsignalled(h.queue, signal) == Unsignalled(h.queue, signal);
  }

  ghost function CancelledFrom<K>(h: Held<K>, kept: seq<Entry<K>>, todo: seq<Entry<K>>, signal: nat): Held<K> {
    var ids := SignalledIds(todo, signal);
    Held(kept + Unsignalled(todo, signal), h.settled + ids, MarkAll(h.ledger, ids, CancelledWaiting))
  }

  lemma CancelledFromMore<K(!new)>(h: Held<K>, kept: seq<Entry<K>>, e: Entry<K>, rest: seq<Entry<K>>, signal: nat)
    requires e.id < |h.ledger.subs| && e.signal == Some(signal)
    ensures CancelledFrom(h, kept, [e] + rest, signal)
            == CancelledFrom(Held(kept + rest, h.settled + {e.id}, Mark(h.ledger, e.id, CancelledWaiting)), kept, rest, signal)
  {
    SignalledSplit(e, rest, signal);
    MarkMore(h.ledger, SignalledIds(rest, signal), e.id, CancelledWaiting);
    assert ([e] + rest)[1..] == rest;
  }

  lemma CancelledFromSkip<K(!new)>(h: Held<K>, kept: seq<Entry<K>>, e: Entry<K>, rest: seq<Entry<K>>, signal: nat)
    requires e.signal != Some(signal)
    ensures CancelledFrom(h, kept, [e] + rest, signal) == CancelledFrom(h, kept + [e], rest, signal)
  {
    SignalledSplit(e, rest, signal);
    assert ([e] + rest)[1..] == rest;
    assert kept + [e] + Unsignalled(rest, signal) == kept + ([e] + Unsignalled(rest, signal));
  }

  lemma {:induction false} CancelEachIs<K(!new)>(h: Held<K>, kept: seq<Entry<K>>, todo: seq<Entry<K>>, signal: nat)
    requires h.queue == kept + todo && Sorted(h.queue) && Unsettled(todo, h)
    ensures CancelEach(h, todo, signal) == CancelledFrom(h, kept, todo, signal)
    decreases |todo|
  {
    if todo == [] {
      assert SignalledIds(todo, signal) == {};
      MarkNone(h.ledger, CancelledWaiting);
    } else {
      var e := todo[0];
      var rest := todo[1..];
      assert todo == [e] + rest;
      assert h.queue == (kept + [e]) + rest;
      SortedWithout(kept, e, rest);
      if e.signal == Some(signal) {
        CancelOneAt(h, kept, e, rest);
        CancelEachIs(CancelOne(h, e), kept, rest, signal);
        CancelledFromMore(h, kept, e, rest, signal);
      } else {
        CancelEachIs(h, kept + [e], rest, signal);
        CancelledFromSkip(h, kept, e, rest, signal);
      }
    }
  }

  lemma CancelOneAt<K(!new)>(h: Held<K>, kept: seq<Entry<K>>, e: Entry<K>, rest: seq<Entry<K>>)
    requires h.queue == (kept + [e]) + rest && e.id < |h.ledger.subs| && e.id !in h.settled
    requires forall k :: 0 <= k < |kept| ==> kept[k].id != e.id
    ensures CancelOne(h, e) == Held(kept + rest, h.settled + {e.id}, Mark(h.ledger, e.id, CancelledWaiting))
  {
    assert h.queue[|kept|] == e;
    WithoutFirstAt(h.queue, e.id, |kept|);
    assert h.queue[..|kept|] + h.queue[|kept| + 1..] == kept + rest;
  }

  lemma SignalledSplit<K(!new)>(e: Entry<K>, rest: seq<Entry<K>>, signal: nat)
    ensures SignalledIds([e] + rest, signal)
            == (if e.signal == Some(signal) then SignalledIds(rest, signal) + {e.id} else SignalledIds(rest, signal))
  {
  }

  /** What stopping does to one entry taken from the queue. */
  function CloseOne<K>(h: Held<K>, entry: Entry<K>): Held<K>
    requires entry.id < |h.ledger.subs|
  {
    if entry.id in h.settled then h
    else h.(settled := h.settled + {entry.id}, ledger := Mark(h.ledger, entry.id, ClosedWaiting))
  }

  function CloseEach<K>(h: Held<K>, entries: seq<Entry<K>>): Held<K>
    requires forall k :: 0 <= k < |entries| ==> entries[k].id < |h.ledger.subs|
    decreases |entries|
  {
    if entries == [] then h else CloseEach(CloseOne(h, entries[0]), entries[1..])
  }

  lemma {:induction false} CloseEachIs<K(!new)>(h: Held<K>, entries: seq<Entry<K>>)
    requires Unsettled(entries, h)
    requires forall i, j :: 0 <= i < j < |entries| ==> entries[i].id != entries[j].id
    ensures CloseEach(h, entries)
            == Held(h.queue, h.settled + Ids(entries), MarkAll(h.ledger, Ids(entries), ClosedWaiting))
    decreases |entries|
  {
    if entries == [] {
      assert Ids(entries) == {};
      MarkNone(h.ledger, ClosedWaiting);
    } else {
      var e := entries[0];
      var rest := entries[1..];
      hide MarkAll;
      CloseEachIs(CloseOne(h, e), rest);
      MarkMore(h.ledger, Ids(rest), e.id, ClosedWaiting);
      assert entries == [e] + rest;
      assert Ids(entries) == Ids(rest) + {e.id};
      assert h.settled + {e.id} + Ids(rest) == h.settled + Ids(entries);
    }
  }

  /** A cancellation leaves the remaining entries' flags alone. */
  lemma SignalledUntouched<K(!new)>(queue: seq<Entry<K>>, signal: nat)
    requires Sorted(queue)
    ensures forall e :: e in Unsignalled(queue, signal) ==> e.id !in SignalledIds(queue, signal)
  {
    SignalledExactly(queue, signal);
    UnsignalledMembers(queue, signal);
  }

  lemma CancelTracks<K(!new)>(l: Ledger<K>, queue: seq<Entry<K>>, kind: K, signal: nat, ids: set<nat>)
    requires Tracks(l, queue, kind)
    requires forall e :: e in queue ==> (e.id in ids <==> e.signal == Some(signal))
    ensures Tracks(MarkAll(l, ids, CancelledWaiting), Unsignalled(queue, signal), kind)
  {
    var q := Unsignalled(queue, signal);
    var m := MarkAll(l, ids, CancelledWaiting);
    UnsignalledSorted(queue, signal);
    UnsignalledMembers(queue, signal);
    forall i | 0 <= i < |q|
      ensures q[i].id < |m.subs| && q[i].kind == kind && m.subs[q[i].id] == Submission(kind, Waiting)
    {
      assert q[i] in queue;
    }
    forall id | 0 <= id < |m.subs| && m.subs[id] == Submission(kind, Waiting)
      ensures HasId(q, id)
    {
      assert l.subs[id] == m.subs[id] && id !in ids;
      var i :| 0 <= i < |queue| && queue[i].id == id;
      assert queue[i] in queue && queue[i] in q;
      var j :| 0 <= j < |q| && q[j] == queue[i];
    }
  }

  lemma CloseTracks<K(!new)>(l: Ledger<K>, queue: seq<Entry<K>>, kind: K, ids: set<nat>)
    requires Tracks(l, queue, kind) && Ids(queue) <= ids
    ensures Tracks(MarkAll(l, ids, ClosedWaiting), [], kind)
  {
    var m := MarkAll(l, ids, ClosedWaiting);
    forall id | 0 <= id < |l.subs| && l.subs[id] == Submission(kind, Waiting)
      ensures id in ids
    {
      var i :| 0 <= i < |queue| && queue[i].id == id;
      assert queue[i] in queue;
    }
    assert forall id :: 0 <= id < |m.subs| && id !in ids ==> m.subs[id] == l.subs[id];
  }

  // ------------------------------------------------------------------ counting

  function With<K>(l: Ledger<K>, fate: Fate): set<nat> {
    set id: nat | id < |l.subs| && l.subs[id].fate == fate
  }

  function StartedOf<K(==)>(l: Ledger<K>, kind: K): set<nat> {
    set id: nat | id < |l.subs| && l.subs[id].fate.Started() && l.subs[id].kind == kind
  }

  /** Every submission has exactly one fate, so the eight classes add up. */
  lemma {:induction false} FatesPartition<K>(l: Ledger<K>)
    ensures |l.subs| == |With(l, Refused)| + |With(l, Closed)| + |With(l, CancelledAtEntry)| + |With(l, Waiting)|
                        + |With(l, CancelledWaiting)| + |With(l, ClosedWaiting)| + |With(l, Running)| + |With(l, Finished)|
    decreases |l.subs|
  {
    if |l.subs| == 0 {
      assert With(l, Refused) == With(l, Closed) == With(l, CancelledAtEntry) == With(l, Waiting) == {};
      assert With(l, CancelledWaiting) == With(l, ClosedWaiting) == With(l, Running) == With(l, Finished) == {};
    } else {
      var n := |l.subs| - 1;
      var p := l.(subs := l.subs[..n]);
      FatesPartition(p);
      WithLast(l, Refused);
      WithLast(l, Closed);
      WithLast(l, CancelledAtEntry);
      WithLast(l, Waiting);
      WithLast(l, CancelledWaiting);
      WithLast(l, ClosedWaiting);
      WithLast(l, Running);
      WithLast(l, Finished);
    }
  }

  lemma WithLast<K>(l: Ledger<K>, fate: Fate)
    requires |l.subs| > 0
    ensures |With(l, fate)| == |With(l.(subs := l.subs[..|l.subs| - 1]), fate)|
                               + (if l.subs[|l.subs| - 1].fate == fate then 1 else 0)
  {
    var n := |l.subs| - 1;
    var p := With(l.(subs := l.subs[..n]), fate);
    assert n !in p;
    assert With(l, fate) == if l.subs[n].fate == fate then p + {n} else p;
  }

  lemma MarkAdds<K>(l: Ledger<K>, id: nat, fate: Fate)
    requires id < |l.subs| && l.subs[id].fate != fate
    ensures With(Mark(l, id, fate), fate) == With(l, fate) + {id} && id !in With(l, fate)
  {
  }

  lemma MarkDrops<K>(l: Ledger<K>, id: nat, fate: Fate)
    requires id < |l.subs| && l.subs[id].fate != fate
    ensures With(Mark(l, id, fate), l.subs[id].fate) == With(l, l.subs[id].fate) - {id} && id in With(l, l.subs[id].fate)
  {
  }

  lemma MarkCounts<K>(l: Ledger<K>, id: nat, fate: Fate)
    requires id < |l.subs| && l.subs[id].fate != fate
    ensures With(Mark(l, id, fate), fate) == With(l, fate) + {id} && id !in With(l, fate)
    ensures |With(Mark(l, id, fate), fate)| == |With(l, fate)| + 1
    ensures With(Mark(l, id, fate), l.subs[id].fate) == With(l, l.subs[id].fate) - {id} && id in With(l, l.subs[id].fate)
    ensures |With(Mark(l, id, fate), l.subs[id].fate)| == |With(l, l.subs[id].fate)| - 1
  {
    hide With, Mark;
    MarkAdds(l, id, fate);
    MarkDrops(l, id, fate);
  }

  lemma {:induction false} SortedIds<K(!new)>(queue: seq<Entry<K>>)
    requires Sorted(queue)
    ensures |Ids(queue)| == |queue|
  {
    if queue != [] {
      var n := |queue| - 1;
      SortedIds(queue[..n]);
      assert queue == queue[..n] + [queue[n]];
      assert Ids(queue) == Ids(queue[..n]) + {queue[n].id};
    } else {
      assert Ids(queue) == {};
    }
  }
}
