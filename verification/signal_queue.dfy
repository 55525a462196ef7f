/**
 * Ownership of pulse buffers between the capture context, the bounded hand-off
 * queue and the single decoder worker. The ledger is the bookkeeping view of
 * the queue: which buffers were accepted or dropped, which the worker has
 * taken, which one it is processing, and how often each has been freed.
 */
module SignalQueue {
  import opened Wrappers
  import opened Signals

  /** Capacity of the hand-off queue (`xQueueCreate(5, ...)`). */
  const QueueCapacity: nat := 5

  datatype Ledger = Ledger(
    queued: seq<PulseTrain>,        // in the queue, oldest first
    inFlight: Option<PulseTrain>,   // held by the worker between receive and free
    taken: seq<PulseTrain>,         // every buffer the worker has received, in order
    accepted: seq<PulseTrain>,      // every buffer a send placed in the queue, in order
    dropped: seq<PulseTrain>,       // every buffer a send refused, in order
    freed: multiset<PulseTrain>)    // one occurrence per call of free()

  const EmptyLedger: Ledger := Ledger([], None, [], [], [], multiset{})

  /** How often a buffer occurs in a collection of buffers. */
  function Count(m: multiset<PulseTrain>, p: PulseTrain): nat {
    m[p]
  }

  /** No buffer occurs twice. */
  ghost predicate Distinct(m: multiset<PulseTrain>) {
    forall p :: Count(m, p) <= 1
  }

  /** Every buffer ever handed to a send, accepted or not. */
  function Handed(l: Ledger): multiset<PulseTrain> {
    multiset(l.accepted) + multiset(l.dropped)
  }

  /** The buffers the worker has received and already released. */
  function Done(l: Ledger): seq<PulseTrain> {
    if l.inFlight.Some? && |l.taken| > 0 then l.taken[..|l.taken| - 1] else l.taken
  }

  /**
   * The ledger invariant: the queue stays within capacity, the worker receives
   * exactly the accepted buffers in acceptance order, no buffer was handed over
   * twice, the in-flight buffer is the one received last, and the buffers freed
   * are exactly the dropped ones and the ones the worker has finished with.
   */
  ghost predicate Sound(l: Ledger) {
    && |l.queued| <= QueueCapacity
    && l.accepted == l.taken + l.queued
    && Distinct(Handed(l))
    && (l.inFlight.Some? ==> |l.taken| > 0 && l.taken[|l.taken| - 1] == l.inFlight.value)
    && l.freed == multiset(l.dropped) + multiset(Done(l))
  }

  /** A buffer the capture context may hand over: it was never handed over before. */
  predicate Fresh(l: Ledger, p: PulseTrain) {
    p !in l.accepted && p !in l.dropped
  }

  /**
   * Non-blocking send: append when there is room, otherwise the submitter
   * frees the buffer. Either way the worker's side is untouched.
   */
  function Submit(l: Ledger, p: PulseTrain): (r: Ledger)
    ensures r.taken == l.taken && r.inFlight == l.inFlight
    ensures |l.queued| < QueueCapacity ==> r.queued == l.queued + [p] && r.freed == l.freed
    ensures |l.queued| >= QueueCapacity ==> r.queued == l.queued && r.freed == l.freed + multiset{p}
  {
    if |l.queued| < QueueCapacity then l.(queued := l.queued + [p], accepted := l.accepted + [p])
    else l.(dropped := l.dropped + [p], freed := l.freed + multiset{p})
  }

  /**
   * The worker receives the oldest queued buffer and holds it; the rest of
   * the queue keeps its order and nothing is freed.
   */
  function Take(l: Ledger): (r: Ledger)
    requires l.queued != []
    ensures r.inFlight == Some(l.queued[0]) && r.queued == l.queued[1..]
    ensures r.taken == l.taken + [l.queued[0]]
    ensures r.accepted == l.accepted && r.dropped == l.dropped && r.freed == l.freed
  {
    l.(queued := l.queued[1..], inFlight := Some(l.queued[0]), taken := l.taken + [l.queued[0]])
  }

  /** The worker frees the buffer it holds, once, and is idle again. */
  function Release(l: Ledger): (r: Ledger)
    requires l.inFlight.Some?
    ensures r.inFlight.None? && r.freed == l.freed + multiset{l.inFlight.value}
    ensures r.queued == l.queued && r.taken == l.taken && Handed(r) == Handed(l)
  {
    l.(inFlight := None, freed := l.freed + multiset{l.inFlight.value})
  }

  lemma EmptyLedgerSound()
    ensures Sound(EmptyLedger) && EmptyLedger.inFlight.None?
  {
  }

  /**
   * Ownership is exclusive: a buffer is freed at most once, a queued buffer is
   * neither in flight nor freed, the in-flight buffer is not freed, and every
   * accepted buffer is still queued, in flight, or freed.
   */
  lemma Exclusive(l: Ledger, p: PulseTrain)
    requires Sound(l)
    ensures l.freed[p] <= 1
    ensures p in l.queued ==> p !in l.freed && l.inFlight != Some(p)
    ensures l.inFlight == Some(p) ==> p !in l.freed
    ensures p in l.accepted ==> p in l.queued || l.inFlight == Some(p) || p in l.freed
  {
    var d := Done(l);
    var f := if l.inFlight.Some? then [l.inFlight.value] else [];
    assert l.taken == d + f;
    assert multiset(l.accepted) == multiset(d) + multiset(f) + multiset(l.queued);
    assert Count(Handed(l), p) <= 1;
  }

  /** Adding a buffer that is not yet there keeps a collection free of repeats. */
  lemma DistinctAdd(m: multiset<PulseTrain>, p: PulseTrain)
    requires Distinct(m) && m[p] == 0
    ensures Distinct(m + multiset{p})
  {
    forall x ensures Count(m + multiset{p}, x) <= 1 {
      assert Count(m, x) <= 1;
    }
  }

  /** A send that finds room: the buffer joins the tail of the queue. */
  lemma AcceptSound(l: Ledger, p: PulseTrain)
    requires Sound(l) && Fresh(l, p) && |l.queued| < QueueCapacity
    ensures Sound(Submit(l, p)) && Handed(Submit(l, p)) == Handed(l) + multiset{p}
  {
    var l' := Submit(l, p);
    assert Handed(l)[p] == 0;
    DistinctAdd(Handed(l), p);
    assert l'.accepted == l.taken + l'.queued;
    assert Done(l') == Done(l);
    assert multiset(l'.accepted) == multiset(l.accepted) + multiset{p};
    assert Handed(l') == Handed(l) + multiset{p};
  }

  /** A send that finds the queue full: the submitter frees the buffer. */
  lemma DropSound(l: Ledger, p: PulseTrain)
    requires Sound(l) && Fresh(l, p) && |l.queued| >= QueueCapacity
    ensures Sound(Submit(l, p)) && Handed(Submit(l, p)) == Handed(l) + multiset{p}
  {
    var l' := Submit(l, p);
    assert Handed(l)[p] == 0;
    DistinctAdd(Handed(l), p);
    assert multiset(l'.dropped) == multiset(l.dropped) + multiset{p};
    assert Handed(l') == Handed(l) + multiset{p};
    assert l'.freed == multiset(l'.dropped) + multiset(Done(l'));
  }

  /** A send of a fresh buffer keeps the ledger sound, whichever way it goes. */
  lemma SubmitSound(l: Ledger, p: PulseTrain)
    requires Sound(l) && Fresh(l, p)
    ensures Sound(Submit(l, p)) && Handed(Submit(l, p)) == Handed(l) + multiset{p}
  {
    if |l.queued| < QueueCapacity {
      AcceptSound(l, p);
    } else {
      DropSound(l, p);
    }
  }

  /**
   * Receiving the oldest buffer, when the worker holds none, keeps the ledger
   * sound, and the buffer the worker now holds is neither still queued nor
   * freed.
   */
  lemma TakeSound(l: Ledger)
    requires Sound(l) && l.queued != [] && l.inFlight.None?
    ensures Sound(Take(l)) && l.queued[0] !in Take(l).freed && l.queued[0] !in Take(l).queued
  {
    Exclusive(l, l.queued[0]);
    var l' := Take(l);
    assert l.queued == [l.queued[0]] + l.queued[1..];
    assert l'.accepted == l'.taken + l'.queued;
    assert Done(l') == l.taken;
    Exclusive(l', l.queued[0]);
  }

  /** Freeing the held buffer keeps the ledger sound, and that buffer is now freed exactly once. */
  lemma ReleaseSound(l: Ledger)
    requires Sound(l) && l.inFlight.Some?
    ensures Sound(Release(l)) && Release(l).freed[l.inFlight.value] == 1
  {
    Exclusive(l, l.inFlight.value);
    var d := Done(l);
    assert l.taken == d + [l.inFlight.value];
    assert multiset(l.taken) == multiset(d) + multiset{l.inFlight.value};
  }

  /**
   * A whole worker iteration: the oldest queued buffer is received and freed
   * once, the rest of the queue moves up, and the ledger stays sound.
   */
  lemma WorkSound(l: Ledger)
    requires Sound(l) && l.queued != [] && l.inFlight.None?
    ensures var l' := Release(Take(l));
      && Sound(l') && l'.inFlight.None?
      && l'.queued == l.queued[1..]
      && l'.taken == l.taken + [l.queued[0]]
      && l'.freed == l.freed + multiset{l.queued[0]}
  {
    TakeSound(l);
    ReleaseSound(Take(l));
  }

  /** What can happen to the queue: a send by the capture context, or one worker iteration. */
  datatype Action = Send(p: PulseTrain) | WorkOnce

  /**
   * One action. A send hands over its buffer; a worker iteration receives,
   * processes and frees the oldest buffer, or with an empty queue stays
   * blocked and changes nothing.
   */
  function Step(l: Ledger, a: Action): (r: Ledger)
    ensures Handed(r) == Handed(l) + multiset(SentBy(a))
    ensures a == WorkOnce && l.queued == [] ==> r == l
    ensures a == WorkOnce && l.queued != [] ==> r.inFlight.None? && r.queued == l.queued[1..]
  {
    match a
    case Send(p) => Submit(l, p)
    case WorkOnce => if l.queued == [] then l else Release(Take(l))
  }

  /**
   * A run of actions, one after another. Along it what was accepted,
   * dropped and received is only ever extended.
   */
  function Replay(l: Ledger, acts: seq<Action>): (r: Ledger)
    ensures l.accepted <= r.accepted && l.dropped <= r.dropped && l.taken <= r.taken
    decreases |acts|
  {
    if acts == [] then l else Replay(Step(l, acts[0]), acts[1..])
  }

  /** The buffer an action sends, if any. */
  function SentBy(a: Action): seq<PulseTrain> {
    if a.Send? then [a.p] else []
  }

  /** The buffers sent along a run, in order. */
  function Sent(acts: seq<Action>): seq<PulseTrain> {
    if acts == [] then [] else SentBy(acts[0]) + Sent(acts[1..])
  }

  /** One action, from an idle worker and with a fresh buffer if it sends one. */
  lemma StepSound(l: Ledger, a: Action)
    requires Sound(l) && l.inFlight.None?
    requires a.Send? ==> Fresh(l, a.p)
    ensures var l' := Step(l, a);
      && Sound(l') && l'.inFlight.None?
      && Handed(l') == Handed(l) + multiset(SentBy(a))
      && l.accepted <= l'.accepted && l.taken <= l'.taken && l.dropped <= l'.dropped
  {
    match a {
      case Send(p) =>
        SubmitSound(l, p);
      case WorkOnce =>
        if l.queued != [] {
          WorkSound(l);
        }
    }
  }

  /** In a run whose sent buffers are all new, the first one sent is fresh. */
  lemma HeadFresh(l: Ledger, acts: seq<Action>)
    requires acts != [] && acts[0].Send?
    requires Distinct(Handed(l) + multiset(Sent(acts)))
    ensures Fresh(l, acts[0].p)
  {
    var p := acts[0].p;
    assert Sent(acts) == [p] + Sent(acts[1..]);
    assert Count(Handed(l) + multiset(Sent(acts)), p) <= 1;
  }

  /**
   * Along any run of sends and worker iterations in which every sent buffer
   * is new, the ledger stays sound, the worker is idle between iterations,
   * every sent buffer ends up accepted or dropped (not both, not neither),
   * and acceptance and reception only ever append, so the worker receives
   * buffers in the order they were accepted.
   */
  lemma {:induction false} ReplaySound(l: Ledger, acts: seq<Action>)
    requires Sound(l) && l.inFlight.None?
    requires Distinct(Handed(l) + multiset(Sent(acts)))
    ensures var r := Replay(l, acts);
      && Sound(r) && r.inFlight.None?
      && Handed(r) == Handed(l) + multiset(Sent(acts))
      && l.accepted <= r.accepted && l.taken <= r.taken && l.dropped <= r.dropped
    decreases |acts|
  {
    if acts != [] {
      ReplayHead(l, acts);
      ReplaySound(Step(l, acts[0]), acts[1..]);
    }
  }

  /** The first action of such a run keeps the ledger sound and leaves a run of new buffers. */
  lemma ReplayHead(l: Ledger, acts: seq<Action>)
    requires Sound(l) && l.inFlight.None? && acts != []
    requires Distinct(Handed(l) + multiset(Sent(acts)))
    ensures var l' := Step(l, acts[0]);
      && Sound(l') && l'.inFlight.None?
      && Handed(l') + multiset(Sent(acts[1..])) == Handed(l) + multiset(Sent(acts))
      && l.accepted <= l'.accepted && l.taken <= l'.taken && l.dropped <= l'.dropped
  {
    var a := acts[0];
    assert multiset(Sent(acts)) == multiset(SentBy(a)) + multiset(Sent(acts[1..]));
    if a.Send? {
      HeadFresh(l, acts);
    }
    StepSound(l, a);
  }

  /** `n` sends in a row, with no worker iteration in between. */
  function Sends(ps: seq<PulseTrain>): (acts: seq<Action>)
    ensures Sent(acts) == ps
  {
    if ps == [] then [] else [Send(ps[0])] + Sends(ps[1..])
  }

  /** How many of `n` back-to-back sends find room in a queue holding `queued` buffers. */
  function Room(queued: nat, n: nat): nat
    requires queued <= QueueCapacity
  {
    if n < QueueCapacity - queued then n else QueueCapacity - queued
  }

  /** Back-to-back sends of `ps`, oldest first. */
  function SendAll(l: Ledger, ps: seq<PulseTrain>): Ledger
    decreases |ps|
  {
    if ps == [] then l else SendAll(Submit(l, ps[0]), ps[1..])
  }

  /** Replaying a run made only of sends is sending each buffer in turn. */
  lemma {:induction false} SendsReplay(l: Ledger, ps: seq<PulseTrain>)
    ensures Replay(l, Sends(ps)) == SendAll(l, ps)
    decreases |ps|
  {
    if ps != [] {
      var acts := Sends(ps);
      assert acts[0] == Send(ps[0]) && acts[1..] == Sends(ps[1..]);
      SendsReplay(Submit(l, ps[0]), ps[1..]);
    }
  }

  /** Sends never touch what the worker has received or holds. */
  lemma {:induction false} SendsLeaveWorker(l: Ledger, ps: seq<PulseTrain>)
    ensures SendAll(l, ps).taken == l.taken && SendAll(l, ps).inFlight == l.inFlight
    decreases |ps|
  {
    if ps != [] {
      SendsLeaveWorker(Submit(l, ps[0]), ps[1..]);
    }
  }

  /** Into a full queue, every send is refused and its buffer freed by the submitter. */
  lemma {:induction false} SendsIntoFullQueue(l: Ledger, ps: seq<PulseTrain>)
    requires |l.queued| == QueueCapacity
    ensures SendAll(l, ps).queued == l.queued && SendAll(l, ps).accepted == l.accepted
    ensures SendAll(l, ps).dropped == l.dropped + ps
    ensures SendAll(l, ps).freed == l.freed + multiset(ps)
    decreases |ps|
  {
    if ps != [] {
      SendsIntoFullQueue(Submit(l, ps[0]), ps[1..]);
      assert ps == [ps[0]] + ps[1..];
    }
  }

  /** Of a burst, exactly the first `Room` buffers join the queue, in order. */
  lemma {:induction false} SendsFillQueue(l: Ledger, ps: seq<PulseTrain>)
    requires |l.queued| <= QueueCapacity
    ensures var k := Room(|l.queued|, |ps|);
      && SendAll(l, ps).queued == l.queued + ps[..k]
      && SendAll(l, ps).accepted == l.accepted + ps[..k]
    decreases |ps|
  {
    if ps == [] {
    } else if |l.queued| == QueueCapacity {
      SendsIntoFullQueue(l, ps);
    } else {
      SendsFillQueue(Submit(l, ps[0]), ps[1..]);
      FillShift(l, ps);
    }
  }

  /** A send that finds room moves the first buffer of a burst into the queue. */
  lemma FillShift(l: Ledger, ps: seq<PulseTrain>)
    requires |l.queued| < QueueCapacity && ps != []
    ensures var k := Room(|l.queued|, |ps|);
      var l' := Submit(l, ps[0]);
      && |l'.queued| <= QueueCapacity && Room(|l'.queued|, |ps| - 1) == k - 1
      && l'.queued + ps[1..][..k - 1] == l.queued + ps[..k]
      && l'.accepted + ps[1..][..k - 1] == l.accepted + ps[..k]
  {
    var k := Room(|l.queued|, |ps|);
    assert ps[..k] == [ps[0]] + ps[1..][..k - 1];
  }

  /** Of a burst, every buffer after the first `Room` is refused and freed by its submitter. */
  lemma {:induction false} SendsOverflow(l: Ledger, ps: seq<PulseTrain>)
    requires |l.queued| <= QueueCapacity
    ensures var k := Room(|l.queued|, |ps|);
      && SendAll(l, ps).dropped == l.dropped + ps[k..]
      && SendAll(l, ps).freed == l.freed + multiset(ps[k..])
    decreases |ps|
  {
    if ps == [] {
    } else if |l.queued| == QueueCapacity {
      SendsIntoFullQueue(l, ps);
    } else {
      var l' := Submit(l, ps[0]);
      SendsOverflow(l', ps[1..]);
      var k := Room(|l.queued|, |ps|);
      assert Room(|l'.queued|, |ps| - 1) == k - 1;
      assert ps[k..] == ps[1..][k - 1..];
    }
  }

  /**
   * Drop on overflow: while the worker is blocked, a burst of sends fills the
   * free places in order and every further buffer is refused and freed by its
   * submitter; nothing reaches the worker and the queue never exceeds capacity.
   */
  lemma BurstWhileBlocked(l: Ledger, ps: seq<PulseTrain>)
    requires |l.queued| <= QueueCapacity
    ensures var k := Room(|l.queued|, |ps|);
      var r := Replay(l, Sends(ps));
      && r.queued == l.queued + ps[..k]
      && r.accepted == l.accepted + ps[..k]
      && r.dropped == l.dropped + ps[k..]
      && r.freed == l.freed + multiset(ps[k..])
      && r.taken == l.taken && r.inFlight == l.inFlight
      && |r.queued| <= QueueCapacity
  {
    SendsReplay(l, ps);
    SendsFillQueue(l, ps);
    SendsOverflow(l, ps);
    SendsLeaveWorker(l, ps);
  }

  /** `n` worker iterations in a row, with no send in between. */
  function Works(n: nat): (acts: seq<Action>)
    ensures |acts| == n && Sent(acts) == []
  {
    if n == 0 then [] else [WorkOnce] + Works(n - 1)
  }

  /** `n` worker iterations on a queue holding at least `n` buffers. */
  function WorkAll(l: Ledger, n: nat): Ledger
    requires n <= |l.queued|
    decreases n
  {
    if n == 0 then l else WorkAll(Release(Take(l)), n - 1)
  }

  lemma {:induction false} WorksReplay(l: Ledger, n: nat)
    requires n <= |l.queued|
    ensures Replay(l, Works(n)) == WorkAll(l, n)
    decreases n
  {
    if n > 0 {
      var acts := Works(n);
      assert acts[0] == WorkOnce && acts[1..] == Works(n - 1);
      WorksReplay(Release(Take(l)), n - 1);
    }
  }

  /** FIFO: `n` worker iterations receive the `n` oldest queued buffers in queue order. */
  lemma {:induction false} WorkersTakeInOrder(l: Ledger, n: nat)
    requires n <= |l.queued|
    ensures WorkAll(l, n).taken == l.taken + l.queued[..n]
    ensures WorkAll(l, n).queued == l.queued[n..]
    ensures WorkAll(l, n).inFlight == (if n == 0 then l.inFlight else None)
    ensures WorkAll(l, n).accepted == l.accepted && WorkAll(l, n).dropped == l.dropped
    decreases n
  {
    if n > 0 {
      var l' := Release(Take(l));
      WorkersTakeInOrder(l', n - 1);
      assert l.queued[..n] == [l.queued[0]] + l'.queued[..n - 1];
      assert l'.queued[n - 1..] == l.queued[n..];
    }
  }

  /** Each of those iterations frees the buffer it received, once. */
  lemma {:induction false} WorkersFreeWhatTheyTake(l: Ledger, n: nat)
    requires n <= |l.queued|
    ensures WorkAll(l, n).freed == l.freed + multiset(l.queued[..n])
    decreases n
  {
    if n > 0 {
      var l' := Release(Take(l));
      WorkersFreeWhatTheyTake(l', n - 1);
      assert WorkAll(l, n) == WorkAll(l', n - 1);
      PrefixSplit(l.queued, n);
    }
  }

  /** The first n buffers of a queue are its head and the first n - 1 of the rest. */
  lemma PrefixSplit(q: seq<PulseTrain>, n: nat)
    requires 0 < n <= |q|
    ensures multiset(q[..n]) == multiset{q[0]} + multiset(q[1..][..n - 1])
  {
    assert q[..n] == [q[0]] + q[1..][..n - 1];
  }

  /**
   * The six-buffer burst: into an empty queue with the worker blocked, the
   * sixth of six sends is refused and its buffer freed by the submitter.
   */
  lemma SixthSendDropped(ps: seq<PulseTrain>)
    requires |ps| == 6
    ensures Replay(EmptyLedger, Sends(ps)).queued == ps[..5]
    ensures Replay(EmptyLedger, Sends(ps)).dropped == [ps[5]]
    ensures Replay(EmptyLedger, Sends(ps)).freed == multiset{ps[5]}
  {
    BurstWhileBlocked(EmptyLedger, ps);
    assert Room(0, 6) == 5;
    assert ps[5..] == [ps[5]];
  }

  /**
   * A burst into an empty queue followed by as many worker iterations as
   * buffers were accepted: the worker receives the accepted buffers in
   * submission order, the queue is empty again, and every buffer of the
   * burst, accepted or dropped, has been freed exactly once.
   */
  lemma BurstThenDrain(l: Ledger, ps: seq<PulseTrain>)
    requires l.queued == [] && l.inFlight.None?
    ensures var k := Room(0, |ps|);
      var r := Replay(l, Sends(ps) + Works(k));
      && r.taken == l.taken + ps[..k]
      && r.dropped == l.dropped + ps[k..]
      && r.queued == [] && r.inFlight.None?
      && r.freed == l.freed + multiset(ps)
  {
    var k := Room(0, |ps|);
    SendsReplay(l, ps);
    var s := SendAll(l, ps);
    SendsFillQueue(l, ps);
    SendsOverflow(l, ps);
    SendsLeaveWorker(l, ps);
    assert s.queued == ps[..k];
    ReplayAppend(l, Sends(ps), Works(k));
    WorksReplay(s, k);
    DrainBurst(l, ps, s, k);
  }

  /** The drain half of BurstThenDrain, from the ledger the burst leaves behind. */
  lemma DrainBurst(l: Ledger, ps: seq<PulseTrain>, s: Ledger, k: nat)
    requires k <= |ps|
    requires s.queued == ps[..k] && s.taken == l.taken && s.inFlight.None?
    requires s.dropped == l.dropped + ps[k..] && s.freed == l.freed + multiset(ps[k..])
    ensures WorkAll(s, k).taken == l.taken + ps[..k]
    ensures WorkAll(s, k).dropped == l.dropped + ps[k..]
    ensures WorkAll(s, k).queued == [] && WorkAll(s, k).inFlight.None?
    ensures WorkAll(s, k).freed == l.freed + multiset(ps)
  {
    WorkersTakeInOrder(s, k);
    WorkersFreeWhatTheyTake(s, k);
    assert s.queued[..k] == ps[..k];
    assert ps == ps[..k] + ps[k..];
    assert multiset(ps) == multiset(ps[..k]) + multiset(ps[k..]);
  }

  /** A run split in two replays as its first part followed by its second. */
  lemma {:induction false} ReplayAppend(l: Ledger, xs: seq<Action>, ys: seq<Action>)
    ensures Replay(l, xs + ys) == Replay(Replay(l, xs), ys)
    decreases |xs|
  {
    if xs == [] {
      assert xs + ys == ys;
    } else {
      assert (xs + ys)[0] == xs[0] && (xs + ys)[1..] == xs[1..] + ys;
      ReplayAppend(Step(l, xs[0]), xs[1..], ys);
    }
  }
}
