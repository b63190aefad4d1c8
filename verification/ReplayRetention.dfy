/**
 How long a response can be replayed: what the cache evicts, exactly, and what a retry gets meanwhile
 (crates/kodo/src/dispatcher.rs).
 */
module ReplayRetention {
  import opened Prelude
  import opened Utf8
  import opened ResponseCache
  import opened Dispatcher

  // ---- One eviction loop ----

  lemma {:induction false} SumSplits(a: seq<Entry>, b: seq<Entry>)
    ensures Sum(a + b) == Sum(a) + Sum(b)
  {
    if a == [] {
      assert a + b == b;
    } else {
      SumSplits(a[1..], b);
      assert (a + b)[1..] == a[1..] + b;
    }
  }

  lemma SuffixSums(order: seq<Entry>, p: nat)
    requires p <= |order|
    ensures Sum(order[p..]) <= Sum(order)
  {
    SumSplits(order[..p], order[p..]);
    assert order[..p] + order[p..] == order;
  }

  /** Trimming keeps exactly the responses that fit the byte quota together with all newer ones. */
  lemma {:induction false} TrimKeepsExactly(c: Cache, maxBytes: nat, p: nat)
    requires Sound(c) && p < |c.order|
    ensures c.order[p].0 in Trim(c, maxBytes).slots <==> Sum(c.order[p..]) <= maxBytes
    decreases |c.order|
  {
    if c.responseBytes <= maxBytes {
      SuffixSums(c.order, p);
    } else {
      hide Sum;
      var c' := EvictFront(c);
      EvictFrontSound(c);
      EvictFrontByParts(c);
      if p == 0 {
        assert c.order[0..] == c.order;
        TrimSound(c', maxBytes);
      } else {
        TrimKeepsExactly(c', maxBytes, p - 1);
        assert c'.order[p - 1] == c.order[p] && c'.order[p - 1..] == c.order[p..];
      }
    }
  }

  /** What is kept is the newest part of the order, and no longer part would have fitted. */
  lemma {:induction false} TrimKeepsLongest(c: Cache, maxBytes: nat, k: nat)
    requires Sound(c) && k <= |c.order| && Sum(c.order[k..]) <= maxBytes
    ensures IsSuffix(Trim(c, maxBytes).order, c.order)
    ensures |c.order| - k <= |Trim(c, maxBytes).order|
    decreases |c.order|
  {
    hide Sum, Sound, EvictFront, IsSuffix;
    SoundBytes(c);
    SuffixOfItself(c.order);
    if c.responseBytes > maxBytes {
      var c' := EvictFront(c);
      EvictFrontSound(c);
      EvictFrontByParts(c);
      assert c.order[0..] == c.order;
      assert k > 0;
      assert c'.order[k - 1..] == c.order[k..];
      TrimKeepsLongest(c', maxBytes, k - 1);
      SuffixOfTail(Trim(c', maxBytes).order, c.order);
    }
  }

  lemma SuffixOfItself<T>(s: seq<T>)
    ensures IsSuffix(s, s)
  {
  }

  lemma SuffixOfTail<T>(end: seq<T>, s: seq<T>)
    requires s != [] && IsSuffix(end, s[1..])
    ensures IsSuffix(end, s)
  {
  }

  lemma SoundBytes(c: Cache)
    requires Sound(c)
    ensures c.responseBytes == Sum(c.order)
    ensures c.order == [] ==> c.responseBytes == 0
  {
  }

  /** Making room evicts nothing while a slot is free, and the oldest completed response alone otherwise. */
  lemma MakeRoomEvictsOldest(c: Cache, maxRequests: nat)
    requires Sound(c) && |c.slots| <= maxRequests
    ensures MakeRoom(c, maxRequests) == if |c.slots| == maxRequests && c.order != [] then EvictFront(c) else c
  {
    hide Sum;
    if |c.slots| == maxRequests && c.order != [] {
      EvictFrontByParts(c);
      assert MakeRoom(EvictFront(c), maxRequests) == EvictFront(c);
    }
  }

  /**
   What a caller's first critical section decides: a live id joins its slot, an expired one is refused
   and told whether it asks for the same, a new one is elected - at the expense of the oldest completed
   response if every slot is taken - or refused if nothing can be evicted.
   */
  lemma AdmissionDecides(c: Cache, id: Uuid, fp: Fingerprint, handle: nat, maxRequests: nat)
    requires Sound(c) && |c.slots| <= maxRequests
    ensures var (c', d) := Admitted(c, id, fp, handle, maxRequests);
            if id in c.slots then c' == c && d == Existing(c.slots[id])
            else if id in c.expired then c' == c && d == Expired(c.expired[id] == fp)
            else if |c.slots| < maxRequests then
              d == Elected(Slot(handle, fp)) && c' == c.(slots := c.slots[id := Slot(handle, fp)])
            else if c.order == [] then c' == c && d == AtCapacity
            else
              var oldest := c.order[0].0;
              && d == Elected(Slot(handle, fp)) && oldest in c.slots
              && c'.slots == (c.slots - {oldest})[id := Slot(handle, fp)]
              && c'.expired == c.expired[oldest := c.slots[oldest].fingerprint]
              && c'.order == c.order[1..] && c'.responseBytes == c.responseBytes - c.order[0].1
  {
    hide Sum;
    MakeRoomEvictsOldest(c, maxRequests);
    if c.order != [] { EvictFrontByParts(c); }
  }

  // ---- Over runs ----

  /** The bytes of a completed response and all newer ones. */
  function SumFrom(order: seq<Entry>, id: Uuid): nat
  {
    if order == [] then 0 else if order[0].0 == id then Sum(order) else SumFrom(order[1..], id)
  }

  lemma {:induction false} SumFromPosition(order: seq<Entry>, p: nat)
    requires p < |order| && forall i, j :: 0 <= i < j < |order| ==> order[i].0 != order[j].0
    ensures SumFrom(order, order[p].0) == Sum(order[p..])
  {
    if p == 0 {
      assert order[0..] == order;
    } else {
      var rest := order[1..];
      assert forall i, j :: 0 <= i < j < |rest| ==> rest[i].0 != rest[j].0;
      SumFromPosition(rest, p - 1);
      assert rest[p - 1..] == order[p..];
    }
  }

  /**
   The step crowds a completed response out: a new id finds every slot taken and this one oldest, or a
   response completes that together with this one and all between exceeds the byte quota.
   */
  predicate Crowds(s: System, step: Step, q: Quotas, id: Uuid)
    requires Enabled(s, step)
  {
    match step
    case Dispatch(x, _) =>
      && x !in s.cache.slots && x !in s.cache.expired
      && |s.cache.slots| == q.maxRequests && s.cache.order != [] && s.cache.order[0].0 == id
    case Account(h) => SumFrom(s.cache.order, id) + ByteLen(s.tasks[h].progress.response) > q.maxBytes
    case _ => false
  }

  /** A completed response leaves the cache exactly when it is crowded out. */
  lemma EvictedExactlyWhen(s: System, step: Step, q: Quotas, id: Uuid)
    requires Inv(s, q) && Enabled(s, step) && InOrder(s.cache, id)
    ensures var c' := Apply(s, step, q).cache;
            && (id in c'.slots <==> !Crowds(s, step, q, id))
            && (id in c'.slots ==> InOrder(c', id))
            && (id !in c'.slots ==> id in c'.expired)
  {
    hide Sum, Trim, MakeRoom, SumFrom, ByteLen, TasksInv, HistoryInv;
    assert id in s.cache.slots by { OrderIsLive(s.cache); }
    match step
    case Dispatch(x, fp) => DispatchEvicts(s.cache, x, fp, |s.tasks|, q, id);
    case Account(h) => AccountEvicts(s, h, q, id);
    case _ =>
  }

  lemma DispatchEvicts(c: Cache, x: Uuid, fp: Fingerprint, handle: nat, q: Quotas, id: Uuid)
    requires Sound(c) && |c.slots| <= q.maxRequests && InOrder(c, id)
    ensures var c' := Admitted(c, x, fp, handle, q.maxRequests).0;
            && (id in c'.slots <==>
                  !(x !in c.slots && x !in c.expired && |c.slots| == q.maxRequests && c.order[0].0 == id))
            && (id in c'.slots ==> InOrder(c', id))
            && (id !in c'.slots ==> id in c'.expired)
  {
    hide Sum, MakeRoom, Sound;
    OrderIsLive(c);
    AdmissionDecides(c, x, fp, handle, q.maxRequests);
    var c' := Admitted(c, x, fp, handle, q.maxRequests).0;
    var p :| 0 <= p < |c.order| && c.order[p].0 == id;
    if c'.order == c.order[1..] && p > 0 {
      assert c'.order[p - 1].0 == id;
    }
    if c'.order == c.order { assert c'.order[p].0 == id; }
  }

  lemma AccountEvicts(s: System, h: nat, q: Quotas, id: Uuid)
    requires Inv(s, q) && Enabled(s, Account(h)) && InOrder(s.cache, id)
    ensures var c' := Apply(s, Account(h), q).cache;
            && (id in c'.slots <==> SumFrom(s.cache.order, id) + ByteLen(s.tasks[h].progress.response) <= q.maxBytes)
            && (id in c'.slots ==> InOrder(c', id))
            && (id !in c'.slots ==> id in c'.expired)
  {
    hide Trim, ByteLen, TasksInv, HistoryInv, SumFrom, Sound, InOrder;
    var t := s.tasks[h];
    PointerTestSucceeds(s, h, q);
    ResponseKeepsTasks(s.cache, s.tasks, h, ByteLen(t.progress.response));
    CompletionEvicts(s.cache, t.id, ByteLen(t.progress.response), q.maxBytes, id);
  }

  lemma CompletionEvicts(c: Cache, x: Uuid, len: nat, maxBytes: nat, id: Uuid)
    requires Sound(c) && InOrder(c, id) && Sound(WithResponse(c, x, len))
    ensures var c' := Trim(WithResponse(c, x, len), maxBytes);
            && (id in c'.slots <==> SumFrom(c.order, id) + len <= maxBytes)
            && (id in c'.slots ==> InOrder(c', id))
            && (id !in c'.slots ==> id in c'.expired)
  {
    var p :| 0 <= p < |c.order| && c.order[p].0 == id;
    OrderIsLive(c);
    hide Trim, SumFrom, Sound, Evicts, InOrder, Sum;
    var full := WithResponse(c, x, len);
    TrimKeepsExactly(full, maxBytes, p);
    SumFromPosition(c.order, p);
    SumWithNewest(c.order, p, (x, len));
    TrimSound(full, maxBytes);
    EvictedIsExpired(full, Trim(full, maxBytes), id, p);
  }

  lemma SumWithNewest(order: seq<Entry>, p: nat, newest: Entry)
    requires p <= |order|
    ensures Sum((order + [newest])[p..]) == Sum(order[p..]) + newest.1
  {
    assert (order + [newest])[p..] == order[p..] + [newest];
    SumAppend(order[p..], newest);
  }

  lemma EvictedIsExpired(c: Cache, c': Cache, id: Uuid, p: nat)
    requires Sound(c) && Evicts(c, c') && p < |c.order| && c.order[p].0 == id
    ensures id in c'.slots ==> InOrder(c', id)
    ensures id !in c'.slots ==> id in c'.expired
  {
    assert InOrder(c, id) && id in c.slots;
    assert id in c.slots.Keys + c.expired.Keys;
    assert id in c'.slots.Keys + c'.expired.Keys;
  }

  /** No step of the run crowds the response out. */
  predicate Spared(s: System, steps: seq<Step>, q: Quotas, id: Uuid)
    requires CanRun(s, steps, q)
    decreases |steps|
  {
    steps == [] || (!Crowds(s, steps[0], q, id) && Spared(Apply(s, steps[0], q), steps[1..], q, id))
  }

  lemma {:induction false} ExpiredForever(s: System, steps: seq<Step>, q: Quotas, id: Uuid)
    requires Inv(s, q) && CanRun(s, steps, q) && id in s.cache.expired
    ensures id !in Run(s, steps, q).cache.slots
    decreases |steps|
  {
    hide Inv, Apply, Enabled;
    if steps == [] {
      ExpiredIsNotLive(s, q, id);
    } else {
      StepKeepsInv(s, steps[0], q);
      StaysExpired(s, steps[0], q, id);
      ExpiredForever(Apply(s, steps[0], q), steps[1..], q, id);
    }
  }

  lemma ExpiredIsNotLive(s: System, q: Quotas, id: Uuid)
    requires Inv(s, q) && id in s.cache.expired
    ensures id !in s.cache.slots
  {
    hide TasksInv, HistoryInv;
    assert id in s.cache.expired.Keys;
  }

  lemma StaysExpired(s: System, step: Step, q: Quotas, id: Uuid)
    requires Inv(s, q) && Enabled(s, step) && id in s.cache.expired
    ensures id in Apply(s, step, q).cache.expired
  {
    hide Trim, MakeRoom, ByteLen, TasksInv, HistoryInv, Sound, Evicts;
    match step
    case Dispatch(x, fp) =>
      MakeRoomSound(s.cache, q.maxRequests);
      EvictionKeepsExpired(s.cache, MakeRoom(s.cache, q.maxRequests), id);
    case Account(h) =>
      var full := WithResponse(s.cache, s.tasks[h].id, ByteLen(s.tasks[h].progress.response));
      PointerTestSucceeds(s, h, q);
      ResponseKeepsTasks(s.cache, s.tasks, h, ByteLen(s.tasks[h].progress.response));
      TrimSound(full, q.maxBytes);
      EvictionKeepsExpired(full, Trim(full, q.maxBytes), id);
    case _ =>
  }

  lemma EvictionKeepsExpired(c: Cache, c': Cache, id: Uuid)
    requires Evicts(c, c') && id in c.expired
    ensures id in c'.expired
  {
  }

  /**
   Over every run, a completed response can be replayed at the end if and only if no step crowded it
   out: neither a new id that found every slot taken and this one oldest, nor newer responses that
   together with it exceed the byte quota.
   */
  lemma {:induction false} ReplayableUntilCrowdedOut(s: System, steps: seq<Step>, q: Quotas, id: Uuid)
    requires Inv(s, q) && CanRun(s, steps, q) && InOrder(s.cache, id)
    ensures id in Run(s, steps, q).cache.slots <==> Spared(s, steps, q, id)
    decreases |steps|
  {
    hide Inv, Apply, Enabled, Crowds;
    if steps == [] {
      assert id in s.cache.slots by { InOrderIsLive(s, q, id); }
    } else {
      StepKeepsInv(s, steps[0], q);
      EvictedExactlyWhen(s, steps[0], q, id);
      if Crowds(s, steps[0], q, id) {
        ExpiredForever(Apply(s, steps[0], q), steps[1..], q, id);
      } else {
        ReplayableUntilCrowdedOut(Apply(s, steps[0], q), steps[1..], q, id);
      }
    }
  }

  lemma InOrderIsLive(s: System, q: Quotas, id: Uuid)
    requires Inv(s, q) && InOrder(s.cache, id)
    ensures id in s.cache.slots
  {
    OrderIsLive(s.cache);
  }

  /**
   Meanwhile a retry with the same fingerprint is answered at once with the response of the one
   execution; a different fingerprint gets nothing from the slot.
   */
  lemma RetryIsAnswered(s: System, id: Uuid, fp: Fingerprint, q: Quotas)
    requires Inv(s, q) && InOrder(s.cache, id)
    ensures id in s.cache.slots && s.cache.slots[id].handle < |s.tasks|
    ensures var slot := s.cache.slots[id];
            var s', w := Apply(s, Dispatch(id, fp), q), Waiter(id, fp, slot.handle);
            && s'.tasks == s.tasks && s'.started == s.started && s'.cache == s.cache
            && (slot.fingerprint != fp ==> s' == s)
            && (slot.fingerprint == fp ==>
                  && s'.waiters == s.waiters + multiset{w}
                  && Enabled(s', Return(w))
                  && ProducedBy(s.tasks[slot.handle], Apply(s', Return(w), q).answers[|s.answers|]))
  {
    hide Sum, HistoryInv;
    OrderIsLive(s.cache);
    var h := s.cache.slots[id].handle;
    assert TaskKnown(s.cache, s.tasks[h], h);
  }

  /**
   Every caller that is let in waits on a slot: a new one on the execution it was elected for, a retry of
   a live id with the same fingerprint on the execution that owns it; nobody else waits.
   */
  lemma CallersWait(s: System, id: Uuid, fp: Fingerprint, q: Quotas)
    requires Inv(s, q)
    ensures var (s', c) := (Apply(s, Dispatch(id, fp), q), s.cache);
            && s'.started == s.started && s'.answers == s.answers
            && (if id in c.slots then
                  && s'.tasks == s.tasks
                  && s'.waiters == (if c.slots[id].fingerprint == fp then
                                      s.waiters + multiset{Waiter(id, fp, c.slots[id].handle)}
                                    else s.waiters)
                else if id !in c.expired && (|c.slots| < q.maxRequests || c.order != []) then
                  && s'.tasks == s.tasks + [Task(id, fp, Waiting)]
                  && s'.waiters == s.waiters + multiset{Waiter(id, fp, |s.tasks|)}
                else s'.tasks == s.tasks && s'.waiters == s.waiters)
  {
    hide Sum, MakeRoom, HistoryInv, TasksInv, Sound;
    AdmissionDecides(s.cache, id, fp, |s.tasks|, q.maxRequests);
  }
}
