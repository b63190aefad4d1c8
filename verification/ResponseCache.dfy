/** The dispatcher's bounded response cache with tombstones (crates/kodo/src/dispatcher.rs). */
module ResponseCache {
  import opened Prelude

  /** A SHA-256 digest of the session and the tool request. */
  type Fingerprint = nat

  /** A shared response slot; `handle` is its identity, which `Arc::ptr_eq` compares. */
  datatype Slot = Slot(handle: nat, fingerprint: Fingerprint)

  type Entry = (Uuid, nat)

  datatype Cache = Cache(
    slots: map<Uuid, Slot>, expired: map<Uuid, Fingerprint>, order: seq<Entry>, responseBytes: nat)

  const EMPTY_CACHE := Cache(map[], map[], [], 0)

  datatype Decision = Existing(slot: Slot) | Expired(matches: bool) | AtCapacity | Elected(slot: Slot)

  function SaturatingSub(a: nat, b: nat): nat { if b <= a then a - b else 0 }

  /** `remove_cached_response`: the slot goes, its id stays behind as a tombstone. */
  function Remove(c: Cache, id: Uuid, len: nat): (c': Cache)
  {
    var bytes := SaturatingSub(c.responseBytes, len);
    if id in c.slots then
      c.(slots := c.slots - {id}, expired := c.expired[id := c.slots[id].fingerprint], responseBytes := bytes)
    else c.(responseBytes := bytes)
  }

  /** Eviction of the oldest completed response. */
  function EvictFront(c: Cache): (c': Cache)
    requires c.order != []
  {
    Remove(c.(order := c.order[1..]), c.order[0].0, c.order[0].1)
  }

  /** Evict until a slot is free, or until nothing completed is left. */
  function MakeRoom(c: Cache, maxRequests: nat): (c': Cache)
    decreases |c.order|
  {
    if |c.slots| < maxRequests || c.order == [] then c else MakeRoom(EvictFront(c), maxRequests)
  }

  /** Evict until the retained bytes fit. */
  function Trim(c: Cache, maxBytes: nat): (c': Cache)
    decreases |c.order|
  {
    if c.responseBytes <= maxBytes || c.order == [] then c else Trim(EvictFront(c), maxBytes)
  }

  function Admitted(c: Cache, id: Uuid, fp: Fingerprint, handle: nat, maxRequests: nat): (r: (Cache, Decision))
  {
    if id in c.slots then (c, Existing(c.slots[id]))
    else if id in c.expired then (c, Expired(c.expired[id] == fp))
    else
      var roomy := MakeRoom(c, maxRequests);
      if |roomy.slots| < maxRequests then
        (roomy.(slots := roomy.slots[id := Slot(handle, fp)]), Elected(Slot(handle, fp)))
      else (roomy, AtCapacity)
  }

  function Completed(c: Cache, id: Uuid, handle: nat, len: nat, maxBytes: nat): (c': Cache)
  {
    if id in c.slots && c.slots[id].handle == handle then
      Trim(c.(responseBytes := c.responseBytes + len, order := c.order + [(id, len)]), maxBytes)
    else c
  }

  /** The cache as the runner keeps it behind its mutex. */
  class SharedCache {
    var slots: map<Uuid, Slot>
    var expired: map<Uuid, Fingerprint>
    var order: seq<Entry>
    var responseBytes: nat

    ghost function Value(): Cache
      reads this
    {
      Cache(slots, expired, order, responseBytes)
    }

    constructor ()
      ensures Value() == EMPTY_CACHE
    {
      slots, expired, order, responseBytes := map[], map[], [], 0;
    }

    method RemoveCachedResponse(id: Uuid, len: nat)
      modifies this
      ensures Value() == Remove(old(Value()), id, len)
    {
      if id in slots {
        expired := expired[id := slots[id].fingerprint];
        slots := slots - {id};
      }
      responseBytes := SaturatingSub(responseBytes, len);
    }

    /** The first critical section of a dispatch: find, refuse or elect. */
    method Admit(id: Uuid, fp: Fingerprint, handle: nat, maxRequests: nat) returns (d: Decision)
      modifies this
      ensures (Value(), d) == Admitted(old(Value()), id, fp, handle, maxRequests)
    {
      if id in slots {
        return Existing(slots[id]);
      }
      if id in expired {
        return Expired(expired[id] == fp);
      }
      while |slots| >= maxRequests
        invariant MakeRoom(Value(), maxRequests) == MakeRoom(old(Value()), maxRequests)
        decreases |order|
      {
        if order == [] {
          return AtCapacity;
        }
        var oldest := order[0];
        order := order[1..];
        RemoveCachedResponse(oldest.0, oldest.1);
      }
      slots := slots[id := Slot(handle, fp)];
      d := Elected(slots[id]);
    }

    /** The second critical section: account for the response, then evict to the byte quota. */
    method Complete(id: Uuid, handle: nat, len: nat, maxBytes: nat)
      modifies this
      ensures Value() == Completed(old(Value()), id, handle, len, maxBytes)
    {
      if id in slots && slots[id].handle == handle {
        responseBytes := responseBytes + len;
        order := order + [(id, len)];
        ghost var full := Value();
        while responseBytes > maxBytes
          invariant Trim(Value(), maxBytes) == Trim(full, maxBytes)
          decreases |order|
        {
          if order == [] {
            break;
          }
          var oldest := order[0];
          order := order[1..];
          RemoveCachedResponse(oldest.0, oldest.1);
        }
      }
    }
  }

  // ---- Accounting ----

  function Sum(order: seq<Entry>): (n: nat) { if order == [] then 0 else order[0].1 + Sum(order[1..]) }

  lemma {:induction false} SumAppend(order: seq<Entry>, last: Entry)
    ensures Sum(order + [last]) == Sum(order) + last.1
  {
    if order == [] {
      assert ([] + [last])[1..] == [];
    } else {
      SumAppend(order[1..], last);
      assert (order + [last])[1..] == order[1..] + [last];
    }
  }

  ghost predicate InOrder(c: Cache, id: Uuid) { exists i :: 0 <= i < |c.order| && c.order[i].0 == id }

  /** Live and tombstoned ids are disjoint, `order` lists distinct live ids, and the bytes add up. */
  ghost predicate Sound(c: Cache)
  {
    && c.slots.Keys !! c.expired.Keys
    && (forall i :: 0 <= i < |c.order| ==> c.order[i].0 in c.slots)
    && (forall i, j :: 0 <= i < j < |c.order| ==> c.order[i].0 != c.order[j].0)
    && c.responseBytes == Sum(c.order)
  }

  /** `c'` came from `c` by evicting completed responses only. */
  ghost predicate Evicts(c: Cache, c': Cache)
  {
    && c'.slots.Keys + c'.expired.Keys == c.slots.Keys + c.expired.Keys
    && (forall id :: id in c'.slots ==> id in c.slots && c'.slots[id] == c.slots[id])
    && (forall id :: id in c.slots && id !in c'.slots ==> InOrder(c, id))
    && (forall id :: id in c.expired ==> id in c'.expired && c'.expired[id] == c.expired[id])
    && (forall id :: id in c.slots && id !in c'.slots ==> c'.expired[id] == c.slots[id].fingerprint)
    && (forall id :: InOrder(c', id) <==> InOrder(c, id) && id in c'.slots)
  }

  /** One eviction: exact accounting (the saturating subtraction never clips), one slot fewer. */
  lemma EvictFrontSound(c: Cache)
    requires Sound(c) && c.order != []
    ensures Sound(EvictFront(c)) && Evicts(c, EvictFront(c))
    ensures |EvictFront(c).slots| == |c.slots| - 1
    ensures EvictFront(c).responseBytes == c.responseBytes - c.order[0].1
  {
    EvictFrontByParts(c);
    EvictFrontKeepsSound(c);
    EvictFrontEvicts(c);
  }

  lemma EvictFrontByParts(c: Cache)
    requires Sound(c) && c.order != []
    ensures var id, c' := c.order[0].0, EvictFront(c);
            && id in c.slots && id !in c.expired
            && c'.order == c.order[1..]
            && c'.slots == c.slots - {id}
            && c'.expired == c.expired[id := c.slots[id].fingerprint]
            && c'.responseBytes == c.responseBytes - c.order[0].1 == Sum(c.order[1..])
            && |c'.slots| == |c.slots| - 1
  {
    var id := c.order[0].0;
    assert (c.slots - {id}).Keys == c.slots.Keys - {id};
  }

  lemma EvictFrontKeepsSound(c: Cache)
    requires Sound(c) && c.order != []
    ensures Sound(EvictFront(c))
  {
    EvictFrontByParts(c);
    hide Sum, EvictFront;
    var c' := EvictFront(c);
    assert forall i :: 0 <= i < |c'.order| ==> c'.order[i] == c.order[i + 1];
  }

  lemma EvictFrontEvicts(c: Cache)
    requires Sound(c) && c.order != []
    ensures Evicts(c, EvictFront(c))
  {
    hide Sum, EvictFront, InOrder, Sound;
    EvictFrontByParts(c);
    OrderIsLive(c);
    var id, c' := c.order[0].0, EvictFront(c);
    EvictFrontOrder(c);
    assert c'.slots.Keys + c'.expired.Keys == c.slots.Keys + c.expired.Keys;
  }

  lemma EvictFrontOrder(c: Cache)
    requires Sound(c) && c.order != []
    ensures forall x :: InOrder(EvictFront(c), x) <==> InOrder(c, x) && x != c.order[0].0
  {
    hide Sum, EvictFront, InOrder, Sound;
    EvictFrontByParts(c);
    OrderIsLive(c);
    forall x
      ensures InOrder(EvictFront(c), x) <==> InOrder(c, x) && x != c.order[0].0
    {
      OrderAfterPop(c, EvictFront(c), x);
    }
  }

  lemma OrderIsLive(c: Cache)
    requires Sound(c)
    ensures forall x :: InOrder(c, x) ==> x in c.slots
    ensures c.order != [] ==> InOrder(c, c.order[0].0)
    ensures forall i, j :: 0 <= i < j < |c.order| ==> c.order[i].0 != c.order[j].0
  {
  }

  lemma OrderAfterPop(c: Cache, c': Cache, x: Uuid)
    requires c.order != [] && c'.order == c.order[1..]
    requires forall i, j :: 0 <= i < j < |c.order| ==> c.order[i].0 != c.order[j].0
    ensures InOrder(c', x) <==> InOrder(c, x) && x != c.order[0].0
  {
    if InOrder(c, x) && x != c.order[0].0 {
      var i :| 0 <= i < |c.order| && c.order[i].0 == x;
      assert c'.order[i - 1].0 == x;
    }
    if InOrder(c', x) {
      var i :| 0 <= i < |c'.order| && c'.order[i].0 == x;
      assert c.order[i + 1].0 == x;
    }
  }

  lemma EvictsTransitive(a: Cache, b: Cache, c: Cache)
    requires Evicts(a, b) && Evicts(b, c)
    ensures Evicts(a, c)
  {
  }

  lemma EvictsReflexive(c: Cache)
    requires c.slots.Keys !! c.expired.Keys
    requires forall i :: 0 <= i < |c.order| ==> c.order[i].0 in c.slots
    ensures Evicts(c, c)
  {
  }

  /** Room is made by evicting completed responses only, and only while every slot is taken. */
  lemma {:induction false} MakeRoomSound(c: Cache, maxRequests: nat)
    requires Sound(c)
    ensures var r := MakeRoom(c, maxRequests);
            && Sound(r) && Evicts(c, r)
            && r.responseBytes <= c.responseBytes
            && (|r.slots| < maxRequests || r.order == [])
    ensures |c.slots| <= maxRequests && c.order == [] ==> MakeRoom(c, maxRequests) == c
    ensures 0 < |c.slots| <= maxRequests && c.order != [] ==> |MakeRoom(c, maxRequests).slots| < maxRequests
    decreases |c.order|
  {
    hide Sound, Evicts, EvictFront;
    if |c.slots| < maxRequests || c.order == [] {
      SoundEvictsItself(c);
    } else {
      EvictFrontShrinks(c);
      EvictFrontSound(c);
      MakeRoomSound(EvictFront(c), maxRequests);
      EvictsTransitive(c, EvictFront(c), MakeRoom(EvictFront(c), maxRequests));
    }
  }

  lemma EvictFrontShrinks(c: Cache)
    requires c.order != []
    ensures EvictFront(c).order == c.order[1..]
  {
  }

  lemma SoundEvictsItself(c: Cache)
    requires Sound(c)
    ensures Evicts(c, c)
  {
    EvictsReflexive(c);
  }

  /** After trimming, the byte quota holds. */
  lemma {:induction false} TrimSound(c: Cache, maxBytes: nat)
    requires Sound(c)
    ensures var r := Trim(c, maxBytes);
            && Sound(r) && Evicts(c, r)
            && r.responseBytes <= maxBytes && |r.slots| <= |c.slots|
    decreases |c.order|
  {
    if c.responseBytes <= maxBytes || c.order == [] {
      SoundEvictsItself(c);
    } else {
      EvictFrontSound(c);
      TrimSound(EvictFront(c), maxBytes);
      EvictsTransitive(c, EvictFront(c), Trim(EvictFront(c), maxBytes));
    }
  }

  /** The newest response survives its own trimming exactly when it fits the byte quota by itself. */
  lemma {:induction false} NewestSurvives(c: Cache, maxBytes: nat)
    requires Sound(c) && c.order != []
    ensures c.order[|c.order| - 1].0 in Trim(c, maxBytes).slots <==> c.order[|c.order| - 1].1 <= maxBytes
    decreases |c.order|
  {
    var last := c.order[|c.order| - 1];
    LastIsPartOfSum(c.order);
    if c.responseBytes > maxBytes {
      EvictFrontSound(c);
      if |c.order| > 1 {
        assert EvictFront(c).order[|c.order| - 2] == last;
        NewestSurvives(EvictFront(c), maxBytes);
      } else {
        assert EvictFront(c).order == [];
      }
    }
  }

  lemma {:induction false} LastIsPartOfSum(order: seq<Entry>)
    requires order != []
    ensures order[|order| - 1].1 <= Sum(order)
    ensures |order| == 1 ==> order[0].1 == Sum(order)
  {
    if |order| > 1 {
      LastIsPartOfSum(order[1..]);
    }
  }
}
