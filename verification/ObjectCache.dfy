/**
  The server's object cache in place: a list and a map that share mutable elements.
  Every method is tied to a step of `CacheSpec` through `View`, and to the order of the
  list through `Keys`.
*/
module ObjectCache {
  import opened Basics
  import opened CacheSpec

  class CachedElement<K(==), V> {
    const key: K
    var value: V
    var updateTime: int
    var expireTime: int

    constructor (key: K, value: V, updateTime: int, expireTime: int)
      ensures this.key == key && this.value == value
      ensures this.updateTime == updateTime && this.expireTime == expireTime
    {
      this.key, this.value, this.updateTime, this.expireTime := key, value, updateTime, expireTime;
    }
  }

  /** The elements of a list whose deadline is strictly before `now`. */
  ghost function Expired<K, V>(els: seq<CachedElement<K, V>>, now: int): set<CachedElement<K, V>>
    reads els
  {
    set e | e in els && e.expireTime < now
  }

  /** What is left of a list without the elements of `dead`, in order. */
  ghost function Without<K, V>(els: seq<CachedElement<K, V>>, dead: set<CachedElement<K, V>>)
      : (r: seq<CachedElement<K, V>>)
    ensures forall i | 0 <= i < |r| :: r[i] in els && r[i] !in dead
  {
    if els == [] then []
    else if els[0] in dead then Without(els[1..], dead)
    else [els[0]] + Without(els[1..], dead)
  }

  /** The keys of the elements of `dead` in a list, in order. */
  ghost function KeysOf<K, V>(els: seq<CachedElement<K, V>>, dead: set<CachedElement<K, V>>): seq<K> {
    if els == [] then []
    else if els[0] in dead then [els[0].key] + KeysOf(els[1..], dead)
    else KeysOf(els[1..], dead)
  }

  ghost function Forget<K, V>(m: map<K, V>, ks: seq<K>): map<K, V>
    decreases |ks|
  {
    if ks == [] then m else Forget(m - {ks[0]}, ks[1..])
  }

  lemma {:induction false} ForgetMembers<K, V>(m: map<K, V>, ks: seq<K>)
    ensures forall k :: k in Forget(m, ks) <==> k in m && k !in ks
    ensures forall k :: k in Forget(m, ks) ==> k in m && Forget(m, ks)[k] == m[k]
    decreases |ks|
  {
    if ks != [] {
      ForgetMembers(m - {ks[0]}, ks[1..]);
      assert ks == [ks[0]] + ks[1..];
    }
  }

  /** One turn of the cursor loop: the element at `p` is taken out, or stepped over. */
  lemma WithoutStep<K, V>(els: seq<CachedElement<K, V>>, p: nat, dead: set<CachedElement<K, V>>)
    requires p < |els|
    ensures els[p] in dead ==>
      var els' := els[..p] + els[p + 1..];
      && els'[..p] == els[..p] && els'[p..] == els[p + 1..]
      && Without(els[p..], dead) == Without(els'[p..], dead)
      && KeysOf(els[p..], dead) == [els[p].key] + KeysOf(els'[p..], dead)
    ensures els[p] !in dead ==>
      && els[..p] + Without(els[p..], dead) == els[..p + 1] + Without(els[p + 1..], dead)
      && KeysOf(els[p..], dead) == KeysOf(els[p + 1..], dead)
  {
  }

  lemma {:induction false} WithoutMembers<K, V>(els: seq<CachedElement<K, V>>, dead: set<CachedElement<K, V>>)
    ensures forall e :: e in Without(els, dead) <==> e in els && e !in dead
  {
    if els != [] {
      WithoutMembers(els[1..], dead);
      assert els == [els[0]] + els[1..];
    }
  }

  lemma {:induction false} WithoutDistinct<K, V>(els: seq<CachedElement<K, V>>, dead: set<CachedElement<K, V>>)
    requires DistinctKeys(els)
    ensures DistinctKeys(Without(els, dead))
  {
    if els != [] {
      WithoutDistinct(els[1..], dead);
      var a := Without(els[1..], dead);
      forall i | 0 <= i < |a| ensures a[i].key != els[0].key {
        var j :| 0 <= j < |els| - 1 && els[1..][j] == a[i];
      }
    }
  }

  lemma {:induction false} KeysOfMembers<K, V>(els: seq<CachedElement<K, V>>, dead: set<CachedElement<K, V>>)
    requires DistinctKeys(els)
    ensures forall e | e in els :: e.key in KeysOf(els, dead) <==> e in dead
    ensures forall k | k in KeysOf(els, dead) :: exists i :: 0 <= i < |els| && els[i].key == k
  {
    if els != [] {
      KeysOfMembers(els[1..], dead);
      assert els == [els[0]] + els[1..];
      forall k | k in KeysOf(els, dead) ensures exists i :: 0 <= i < |els| && els[i].key == k {
        if k in KeysOf(els[1..], dead) {
          var i :| 0 <= i < |els| - 1 && els[1..][i].key == k;
          assert els[i + 1].key == k;
        } else {
          assert els[0].key == k;
        }
      }
    }
  }

  /** Taking the one element with a given key out of a list. */
  lemma {:induction false} WithoutOne<K, V>(els: seq<CachedElement<K, V>>, p: nat)
    requires p < |els| && DistinctKeys(els)
    ensures Without(els, {els[p]}) == els[..p] + els[p + 1..]
  {
    if p == 0 {
      WithoutNone(els[1..], els[0]);
    } else {
      var tail := els[1..];
      WithoutOne(tail, p - 1);
      assert els[p] == tail[p - 1] && els[0] != els[p];
      assert els[..p] + els[p + 1..] == [els[0]] + (tail[..p - 1] + tail[p..]);
    }
  }

  lemma {:induction false} WithoutNone<K, V>(els: seq<CachedElement<K, V>>, e: CachedElement<K, V>)
    requires forall i | 0 <= i < |els| :: els[i].key != e.key
    ensures Without(els, {e}) == els
  {
    if els != [] {
      WithoutNone(els[1..], e);
    }
  }

  ghost predicate DistinctKeys<K, V>(els: seq<CachedElement<K, V>>) {
    forall i, j | 0 <= i < j < |els| :: els[i].key != els[j].key
  }

  /** List and map hold the same elements, and no two share a key. */
  ghost predicate Linked<K, V>(els: seq<CachedElement<K, V>>, m: map<K, CachedElement<K, V>>) {
    && DistinctKeys(els)
    && (forall e | e in els :: e.key in m && m[e.key] == e)
    && (forall k | k in m :: m[k] in els && m[k].key == k)
  }

  lemma LinkedAppend<K, V>(els: seq<CachedElement<K, V>>, m: map<K, CachedElement<K, V>>, e: CachedElement<K, V>)
    requires Linked(els, m) && e.key !in m
    ensures Linked(els + [e], m[e.key := e])
  {
  }

  /** Dropping one element from the list and its key from the map. */
  lemma LinkedRemove<K, V>(els: seq<CachedElement<K, V>>, m: map<K, CachedElement<K, V>>, key: K)
    requires Linked(els, m) && key in m
    ensures Linked(Without(els, {m[key]}), m - {key})
  {
    WithoutMembers(els, {m[key]});
    WithoutDistinct(els, {m[key]});
  }

  /** Dropping `dead` from the list and its keys from the map. */
  lemma WithoutLinked<K, V>(els: seq<CachedElement<K, V>>, m: map<K, CachedElement<K, V>>,
                            m': map<K, CachedElement<K, V>>, dead: set<CachedElement<K, V>>)
    requires Linked(els, m)
    requires m' == Forget(m, KeysOf(els, dead))
    ensures Linked(Without(els, dead), m')
    ensures forall k :: k in m' <==> k in m && m[k] !in dead
    ensures forall k :: k in m' ==> m'[k] == m[k]
  {
    WithoutMembers(els, dead);
    WithoutDistinct(els, dead);
    KeysOfMembers(els, dead);
    ForgetMembers(m, KeysOf(els, dead));
  }

  class ObjectCache<K(==), V> {
    var elements: seq<CachedElement<K, V>>
    var elementsMap: map<K, CachedElement<K, V>>
    var chSet: seq<Request<K, V>>
    var chRemove: seq<K>
    const chanBuffer: nat
    // whether an expire handler is installed, and the keys it has been called with
    const hasExpireHandler: bool
    var handled: seq<K>
    // what the map shows: the value and deadline behind every key
    ghost var entries: map<K, Entry<V>>
    // the requests and cleanups processed so far
    ghost var history: seq<Event<K, V>>

    /** The map shows exactly what was processed. */
    ghost predicate Valid()
      reads this, elements
    {
      Shape() && entries == Replay(history)
    }

    ghost predicate Shape()
      reads this, elements
    {
      && Linked(elements, elementsMap)
      && entries.Keys == elementsMap.Keys
      && (forall k | k in elementsMap :: entries[k] == Entry(elementsMap[k].value, elementsMap[k].expireTime))
    }

    ghost function View(): Store<K, V>
      reads this
    {
      Store(entries, chSet, chRemove)
    }

    constructor (chanBuffer: nat, hasExpireHandler: bool)
      ensures Valid() && View() == Store(map[], [], []) && elements == []
      ensures this.chanBuffer == chanBuffer && this.hasExpireHandler == hasExpireHandler
      ensures handled == [] && history == []
    {
      this.chanBuffer, this.hasExpireHandler := chanBuffer, hasExpireHandler;
      elements, elementsMap, chSet, chRemove, handled, entries, history := [], map[], [], [], [], map[], [];
    }

    method SetInternal(key: K, value: V, lifeTime: int, now: int) returns (element: CachedElement<K, V>)
      requires Valid()
      modifies this`elements, this`elementsMap, this`entries, this`history, elements
      ensures Valid() && history == old(history) + [SetAt(key, value, lifeTime, now)]
      ensures View() == old(View()).(entries := SetEntry(old(View()).entries, Request(key, value, lifeTime), now))
      ensures element.key == key
      ensures
        if key in old(elementsMap) then elements == old(elements)
        else fresh(element) && elements == old(elements) + [element]
    {
      ReplaySnoc(history, SetAt(key, value, lifeTime, now));
      history := history + [SetAt(key, value, lifeTime, now)];
      element := PutElement(key, value, lifeTime, now);
    }

    method PutElement(key: K, value: V, lifeTime: int, now: int) returns (element: CachedElement<K, V>)
      requires Shape()
      modifies this`elements, this`elementsMap, this`entries, elements
      ensures Shape() && element.key == key
      ensures entries == SetEntry(old(entries), Request(key, value, lifeTime), now)
      ensures
        if key in old(elementsMap) then elements == old(elements)
        else fresh(element) && elements == old(elements) + [element]
      ensures element.updateTime == if key in old(elementsMap) then old(elementsMap[key].updateTime) else now
    {
      entries := SetEntry(entries, Request(key, value, lifeTime), now);
      if key in elementsMap {
        element := elementsMap[key];
        element.value := value;
        element.expireTime := now + lifeTime;
        return;
      }
      element := new CachedElement(key, value, now, now + lifeTime);
      LinkedAppend(elements, elementsMap, element);
      elements := elements + [element];
      elementsMap := elementsMap[key := element];
    }

    method RemoveInternal(key: K, ghost now: int)
      requires Valid()
      modifies this`elements, this`elementsMap, this`entries, this`history
      ensures Valid() && history == old(history) + [RemoveAt(key, now)]
      ensures View() == old(View()).(entries := RemoveEntry(old(View()).entries, key))
      ensures elements ==
        if key in old(elementsMap) then Without(old(elements), {old(elementsMap)[key]}) else old(elements)
    {
      ReplaySnoc(history, RemoveAt(key, now));
      history := history + [RemoveAt(key, now)];
      entries := RemoveEntry(entries, key);
      if key in elementsMap {
        Unlink(key, elementsMap[key]);
        LinkedRemove(old(elements), elementsMap, key);
        elementsMap := elementsMap - {key};
      }
    }

    /** The search loop of a removal. */
    method Unlink(key: K, ghost target: CachedElement<K, V>)
      requires DistinctKeys(elements) && target in elements && target.key == key
      modifies this`elements
      ensures elements == Without(old(elements), {target})
    {
      var p := 0;
      while p < |elements|
        invariant 0 <= p <= |elements|
        invariant elements == old(elements)
        invariant forall j | 0 <= j < p :: elements[j].key != key
      {
        var el := elements[p];
        if el.key == key {
          WithoutOne(elements, p);
          elements := elements[..p] + elements[p + 1..];
          return;
        }
        p := p + 1;
      }
      assert false;
    }

    method Cleanup(now: int)
      requires Valid()
      modifies this`elements, this`elementsMap, this`entries, this`handled, this`history
      ensures Valid() && history == old(history) + [CleanupAt(now)]
      ensures View() == old(View()).(entries := CleanupEntries(old(View()).entries, now))
      ensures elements == Without(old(elements), Expired(old(elements), now))
      ensures handled ==
        old(handled) + if hasExpireHandler then KeysOf(old(elements), Expired(old(elements), now)) else []
    {
      ReplaySnoc(history, CleanupAt(now));
      history := history + [CleanupAt(now)];
      DropExpired(now);
    }

    method DropExpired(now: int)
      requires Shape()
      modifies this`elements, this`elementsMap, this`entries, this`handled
      ensures Shape() && entries == CleanupEntries(old(entries), now)
      ensures elements == Without(old(elements), Expired(old(elements), now))
      ensures handled ==
        old(handled) + if hasExpireHandler then KeysOf(old(elements), Expired(old(elements), now)) else []
    {
      ghost var dead := Expired(elements, now);
      Sweep(now, dead);
      WithoutLinked(old(elements), old(elementsMap), elementsMap, dead);
      entries := CleanupEntries(entries, now);
    }

    /** The cursor loop over the list. */
    method Sweep(now: int, ghost dead: set<CachedElement<K, V>>)
      requires dead == Expired(elements, now)
      modifies this`elements, this`elementsMap, this`handled
      ensures elements == Without(old(elements), dead)
      ensures handled == old(handled) + if hasExpireHandler then KeysOf(old(elements), dead) else []
      ensures elementsMap == Forget(old(elementsMap), KeysOf(old(elements), dead))
    {
      var p := 0;
      while p < |elements|
        invariant 0 <= p <= |elements|
        invariant forall i | p <= i < |elements| :: elements[i] in dead <==> elements[i].expireTime < now
        invariant elements[..p] + Without(elements[p..], dead) == Without(old(elements), dead)
        invariant handled + (if hasExpireHandler then KeysOf(elements[p..], dead) else [])
               == old(handled) + (if hasExpireHandler then KeysOf(old(elements), dead) else [])
        invariant Forget(elementsMap, KeysOf(elements[p..], dead))
               == Forget(old(elementsMap), KeysOf(old(elements), dead))
        decreases |elements| - p
      {
        var elmt := elements[p];
        WithoutStep(elements, p, dead);
        if elmt.expireTime < now {
          if hasExpireHandler {
            handled := handled + [elmt.key];
          }
          elements := elements[..p] + elements[p + 1..];
          elementsMap := elementsMap - {elmt.key};
        } else {
          p := p + 1;
        }
      }
    }

    // ---- the three arms of the processing loop ----

    method ProcessSet(now: int)
      requires Valid() && chSet != []
      modifies this, elements
      ensures Valid() && handled == old(handled)
      ensures View() == CacheSpec.ProcessSet(old(View()), now)
      ensures history == old(history) + Processed(old(View()), Turn(TakeSet(now)))
    {
      var req := chSet[0];
      chSet := chSet[1..];
      var _ := SetInternal(req.key, req.value, req.lifeTime, now);
    }

    method ProcessRemove(ghost now: int)
      requires Valid() && chRemove != []
      modifies this
      ensures Valid() && handled == old(handled)
      ensures View() == CacheSpec.ProcessRemove(old(View()))
      ensures history == old(history) + Processed(old(View()), Turn(TakeRemove(now)))
    {
      var key := chRemove[0];
      chRemove := chRemove[1..];
      RemoveInternal(key, now);
    }

    method ProcessTimer(now: int)
      requires Valid()
      modifies this
      ensures Valid() && elements == Without(old(elements), Expired(old(elements), now))
      ensures View() == CacheSpec.ProcessTimer(old(View()), now)
      ensures history == old(history) + Processed(old(View()), Timer(now))
    {
      Cleanup(now);
    }

    // ---- the callers ----

    /** A send to a request channel. While the channel is full the caller waits: what it gets
        back is what it has still to send. */
    method Send(req: Request<K, V>) returns (left: Option<Request<K, V>>)
      requires Valid()
      modifies this`chSet
      ensures Valid() && left == if |old(chSet)| < chanBuffer then None else Some(req)
      ensures View() == if left.None? then QueueSet(old(View()), req) else old(View())
    {
      if |chSet| >= chanBuffer {
        return Some(req);
      }
      chSet := chSet + [req];
      return None;
    }

    method Set(key: K, value: V, lifeTime: int) returns (left: Option<Request<K, V>>)
      requires Valid()
      modifies this`chSet
      ensures Valid() && left == if |old(chSet)| < chanBuffer then None else Some(Request(key, value, lifeTime))
      ensures View() == if left.None? then QueueSet(old(View()), Request(key, value, lifeTime)) else old(View())
    {
      left := Send(Request(key, value, lifeTime));
    }

    method Get(key: K) returns (r: Option<V>)
      requires Valid()
      ensures r == Lookup(View().entries, key)
      ensures forall v :: r == Some(v) <==> exists i :: LiveSince(history, key, v, i)
    {
      forall v ensures Lookup(entries, key) == Some(v) <==> exists i :: LiveSince(history, key, v, i) {
        StoreEqualsHistory(history, key, v);
      }
      if key !in elementsMap {
        return None;
      }
      return Some(elementsMap[key].value);
    }

    /** The value read is the value written back, however long the send has to wait. */
    method Renew(key: K, lifeTime: int) returns (ok: bool, left: Option<Request<K, V>>)
      requires Valid()
      modifies this`chSet
      ensures Valid() && ok == (key in old(View()).entries)
      ensures !ok ==> left.None? && View() == old(View())
      ensures ok ==>
        var req := Request(key, old(View()).entries[key].value, lifeTime);
        && left == (if |old(chSet)| < chanBuffer then None else Some(req))
        && View() == if left.None? then QueueSet(old(View()), req) else old(View())
    {
      var obj := Get(key);
      if obj.None? {
        return false, None;
      }
      left := Set(key, obj.value, lifeTime);
      ok := true;
    }

    /** The value found; and whether the removal has still to wait for room. */
    method Delete(key: K) returns (r: Option<V>, waits: bool)
      requires Valid()
      modifies this`chRemove
      ensures Valid() && r == Lookup(old(View()).entries, key)
      ensures waits <==> r.Some? && |old(chRemove)| >= chanBuffer
      ensures View() == if waits then old(View()) else QueueDelete(old(View()), key)
    {
      if key !in elementsMap {
        return None, false;
      }
      r, waits := Some(elementsMap[key].value), |chRemove| >= chanBuffer;
      if !waits {
        chRemove := chRemove + [key];
      }
    }
  }
}
