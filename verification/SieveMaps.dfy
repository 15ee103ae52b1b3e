/** SIEVE as a map: what the cache holds, whatever the order of its entries. */
module SieveMaps {
  import opened Basics
  import S = SieveSpec

  ghost function Held<K, V>(es: seq<S.Entry<K, V>>): (held: map<K, V>)
    requires S.Keyed(es)
  {
    assert forall i, j :: 0 <= i < j < |es| ==> es[i].key != es[j].key by {
      forall i | 0 <= i < |es| {
        S.KeyedAt(es, i);
      }
    }
    map i | 0 <= i < |es| :: es[i].key := es[i].value
  }

  lemma HeldIs<K(!new), V(!new)>(s: S.Sieve<K, V>, key: K)
    requires S.Valid(s)
    ensures S.Has(s, key) <==> key in Held(s.entries)
    ensures S.Has(s, key) ==> S.Get(s, key).1 == Some(Held(s.entries)[key])
  {
    HeldAt(s.entries);
  }

  lemma HeldExactly<K, V>(es: seq<S.Entry<K, V>>, m: map<K, V>)
    requires S.Keyed(es)
    requires forall i :: 0 <= i < |es| ==> es[i].key in m && m[es[i].key] == es[i].value
    requires forall n :: n in m ==> HasKey(es, n)
    ensures Held(es) == m
  {
  }

  ghost predicate HasKey<K, V>(es: seq<S.Entry<K, V>>, n: K) {
    exists i :: 0 <= i < |es| && es[i].key == n
  }

  lemma HeldAt<K, V>(es: seq<S.Entry<K, V>>)
    requires S.Keyed(es)
    ensures forall i :: 0 <= i < |es| ==> es[i].key in Held(es) && Held(es)[es[i].key] == es[i].value
  {
    forall i | 0 <= i < |es| ensures es[i].key in Held(es) && Held(es)[es[i].key] == es[i].value {
      S.KeyedAt(es, i);
    }
  }

  lemma GetHolds<K(!new), V(!new)>(s: S.Sieve<K, V>, key: K)
    requires S.Valid(s)
    ensures S.Valid(S.Get(s, key).0) && Held(S.Get(s, key).0.entries) == Held(s.entries)
  {
    var t := S.Get(s, key).0;
    S.GetKeepsValid(s, key);
    HeldAt(s.entries);
    assert forall i ::
      0 <= i < |s.entries| ==> t.entries[i].key == s.entries[i].key && t.entries[i].value == s.entries[i].value;
    forall n | n in Held(s.entries) ensures HasKey(t.entries, n) {
      var i :| 0 <= i < |s.entries| && s.entries[i].key == n;
      assert t.entries[i].key == n;
    }
    HeldExactly(t.entries, Held(s.entries));
  }

  /** An eviction gives up exactly one held value, and hands it out. */
  lemma EvictHolds<K(!new), V(!new)>(s: S.Sieve<K, V>)
    requires S.Valid(s) && s.entries != []
    ensures var (t, out) := S.Evict(s);
      && S.Valid(t) && |t.entries| == |s.entries| - 1 && t.capacity == s.capacity && out.Some?
      && out.value.0 in Held(s.entries) && Held(s.entries)[out.value.0] == out.value.1
      && Held(t.entries) == Held(s.entries) - {out.value.0}
  {
    S.EvictKeepsValid(s);
    S.EvictDoes(s);
    HeldAt(s.entries);
    RestHolds(s.entries, S.Evict(s).0.entries, S.Victim(s.entries, S.Start(s)));
  }

  lemma RestHolds<K, V>(es: seq<S.Entry<K, V>>, rest: seq<S.Entry<K, V>>, v: nat)
    requires S.Keyed(es) && S.Keyed(rest) && v < |es| == |rest| + 1
    requires forall i ::
      0 <= i < |rest| ==> rest[i].key == es[Origin(v, i)].key && rest[i].value == es[Origin(v, i)].value
    ensures Held(rest) == Held(es) - {es[v].key}
  {
    HeldAt(es);
    S.KeyedAt(es, v);
    forall n | n in Held(es) && n != es[v].key ensures HasKey(rest, n) {
      var i :| 0 <= i < |es| && es[i].key == n;
      assert rest[if i < v then i else i - 1].key == n;
    }
    HeldExactly(rest, Held(es) - {es[v].key});
  }

  /** Inserting where there is room evicts nothing. */
  lemma PutHolds<K(!new), V(!new)>(s: S.Sieve<K, V>, key: K, value: V)
    requires S.Valid(s) && |s.entries| < s.capacity && key !in Held(s.entries)
    ensures S.Put(s, key, value) == (S.PushHead(s, key, value), None)
    ensures S.Valid(S.PushHead(s, key, value)) && S.PushHead(s, key, value).capacity == s.capacity
    ensures Held(S.PushHead(s, key, value).entries) == Held(s.entries)[key := value]
  {
    HeldAt(s.entries);
    S.PushHeadKeepsValid(s, key, value);
    var t := S.PushHead(s, key, value);
    forall n | n in Held(s.entries)[key := value] ensures HasKey(t.entries, n) {
      if n == key {
        assert t.entries[0].key == n;
      } else {
        var i :| 0 <= i < |s.entries| && s.entries[i].key == n;
        assert t.entries[i + 1].key == n;
      }
    }
    HeldExactly(t.entries, Held(s.entries)[key := value]);
  }

  /** Updating a key that is there replaces its value in place and marks it. */
  lemma UpdateHolds<K(!new), V(!new)>(s: S.Sieve<K, V>, key: K, value: V)
    requires S.Valid(s) && key in Held(s.entries)
    ensures S.Put(s, key, value).1 == None
    ensures S.Valid(S.Put(s, key, value).0) && Held(S.Put(s, key, value).0.entries) == Held(s.entries)[key := value]
  {
    S.PutKeepsValid(s, key, value);
    HeldIs(s, key);
    HeldAt(s.entries);
    var i, t := S.Find(s.entries, key), S.Put(s, key, value).0;
    S.KeyedAt(s.entries, i);
    forall n | n in Held(s.entries) ensures HasKey(t.entries, n) {
      var j :| 0 <= j < |s.entries| && s.entries[j].key == n;
      assert t.entries[j].key == n;
    }
    HeldExactly(t.entries, Held(s.entries)[key := value]);
  }

  lemma RemoveHolds<K(!new), V(!new)>(s: S.Sieve<K, V>, key: K)
    requires S.Valid(s)
    ensures S.Valid(S.Remove(s, key).0) && Held(S.Remove(s, key).0.entries) == Held(s.entries) - {key}
    ensures S.Remove(s, key).1 == if key in Held(s.entries) then Some(Held(s.entries)[key]) else None
  {
    S.RemoveKeepsValid(s, key);
    HeldIs(s, key);
    var i := S.Find(s.entries, key);
    if i < |s.entries| {
      RestHolds(s.entries, S.Remove(s, key).0.entries, i);
    } else {
      assert Held(s.entries) - {key} == Held(s.entries);
    }
  }

  /** A full cache evicts for a key it does not hold, and for no other. */
  lemma InsertHolds<K(!new), V(!new)>(s: S.Sieve<K, V>, key: K, value: V)
    requires S.Valid(s) && key !in Held(s.entries)
    ensures var (t, out) := S.Put(s, key, value);
      && S.Valid(t)
      && (out.Some? <==> |s.entries| == s.capacity)
      && (out.Some? ==> out.value.0 in Held(s.entries) && Held(s.entries)[out.value.0] == out.value.1)
      && Held(t.entries) == (if out.Some? then Held(s.entries) - {out.value.0} else Held(s.entries))[key := value]
  {
    HeldIs(s, key);
    if |s.entries| == s.capacity {
      EvictHolds(s);
      PutHolds(S.Evict(s).0, key, value);
    } else {
      PutHolds(s, key, value);
    }
  }

  /** To its callers the cache is a bounded map: a lookup finds exactly what is held;
      an insertion or update sets its key and gives up at most one other, and only
      when the cache is full and the key is new; a removal takes out its key alone. */
  lemma ActsAsBoundedMap<K(!new), V(!new)>(s: S.Sieve<K, V>, key: K, value: V)
    requires S.Valid(s)
    ensures var held := Held(s.entries);
      var (got, found) := S.Get(s, key);
      var (put, out) := S.Put(s, key, value);
      var (rest, removed) := S.Remove(s, key);
      && S.Valid(got) && S.Valid(put) && S.Valid(rest)
      && found == removed == (if key in held then Some(held[key]) else None)
      && Held(got.entries) == held && Held(rest.entries) == held - {key}
      && (out.Some? <==> key !in held && |s.entries| == s.capacity)
      && (out.Some? ==> out.value.0 in held && out.value.0 != key && held[out.value.0] == out.value.1)
      && Held(put.entries) == (if out.Some? then held - {out.value.0} else held)[key := value]
  {
    HeldIs(s, key);
    GetHolds(s, key);
    RemoveHolds(s, key);
    if key in Held(s.entries) {
      UpdateHolds(s, key, value);
    } else {
      InsertHolds(s, key, value);
    }
  }
}
