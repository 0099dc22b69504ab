/** Attribution capture: the marketing keys read from the query string when the
    banner mounts, the persisted key-value store they are copied into, and the
    rule that later resolves each key from memory or from the store. */
module Attribution {

  datatype Option<T> = None | Some(value: T)

  /** An ordered list of name/value pairs. It stands both for a URL query
      (URLSearchParams) and for a JavaScript object whose keys keep their
      insertion order. */
  type Pairs = seq<(string, string)>

  /** The seven attribution keys, in the order the component declares them. */
  const ATTRIBUTION_KEYS: seq<string> :=
    ["utm_ad", "utm_placement", "gclid", "fbclid", "utm_source", "utm_campaign", "utm_keyword"]

  /** The component's initial attribution state: every key present, every value empty. */
  const EMPTY_PARAMS: Pairs :=
    seq(|ATTRIBUTION_KEYS|, i requires 0 <= i < |ATTRIBUTION_KEYS| => (ATTRIBUTION_KEYS[i], ""))

  lemma KeysDistinct()
    ensures forall i, j :: 0 <= i < j < |ATTRIBUTION_KEYS| ==> ATTRIBUTION_KEYS[i] != ATTRIBUTION_KEYS[j]
  {
  }

  /** Position i holds the first pair of q named k. */
  predicate FirstAt(q: Pairs, k: string, i: int)
  {
    0 <= i < |q| && q[i].0 == k && forall j :: 0 <= j < i ==> q[j].0 != k
  }

  /** `get(k)` on a query or a property read on an object: the value of the
      first pair named k, or None (null / undefined) when there is none. */
  function Get(q: Pairs, k: string): (r: Option<string>)
    ensures r.None? <==> forall i :: 0 <= i < |q| ==> q[i].0 != k
    ensures forall i :: FirstAt(q, k, i) ==> r == Some(q[i].1)
  {
    if q == [] then None
    else if q[0].0 == k then Some(q[0].1)
    else
      var r := Get(q[1..], k);
      assert forall i :: FirstAt(q, k, i) ==> i > 0 && FirstAt(q[1..], k, i - 1);
      r
  }

  /** JavaScript's `x || ""` on a string-or-null. */
  function OrEmpty(o: Option<string>): string
  {
    match o
    case None => ""
    case Some(v) => v
  }

  /** The `params` object built from the page's query when the banner mounts:
      each attribution key, in order, with its first query value or "". */
  function Capture(q: Pairs): (p: Pairs)
    ensures |p| == |ATTRIBUTION_KEYS|
    ensures forall i :: 0 <= i < |p| ==> p[i].0 == ATTRIBUTION_KEYS[i]
    ensures forall i, j :: 0 <= i < |p| && FirstAt(q, ATTRIBUTION_KEYS[i], j) ==> p[i].1 == q[j].1
    ensures forall i :: 0 <= i < |p| && (forall j :: 0 <= j < |q| ==> q[j].0 != ATTRIBUTION_KEYS[i]) ==> p[i].1 == ""
  {
    seq(|ATTRIBUTION_KEYS|, i requires 0 <= i < |ATTRIBUTION_KEYS| => (ATTRIBUTION_KEYS[i], OrEmpty(Get(q, ATTRIBUTION_KEYS[i]))))
  }

  /** The store after `setItem(k, v)` has been called, in order, for every
      entry of `entries` whose value is non-empty. */
  function Persist(store: map<string, string>, entries: Pairs): map<string, string>
    decreases |entries|
  {
    if entries == [] then store
    else
      var prior := Persist(store, entries[..|entries| - 1]);
      var (k, v) := entries[|entries| - 1];
      if v != "" then prior[k := v] else prior
  }

  /** A key that no entry writes with a non-empty value keeps its previous
      store contents, present or absent. */
  lemma {:induction false} PersistKeeps(store: map<string, string>, entries: Pairs, k: string)
    requires forall i :: 0 <= i < |entries| && entries[i].0 == k ==> entries[i].1 == ""
    ensures k in Persist(store, entries) <==> k in store
    ensures k in store ==> Persist(store, entries)[k] == store[k]
  {
    if entries != [] {
      PersistKeeps(store, entries[..|entries| - 1], k);
    }
  }

  /** A non-empty entry that no later entry with the same key overrides is what the store holds. */
  lemma {:induction false} PersistWrites(store: map<string, string>, entries: Pairs, i: nat)
    requires i < |entries| && entries[i].1 != ""
    requires forall j :: i < j < |entries| ==> entries[j].0 != entries[i].0
    ensures entries[i].0 in Persist(store, entries)
    ensures Persist(store, entries)[entries[i].0] == entries[i].1
  {
    if i < |entries| - 1 {
      PersistWrites(store, entries[..|entries| - 1], i);
    }
  }

  /** After mounting, each attribution key captured with a non-empty value is
      stored under that key with exactly that value. */
  lemma CaptureStored(store: map<string, string>, q: Pairs, i: nat)
    requires i < |ATTRIBUTION_KEYS| && Capture(q)[i].1 != ""
    ensures ATTRIBUTION_KEYS[i] in Persist(store, Capture(q))
    ensures Persist(store, Capture(q))[ATTRIBUTION_KEYS[i]] == Capture(q)[i].1
  {
    KeysDistinct();
    PersistWrites(store, Capture(q), i);
  }

  /** After mounting, every key that was not captured with a non-empty value,
      including every key outside the seven, keeps its previous store contents. */
  lemma CaptureKeepsOthers(store: map<string, string>, q: Pairs, k: string)
    requires forall i :: 0 <= i < |ATTRIBUTION_KEYS| && ATTRIBUTION_KEYS[i] == k ==> Capture(q)[i].1 == ""
    ensures k in Persist(store, Capture(q)) <==> k in store
    ensures k in store ==> Persist(store, Capture(q))[k] == store[k]
  {
    PersistKeeps(store, Capture(q), k);
  }

  /** `getParam(k)`: the in-memory value if non-empty, else the stored value
      if non-empty, else "". */
  function Resolve(urlParams: Pairs, store: map<string, string>, k: string): (r: string)
    ensures OrEmpty(Get(urlParams, k)) != "" ==> r == OrEmpty(Get(urlParams, k))
    ensures OrEmpty(Get(urlParams, k)) == "" && k in store ==> r == store[k]
    ensures OrEmpty(Get(urlParams, k)) == "" && k !in store ==> r == ""
  {
    var inMemory := OrEmpty(Get(urlParams, k));
    if inMemory != "" then inMemory
    else if k in store && store[k] != "" then store[k]
    else ""
  }

  /** Resolution right after capture and persistence: a key captured with a
      non-empty value resolves to that value (its first occurrence in the
      query); otherwise it falls back to what an earlier visit stored, else "". */
  lemma ResolveAfterCapture(store: map<string, string>, q: Pairs, i: nat)
    requires i < |ATTRIBUTION_KEYS|
    ensures forall j :: FirstAt(q, ATTRIBUTION_KEYS[i], j) && q[j].1 != "" ==>
              Resolve(Capture(q), Persist(store, Capture(q)), ATTRIBUTION_KEYS[i]) == q[j].1
    ensures Capture(q)[i].1 == "" ==>
              Resolve(Capture(q), Persist(store, Capture(q)), ATTRIBUTION_KEYS[i])
              == (if ATTRIBUTION_KEYS[i] in store then store[ATTRIBUTION_KEYS[i]] else "")
  {
    var p := Capture(q);
    var k := ATTRIBUTION_KEYS[i];
    KeysDistinct();
    assert FirstAt(p, k, i);
    if p[i].1 == "" {
      CaptureKeepsOthers(store, q, k);
    }
  }

  /** The persisted key-value string store (the browser's localStorage). */
  class ParamStore {
    var items: map<string, string>

    constructor (items: map<string, string>)
      ensures this.items == items
    {
      this.items := items;
    }

    /** `setItem(k, v)`: k now maps to v; every other key is untouched. */
    method SetItem(k: string, v: string)
      modifies this
      ensures items == old(items)[k := v]
    {
      items := items[k := v];
    }
  }
}
