/**
 * The content-addressed chunk cache of the indexing pipeline (`self.cache` in
 * main.py): a dict from a chunk's digest to its content, the addresses
 * (conversation title, message index) where it occurs and, once computed, its
 * embedding. A Python dict remembers insertion order, so the cache is kept as
 * the map together with the order in which its keys were first inserted.
 */
module ChunkCache {

  type Hash = string

  /** `[title, message_index]`: where a chunk occurs. */
  datatype Address = Address(title: string, messageIndex: nat)

  /**
   * One cache entry. `embedding` is the stored vector; the empty sequence stands
   * for every falsy value (no key, None, an empty list).
   */
  datatype Chunk = Chunk(content: string, addresses: seq<Address>, embedding: seq<real>)

  /** One upsert the indexing loop performs: a chunk's digest, its text and where it was seen. */
  datatype Occurrence = Occurrence(hash: Hash, content: string, address: Address)

  predicate Distinct<T(==)>(s: seq<T>) {
    forall i, j :: 0 <= i < j < |s| ==> s[i] != s[j]
  }

  datatype Cache = Cache(entries: map<Hash, Chunk>, order: seq<Hash>) {

    /** The order lists every key once; no entry repeats an address. */
    ghost predicate Valid() {
      && Distinct(order)
      && (forall h :: h in entries <==> h in order)
      && (forall h :: h in entries ==> Distinct(entries[h].addresses))
    }

    /**
     * The upsert of main.py: a new digest creates an entry with its one
     * address; a known digest gains the address at the end unless it is
     * already there. Content and embedding of a known digest are never touched.
     */
    function Upsert(o: Occurrence): (c: Cache)
      ensures c.entries.Keys == entries.Keys + {o.hash}
      ensures o.hash in c.entries && o.address in c.entries[o.hash].addresses
      ensures o.hash !in entries ==>
                (c.entries[o.hash] == Chunk(o.content, [o.address], []) && c.order == order + [o.hash])
      ensures o.hash in entries ==>
                (&& c.order == order
                 && c.entries[o.hash].content == entries[o.hash].content
                 && c.entries[o.hash].embedding == entries[o.hash].embedding)
      ensures o.hash in entries && o.address in entries[o.hash].addresses ==> c == this
      ensures o.hash in entries && o.address !in entries[o.hash].addresses ==>
                c.entries[o.hash].addresses == entries[o.hash].addresses + [o.address]
      ensures forall h :: h in entries && h != o.hash ==> c.entries[h] == entries[h]
    {
      if o.hash !in entries then
        Cache(entries[o.hash := Chunk(o.content, [o.address], [])], order + [o.hash])
      else if o.address in entries[o.hash].addresses then
        this
      else
        var e := entries[o.hash];
        Cache(entries[o.hash := e.(addresses := e.addresses + [o.address])], order)
    }

    /** The upserts of `occs`, in order. */
    function UpsertAll(occs: seq<Occurrence>): Cache
      decreases |occs|
    {
      if occs == [] then this else UpsertAll(occs[..|occs| - 1]).Upsert(occs[|occs| - 1])
    }

    /** Every occurrence is already recorded. */
    ghost predicate Records(occs: seq<Occurrence>) {
      forall i :: 0 <= i < |occs| ==> occs[i].hash in entries && occs[i].address in entries[occs[i].hash].addresses
    }

    /** Entries only grow: every address recorded here is still recorded in `c`. */
    ghost predicate GrowsInto(c: Cache) {
      forall h :: h in entries ==> h in c.entries && forall a :: a in entries[h].addresses ==> a in c.entries[h].addresses
    }
  }

  const Empty: Cache := Cache(map[], [])

  // ----- properties ------------------------------------------------------------------

  lemma EmptyValid()
    ensures Empty.Valid()
  {
  }

  /** Upsert keeps the cache well formed: keys in insertion order once each, addresses duplicate-free. */
  lemma UpsertValid(c: Cache, o: Occurrence)
    requires c.Valid()
    ensures c.Upsert(o).Valid()
  {
    var r := c.Upsert(o);
    if o.hash !in c.entries {
      assert o.hash !in c.order;
      forall i, j | 0 <= i < j < |r.order| ensures r.order[i] != r.order[j] {
        if j == |c.order| {
          assert r.order[i] == c.order[i];
        }
      }
    } else if o.address !in c.entries[o.hash].addresses {
      var e := c.entries[o.hash].addresses;
      assert r.entries[o.hash].addresses == e + [o.address];
      forall i, j | 0 <= i < j < |e| + 1 ensures (e + [o.address])[i] != (e + [o.address])[j] {
        if j == |e| {
          assert (e + [o.address])[i] == e[i];
        }
      }
    }
  }

  /** Re-inserting an occurrence is idempotent, whatever content accompanies it. */
  lemma UpsertIdempotent(c: Cache, o: Occurrence, content: string)
    ensures c.Upsert(o).Upsert(o.(content := content)) == c.Upsert(o)
  {
  }

  lemma {:induction false} UpsertAllValid(c: Cache, occs: seq<Occurrence>)
    requires c.Valid()
    ensures c.UpsertAll(occs).Valid()
    decreases |occs|
  {
    if occs != [] {
      UpsertAllValid(c, occs[..|occs| - 1]);
      UpsertValid(c.UpsertAll(occs[..|occs| - 1]), occs[|occs| - 1]);
    }
  }

  lemma UpsertAllSnoc(c: Cache, occs: seq<Occurrence>, o: Occurrence)
    ensures c.UpsertAll(occs + [o]) == c.UpsertAll(occs).Upsert(o)
  {
    assert (occs + [o])[..|occs|] == occs;
  }

  /** Upserting `a + b` is upserting `a`, then `b`. */
  lemma {:induction false} UpsertAllAppend(c: Cache, a: seq<Occurrence>, b: seq<Occurrence>)
    ensures c.UpsertAll(a + b) == c.UpsertAll(a).UpsertAll(b)
    decreases |b|
  {
    if b == [] {
      assert a + b == a;
    } else {
      assert (a + b)[..|a + b| - 1] == a + b[..|b| - 1];
      UpsertAllAppend(c, a, b[..|b| - 1]);
    }
  }

  lemma {:induction false} UpsertAllGrows(c: Cache, occs: seq<Occurrence>)
    ensures c.GrowsInto(c.UpsertAll(occs))
    decreases |occs|
  {
    if occs != [] {
      UpsertAllGrows(c, occs[..|occs| - 1]);
    }
  }

  /** After upserting `occs`, every one of them is recorded. */
  lemma {:induction false} UpsertAllRecords(c: Cache, occs: seq<Occurrence>)
    ensures c.UpsertAll(occs).Records(occs)
    decreases |occs|
  {
    if occs != [] {
      var init := occs[..|occs| - 1];
      UpsertAllRecords(c, init);
      var mid := c.UpsertAll(init);
      assert mid.GrowsInto(mid.Upsert(occs[|occs| - 1]));
      forall i | 0 <= i < |occs| - 1
        ensures occs[i].hash in c.UpsertAll(occs).entries
        ensures occs[i].address in c.UpsertAll(occs).entries[occs[i].hash].addresses
      {
        assert init[i] == occs[i];
      }
    }
  }

  /** Upserting occurrences that are all recorded already changes nothing. */
  lemma {:induction false} UpsertAllRecorded(c: Cache, occs: seq<Occurrence>)
    requires c.Records(occs)
    ensures c.UpsertAll(occs) == c
    decreases |occs|
  {
    if occs != [] {
      var init := occs[..|occs| - 1];
      assert c.Records(init) by {
        forall i | 0 <= i < |init| ensures init[i] == occs[i] { }
      }
      UpsertAllRecorded(c, init);
    }
  }

  /**
   * Reprocessing is idempotent: upserting the same occurrences a second time
   * leaves the cache exactly as the first pass left it.
   */
  lemma ReinsertIdempotent(c: Cache, occs: seq<Occurrence>)
    ensures c.UpsertAll(occs).UpsertAll(occs) == c.UpsertAll(occs)
  {
    UpsertAllRecords(c, occs);
    UpsertAllRecorded(c.UpsertAll(occs), occs);
  }
}
