/**
 * The local IndexedDB store behind the application: five tables keyed by a primary key
 * (`id` for products, sales, staff and pending orders, `key` for the metadata table), with
 * the Dexie operations the application uses: `put`, `add`, `clear` and `bulkAdd`.
 */
module LocalDb {
  import opened Wrappers
  import opened Types

  /** A metadata row `{ key, value }`; values are kept opaque. */
  datatype MetaEntry = MetaEntry(key: string, value: string)

  /** The first record of xs whose key is k. */
  function FindByKey<T>(xs: seq<T>, key: T -> string, k: string): (r: Option<T>)
    ensures r.None? <==> forall i :: 0 <= i < |xs| ==> key(xs[i]) != k
    ensures r.Some? ==> key(r.value) == k
  {
    if |xs| == 0 then None
    else if key(xs[0]) == k then Some(xs[0])
    else FindByKey(xs[1..], key, k)
  }

  /**
   * `bulkAdd` record by record: a record whose key is already present is refused and the
   * others still go in, so for each new key the first record carrying it is kept.
   */
  function AddAll<T>(m: map<string, T>, xs: seq<T>, key: T -> string): map<string, T>
    decreases |xs|
  {
    if |xs| == 0 then m
    else AddAll(if key(xs[0]) in m then m else m[key(xs[0]) := xs[0]], xs[1..], key)
  }

  /** After a bulk add a key holds its old record if it had one, else the first new record with it. */
  lemma {:induction false} AddAllLookup<T>(m: map<string, T>, xs: seq<T>, key: T -> string, k: string)
    ensures k in AddAll(m, xs, key) <==> k in m || FindByKey(xs, key, k).Some?
    ensures k in AddAll(m, xs, key) ==>
      AddAll(m, xs, key)[k] == if k in m then m[k] else FindByKey(xs, key, k).value
    decreases |xs|
  {
    if |xs| > 0 {
      var m1 := if key(xs[0]) in m then m else m[key(xs[0]) := xs[0]];
      assert AddAll(m, xs, key) == AddAll(m1, xs[1..], key);
      AddAllLookup(m1, xs[1..], key, k);
      if key(xs[0]) != k {
        assert FindByKey(xs, key, k) == FindByKey(xs[1..], key, k);
      }
    }
  }

  /** Whether a `bulkAdd` of xs into m goes through without a single key conflict. */
  predicate Fits<T>(m: map<string, T>, xs: seq<T>, key: T -> string)
    decreases |xs|
  {
    |xs| == 0 || (key(xs[0]) !in m && Fits(m[key(xs[0]) := xs[0]], xs[1..], key))
  }

  /** The table holding the records of a list: what `clear()` then `bulkAdd(xs)` leaves. */
  function TableOf<T>(xs: seq<T>, key: T -> string): map<string, T>
  {
    AddAll(map[], xs, key)
  }

  /** The table of a list holds exactly the list's keys, each with the first record carrying it. */
  lemma TableOfLookup<T>(xs: seq<T>, key: T -> string, k: string)
    ensures k in TableOf(xs, key) <==> exists i :: 0 <= i < |xs| && key(xs[i]) == k
    ensures k in TableOf(xs, key) ==> TableOf(xs, key)[k] == FindByKey(xs, key, k).value
  {
    AddAllLookup(map[], xs, key, k);
  }

  /** Looking a product up by primary key is `products.find(p => p.id === k)`. */
  lemma {:induction false} FindByProductKey(ps: seq<Product>, k: string)
    ensures FindByKey(ps, ProductKey, k) == FindProduct(ps, k)
    decreases |ps|
  {
    if |ps| > 0 {
      FindByProductKey(ps[1..], k);
    }
  }

  /** Overriding one key before a bulk add is the same as overriding it afterwards. */
  lemma {:induction false} AddAllOverride<T>(m: map<string, T>, xs: seq<T>, key: T -> string, k: string, v: T)
    ensures AddAll(m[k := v], xs, key) == AddAll(m, xs, key)[k := v]
    decreases |xs|
  {
    if |xs| > 0 {
      var x, rest := xs[0], xs[1..];
      var kx := key(x);
      var a1 := if kx in m[k := v] then m[k := v] else m[k := v][kx := x];
      var b1 := if kx in m then m else m[kx := x];
      assert AddAll(m[k := v], xs, key) == AddAll(a1, rest, key);
      assert AddAll(m, xs, key) == AddAll(b1, rest, key);
      if kx == k {
        assert a1 == m[k := v];
        AddAllOverride(m, rest, key, k, v);
        if kx !in m {
          AddAllOverride(m, rest, key, k, x);
          assert AddAll(m, rest, key)[k := x][k := v] == AddAll(m, rest, key)[k := v];
        }
      } else {
        assert a1 == b1[k := v];
        AddAllOverride(b1, rest, key, k, v);
      }
    }
  }

  /** Prepending a record to a list puts it in the table over anything of the same key. */
  lemma TableOfPrepend<T>(x: T, xs: seq<T>, key: T -> string)
    ensures TableOf([x] + xs, key) == TableOf(xs, key)[key(x) := x]
  {
    assert ([x] + xs)[1..] == xs;
    assert map[][key(x) := x] == map[key(x) := x];
    AddAllOverride(map[], xs, key, key(x), x);
  }

  /** One Dexie table: its rows by primary key. */
  class Table<T> {
    var rows: map<string, T>
    const key: T -> string

    constructor (key: T -> string)
      ensures rows == map[] && this.key == key
    {
      rows := map[];
      this.key := key;
    }

    /** `put`: insert or overwrite by key. */
    method Put(x: T)
      modifies this
      ensures rows == old(rows)[key(x) := x]
    {
      rows := rows[key(x) := x];
    }

    /** `add`: insert, refused (the promise rejects) when the key is taken. */
    method Add(x: T) returns (ok: bool)
      modifies this
      ensures ok == (key(x) !in old(rows))
      ensures rows == if ok then old(rows)[key(x) := x] else old(rows)
    {
      ok := key(x) !in rows;
      if ok {
        rows := rows[key(x) := x];
      }
    }

    method Clear()
      modifies this
      ensures rows == map[]
    {
      rows := map[];
    }

    /** `bulkAdd`: each record in turn; `ok` is false when any of them was refused. */
    method BulkAdd(xs: seq<T>) returns (ok: bool)
      modifies this
      ensures rows == AddAll(old(rows), xs, key)
      ensures ok == Fits(old(rows), xs, key)
    {
      ok := true;
      var i := 0;
      while i < |xs|
        invariant 0 <= i <= |xs|
        invariant AddAll(rows, xs[i..], key) == AddAll(old(rows), xs, key)
        invariant (ok && Fits(rows, xs[i..], key)) == Fits(old(rows), xs, key)
      {
        assert xs[i..][1..] == xs[i + 1..];
        var k := key(xs[i]);
        if k in rows {
          ok := false;
        } else {
          rows := rows[k := xs[i]];
        }
        i := i + 1;
      }
    }
  }

  function ProductKey(p: Product): string { p.id }
  function SaleKey(s: Sale): string { s.id }
  function StaffKey(s: StaffMember): string { s.id }
  function PendingKey(o: PendingOrder): string { o.id }
  function MetaKey(e: MetaEntry): string { e.key }

  /** The database `BistroGestDB` with its schema. */
  class Db {
    const products: Table<Product>
    const sales: Table<Sale>
    const staff: Table<StaffMember>
    const pendingOrders: Table<PendingOrder>
    const metadata: Table<MetaEntry>

    ghost predicate Valid()
      reads this
    {
      && products.key == ProductKey
      && sales.key == SaleKey
      && staff.key == StaffKey
      && pendingOrders.key == PendingKey
      && metadata.key == MetaKey
    }

    constructor ()
      ensures Valid()
      ensures fresh(products) && fresh(sales) && fresh(staff) && fresh(pendingOrders) && fresh(metadata)
      ensures products.rows == map[] && sales.rows == map[] && staff.rows == map[]
      ensures pendingOrders.rows == map[] && metadata.rows == map[]
    {
      products := new Table(ProductKey);
      sales := new Table(SaleKey);
      staff := new Table(StaffKey);
      pendingOrders := new Table(PendingKey);
      metadata := new Table(MetaKey);
    }
  }
}
