// Values shared by all controller models.
module Tables {

  datatype Option<+T> = None | Some(value: T)

  /** One kind of object kept by the management server: live rows by ID, and the next ID to hand out.
      The server never hands out an ID twice. */
  datatype RawTable<V> = Table(rows: map<nat, V>, next: nat) {

    predicate Valid() {
      forall id :: id in rows ==> id < next
    }

    /** The store after a create call; the new row's ID is `next`. */
    function Add(v: V): Table<V>
      requires Valid()
    {
      Table(rows[next := v], next + 1)
    }

    /** The store after an update call on a live row. */
    function Put(id: nat, v: V): Table<V>
      requires Valid() && id in rows
    {
      Table(rows[id := v], next)
    }

    /** The store after a delete call, whether or not the row was there. */
    function Drop(id: nat): Table<V>
      requires Valid()
    {
      Table(rows - {id}, next)
    }

    predicate Live(id: Option<nat>) {
      id.Some? && id.value in rows
    }
  }

  type Table<V> = t: RawTable<V> | t.Valid() witness Table(map[], 0)

  /** The IDs named by an optional status field. */
  function Ids(id: Option<nat>): set<nat> {
    match id
    case None => {}
    case Some(i) => {i}
  }

  lemma CardSubset<T>(a: set<T>, b: set<T>)
    requires a <= b
    ensures |a| <= |b|
  {
    assert b == a + (b - a);
    assert |a + (b - a)| == |a| + |b - a|;
  }

  lemma CardUnion<T>(a: set<T>, b: set<T>, c: set<T>)
    requires c <= a + b
    ensures |c| <= |a| + |b|
  {
    CardSubset(c, a + b);
    assert |a + b| == |a| + |b| - |a * b|;
  }

  lemma Singleton<T>(s: set<T>, x: T)
    requires s <= {x}
    ensures |s| <= 1
  {
    assert s == {} || s == {x};
  }
}
