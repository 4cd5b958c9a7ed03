/**
 The store-backed index of ephemeral pods: a list of rows rewritten as a whole by every add and
 remove, either of which may fail with or without having taken effect.
 */
module IndexStore {
  import opened Wrappers
  import opened Filters

  type Id = string

  datatype Instance = Instance(id: Id, provider: string, endpoints: map<string, string>)

  datatype Config = Config(warmAttachKey: string, kinoforgeKey: string, provider: string, compute: bool)

  /** What a row says beside its id. */
  datatype Row = Row(warmAttachKey: string, kinoforgeKey: string, endpoints: map<string, string>, provider: string, stamp: string)

  /** What becomes of one write: done; lost and reported; done and yet reported as failed. */
  datatype Fate = Done | Lost | DoneButRaised

  /** What a write leaves, and whether an exception comes back. */
  function Written<T>(f: Fate, was: T, now: T): (T, bool) {
    (if f == Lost then was else now, f != Done)
  }

  type Rows = map<Id, Row>

  function WithKey<K(==), V>(id: K): ((K, V)) -> bool {
    (row: (K, V)) => row.0 == id
  }

  /** The rows by id. */
  function ById<K(==), V>(rows: seq<(K, V)>): map<K, V> {
    if rows == [] then map[] else ById(rows[..|rows| - 1])[rows[|rows| - 1].0 := rows[|rows| - 1].1]
  }

  lemma {:induction false} ByIdWithout<K(!new), V(!new)>(rows: seq<(K, V)>, id: K)
    ensures ById(Kept(rows, WithKey(id))) == ById(rows) - {id}
  {
    if |rows| > 0 {
      var (front, last) := (rows[..|rows| - 1], rows[|rows| - 1]);
      assert rows == front + [last];
      hide *;
      ByIdWithout(front, id);
      WithoutSnoc(front, last, id);
    }
  }

  lemma DropAndSet<K, V>(m: map<K, V>, k: K, v: V, id: K)
    ensures m[k := v] - {id} == if k == id then m - {id} else (m - {id})[k := v]
  {
  }

  lemma WithoutSnoc<K(!new), V(!new)>(rows: seq<(K, V)>, row: (K, V), id: K)
    requires ById(Kept(rows, WithKey(id))) == ById(rows) - {id}
    ensures ById(Kept(rows + [row], WithKey(id))) == ById(rows + [row]) - {id}
  {
    assert WithKey<K, V>(id)(row) <==> row.0 == id;
    var kept := Kept(rows, WithKey(id));
    KeptSnoc(rows, row, WithKey(id));
    assert Kept(rows + [row], WithKey(id)) == if row.0 == id then kept else kept + [row];
    hide *;
    ByIdSnoc(rows, row);
    ByIdSnoc(kept, row);
    DropAndSet(ById(rows), row.0, row.1, id);
  }

  lemma ByIdSnoc<K, V>(rows: seq<(K, V)>, row: (K, V))
    ensures ById(rows + [row]) == ById(rows)[row.0 := row.1]
  {
  }

  lemma BackAgain<K, V>(m: map<K, V>, k: K, v: V)
    ensures (m - {k})[k := v] == m[k := v]
  {
  }

  class EphemeralIndex {
    var rows: seq<(Id, Row)>
    /** Every write of this process so far, and what becomes of each. */
    var writes: nat
    const fate: nat -> Fate

    constructor (rows: seq<(Id, Row)>, fate: nat -> Fate)
      ensures this.rows == rows && this.fate == fate && writes == 0
    {
      this.rows := rows;
      this.fate := fate;
      this.writes := 0;
    }

    ghost predicate Healthy() {
      forall n: nat :: fate(n) == Done
    }

    function Contents(): Rows
      reads this
    {
      ById(rows)
    }

    /** Rewrites the file; says whether an exception came back. */
    method Write(rows': seq<(Id, Row)>) returns (raised: bool)
      modifies this
      ensures Contents() == ById(rows') || (raised && Contents() == old(Contents()))
      ensures Healthy() ==> !raised && Contents() == ById(rows')
      ensures !raised ==> Contents() == ById(rows')
    {
      var (now, failed) := Written(fate(writes), rows, rows');
      writes, rows, raised := writes + 1, now, failed;
    }

    /** Inserts the row or replaces the one with its id. */
    method Add(id: Id, row: Row) returns (raised: bool)
      modifies this
      ensures Contents() == old(Contents())[id := row] || (raised && Contents() == old(Contents()))
      ensures Healthy() ==> !raised
      ensures !raised ==> Contents() == old(Contents())[id := row]
    {
      hide Kept, ById, WithKey;
      var rows' := Keep(rows, WithKey(id));
      ByIdWithout(rows, id);
      ByIdSnoc(rows', (id, row));
      BackAgain(ById(rows), id, row);
      assert Contents() == ById(rows);
      rows' := rows' + [(id, row)];
      raised := Write(rows');
    }

    /** Drops the row with that id; a missing id is no error and no write. */
    method Remove(id: Id) returns (raised: bool)
      modifies this
      ensures Contents() == old(Contents()) - {id} || (raised && Contents() == old(Contents()))
      ensures Healthy() ==> !raised
      ensures !raised ==> Contents() == old(Contents()) - {id}
    {
      var rows' := Keep(rows, WithKey(id));
      ByIdWithout(rows, id);
      if |rows'| != |rows| {
        raised := Write(rows');
      } else {
        NothingDropped(rows, WithKey(id));
        raised := false;
      }
    }
  }
}
