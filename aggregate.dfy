/** The accumulation the report and dashboard hooks share: a loop over
    fetched rows that, for each row, looks its key up in a `Map`, starting
    from zeros when it is missing, adds the row's amounts and one to the
    count, and stores the entry back. A JavaScript `Map` lists its entries
    in the order their keys were first set, so the map is kept here as a
    sequence of groups with distinct keys, in that order. */
module Aggregate {
  import opened Wrappers

  /** A row offered to the accumulation: its key and up to two amounts. */
  datatype Tally<K> = Tally(key: K, x: int, y: int)

  /** A map entry: the key, the two running sums and the number of rows. */
  datatype Group<K> = Group(key: K, x: int, y: int, count: nat)

  predicate DistinctKeys<K(==)>(gs: seq<Group<K>>) {
    forall i, j | 0 <= i < j < |gs| :: gs[i].key != gs[j].key
  }

  /** `map.get(key)`: the position of the first entry with the key. */
  function IndexOf<K(==)>(gs: seq<Group<K>>, key: K): (r: Option<nat>)
    ensures r.Some? ==> r.value < |gs| && gs[r.value].key == key
    ensures r.Some? ==> forall k | 0 <= k < r.value :: gs[k].key != key
    ensures r.None? ==> forall k | 0 <= k < |gs| :: gs[k].key != key
  {
    if |gs| == 0 then None
    else if gs[0].key == key then Some(0)
    else
      match IndexOf(gs[1..], key)
      case None => None
      case Some(i) => Some(i + 1)
  }

  /** One turn of the loop: the row's entry, found or started at zero,
      with the row's amounts and one more row. */
  function Add<K(==)>(gs: seq<Group<K>>, t: Tally<K>): seq<Group<K>>
  {
    match IndexOf(gs, t.key)
    case None => gs + [Group(t.key, t.x, t.y, 1)]
    case Some(i) => gs[i := Group(t.key, gs[i].x + t.x, gs[i].y + t.y, gs[i].count + 1)]
  }

  /** The map after the whole loop. */
  function GroupAll<K(==)>(rows: seq<Tally<K>>): seq<Group<K>>
  {
    if |rows| == 0 then [] else Add(GroupAll(rows[..|rows| - 1]), rows[|rows| - 1])
  }

  /** The reference definitions: for one key, the sums of the rows with
      that key and their number. */
  function SumX<K(==)>(rows: seq<Tally<K>>, key: K): int
  {
    if |rows| == 0 then 0
    else SumX(rows[..|rows| - 1], key) + (if rows[|rows| - 1].key == key then rows[|rows| - 1].x else 0)
  }

  function SumY<K(==)>(rows: seq<Tally<K>>, key: K): int
  {
    if |rows| == 0 then 0
    else SumY(rows[..|rows| - 1], key) + (if rows[|rows| - 1].key == key then rows[|rows| - 1].y else 0)
  }

  function Count<K(==)>(rows: seq<Tally<K>>, key: K): nat
  {
    if |rows| == 0 then 0
    else Count(rows[..|rows| - 1], key) + (if rows[|rows| - 1].key == key then 1 else 0)
  }

  /** A key no row carries has nothing summed and no rows. */
  lemma {:induction false} AbsentKey<K>(rows: seq<Tally<K>>, key: K)
    requires forall j | 0 <= j < |rows| :: rows[j].key != key
    ensures SumX(rows, key) == 0 && SumY(rows, key) == 0 && Count(rows, key) == 0
  {
    if |rows| > 0 {
      AbsentKey(rows[..|rows| - 1], key);
    }
  }

  /** A turn of the loop keeps every entry's key where it was, leaves the
      row's key present, and puts a key not seen before after all the
      others. */
  lemma AddKeepsKeys<K>(gs: seq<Group<K>>, t: Tally<K>)
    ensures |Add(gs, t)| >= |gs|
    ensures forall i | 0 <= i < |gs| :: Add(gs, t)[i].key == gs[i].key
    ensures IndexOf(Add(gs, t), t.key).Some?
    ensures IndexOf(gs, t.key).Some? ==> |Add(gs, t)| == |gs|
    ensures IndexOf(gs, t.key).None? ==> |Add(gs, t)| == |gs| + 1 && Add(gs, t)[|gs|].key == t.key
  {
    var r := Add(gs, t);
    match IndexOf(gs, t.key)
    case None =>
      assert r[|gs|].key == t.key;
    case Some(p) =>
      assert r[p].key == t.key;
  }

  /** Every row's key has an entry. */
  lemma {:induction false} GroupAllCovers<K>(rows: seq<Tally<K>>)
    ensures forall j | 0 <= j < |rows| :: IndexOf(GroupAll(rows), rows[j].key).Some?
  {
    if |rows| > 0 {
      var init := rows[..|rows| - 1];
      GroupAllCovers(init);
      var gs0 := GroupAll(init);
      var gs := GroupAll(rows);
      AddKeepsKeys(gs0, rows[|rows| - 1]);
      forall j | 0 <= j < |init|
        ensures IndexOf(gs, rows[j].key).Some?
      {
        var q := IndexOf(gs0, init[j].key).value;
        assert gs[q].key == rows[j].key;
      }
    }
  }

  /** The entries are in first-seen order: the keys of the first m rows
      come first, in the order the loop met them after those m rows. */
  lemma {:induction false} GroupAllFirstSeen<K>(rows: seq<Tally<K>>, m: nat)
    requires m <= |rows|
    ensures |GroupAll(rows[..m])| <= |GroupAll(rows)|
    ensures forall i | 0 <= i < |GroupAll(rows[..m])| :: GroupAll(rows)[i].key == GroupAll(rows[..m])[i].key
  {
    if m < |rows| {
      var n := |rows| - 1;
      assert rows[..n][..m] == rows[..m];
      GroupAllFirstSeen(rows[..n], m);
      AddKeepsKeys(GroupAll(rows[..n]), rows[n]);
    } else {
      assert rows[..m] == rows;
    }
  }

  /** No key has two entries. */
  lemma {:induction false} GroupAllDistinct<K>(rows: seq<Tally<K>>)
    ensures DistinctKeys(GroupAll(rows))
  {
    if |rows| > 0 {
      GroupAllDistinct(rows[..|rows| - 1]);
    }
  }

  /** Each entry holds exactly the sums and the number of the rows with
      its key, and so at least one row. */
  predicate Tallied<K(==)>(rows: seq<Tally<K>>, gs: seq<Group<K>>) {
    forall i | 0 <= i < |gs| ::
      && gs[i].x == SumX(rows, gs[i].key) && gs[i].y == SumY(rows, gs[i].key)
      && gs[i].count == Count(rows, gs[i].key) && gs[i].count >= 1
  }

  /** What the loop builds: one entry per distinct key of the rows, each
      holding exactly the sums and the number of the rows with its key, so
      that no entry is without a row. */
  lemma {:induction false} GroupAllSums<K>(rows: seq<Tally<K>>)
    ensures Tallied(rows, GroupAll(rows))
  {
    if |rows| > 0 {
      var init := rows[..|rows| - 1];
      var t := rows[|rows| - 1];
      GroupAllSums(init);
      GroupAllDistinct(init);
      var gs0 := GroupAll(init);
      match IndexOf(gs0, t.key)
      case None =>
        GroupAllCovers(init);
        forall j | 0 <= j < |init|
          ensures init[j].key != t.key
        {
          assert IndexOf(gs0, init[j].key).Some?;
        }
        AbsentKey(init, t.key);
        var gs := GroupAll(rows);
        assert gs == gs0 + [Group(t.key, t.x, t.y, 1)];
        forall i | 0 <= i < |gs0|
          ensures gs[i].x == SumX(rows, gs[i].key) && gs[i].y == SumY(rows, gs[i].key)
          ensures gs[i].count == Count(rows, gs[i].key)
        {
          assert gs[i] == gs0[i] && gs0[i].key != t.key;
          assert gs0[i].x == SumX(init, gs0[i].key);
        }
      case Some(p) =>
        var gs := GroupAll(rows);
        assert gs == gs0[p := Group(t.key, gs0[p].x + t.x, gs0[p].y + t.y, gs0[p].count + 1)];
        forall i | 0 <= i < |gs|
          ensures gs[i].x == SumX(rows, gs[i].key) && gs[i].y == SumY(rows, gs[i].key)
          ensures gs[i].count == Count(rows, gs[i].key) && gs[i].count >= 1
        {
          assert gs0[i].x == SumX(init, gs0[i].key);
          if i != p {
            assert gs[i] == gs0[i] && gs0[i].key != t.key;
          }
        }
    }
  }

  /** The number of rows over all entries. */
  function TotalCount<K>(gs: seq<Group<K>>): int
  {
    if |gs| == 0 then 0 else TotalCount(gs[..|gs| - 1]) + gs[|gs| - 1].count
  }

  /** The first sum over all entries. */
  function TotalX<K>(gs: seq<Group<K>>): int
  {
    if |gs| == 0 then 0 else TotalX(gs[..|gs| - 1]) + gs[|gs| - 1].x
  }

  /** The first amount over all rows. */
  function RowsX<K>(rows: seq<Tally<K>>): int
  {
    if |rows| == 0 then 0 else RowsX(rows[..|rows| - 1]) + rows[|rows| - 1].x
  }

  lemma {:induction false} TotalsUpdate<K>(gs: seq<Group<K>>, i: nat, g: Group<K>)
    requires i < |gs|
    ensures TotalCount(gs[i := g]) == TotalCount(gs) - gs[i].count + g.count
    ensures TotalX(gs[i := g]) == TotalX(gs) - gs[i].x + g.x
  {
    var n := |gs|;
    if i < n - 1 {
      assert gs[i := g][..n - 1] == gs[..n - 1][i := g];
      TotalsUpdate(gs[..n - 1], i, g);
    } else {
      assert gs[i := g][..n - 1] == gs[..n - 1];
    }
  }

  /** One turn of the loop adds one row to the counts and the row's first
      amount to the first sums. */
  lemma AddTotals<K>(gs: seq<Group<K>>, t: Tally<K>)
    ensures TotalCount(Add(gs, t)) == TotalCount(gs) + 1
    ensures TotalX(Add(gs, t)) == TotalX(gs) + t.x
  {
    match IndexOf(gs, t.key)
    case None =>
      var r := gs + [Group(t.key, t.x, t.y, 1)];
      assert r[..|r| - 1] == gs;
    case Some(p) =>
      TotalsUpdate(gs, p, Group(t.key, gs[p].x + t.x, gs[p].y + t.y, gs[p].count + 1));
  }

  /** No row is lost or counted twice: the counts add up to the number of
      rows and the first sums to the rows' total. */
  lemma {:induction false} GroupAllTotals<K>(rows: seq<Tally<K>>)
    ensures TotalCount(GroupAll(rows)) == |rows|
    ensures TotalX(GroupAll(rows)) == RowsX(rows)
  {
    if |rows| > 0 {
      var init := rows[..|rows| - 1];
      GroupAllTotals(init);
      AddTotals(GroupAll(init), rows[|rows| - 1]);
    }
  }

  /** The map lookup: the loop stops at the first entry with the key. */
  method Find<K(==)>(gs: seq<Group<K>>, key: K) returns (r: Option<nat>)
    ensures r == IndexOf(gs, key)
  {
    var i := 0;
    while i < |gs|
      invariant 0 <= i <= |gs|
      invariant forall k | 0 <= k < i :: gs[k].key != key
    {
      if gs[i].key == key {
        return Some(i);
      }
      i := i + 1;
    }
    return None;
  }

  /** `const existing = map.get(key) ?? zero; existing... += ...; map.set(key, existing)` */
  method Put<K(==)>(gs: seq<Group<K>>, t: Tally<K>) returns (r: seq<Group<K>>)
    ensures r == Add(gs, t)
  {
    var found := Find(gs, t.key);
    if found.None? {
      r := gs + [Group(t.key, t.x, t.y, 1)];
    } else {
      var i := found.value;
      r := gs[i := Group(t.key, gs[i].x + t.x, gs[i].y + t.y, gs[i].count + 1)];
    }
  }

  /** The accumulation loop over all rows. */
  method Accumulate<K(==)>(rows: seq<Tally<K>>) returns (gs: seq<Group<K>>)
    ensures gs == GroupAll(rows)
  {
    gs := [];
    for i := 0 to |rows|
      invariant gs == GroupAll(rows[..i])
    {
      assert rows[..i + 1][..i] == rows[..i];
      gs := Put(gs, rows[i]);
    }
    assert rows[..|rows|] == rows;
  }
}
