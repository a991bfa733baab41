/**
 * The server's cargo-to-truck allocator behind `POST /api/trucks/load`.
 *
 * The packer sorts the requested warehouse cargo by non-increasing volume,
 * then repeats rounds until no cargo is left. In each round it
 *  - fills every truck type of the catalog first-fit under its weight and
 *    volume limits,
 *  - takes the first type in catalog order that admits strictly the most
 *    items,
 *  - commits those items to one truck and removes them from the pool by id.
 * When no type admits a single remaining item, the largest type of the
 * server's own catalog carries the first remaining item alone.
 *
 * `OptimizeLoading` is the loop as the server runs it; `Plan` is the
 * specification it is proved equal to, and the lemmas state what `Plan`
 * guarantees.
 */
module Loading {
  import opened Wrappers

  // ---------------------------------------------------------------------------
  // Data
  // ---------------------------------------------------------------------------

  /** A row of the cargo table as the packer reads it (the other columns ride along unread). */
  datatype CargoRow = CargoRow(id: string, weight: real, volume: real, status: string)

  /** A truck type of the server's inline catalog: dimensions in metres, load limit in tons. */
  datatype TruckSpec = TruckSpec(name: string, length: real, width: real, height: real, maxWeight: real)

  /** One planned truck: the type used and the cargo assigned to it, in loading order. */
  datatype Load = Load(truckType: TruckSpec, cargos: seq<CargoRow>)

  /** The volume limit of a truck type: the product of its three dimensions. */
  function Capacity(t: TruckSpec): real {
    t.length * t.width * t.height
  }

  /** The catalog the request handler passes to the packer, lightest first. */
  const ServerCatalog: seq<TruckSpec> := [
    TruckSpec("轻型货车", 2.7, 1.5, 1.4, 1.5),
    TruckSpec("中型货车", 4.2, 2.0, 1.8, 5.0),
    TruckSpec("重型货车", 7.6, 2.3, 2.4, 15.0)]

  /** The type the fallback uses: the last entry of the server catalog. */
  const LargestTruck: TruckSpec := ServerCatalog[|ServerCatalog| - 1]

  /** The last catalog entry has the greatest weight and volume limits. */
  lemma LargestTruckIsLargest()
    ensures forall t :: t in ServerCatalog ==> t.maxWeight <= LargestTruck.maxWeight
    ensures forall t :: t in ServerCatalog ==> Capacity(t) <= Capacity(LargestTruck)
  {
  }

  function TotalWeight(s: seq<CargoRow>): real {
    if s == [] then 0.0 else TotalWeight(s[..|s| - 1]) + s[|s| - 1].weight
  }

  function TotalVolume(s: seq<CargoRow>): real {
    if s == [] then 0.0 else TotalVolume(s[..|s| - 1]) + s[|s| - 1].volume
  }

  /** No id occurs twice: the id is the primary key of the cargo table. */
  predicate UniqueIds(s: seq<CargoRow>) {
    forall i, j :: 0 <= i < j < |s| ==> s[i].id != s[j].id
  }

  /** Non-increasing volume from front to back. */
  predicate VolumeSorted(s: seq<CargoRow>) {
    forall i, j :: 0 <= i < j < |s| ==> s[i].volume >= s[j].volume
  }

  /** Every load in `loads` followed by the next: the cargo of a plan, in order. */
  function Flatten(loads: seq<Load>): seq<CargoRow> {
    if loads == [] then [] else loads[0].cargos + Flatten(loads[1..])
  }

  // ---------------------------------------------------------------------------
  // Sorting by volume
  // ---------------------------------------------------------------------------

  /**
   * Insert `x` into the volume-sorted `s` before the first element that is not
   * larger, so that `x`, which came first, stays ahead of items of equal volume.
   */
  function Insert(x: CargoRow, s: seq<CargoRow>): (r: seq<CargoRow>)
    ensures multiset(r) == multiset(s) + multiset{x}
  {
    if s == [] then [x]
    else if x.volume >= s[0].volume then [x] + s
    else
      assert s == [s[0]] + s[1..];
      [s[0]] + Insert(x, s[1..])
  }

  /** Inserting into a volume-sorted list keeps it sorted. */
  lemma {:induction false} InsertSorted(x: CargoRow, s: seq<CargoRow>)
    requires VolumeSorted(s)
    ensures VolumeSorted(Insert(x, s))
  {
    if s == [] || x.volume >= s[0].volume {
      forall e | e in s ensures e.volume <= x.volume {
        var k :| 0 <= k < |s| && s[k] == e;
        assert s[0].volume >= s[k].volume || k == 0;
      }
      ConsKeepsSorted(x, s);
    } else {
      assert VolumeSorted(s[1..]);
      InsertSorted(x, s[1..]);
      var rest := Insert(x, s[1..]);
      forall e | e in rest ensures e.volume <= s[0].volume {
        assert e in multiset(s[1..]) + multiset{x};
        if e != x {
          var k :| 0 <= k < |s[1..]| && s[1..][k] == e;
          assert s[k + 1] == e;
        }
      }
      ConsKeepsSorted(s[0], rest);
    }
  }

  /** Putting an item no smaller than any after it in front keeps a list volume-sorted. */
  lemma ConsKeepsSorted(x: CargoRow, s: seq<CargoRow>)
    requires VolumeSorted(s)
    requires forall e :: e in s ==> e.volume <= x.volume
    ensures VolumeSorted([x] + s)
  {
    forall i, j | 0 <= i < j < |[x] + s| ensures ([x] + s)[i].volume >= ([x] + s)[j].volume {
      if i > 0 {
        assert ([x] + s)[i] == s[i - 1];
      }
      assert ([x] + s)[j] == s[j - 1];
    }
  }

  /**
   * `[...cargos].sort((a, b) => b.volume - a.volume)`: a stable sort by
   * non-increasing volume (the built-in sort is stable).
   */
  function SortByVolume(s: seq<CargoRow>): (r: seq<CargoRow>)
    ensures multiset(r) == multiset(s)
  {
    if s == [] then []
    else
      assert s == [s[0]] + s[1..];
      Insert(s[0], SortByVolume(s[1..]))
  }

  /** The sort leaves the rows in non-increasing volume order. */
  lemma {:induction false} SortSorted(s: seq<CargoRow>)
    ensures VolumeSorted(SortByVolume(s))
  {
    if s != [] {
      SortSorted(s[1..]);
      InsertSorted(s[0], SortByVolume(s[1..]));
    }
  }

  /** Putting an item whose id is new in front of a list with unique ids keeps them unique. */
  lemma ConsKeepsIdsUnique(x: CargoRow, s: seq<CargoRow>)
    requires UniqueIds(s)
    requires forall e :: e in s ==> e.id != x.id
    ensures UniqueIds([x] + s)
  {
    forall i, j | 0 <= i < j < |[x] + s| ensures ([x] + s)[i].id != ([x] + s)[j].id {
      if i > 0 {
        assert ([x] + s)[i] == s[i - 1];
      }
      assert ([x] + s)[j] == s[j - 1];
    }
  }

  lemma {:induction false} InsertKeepsIdsUnique(x: CargoRow, s: seq<CargoRow>)
    requires UniqueIds(s)
    requires forall e :: e in s ==> e.id != x.id
    ensures UniqueIds(Insert(x, s))
  {
    if s == [] || x.volume >= s[0].volume {
      ConsKeepsIdsUnique(x, s);
    } else {
      assert s == [s[0]] + s[1..];
      assert UniqueIds(s[1..]);
      InsertKeepsIdsUnique(x, s[1..]);
      var rest := Insert(x, s[1..]);
      forall e | e in rest ensures e.id != s[0].id {
        assert e in multiset(s[1..]) + multiset{x};
      }
      ConsKeepsIdsUnique(s[0], rest);
    }
  }

  /** Sorting a list of rows with unique ids keeps the ids unique. */
  lemma {:induction false} SortKeepsIdsUnique(s: seq<CargoRow>)
    requires UniqueIds(s)
    ensures UniqueIds(SortByVolume(s))
  {
    if s != [] {
      assert s == [s[0]] + s[1..];
      assert UniqueIds(s[1..]);
      SortKeepsIdsUnique(s[1..]);
      var rest := SortByVolume(s[1..]);
      forall e | e in rest ensures e.id != s[0].id {
        assert e in multiset(s[1..]);
      }
      InsertKeepsIdsUnique(s[0], rest);
    }
  }

  // ---------------------------------------------------------------------------
  // One trial fill
  // ---------------------------------------------------------------------------

  /** What one trial has admitted so far, with its running weight and volume. */
  datatype Trial = Trial(cargos: seq<CargoRow>, weight: real, volume: real)

  /** The admission test of a trial: both running totals stay within the type's limits. */
  predicate Admits(t: TruckSpec, weight: real, volume: real, c: CargoRow) {
    weight + c.weight <= t.maxWeight && volume + c.volume <= Capacity(t)
  }

  /** `c` fits an empty truck of type `t`. */
  predicate FitsAlone(c: CargoRow, t: TruckSpec) {
    Admits(t, 0.0, 0.0, c)
  }

  /**
   * The trial of truck type `t` over `pool`: walk the pool in order, admit each
   * item that keeps both totals within the limits, skip the others and go on.
   */
  function Fill(pool: seq<CargoRow>, t: TruckSpec): (r: Trial)
    ensures |r.cargos| <= |pool|
    decreases |pool|
  {
    if pool == [] then Trial([], 0.0, 0.0)
    else
      var before := Fill(pool[..|pool| - 1], t);
      var c := pool[|pool| - 1];
      if Admits(t, before.weight, before.volume, c) then
        Trial(before.cargos + [c], before.weight + c.weight, before.volume + c.volume)
      else
        before
  }

  /**
   * The running totals of a trial are the totals of what it admitted, and a
   * trial that admitted anything is within the type's limits.
   */
  lemma {:induction false} FillWithinLimits(pool: seq<CargoRow>, t: TruckSpec)
    ensures Fill(pool, t).weight == TotalWeight(Fill(pool, t).cargos)
    ensures Fill(pool, t).volume == TotalVolume(Fill(pool, t).cargos)
    ensures Fill(pool, t).cargos != [] ==> Fill(pool, t).weight <= t.maxWeight && Fill(pool, t).volume <= Capacity(t)
    decreases |pool|
  {
    if pool != [] {
      var s, c := pool[..|pool| - 1], pool[|pool| - 1];
      FillWithinLimits(s, t);
      var before := Fill(s, t);
      if Admits(t, before.weight, before.volume, c) {
        var cs := before.cargos + [c];
        assert cs[..|cs| - 1] == before.cargos;
      }
    }
  }

  /** A trial admits only items of the pool. */
  lemma {:induction false} FillMembers(pool: seq<CargoRow>, t: TruckSpec)
    ensures forall c :: c in Fill(pool, t).cargos ==> c in pool
    decreases |pool|
  {
    if pool != [] {
      var s := pool[..|pool| - 1];
      FillMembers(s, t);
      assert pool == s + [pool[|pool| - 1]];
    }
  }

  /** Appending an item to the pool either admits it at the end of the trial or leaves the trial as it was. */
  lemma FillAppend(s: seq<CargoRow>, c: CargoRow, t: TruckSpec)
    ensures var before := Fill(s, t);
            Fill(s + [c], t) ==
              if Admits(t, before.weight, before.volume, c)
              then Trial(before.cargos + [c], before.weight + c.weight, before.volume + c.volume)
              else before
  {
    assert (s + [c])[..|s + [c]| - 1] == s;
  }

  /**
   * With non-negative weights and volumes the scan is first-fit: every pool
   * item that would still fit beside the final totals was admitted, so a
   * misfit is skipped and the walk goes on.
   */
  lemma {:induction false} FillMaximal(pool: seq<CargoRow>, t: TruckSpec)
    requires forall c :: c in pool ==> c.weight >= 0.0 && c.volume >= 0.0
    ensures var f := Fill(pool, t);
            forall c :: c in pool && Admits(t, f.weight, f.volume, c) ==> c in f.cargos
    decreases |pool|
  {
    if pool != [] {
      var s, d := pool[..|pool| - 1], pool[|pool| - 1];
      assert pool == s + [d];
      FillMaximal(s, t);
      FillAppend(s, d, t);
    }
  }

  /** A trial admits nothing exactly when no item of the pool fits the empty truck. */
  lemma {:induction false} FillEmptyIff(pool: seq<CargoRow>, t: TruckSpec)
    ensures Fill(pool, t).cargos == [] <==> forall c :: c in pool ==> !FitsAlone(c, t)
    decreases |pool|
  {
    if pool != [] {
      var s, c := pool[..|pool| - 1], pool[|pool| - 1];
      assert pool == s + [c];
      FillEmptyIff(s, t);
      var before := Fill(s, t);
      if before.cargos != [] {
        var w :| w in s && FitsAlone(w, t);
        assert w in pool;
        assert Fill(pool, t).cargos != [];
      } else {
        FillWithinLimits(s, t);
        assert before.weight == 0.0 && before.volume == 0.0;
        assert Fill(pool, t).cargos != [] <==> FitsAlone(c, t);
      }
    }
  }

  /**
   * First fit, not first fail: what a trial has admitted after a prefix of the
   * pool stays admitted, in the same order, however many items follow.
   */
  lemma {:induction false} FillKeepsAdmitted(pool: seq<CargoRow>, t: TruckSpec, i: nat, j: nat)
    requires i <= j <= |pool|
    ensures Fill(pool[..i], t).cargos <= Fill(pool[..j], t).cargos
  {
    assert pool[..j] == pool[..i] + pool[i..j];
    FillExtends(pool[..i], pool[i..j], t);
  }

  lemma {:induction false} FillExtends(s: seq<CargoRow>, u: seq<CargoRow>, t: TruckSpec)
    ensures Fill(s, t).cargos <= Fill(s + u, t).cargos
    decreases |u|
  {
    if u == [] {
      assert s + u == s;
    } else {
      var v, c := u[..|u| - 1], u[|u| - 1];
      FillExtends(s, v, t);
      assert Fill(s + v, t).cargos <= Fill(s + u, t).cargos by {
        assert u == v + [c];
        ConcatAssoc(s, v, [c]);
        FillAppendKeeps(s + v, c, t);
      }
      PrefixTransitive(Fill(s, t).cargos, Fill(s + v, t).cargos, Fill(s + u, t).cargos);
    }
  }

  lemma ConcatAssoc(a: seq<CargoRow>, b: seq<CargoRow>, c: seq<CargoRow>)
    ensures a + (b + c) == (a + b) + c
  {
  }

  lemma PrefixTransitive(a: seq<CargoRow>, b: seq<CargoRow>, c: seq<CargoRow>)
    requires a <= b && b <= c
    ensures a <= c
  {
    assert c[..|b|][..|a|] == c[..|a|];
  }

  lemma FillAppendKeeps(s: seq<CargoRow>, c: CargoRow, t: TruckSpec)
    ensures Fill(s, t).cargos <= Fill(s + [c], t).cargos
  {
    FillAppend(s, c, t);
  }

  /** An item too heavy for the truck is skipped and the light item after it is still admitted. */
  lemma FirstFitExample()
    ensures Fill([CargoRow("a", 2.0, 1.0, "warehouse"), CargoRow("b", 1.0, 1.0, "warehouse")], ServerCatalog[0]).cargos
         == [CargoRow("b", 1.0, 1.0, "warehouse")]
  {
    var a, b := CargoRow("a", 2.0, 1.0, "warehouse"), CargoRow("b", 1.0, 1.0, "warehouse");
    assert [a, b][..1] == [a];
    assert [a][..0] == [];
  }

  // ---------------------------------------------------------------------------
  // Removing the committed items
  // ---------------------------------------------------------------------------

  /** `b.some(bc => bc.id === id)`. */
  predicate HasId(b: seq<CargoRow>, id: string) {
    exists i :: 0 <= i < |b| && b[i].id == id
  }

  /** `pool.filter(c => !b.some(bc => bc.id === c.id))`: the items whose id is not in `b`, in order. */
  function Remove(pool: seq<CargoRow>, b: seq<CargoRow>): (r: seq<CargoRow>)
    ensures |r| <= |pool|
    decreases |pool|
  {
    if pool == [] then []
    else
      var rest := Remove(pool[..|pool| - 1], b);
      var c := pool[|pool| - 1];
      assert pool == pool[..|pool| - 1] + [c];
      if HasId(b, c.id) then rest else rest + [c]
  }

  /** The filter keeps exactly the items whose id is not among the committed ones. */
  lemma {:induction false} RemoveMembers(pool: seq<CargoRow>, b: seq<CargoRow>)
    ensures forall c :: c in Remove(pool, b) <==> c in pool && !HasId(b, c.id)
    decreases |pool|
  {
    if pool != [] {
      var s := pool[..|pool| - 1];
      RemoveMembers(s, b);
      assert pool == s + [pool[|pool| - 1]];
    }
  }

  /** Committing a non-empty trial shrinks the pool. */
  lemma CommitShrinks(pool: seq<CargoRow>, t: TruckSpec)
    requires Fill(pool, t).cargos != []
    ensures |Remove(pool, Fill(pool, t).cargos)| < |pool|
  {
    FillMembers(pool, t);
    RemoveShrinks(pool, Fill(pool, t).cargos);
  }

  lemma HasIdAppend(b: seq<CargoRow>, x: CargoRow, id: string)
    ensures HasId(b + [x], id) <==> HasId(b, id) || x.id == id
  {
    if HasId(b, id) {
      var i :| 0 <= i < |b| && b[i].id == id;
      assert (b + [x])[i] == b[i];
    }
    if x.id == id {
      assert (b + [x])[|b|] == x;
    }
  }

  /** Adding the id of an item that is not in the pool to `b` removes nothing more. */
  lemma {:induction false} RemoveIgnores(s: seq<CargoRow>, b: seq<CargoRow>, x: CargoRow)
    requires forall c :: c in s ==> c.id != x.id
    ensures Remove(s, b + [x]) == Remove(s, b)
    decreases |s|
  {
    if s != [] {
      var p, c := s[..|s| - 1], s[|s| - 1];
      assert s == p + [c];
      RemoveIgnores(p, b, x);
      HasIdAppend(b, x, c.id);
    }
  }

  /** A round that commits at least one item of the pool shrinks the pool. */
  lemma {:induction false} RemoveShrinks(pool: seq<CargoRow>, b: seq<CargoRow>)
    requires b != [] && b[0] in pool
    ensures |Remove(pool, b)| < |pool|
    decreases |pool|
  {
    var s, c := pool[..|pool| - 1], pool[|pool| - 1];
    assert pool == s + [c];
    assert HasId(b, b[0].id);
    if !HasId(b, c.id) {
      assert b[0] in s;
      RemoveShrinks(s, b);
    }
  }

  /** Appending an item no larger than any before it keeps a list volume-sorted. */
  lemma SnocKeepsSorted(s: seq<CargoRow>, c: CargoRow)
    requires VolumeSorted(s)
    requires forall e :: e in s ==> e.volume >= c.volume
    ensures VolumeSorted(s + [c])
  {
    forall i, j | 0 <= i < j < |s + [c]| ensures (s + [c])[i].volume >= (s + [c])[j].volume {
      assert (s + [c])[i] == s[i];
      if j < |s| {
        assert (s + [c])[j] == s[j];
      }
    }
  }

  /** Appending an item whose id is new keeps the ids of a list unique. */
  lemma SnocKeepsIdsUnique(s: seq<CargoRow>, c: CargoRow)
    requires UniqueIds(s)
    requires forall e :: e in s ==> e.id != c.id
    ensures UniqueIds(s + [c])
  {
    forall i, j | 0 <= i < j < |s + [c]| ensures (s + [c])[i].id != (s + [c])[j].id {
      assert (s + [c])[i] == s[i];
      if j < |s| {
        assert (s + [c])[j] == s[j];
      }
    }
  }

  /** Filtering keeps a volume-sorted pool sorted. */
  lemma {:induction false} RemoveKeepsOrder(pool: seq<CargoRow>, b: seq<CargoRow>)
    requires VolumeSorted(pool)
    ensures VolumeSorted(Remove(pool, b))
    decreases |pool|
  {
    if pool != [] {
      var s, c := pool[..|pool| - 1], pool[|pool| - 1];
      assert VolumeSorted(s);
      RemoveKeepsOrder(s, b);
      RemoveMembers(s, b);
      forall e | e in Remove(s, b) ensures e.volume >= c.volume {
        var k :| 0 <= k < |s| && s[k] == e;
        assert pool[k] == e;
      }
      if !HasId(b, c.id) {
        SnocKeepsSorted(Remove(s, b), c);
      }
    }
  }

  /** Filtering keeps the ids of a pool unique. */
  lemma {:induction false} RemoveKeepsIds(pool: seq<CargoRow>, b: seq<CargoRow>)
    requires UniqueIds(pool)
    ensures UniqueIds(Remove(pool, b))
    decreases |pool|
  {
    if pool != [] {
      var s, c := pool[..|pool| - 1], pool[|pool| - 1];
      assert UniqueIds(s);
      RemoveKeepsIds(s, b);
      RemoveMembers(s, b);
      forall e | e in Remove(s, b) ensures e.id != c.id {
        var k :| 0 <= k < |s| && s[k] == e;
        assert pool[k] == e;
      }
      if !HasId(b, c.id) {
        SnocKeepsIdsUnique(Remove(s, b), c);
      }
    }
  }

  lemma {:induction false} FillSorted(pool: seq<CargoRow>, t: TruckSpec)
    requires VolumeSorted(pool)
    ensures VolumeSorted(Fill(pool, t).cargos)
    decreases |pool|
  {
    if pool != [] {
      var s, c := pool[..|pool| - 1], pool[|pool| - 1];
      assert VolumeSorted(s);
      FillSorted(s, t);
      FillMembers(s, t);
      forall e | e in Fill(s, t).cargos ensures e.volume >= c.volume {
        var k :| 0 <= k < |s| && s[k] == e;
        assert pool[k] == e;
      }
      assert pool == s + [c];
      FillAppend(s, c, t);
      if Fill(pool, t).cargos != Fill(s, t).cargos {
        SnocKeepsSorted(Fill(s, t).cargos, c);
      }
    }
  }

  /**
   * With unique ids the filter takes away exactly the admitted items: the pool
   * is the admitted items plus what remains.
   */
  lemma {:induction false} FillPartition(pool: seq<CargoRow>, t: TruckSpec)
    requires UniqueIds(pool)
    ensures multiset(pool) == multiset(Fill(pool, t).cargos) + multiset(Remove(pool, Fill(pool, t).cargos))
    decreases |pool|
  {
    if pool != [] {
      var s, x := pool[..|pool| - 1], pool[|pool| - 1];
      assert pool == s + [x];
      assert UniqueIds(s);
      FillPartition(s, t);
      FillAppend(s, x, t);
      var f := Fill(s, t).cargos;
      var r := Remove(s, f);
      assert forall c :: c in s ==> c.id != x.id by {
        forall c | c in s ensures c.id != x.id {
          var k :| 0 <= k < |s| && s[k] == c;
          assert pool[k] == c;
        }
      }
      if Fill(pool, t).cargos == f + [x] {
        assert Remove(pool, f + [x]) == r by {
          HasIdAppend(f, x, x.id);
          RemoveAppend(s, f + [x], x);
          RemoveIgnores(s, f, x);
        }
        PartitionAdmitStep(s, x, f, r);
      } else {
        assert Remove(pool, f) == r + [x] by {
          assert !HasId(f, x.id) by {
            FillMembers(s, t);
            forall i | 0 <= i < |f| ensures f[i].id != x.id {
              assert f[i] in f;
            }
          }
          RemoveAppend(s, f, x);
        }
        PartitionSkipStep(s, x, f, r);
      }
    }
  }

  lemma PartitionAdmitStep(s: seq<CargoRow>, x: CargoRow, f: seq<CargoRow>, r: seq<CargoRow>)
    requires multiset(s) == multiset(f) + multiset(r)
    ensures multiset(s + [x]) == multiset(f + [x]) + multiset(r)
  {
  }

  lemma PartitionSkipStep(s: seq<CargoRow>, x: CargoRow, f: seq<CargoRow>, r: seq<CargoRow>)
    requires multiset(s) == multiset(f) + multiset(r)
    ensures multiset(s + [x]) == multiset(f) + multiset(r + [x])
  {
  }

  /** Filtering a pool with one more item at its end. */
  lemma RemoveAppend(s: seq<CargoRow>, b: seq<CargoRow>, x: CargoRow)
    ensures Remove(s + [x], b) == if HasId(b, x.id) then Remove(s, b) else Remove(s, b) + [x]
  {
    assert (s + [x])[..|s + [x]| - 1] == s;
  }

  // ---------------------------------------------------------------------------
  // Choosing the truck type of a round
  // ---------------------------------------------------------------------------

  /**
   * The position of the strictly largest count, the first one on ties, or none
   * when every count is zero: `if (truckCargos.length > bestCargos.length)`
   * applied left to right, starting from an empty best.
   */
  function FirstMax(counts: seq<nat>): (r: Option<nat>)
    ensures r.Some? ==> r.value < |counts| && counts[r.value] > 0
    ensures r.Some? ==> forall j :: 0 <= j < |counts| ==> counts[j] <= counts[r.value]
    ensures r.Some? ==> forall j :: 0 <= j < r.value ==> counts[j] < counts[r.value]
    ensures r.None? <==> forall j :: 0 <= j < |counts| ==> counts[j] == 0
  {
    if counts == [] then None
    else
      var n := |counts| - 1;
      var prev := FirstMax(counts[..n]);
      assert forall j :: 0 <= j < n ==> counts[..n][j] == counts[j];
      var best := if prev.None? then 0 else counts[prev.value];
      if counts[n] > best then Some(n) else prev
  }

  /** How many items the trial of each type admits. */
  function TrialSizes(types: seq<TruckSpec>, pool: seq<CargoRow>): (r: seq<nat>)
    ensures |r| == |types|
    ensures forall j :: 0 <= j < |types| ==> r[j] == |Fill(pool, types[j]).cargos|
  {
    seq(|types|, j requires 0 <= j < |types| => |Fill(pool, types[j]).cargos|)
  }

  /**
   * The index of the type a round commits: the first type, in catalog order,
   * whose trial admits strictly the most items; none when every trial is empty.
   */
  function BestIndex(types: seq<TruckSpec>, pool: seq<CargoRow>): (r: Option<nat>)
    ensures r.Some? ==> r.value < |types| && Fill(pool, types[r.value]).cargos != []
  {
    FirstMax(TrialSizes(types, pool))
  }

  /**
   * The chosen type admits the most items and strictly more than every type
   * before it; no type is chosen exactly when every trial is empty.
   */
  lemma BestIndexSpec(types: seq<TruckSpec>, pool: seq<CargoRow>)
    ensures var r := BestIndex(types, pool);
      r.Some? ==> forall j :: 0 <= j < |types| ==>
        |Fill(pool, types[j]).cargos| <= |Fill(pool, types[r.value]).cargos|
    ensures var r := BestIndex(types, pool);
      r.Some? ==> forall j :: 0 <= j < r.value ==>
        |Fill(pool, types[j]).cargos| < |Fill(pool, types[r.value]).cargos|
    ensures BestIndex(types, pool).None? <==> forall j :: 0 <= j < |types| ==> Fill(pool, types[j]).cargos == []
  {
    var sizes := TrialSizes(types, pool);
    assert forall j :: 0 <= j < |types| ==> sizes[j] == |Fill(pool, types[j]).cargos|;
  }

  // ---------------------------------------------------------------------------
  // The plan
  // ---------------------------------------------------------------------------

  /** The loads the packer emits for a volume-sorted `pool`, round by round. */
  function Plan(pool: seq<CargoRow>, types: seq<TruckSpec>): seq<Load>
    decreases |pool|
  {
    if pool == [] then []
    else
      match BestIndex(types, pool)
      case Some(k) =>
        var b := Fill(pool, types[k]).cargos;
        CommitShrinks(pool, types[k]);
        [Load(types[k], b)] + Plan(Remove(pool, b), types)
      case None =>
        [Load(LargestTruck, [pool[0]])] + Plan(pool[1..], types)
  }

  /** A load within its type's weight and volume limits. */
  predicate WithinLimits(l: Load) {
    TotalWeight(l.cargos) <= l.truckType.maxWeight && TotalVolume(l.cargos) <= Capacity(l.truckType)
  }

  /** A fallback load: the largest server type carrying one item that fits no given type on its own. */
  predicate IsFallback(l: Load, types: seq<TruckSpec>) {
    l.truckType == LargestTruck && |l.cargos| == 1 &&
    forall t :: t in types ==> !FitsAlone(l.cargos[0], t)
  }

  /** With unique ids every item of the pool is on exactly one truck: none dropped, none duplicated. */
  lemma {:induction false} PlanPartition(pool: seq<CargoRow>, types: seq<TruckSpec>)
    requires UniqueIds(pool)
    ensures multiset(Flatten(Plan(pool, types))) == multiset(pool)
    decreases |pool|
  {
    if pool != [] {
      match BestIndex(types, pool)
      case Some(k) =>
        var b := Fill(pool, types[k]).cargos;
        CommitShrinks(pool, types[k]);
        var rest := Remove(pool, b);
        assert multiset(Flatten(Plan(rest, types))) == multiset(rest) by {
          RemoveKeepsIds(pool, b);
          PlanPartition(rest, types);
        }
        CommitRound(pool, types, k);
        FlattenCons(Load(types[k], b), Plan(rest, types));
        FillPartition(pool, types[k]);
      case None =>
        assert multiset(Flatten(Plan(pool[1..], types))) == multiset(pool[1..]) by {
          PlanPartition(pool[1..], types);
        }
        FallbackStep(pool, types);
        FlattenCons(Load(LargestTruck, [pool[0]]), Plan(pool[1..], types));
        assert pool == [pool[0]] + pool[1..];
    }
  }

  /**
   * A load the packer may emit: at least one item, and either within the limits
   * of one of the given types or a fallback load.
   */
  predicate ValidLoad(l: Load, types: seq<TruckSpec>) {
    l.cargos != [] && ((l.truckType in types && WithinLimits(l)) || IsFallback(l, types))
  }

  /** Every load of a plan is valid. */
  lemma {:induction false} PlanLoadsValid(pool: seq<CargoRow>, types: seq<TruckSpec>)
    ensures forall l :: l in Plan(pool, types) ==> ValidLoad(l, types)
    decreases |pool|
  {
    if pool != [] {
      match BestIndex(types, pool)
      case Some(k) =>
        var b := Fill(pool, types[k]).cargos;
        CommitShrinks(pool, types[k]);
        PlanLoadsValid(Remove(pool, b), types);
        CommitRound(pool, types, k);
        FillWithinLimits(pool, types[k]);
        assert ValidLoad(Load(types[k], b), types);
      case None =>
        PlanLoadsValid(pool[1..], types);
        FallbackStep(pool, types);
        assert ValidLoad(Load(LargestTruck, [pool[0]]), types) by {
          forall t | t in types ensures !FitsAlone(pool[0], t) {
            FillEmptyIff(pool, t);
          }
        }
    }
  }

  /** Each round takes at least one item, so there are never more trucks than items. */
  lemma {:induction false} PlanLength(pool: seq<CargoRow>, types: seq<TruckSpec>)
    ensures |Plan(pool, types)| <= |pool|
    decreases |pool|
  {
    if pool != [] {
      match BestIndex(types, pool)
      case Some(k) =>
        var b := Fill(pool, types[k]).cargos;
        CommitShrinks(pool, types[k]);
        PlanLength(Remove(pool, b), types);
      case None =>
        PlanLength(pool[1..], types);
    }
  }

  /** A volume-sorted pool stays sorted, so each truck's cargo is in non-increasing volume order. */
  lemma {:induction false} PlanLoadsSorted(pool: seq<CargoRow>, types: seq<TruckSpec>)
    requires VolumeSorted(pool)
    ensures forall l :: l in Plan(pool, types) ==> VolumeSorted(l.cargos)
    decreases |pool|
  {
    if pool != [] {
      match BestIndex(types, pool)
      case Some(k) =>
        var b := Fill(pool, types[k]).cargos;
        CommitShrinks(pool, types[k]);
        FillSorted(pool, types[k]);
        RemoveKeepsOrder(pool, b);
        PlanLoadsSorted(Remove(pool, b), types);
      case None =>
        PlanLoadsSorted(pool[1..], types);
    }
  }

  /**
   * The fallback fires exactly when no remaining item fits any given type on
   * its own; it then puts the first, largest-volume item alone on the largest
   * server truck and goes on with the rest.
   */
  lemma FallbackRound(pool: seq<CargoRow>, types: seq<TruckSpec>)
    requires pool != []
    ensures BestIndex(types, pool).None? <==> forall c, t :: c in pool && t in types ==> !FitsAlone(c, t)
    ensures VolumeSorted(pool) ==> forall c :: c in pool ==> c.volume <= pool[0].volume
  {
    if BestIndex(types, pool).None? {
      forall c, t | c in pool && t in types ensures !FitsAlone(c, t) {
        var j :| 0 <= j < |types| && types[j] == t;
        FillEmptyIff(pool, t);
      }
    } else {
      var k := BestIndex(types, pool).value;
      FillEmptyIff(pool, types[k]);
    }
  }

  /** A fallback round loads the first item alone on the largest server truck and continues with the rest. */
  lemma FallbackStep(pool: seq<CargoRow>, types: seq<TruckSpec>)
    requires pool != [] && BestIndex(types, pool).None?
    ensures Plan(pool, types) == [Load(LargestTruck, [pool[0]])] + Plan(pool[1..], types)
  {
  }

  /** A committing round loads the chosen type's trial and continues with the filtered pool. */
  lemma CommitRound(pool: seq<CargoRow>, types: seq<TruckSpec>, k: nat)
    requires pool != [] && BestIndex(types, pool) == Some(k)
    ensures Plan(pool, types) ==
      [Load(types[k], Fill(pool, types[k]).cargos)] + Plan(Remove(pool, Fill(pool, types[k]).cargos), types)
  {
  }

  // ---------------------------------------------------------------------------
  // The packer as the server runs it
  // ---------------------------------------------------------------------------

  /**
   * One step of the scan over the types: the best index over the first `j + 1`
   * types is `j` exactly when trial `j` admits strictly more than the best so far.
   */
  lemma BestIndexStep(types: seq<TruckSpec>, pool: seq<CargoRow>, j: nat)
    requires j < |types|
    ensures var prev := BestIndex(types[..j], pool);
            var best := if prev.None? then 0 else |Fill(pool, types[prev.value]).cargos|;
            BestIndex(types[..j + 1], pool) == if |Fill(pool, types[j]).cargos| > best then Some(j) else prev
  {
    var sizes := TrialSizes(types[..j + 1], pool);
    assert sizes[..j] == TrialSizes(types[..j], pool);
  }

  /** Every item a plan loads comes from the pool. */
  lemma {:induction false} PlanDrawsFromPool(pool: seq<CargoRow>, types: seq<TruckSpec>)
    ensures forall c :: c in Flatten(Plan(pool, types)) ==> c in pool
    decreases |pool|
  {
    if pool != [] {
      match BestIndex(types, pool)
      case Some(k) =>
        var b := Fill(pool, types[k]).cargos;
        CommitShrinks(pool, types[k]);
        PlanDrawsFromPool(Remove(pool, b), types);
        CommitRound(pool, types, k);
        FlattenCons(Load(types[k], b), Plan(Remove(pool, b), types));
        FillMembers(pool, types[k]);
        RemoveMembers(pool, b);
      case None =>
        PlanDrawsFromPool(pool[1..], types);
        FallbackStep(pool, types);
        FlattenCons(Load(LargestTruck, [pool[0]]), Plan(pool[1..], types));
    }
  }

  lemma FlattenCons(l: Load, rest: seq<Load>)
    ensures Flatten([l] + rest) == l.cargos + Flatten(rest)
  {
    assert ([l] + rest)[1..] == rest;
  }

  /** What the packer guarantees about the plan for any cargo list. */
  lemma PackerGuarantees(cargos: seq<CargoRow>, types: seq<TruckSpec>)
    ensures UniqueIds(cargos) ==> multiset(Flatten(Plan(SortByVolume(cargos), types))) == multiset(cargos)
    ensures forall c :: c in Flatten(Plan(SortByVolume(cargos), types)) ==> c in cargos
    ensures |Plan(SortByVolume(cargos), types)| <= |cargos|
    ensures forall l :: l in Plan(SortByVolume(cargos), types) ==> VolumeSorted(l.cargos)
    ensures forall l :: l in Plan(SortByVolume(cargos), types) ==>
      ValidLoad(l, types)
  {
    var sorted := SortByVolume(cargos);
    assert |sorted| == |multiset(sorted)| == |cargos|;
    if UniqueIds(cargos) {
      SortKeepsIdsUnique(cargos);
      PlanPartition(sorted, types);
    }
    PlanDrawsFromPool(sorted, types);
    forall c | c in Flatten(Plan(sorted, types)) ensures c in cargos {
      assert c in multiset(sorted);
    }
    PlanLength(sorted, types);
    SortSorted(cargos);
    PlanLoadsSorted(sorted, types);
    PlanLoadsValid(sorted, types);
  }

  lemma AppendLoad(done: seq<Load>, load: Load, rest: seq<Load>)
    ensures (done + [load]) + rest == done + ([load] + rest)
  {
  }

  /**
   * The inner loop of a round: one pass over the pool that admits each item
   * keeping the running weight and volume within the limits of `truckType`.
   */
  method TrialLoad(remainingCargos: seq<CargoRow>, truckType: TruckSpec) returns (truckCargos: seq<CargoRow>)
    ensures truckCargos == Fill(remainingCargos, truckType).cargos
  {
    truckCargos := [];
    var currentWeight := 0.0;
    var currentVolume := 0.0;
    var maxVolume := Capacity(truckType);

    for i := 0 to |remainingCargos|
      invariant truckCargos == Fill(remainingCargos[..i], truckType).cargos
      invariant currentWeight == Fill(remainingCargos[..i], truckType).weight
      invariant currentVolume == Fill(remainingCargos[..i], truckType).volume
    {
      var cargo := remainingCargos[i];
      assert remainingCargos[..i + 1] == remainingCargos[..i] + [cargo];
      FillAppend(remainingCargos[..i], cargo, truckType);
      if currentWeight + cargo.weight <= truckType.maxWeight && currentVolume + cargo.volume <= maxVolume {
        truckCargos := truckCargos + [cargo];
        currentWeight := currentWeight + cargo.weight;
        currentVolume := currentVolume + cargo.volume;
      }
    }
    assert remainingCargos[..|remainingCargos|] == remainingCargos;
  }

  /**
   * The scan over the types in one round: try each type in catalog order and
   * keep the first whose trial admits strictly more items than the best so far.
   */
  method ChooseTruck(remainingCargos: seq<CargoRow>, truckTypes: seq<TruckSpec>)
    returns (bestTruck: Option<TruckSpec>, bestCargos: seq<CargoRow>)
    ensures BestIndex(truckTypes, remainingCargos).None? ==> bestTruck.None? && bestCargos == []
    ensures BestIndex(truckTypes, remainingCargos).Some? ==>
      var k := BestIndex(truckTypes, remainingCargos).value;
      bestTruck == Some(truckTypes[k]) && bestCargos == Fill(remainingCargos, truckTypes[k]).cargos
  {
    bestTruck := None;
    bestCargos := [];
    ghost var bestIndex: Option<nat> := None;

    for j := 0 to |truckTypes|
      invariant bestIndex == BestIndex(truckTypes[..j], remainingCargos)
      invariant bestIndex.None? ==> bestTruck.None? && bestCargos == []
      invariant bestIndex.Some? ==> bestIndex.value < j && bestTruck == Some(truckTypes[bestIndex.value]) &&
                                    bestCargos == Fill(remainingCargos, truckTypes[bestIndex.value]).cargos
    {
      var truckType := truckTypes[j];
      var truckCargos := TrialLoad(remainingCargos, truckType);

      BestIndexStep(truckTypes, remainingCargos, j);
      if |truckCargos| > |bestCargos| {
        bestTruck := Some(truckType);
        bestCargos := truckCargos;
        bestIndex := Some(j);
      }
    }
    assert truckTypes[..|truckTypes|] == truckTypes;
  }

  /**
   * `optimizeLoading(cargos, truckTypes)`: the rounds as the server runs them,
   * with the trial fills and the choice of the best type written out as loops.
   */
  method OptimizeLoading(cargos: seq<CargoRow>, truckTypes: seq<TruckSpec>) returns (trucks: seq<Load>)
    ensures trucks == Plan(SortByVolume(cargos), truckTypes)
    ensures UniqueIds(cargos) ==> multiset(Flatten(trucks)) == multiset(cargos)
    ensures forall c :: c in Flatten(trucks) ==> c in cargos
    ensures |trucks| <= |cargos|
    ensures forall l :: l in trucks ==> VolumeSorted(l.cargos)
    ensures forall l :: l in trucks ==> ValidLoad(l, truckTypes)
  {
    trucks := [];
    var remainingCargos := SortByVolume(cargos);
    ghost var sorted := remainingCargos;

    while |remainingCargos| > 0
      invariant trucks + Plan(remainingCargos, truckTypes) == Plan(sorted, truckTypes)
      decreases |remainingCargos|
    {
      var bestTruck, bestCargos := ChooseTruck(remainingCargos, truckTypes);
      ghost var bestIndex := BestIndex(truckTypes, remainingCargos);

      if bestTruck.Some? && |bestCargos| > 0 {
        CommitRound(remainingCargos, truckTypes, bestIndex.value);
        var load := Load(bestTruck.value, bestCargos);
        CommitShrinks(remainingCargos, truckTypes[bestIndex.value]);
        var rest := Remove(remainingCargos, bestCargos);
        AppendLoad(trucks, load, Plan(rest, truckTypes));
        trucks := trucks + [load];
        remainingCargos := rest;
      } else {
        FallbackStep(remainingCargos, truckTypes);
        var load := Load(LargestTruck, [remainingCargos[0]]);
        var rest := remainingCargos[1..];
        AppendLoad(trucks, load, Plan(rest, truckTypes));
        trucks := trucks + [load];
        remainingCargos := rest;
      }
    }

    PackerGuarantees(cargos, truckTypes);
  }

  // ---------------------------------------------------------------------------
  // The request handler
  // ---------------------------------------------------------------------------

  datatype LoadError =
    | NoCargoIds    // 400 "No cargo IDs provided"
    | NoValidCargo  // 400 "No valid cargo found"

  /**
   * `SELECT * FROM cargo WHERE id IN (...) AND status = 'warehouse'`: the
   * requested rows still in the warehouse, in table order.
   */
  function SelectRequested(table: seq<CargoRow>, ids: seq<string>): (r: seq<CargoRow>)
    ensures forall c :: c in r <==> c in table && c.id in ids && c.status == "warehouse"
    ensures UniqueIds(table) ==> UniqueIds(r)
  {
    if table == [] then []
    else
      var rest := SelectRequested(table[1..], ids);
      assert table == [table[0]] + table[1..];
      if table[0].id in ids && table[0].status == "warehouse" then [table[0]] + rest else rest
  }

  /**
   * The packing part of `POST /api/trucks/load`: refuse an absent or empty id
   * list, refuse when none of the ids is in the warehouse, otherwise plan the
   * selected rows on the server catalog.
   */
  method LoadCargo(cargoIds: Option<seq<string>>, table: seq<CargoRow>) returns (r: Result<seq<Load>, LoadError>)
    ensures (cargoIds.None? || cargoIds.value == []) <==> r == Err(NoCargoIds)
    ensures r == Err(NoValidCargo) <==>
      cargoIds.Some? && cargoIds.value != [] && SelectRequested(table, cargoIds.value) == []
    ensures r.Ok? ==> r.value == Plan(SortByVolume(SelectRequested(table, cargoIds.value)), ServerCatalog)
    ensures r.Ok? && UniqueIds(table) ==>
      multiset(Flatten(r.value)) == multiset(SelectRequested(table, cargoIds.value))
    ensures r.Ok? ==> forall c :: c in Flatten(r.value) ==> c.status == "warehouse" && c.id in cargoIds.value
  {
    if cargoIds.None? || |cargoIds.value| == 0 {
      return Err(NoCargoIds);
    }
    var cargoList := SelectRequested(table, cargoIds.value);
    if |cargoList| == 0 {
      return Err(NoValidCargo);
    }
    var trucks := OptimizeLoading(cargoList, ServerCatalog);
    r := Ok(trucks);
  }
}
