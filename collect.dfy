/** The per-affiliate id arrays the referral and visit generators collect:
    `$collected[$affiliate_id][] = $id`. */
module Collect {
  import opened Host

  /** `$m[$k]`, with an absent key read as the empty array. */
  function Lookup(m: map<Id, seq<Id>>, k: Id): seq<Id> {
    if k in m then m[k] else []
  }

  /** `$m[$k][] = $v`. */
  function Push(m: map<Id, seq<Id>>, k: Id, v: Id): map<Id, seq<Id>> {
    m[k := Lookup(m, k) + [v]]
  }

  /** `$m[$k][] = $v` for each `$v` of `vs` in turn; no key appears when `vs`
      is empty. */
  function PushAll(m: map<Id, seq<Id>>, k: Id, vs: seq<Id>): map<Id, seq<Id>> {
    if vs == [] then m else m[k := Lookup(m, k) + vs]
  }

  lemma PushStep(m: map<Id, seq<Id>>, k: Id, vs: seq<Id>, v: Id)
    ensures Push(PushAll(m, k, vs), k, v) == PushAll(m, k, vs + [v])
  {
    if vs != [] {
      assert Lookup(m, k) + vs + [v] == Lookup(m, k) + (vs + [v]);
    } else {
      assert vs + [v] == [v];
    }
  }

  /** Pushing the next consecutive id `first + n` extends the run of ids
      collected so far under `k`. */
  lemma PushNext(m: map<Id, seq<Id>>, k: Id, first: nat, n: nat)
    ensures Push(PushAll(m, k, Range(first, n)), k, first + n) == PushAll(m, k, Range(first, n + 1))
  {
    PushStep(m, k, Range(first, n), first + n);
    RangeStep(first, n);
  }

  /** The map collected when `count` records are created for each id of `ids`,
      in order, and the created records are numbered on from `base`. */
  function Grouped(ids: seq<Id>, count: nat, base: nat): map<Id, seq<Id>> {
    if ids == [] then map[]
    else
      var n := |ids| - 1;
      PushAll(Grouped(ids[..n], count, base), ids[n], Range(base + n * count + 1, count))
  }

  /** An id gets an entry exactly when it was listed and at least one record
      was created per id. */
  lemma {:induction false} GroupedKeys(ids: seq<Id>, count: nat, base: nat)
    ensures Grouped(ids, count, base).Keys == if count == 0 then {} else set k | k in ids
  {
    if ids != [] {
      var n := |ids| - 1;
      GroupedKeys(ids[..n], count, base);
      assert ids == ids[..n] + [ids[n]];
      assert (set k | k in ids) == (set k | k in ids[..n]) + {ids[n]};
    }
  }

  /** For a list without repetitions, the entry of the id at position `p` holds
      exactly the `count` ids created in the `p`-th round, in creation order. */
  lemma {:induction false} GroupedDistinct(ids: seq<Id>, count: nat, base: nat, p: nat)
    requires forall a, b :: 0 <= a < b < |ids| ==> ids[a] != ids[b]
    requires p < |ids|
    ensures Lookup(Grouped(ids, count, base), ids[p]) == Range(base + p * count + 1, count)
  {
    var n := |ids| - 1;
    var g := Grouped(ids[..n], count, base);
    if p == n {
      GroupedKeys(ids[..n], count, base);
      assert ids[n] !in g;
    } else {
      GroupedDistinct(ids[..n], count, base, p);
    }
  }
}
