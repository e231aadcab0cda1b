/** The `preset` table of both scripts: a list with one `[low, high]` pair
    per servo, indexed `preset[servo][phase]` with phase 0 for LOW and 1 for
    HIGH. Neither script changes the length of a pair, so a pair is a
    `Limits` value here. The calibration order numbers the cells by
    `slot = 2 * servo + phase`, so slot k is the k-th position an operator
    confirms. */
module Tables {

  /** One `[low, high]` entry of the table. */
  datatype Limits = Limits(low: int, high: int)
  {
    /** `pair[phase]`. */
    function At(phase: nat): int
      requires phase < 2
    {
      if phase == 0 then low else high
    }

    /** The pair after `pair[phase] = v`. */
    function With(phase: nat, v: int): (r: Limits)
      requires phase < 2
      ensures r.At(phase) == v
      ensures forall ph :: 0 <= ph < 2 && ph != phase ==> r.At(ph) == At(ph)
    {
      if phase == 0 then Limits(v, high) else Limits(low, v)
    }
  }

  /** Every entry lies in `[lo, hi]`. */
  predicate Within(t: seq<Limits>, lo: int, hi: int)
  {
    forall s :: 0 <= s < |t| ==> lo <= t[s].low <= hi && lo <= t[s].high <= hi
  }

  /** A table of `n` copies of one pair. */
  function Repeat(n: nat, pair: Limits): (t: seq<Limits>)
    ensures |t| == n
    ensures forall s :: 0 <= s < n ==> t[s] == pair
  {
    seq(n, _ => pair)
  }

  /** The entry numbered `slot` in calibration order. */
  function Cell(t: seq<Limits>, slot: nat): int
    requires slot < 2 * |t|
  {
    t[slot / 2].At(slot % 2)
  }

  /** `preset[s][ph] = v` on a nested list mutated in place. */
  function Store(t: seq<Limits>, s: nat, ph: nat, v: int): (r: seq<Limits>)
    requires s < |t| && ph < 2
    ensures |r| == |t| && r[s].At(ph) == v
    ensures forall ph' :: 0 <= ph' < 2 && ph' != ph ==> r[s].At(ph') == t[s].At(ph')
    ensures forall j :: 0 <= j < |t| && j != s ==> r[j] == t[j]
  {
    t[s := t[s].With(ph, v)]
  }

  /** Storing at (s, ph) changes the cell with slot number `2 * s + ph` and
      no other cell. */
  lemma StoreCell(t: seq<Limits>, s: nat, ph: nat, v: int, slot: nat)
    requires s < |t| && ph < 2 && slot < 2 * |t|
    ensures Cell(Store(t, s, ph, v), slot) == if slot == 2 * s + ph then v else Cell(t, slot)
  {
    if slot != 2 * s + ph {
      assert slot / 2 != s || slot % 2 != ph;
    }
  }

  /** Storing the value a cell already holds leaves the table as it was. */
  lemma StoreSame(t: seq<Limits>, s: nat, ph: nat)
    requires s < |t| && ph < 2
    ensures Store(t, s, ph, t[s].At(ph)) == t
  {
    assert t[s].With(ph, t[s].At(ph)) == t[s];
  }

  /** Storing a value inside `[lo, hi]` keeps every entry inside. */
  lemma StoreWithin(t: seq<Limits>, s: nat, ph: nat, v: int, lo: int, hi: int)
    requires s < |t| && ph < 2
    requires Within(t, lo, hi) && lo <= v <= hi
    ensures Within(Store(t, s, ph, v), lo, hi)
  {
  }
}
