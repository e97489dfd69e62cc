/**
 The scroll-bar policy of the GUI package: an enumeration whose constants
 carry integer ids, and a static id-to-policy table filled by a loop over
 the constants when the enumeration is initialised.
 */
module Gui {
  import opened Wrappers

  /** When a scrollable widget shows its scroll bar. */
  datatype ScrollBarPolicy = ShowIfNeeded | ShowNever | ShowAlways

  /** The constants in declaration order, as `values()` returns them. */
  const Values: seq<ScrollBarPolicy> := [ShowIfNeeded, ShowNever, ShowAlways]

  /** The id each constant is declared with: its position among the constants. */
  function Id(p: ScrollBarPolicy): (r: int)
    ensures 0 <= r < |Values| && Values[r] == p
  {
    match p
    case ShowIfNeeded => 0
    case ShowNever => 1
    case ShowAlways => 2
  }

  /** Different constants have different ids. */
  lemma IdInjective(p: ScrollBarPolicy, q: ScrollBarPolicy)
    ensures Id(p) == Id(q) ==> p == q
  {
  }

  /** Every constant is listed by `values()`, exactly once. */
  lemma ValuesListEveryConstantOnce(p: ScrollBarPolicy)
    ensures p in Values
    ensures forall i, j :: 0 <= i < j < |Values| ==> Values[i] != Values[j]
  {
  }

  /**
   The table after `put(id, p)` has been done for each p of `ps` in order:
   a later put for the same id would replace an earlier one.
   */
  function IdsOf(ps: seq<ScrollBarPolicy>): map<int, ScrollBarPolicy> {
    if |ps| == 0 then map[]
    else IdsOf(ps[..|ps| - 1])[Id(ps[|ps| - 1]) := ps[|ps| - 1]]
  }

  /** The keys of the table are the ids of the constants put into it. */
  lemma {:induction false} IdsOfKeys(ps: seq<ScrollBarPolicy>)
    ensures IdsOf(ps).Keys == set p | p in ps :: Id(p)
  {
    if |ps| > 0 {
      var front, last := ps[..|ps| - 1], ps[|ps| - 1];
      IdsOfKeys(front);
      assert ps == front + [last];
      assert (set p | p in ps :: Id(p)) == (set p | p in front :: Id(p)) + {Id(last)};
    }
  }

  /** Every constant put into the table is found under its own id. */
  lemma {:induction false} IdsOfFindsEach(ps: seq<ScrollBarPolicy>, p: ScrollBarPolicy)
    requires p in ps
    ensures Id(p) in IdsOf(ps) && IdsOf(ps)[Id(p)] == p
  {
    var front, last := ps[..|ps| - 1], ps[|ps| - 1];
    assert ps == front + [last];
    if p != last {
      IdsOfFindsEach(front, p);
      IdInjective(p, last);
    }
  }

  /** The filling loop never overwrites an entry: the k-th id is not yet a key when it is put. */
  lemma FillNeverOverwrites(k: int)
    requires 0 <= k < |Values|
    ensures Id(Values[k]) !in IdsOf(Values[..k])
  {
    IdsOfKeys(Values[..k]);
  }

  /**
   The static initialiser: puts every constant into the table under its id.
   The result holds ids 0, 1 and 2 and maps each back to its constant.
   */
  method FillIds() returns (ids: map<int, ScrollBarPolicy>)
    ensures ids == IdsOf(Values)
    ensures ids.Keys == {0, 1, 2}
    ensures forall p :: Id(p) in ids && ids[Id(p)] == p
  {
    ids := map[];
    for k := 0 to |Values|
      invariant ids == IdsOf(Values[..k])
    {
      FillNeverOverwrites(k);
      assert Values[..k + 1][..k] == Values[..k];
      ids := ids[Id(Values[k]) := Values[k]];
    }
    assert Values[..|Values|] == Values;
    IdsOfKeys(Values);
    assert (set p | p in Values :: Id(p)) == {0, 1, 2} by {
      assert Id(ShowIfNeeded) == 0 && Id(ShowNever) == 1 && Id(ShowAlways) == 2;
    }
    forall p
      ensures Id(p) in ids && ids[Id(p)] == p
    {
      ValuesListEveryConstantOnce(p);
      IdsOfFindsEach(Values, p);
    }
  }

  /**
   Looks an id up in the table the initialiser built. An id without an entry
   gives Java's `null`, which is `None` here.
   */
  function GetById(i: int): (r: Option<ScrollBarPolicy>)
    ensures r.Some? <==> 0 <= i <= 2
    ensures r.Some? ==> Id(r.value) == i
  {
    IdsOfKeys(Values);
    var ids := IdsOf(Values);
    if i in ids then
      IdsOfFindsEach(Values, Values[i]);
      Some(ids[i])
    else None
  }

  /** Looking up a constant's id gives the constant back. */
  lemma GetByIdRoundTrip(p: ScrollBarPolicy)
    ensures GetById(Id(p)) == Some(p)
  {
    IdInjective(GetById(Id(p)).value, p);
  }
}
