/** The tier catalog: five membership levels, each pairing an integer code with an
    exact decimal discount multiplier, and the lookup by code that falls back to the
    base level when no code matches. */
module MemberDiscountCatalog {

  datatype Option<T> = None | Some(value: T)

  /** One membership level. `code` and `discount` are the two final fields the enum
      constructor sets; a datatype value never changes, so the accessors are the
      destructors `t.code` and `t.discount`. Discounts are exact decimals (`real`). */
  datatype MemberDiscount = MemberDiscount(code: int, discount: real)

  const LV1: MemberDiscount := MemberDiscount(1, 1.0)
  const LV2: MemberDiscount := MemberDiscount(2, 0.9)
  const LV3: MemberDiscount := MemberDiscount(3, 0.8)
  const LV4: MemberDiscount := MemberDiscount(4, 0.7)
  const LV5: MemberDiscount := MemberDiscount(5, 0.6)

  /** A code some level of the catalog carries. */
  predicate IsKnownCode(code: int) {
    1 <= code <= 5
  }

  /** The levels in declaration order. The i-th level carries code i + 1, so the codes
      are pairwise distinct; its discount is 1 - i/10, so every discount lies in
      (0, 1]. */
  function Values(): (vs: seq<MemberDiscount>)
    ensures |vs| == 5
    ensures forall i :: 0 <= i < |vs| ==> vs[i].code == i + 1
    ensures forall i :: 0 <= i < |vs| ==> vs[i].discount == 1.0 - (i as real) / 10.0
    ensures forall t :: t in vs ==> IsKnownCode(t.code) && 0.0 < t.discount <= 1.0
  {
    [LV1, LV2, LV3, LV4, LV5]
  }

  /** The level declared with a code, and the base level LV1 for every other code.
      This is what the enum's `of` promises; `Of` and `ScanOf` below are the scan
      that computes it. */
  function LevelOf(code: int): (t: MemberDiscount)
    ensures t in Values()
    ensures IsKnownCode(code) <==> t.code == code
    ensures !IsKnownCode(code) ==> t == LV1
  {
    if code == LV1.code then LV1
    else if code == LV2.code then LV2
    else if code == LV3.code then LV3
    else if code == LV4.code then LV4
    else if code == LV5.code then LV5
    else LV1
  }

  /** Linear search: the first level of `ts` whose code equals `code`, if any. */
  function Find(ts: seq<MemberDiscount>, code: int): (r: Option<MemberDiscount>)
    ensures r.None? <==> forall t :: t in ts ==> t.code != code
    ensures r.Some? ==> r.value in ts && r.value.code == code
  {
    if ts == [] then None
    else if ts[0].code == code then Some(ts[0])
    else Find(ts[1..], code)
  }

  /** The search stops at the first match: when position i carries the code and no
      earlier position does, the search yields the level at position i. */
  lemma {:induction false} FindIsFirstMatch(ts: seq<MemberDiscount>, code: int, i: int)
    requires 0 <= i < |ts| && ts[i].code == code
    requires forall j :: 0 <= j < i ==> ts[j].code != code
    ensures Find(ts, code) == Some(ts[i])
  {
    if i > 0 {
      assert ts[1..][i - 1] == ts[i];
      FindIsFirstMatch(ts[1..], code, i - 1);
    }
  }

  /** The search over `ts` with LV1 as the answer when nothing matches: a level of
      `ts` carrying the code when there is one, and LV1 when there is none. */
  function FindOrBase(ts: seq<MemberDiscount>, code: int): (t: MemberDiscount)
    ensures (exists u :: u in ts && u.code == code) ==> t in ts && t.code == code
    ensures (forall u :: u in ts ==> u.code != code) ==> t == LV1
  {
    match Find(ts, code)
    case Some(t) => t
    case None => LV1
  }

  /** The enum's `of` as a recursive scan of the levels in declaration order: always
      one of the five levels, the one carrying a known code, and LV1 for any other. */
  function ScanOf(code: int): (t: MemberDiscount)
    ensures t in Values()
    ensures IsKnownCode(code) ==> t.code == code
    ensures !IsKnownCode(code) ==> t == LV1
  {
    assert IsKnownCode(code) ==> Values()[code - 1] in Values() && Values()[code - 1].code == code;
    FindOrBase(Values(), code)
  }

  /** The scan picks exactly the level `LevelOf` names, for every integer code: the
      level carrying a known code, and LV1 for any other. */
  lemma ScanOfIsLevelOf(code: int)
    ensures ScanOf(code) == LevelOf(code)
  {
  }

  /** Since the codes are distinct, the order in which the levels are scanned does not
      matter: searching any arrangement of the same levels (reordered, or with
      repetitions) and falling back to LV1 yields the same level for every code. */
  lemma ScanOrderIrrelevant(ts: seq<MemberDiscount>, code: int)
    requires forall t :: t in ts <==> t in Values()
    ensures FindOrBase(ts, code) == LevelOf(code)
  {
  }

  /** The enum's `of`: walk the levels in declaration order and return the first whose
      code matches, or LV1 when the walk finds none. */
  method Of(code: int) returns (t: MemberDiscount)
    ensures t in Values()
    ensures IsKnownCode(code) ==> t.code == code
    ensures !IsKnownCode(code) ==> t == LV1
    ensures t == LevelOf(code) && t == ScanOf(code)
  {
    ScanOfIsLevelOf(code);
    var vs := Values();
    for i := 0 to |vs|
      invariant forall j :: 0 <= j < i ==> vs[j].code != code
    {
      if vs[i].code == code {
        return vs[i];
      }
    }
    return LV1;
  }
}
