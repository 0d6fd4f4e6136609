/** The pricing service: a member price computed either by looking the level up in the
    catalog, or by dispatching through a fixed registry of per-level routines. Each
    routine writes one diagnostic line; here the console is a sequence of lines that a
    call extends and returns. */
module StrategyPricing {
  import opened MemberDiscountCatalog

  /** The member price by direct lookup: the price times the discount of the level
      `of` picks for the code. */
  function PriceByEnum(memberCode: int, price: real): (r: real)
    ensures IsKnownCode(memberCode) ==> r == price * ((11 - memberCode) as real / 10.0)
    ensures !IsKnownCode(memberCode) ==> r == price
    ensures price >= 0.0 ==> 0.0 <= r <= price
  {
    price * LevelOf(memberCode).discount
  }

  /** The two print formats: `printAndReturn` writes "member level:<code>, discount:<d>",
      `printAndReturn2` writes "member level:<code> ==> discount:<d>". */
  datatype Format = Comma | Arrow

  /** One diagnostic line: its format, the level code and the discount it shows. */
  datatype Line = Line(format: Format, level: int, discount: real)

  /** What a routine hands back: its return value and the console after it wrote. */
  datatype Printed = Printed(value: real, console: seq<Line>)

  /** `printAndReturn`: writes one Comma line for the level and returns its discount. */
  function PrintAndReturn(t: MemberDiscount, console: seq<Line>): (r: Printed)
    ensures r.value == t.discount
    ensures r.console == console + [Line(Comma, t.code, t.discount)]
  {
    Printed(t.discount, console + [Line(Comma, t.code, t.discount)])
  }

  /** `printAndReturn2`: writes one Arrow line for the level and returns its discount. */
  function PrintAndReturn2(t: MemberDiscount, console: seq<Line>): (r: Printed)
    ensures r.value == t.discount
    ensures r.console == console + [Line(Arrow, t.code, t.discount)]
  {
    Printed(t.discount, console + [Line(Arrow, t.code, t.discount)])
  }

  /** A registry routine: `originPrice -> printAndReturn(tier)` when the format is
      Comma, `originPrice -> printAndReturn2(tier)` when it is Arrow. */
  datatype Routine = Routine(format: Format, tier: MemberDiscount)

  /** Runs a routine on a price. No routine looks at the price: each returns its
      level's discount and writes one line in its own format. */
  function Apply(routine: Routine, originPrice: real, console: seq<Line>): (r: Printed)
    ensures r.value == routine.tier.discount
    ensures r.console == console + [Line(routine.format, routine.tier.code, routine.tier.discount)]
  {
    match routine.format
    case Comma => PrintAndReturn(routine.tier, console)
    case Arrow => PrintAndReturn2(routine.tier, console)
  }

  /** The registry, built once from each level's own code: exactly the five known codes,
      each bound to the routine for the level `of` picks for it; levels 1 to 3 print
      with Comma, levels 4 and 5 with Arrow. */
  function StrategyMap(): (m: map<int, Routine>)
    ensures forall c :: c in m <==> IsKnownCode(c)
    ensures forall c :: c in m ==> m[c].tier == LevelOf(c)
    ensures forall c :: c in m ==> (m[c].format == Arrow <==> c >= 4)
  {
    map[LV1.code := Routine(Comma, LV1),
        LV2.code := Routine(Comma, LV2),
        LV3.code := Routine(Comma, LV3),
        LV4.code := Routine(Arrow, LV4),
        LV5.code := Routine(Arrow, LV5)]
  }

  /** The routine used when a code is not in the registry: the LV1 routine. */
  const Fallback: Routine := Routine(Comma, LV1)

  /** The member price by dispatch: the registry routine for the code, or the fallback,
      applied to the price. It returns the level's discount, not price times discount,
      and writes exactly one line, in Arrow format for codes 4 and 5 and in Comma
      format otherwise, naming the level `of` picks for the code. */
  function PriceByStrategy(memberCode: int, price: real, console: seq<Line>): (r: Printed)
    ensures r.value == LevelOf(memberCode).discount
    ensures |r.console| == |console| + 1 && r.console[..|console|] == console
    ensures r.console[|console|]
         == Line(if 4 <= memberCode <= 5 then Arrow else Comma,
                 LevelOf(memberCode).code, LevelOf(memberCode).discount)
  {
    var routine := if memberCode in StrategyMap() then StrategyMap()[memberCode] else Fallback;
    Apply(routine, price, console)
  }

  /** Both pricing paths pick the same level for every code, the fallback included: the
      lookup path's price is the price times what the dispatch path returns. */
  lemma PathsAgree(memberCode: int, price: real, console: seq<Line>)
    ensures PriceByEnum(memberCode, price) == price * PriceByStrategy(memberCode, price, console).value
  {
  }

  /** The dispatch path ignores the price: two calls that differ only in the price
      return the same value and write the same line. */
  lemma StrategyIgnoresPrice(memberCode: int, p: real, q: real, console: seq<Line>)
    ensures PriceByStrategy(memberCode, p, console) == PriceByStrategy(memberCode, q, console)
  {
  }

  /** The demo driver's six calls with the price 100, on an empty console: the lookup
      path charges 100, 60 and 100 for codes 1, 5 and 7; the dispatch path returns 1,
      0.6 and 1 and writes the lines for levels 1, 5 and (by the fallback) 1. */
  lemma DriverScenarios()
    ensures PriceByEnum(1, 100.0) == 100.0
    ensures PriceByEnum(5, 100.0) == 60.0
    ensures PriceByEnum(7, 100.0) == 100.0
    ensures PriceByStrategy(1, 100.0, []) == Printed(1.0, [Line(Comma, 1, 1.0)])
    ensures PriceByStrategy(5, 100.0, []) == Printed(0.6, [Line(Arrow, 5, 0.6)])
    ensures PriceByStrategy(7, 100.0, []) == Printed(1.0, [Line(Comma, 1, 1.0)])
  {
  }
}
