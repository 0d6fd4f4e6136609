# Member discount pricing, strategy pattern — a Dafny model

The repository is a small demonstration of the strategy pattern. A membership scheme
has five levels, `LV1` to `LV5`, each with an integer code (1 to 5) and an exact
decimal discount multiplier (1, 0.9, 0.8, 0.7, 0.6). The enum `MemberDiscountEnum`
holds these levels. Its lookup `of(code)` scans them in declaration order and falls
back to `LV1` when no code matches. The class `StrategyDemo` prices a purchase in two
ways:

- `getPriceByEnum` multiplies the price by the looked-up discount;
- `getPriceByStrategy` takes a routine from an immutable registry keyed by code, or the
  `LV1` routine when the code is missing, and applies it to the price. Each routine
  prints one diagnostic line and returns the level's bare discount. It ignores the
  price, and the model keeps that behaviour.

Two modules follow the two source files:

- `member_discount.dfy`, module `MemberDiscountCatalog`: the level record, the five
  constants, `Values()` in declaration order, and the lookup written three ways. `Of`
  is the for-each loop with its early return. `ScanOf` is the same scan as a recursive
  linear search (`Find`) with the `LV1` default. `LevelOf` is the closed-form
  statement of what `of` returns. Lemmas and `Of`'s postcondition prove that the
  three agree for every integer code.
- `strategy_demo.dfy`, module `StrategyPricing`: the two pricing paths, the registry as
  a `map<int, Routine>`, the two print routines, and the fallback. The console is
  modelled as a sequence of structured `Line` values. A routine returns the sequence
  with its line appended.

Prices and discounts are Dafny `real`, which is exact like `BigDecimal`:
`BigDecimal.valueOf(0.9)` is the decimal 0.9. The accessors `getCode` and
`getDiscount` are the destructors `code` and `discount` of the immutable datatype
`MemberDiscount`, so they return the constructor arguments unchanged. `PriceByEnum`
and the registry are stated with the closed form `LevelOf` by choice (the recursive
scan `ScanOf` would also serve); `ScanOfIsLevelOf` and `Of`'s postcondition
(`t == LevelOf(code) && t == ScanOf(code)`) tie that closed form to the scan.

## Model

| member | source | states |
|---|---|---|
| `MemberDiscountCatalog.Values` | src/main/java/strategy/MemberDiscountEnum.java:16-20 | there are five levels in declaration order; the i-th carries code i + 1, so the codes are pairwise distinct; its discount is 1 - i/10 (1, 0.9, 0.8, 0.7, 0.6), so every discount lies in (0, 1] |
| `MemberDiscountCatalog.LevelOf` | src/main/java/strategy/MemberDiscountEnum.java:45-58 | the lookup is total and always yields one of the five levels; for a code in 1..5 that level carries the code; every other integer yields `LV1` |
| `MemberDiscountCatalog.Find` | src/main/java/strategy/MemberDiscountEnum.java:52-56 | the linear search finds nothing exactly when no level carries the code; what it finds is a level of the scanned sequence carrying the code |
| `MemberDiscountCatalog.FindIsFirstMatch` | src/main/java/strategy/MemberDiscountEnum.java:52-55 | the search returns the first match: if position i carries the code and no earlier position does, it yields the level at i |
| `MemberDiscountCatalog.FindOrBase` | src/main/java/strategy/MemberDiscountEnum.java:52-57 | when some element of the scanned sequence carries the code, the result is such an element; when none does, the result is the `LV1` default |
| `MemberDiscountCatalog.ScanOf` | src/main/java/strategy/MemberDiscountEnum.java:51-58 | the scan in declaration order always yields one of the five levels: the one carrying a code in 1..5, and `LV1` for every other integer |
| `MemberDiscountCatalog.ScanOfIsLevelOf` | src/main/java/strategy/MemberDiscountEnum.java:51-58 | the scan in declaration order with the `LV1` default picks exactly the level `LevelOf` names, for every integer code |
| `MemberDiscountCatalog.ScanOrderIrrelevant` | src/main/java/strategy/MemberDiscountEnum.java:52-57 | because the codes are distinct, a scan over any arrangement of the same levels (reordered or repeated), with the `LV1` default, gives the same level for every code |
| `MemberDiscountCatalog.Of` | src/main/java/strategy/MemberDiscountEnum.java:51-58 | the loop with its early return yields one of the five levels; a code in 1..5 yields the level carrying it and any other code yields `LV1`; the result equals both `LevelOf` and the recursive scan |
| `StrategyPricing.PriceByEnum` | src/main/java/strategy/StrategyDemo.java:25-27 | a code in 1..5 is charged (11 - code) tenths of the price; any other code is charged the full price (the `LV1` default); a non-negative price is never raised and never goes negative |
| `StrategyPricing.PrintAndReturn` | src/main/java/strategy/StrategyDemo.java:48-51 | returns the level's own discount (not a price) and writes exactly one line in the first format, carrying the level's code and discount |
| `StrategyPricing.PrintAndReturn2` | src/main/java/strategy/StrategyDemo.java:59-62 | returns the level's own discount and writes exactly one line in the " ==> " format, carrying the level's code and discount |
| `StrategyPricing.Apply` | src/main/java/strategy/StrategyDemo.java:35-39 | a registry routine returns its level's discount whatever the price, and appends exactly one line in its format |
| `StrategyPricing.StrategyMap` | src/main/java/strategy/StrategyDemo.java:34-40 | the registry's domain is exactly {1, ..., 5}; each key maps to the routine for the level `of` picks for that key; keys 1-3 use the first print format and keys 4-5 the " ==> " format |
| `StrategyPricing.PriceByStrategy` | src/main/java/strategy/StrategyDemo.java:72-74 | for every integer code the dispatch returns the discount of the level `of` picks, with missing codes going through the `LV1` fallback; it appends exactly one line to the console and keeps the earlier lines; codes 4 and 5 print in the " ==> " format, every other code in the first format with that level's code and discount |
| `StrategyPricing.PathsAgree` | src/main/java/strategy/StrategyDemo.java:72-74 | both paths pick the same level for every integer code, fallback included: the lookup price equals the price times the value the dispatch path returns |
| `StrategyPricing.StrategyIgnoresPrice` | src/main/java/strategy/StrategyDemo.java:35-39 | the dispatch path's result and printed line do not depend on the price |
| `StrategyPricing.DriverScenarios` | src/main/java/strategy/StrategyDemo.java:76-88 | the demo's calls with price 100: the lookup path gives 100, 60, 100 for codes 1, 5, 7; the dispatch path gives 1, 0.6, 1 and prints the lines for levels 1, 5 and 1 |

## Left out

- The console text itself. `System.out.printf` in both print routines is modelled as a
  structured `Line` (format, level code, discount) appended to a sequence. The model
  does not render the numbers, and it does not model the line terminator.
- `BigDecimal` scale and `toString`. The model compares values only, so 60 and 60.0
  are the same number, and it does not say how a discount prints (for example "1"
  versus "1.0").
- The Guava `ImmutableMap` builder and `Optional.ofNullable(...).orElse(...)`. They
  become a Dafny `map` value and an explicit `if` on key membership. A Dafny `map` is
  immutable, so "built once, never changed" holds by construction.
- `null` codes. A boxed `Integer` can be null; the model takes plain integers. Nothing
  is lost: `Integer.equals(null)` is false, so `of(null)` returns `LV1`, and an
  immutable map's `get(null)` returns null, so dispatch takes the `LV1` fallback. A
  null code behaves like an unknown code on both paths.
- `null` prices. The model takes a `real` price. In the source the two paths differ on
  a null price: `getPriceByEnum` throws a `NullPointerException` at `price.multiply`,
  while `getPriceByStrategy` returns the discount, because no routine and not the
  fallback reads the price. `PathsAgree` therefore covers non-null prices only.
- The text of the two print formats. No line text is built; a `Line` records which
  `printf` ran through its `Format` tag. That the two formats differ only in the text
  between level and discount holds by how `Line` is shaped and is not proved.
- The `main` driver's printing. Only the values its six calls compute are stated, in
  `DriverScenarios`.
- The Java `int` width of the codes. Codes are unbounded integers; the lookup
  compares them only for equality, so every Java value behaves the same here.
