/** JavaScript values as the game's templates hold them: a template field may be
    missing (`None`), and the source reads fields through `||` (any falsy value is
    replaced) or `??` (only a missing value is replaced). */
module Js {

  datatype Option<+T> = None | Some(value: T) {
    /** `x ?? d`: only a missing value falls back to the default. */
    function GetOr(default: T): T {
      if Some? then value else default
    }
  }

  /** A grid coordinate (GridPosition). */
  datatype GridPosition = GridPosition(row: int, col: int)

  /** One `{resourceTypeId, amount}` line of a cost list. */
  datatype CostLine = CostLine(resourceTypeId: string, amount: int)

  /** Truthiness of a number: missing and 0 are falsy. */
  predicate TruthyNum(x: Option<int>) {
    x.Some? && x.value != 0
  }

  /** Truthiness of a boolean field: only an explicit `true` is truthy. */
  predicate TruthyBool(x: Option<bool>) {
    x == Some(true)
  }

  /** Truthiness of a string: missing and "" are falsy. */
  predicate TruthyStr(x: Option<string>) {
    x.Some? && x.value != ""
  }

  /** `x || d` on a number. */
  function OrNum(x: Option<int>, d: int): (r: int)
    ensures d != 0 ==> r != 0
    ensures x.Some? && x.value != 0 ==> r == x.value
    ensures r == d || x == Some(r)
  {
    if TruthyNum(x) then x.value else d
  }

  /** `x || d` on a string. */
  function OrStr(x: Option<string>, d: string): (r: string)
    ensures d != "" ==> r != ""
    ensures x.Some? && x.value != "" ==> r == x.value
    ensures r == d || x == Some(r)
  {
    if TruthyStr(x) then x.value else d
  }

  /** `x || false` on a boolean field. */
  function OrFalse(x: Option<bool>): (r: bool)
    ensures r <==> x == Some(true)
  {
    TruthyBool(x)
  }
}
