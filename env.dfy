/**
 * The clock and the random-number generator the stores call (`Date.now()`,
 * `new Date().toISOString()`, `Math.random()`), as inputs of the model.
 */
module Env {

  /** One reading of the clock: milliseconds since the epoch and its ISO-8601 text. */
  datatype Clock = Clock(millis: nat, iso: string)

  predicate IsBase36Char(c: char)
  {
    '0' <= c <= '9' || 'a' <= c <= 'z'
  }

  /** `Math.random().toString(36).substr(2, 9)`: base-36 digits only. */
  type RandomId = s: string | forall i :: 0 <= i < |s| ==> IsBase36Char(s[i]) witness ""

  /** `Math.floor(Math.random() * 1000)`. */
  type Thousandth = n: nat | n < 1000

  /**
   * The stream of `Math.random()` draws. Draw number `k` is read either as an id
   * (`idOf(k)`) or as a number below 1000 (`thousandthOf(k)`); `drawn` counts the draws made.
   * Nothing makes two draws different: ids are not unique.
   */
  class Entropy {
    var drawn: nat
    const idOf: nat -> RandomId
    const thousandthOf: nat -> Thousandth

    constructor (idOf: nat -> RandomId, thousandthOf: nat -> Thousandth)
      ensures this.idOf == idOf && this.thousandthOf == thousandthOf && drawn == 0
    {
      this.idOf := idOf;
      this.thousandthOf := thousandthOf;
      drawn := 0;
    }

    method NextId() returns (id: RandomId)
      modifies this
      ensures id == idOf(old(drawn)) && drawn == old(drawn) + 1
    {
      id := idOf(drawn);
      drawn := drawn + 1;
    }

    method NextThousandth() returns (n: Thousandth)
      modifies this
      ensures n == thousandthOf(old(drawn)) && drawn == old(drawn) + 1
    {
      n := thousandthOf(drawn);
      drawn := drawn + 1;
    }
  }
}
