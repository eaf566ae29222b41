/**
 * The running gas total of evm_gasometer, reduced to what the estimator uses:
 * a fixed limit, the gas used so far, and two ways of recording a charge.
 */
module EvmGasometer {
  import opened Amounts
  import opened Wrappers

  /** The only exit reason the estimator can meet: the limit would be exceeded. */
  datatype ExitError = OutOfGas

  class Gasometer {
    const limit: U64
    var used: nat

    ghost predicate Valid()
      reads this
    {
      used <= limit
    }

    constructor (limit: U64)
      ensures Valid() && this.limit == limit && used == 0
    {
      this.limit := limit;
      used := 0;
    }

    function TotalUsedGas(): (g: U64)
      reads this
      requires Valid()
      ensures g <= limit
    {
      used
    }

    /** Adds a cost, or fails without changing the total when the limit would be passed. */
    method RecordCost(cost: U64) returns (r: Outcome<ExitError>)
      requires Valid()
      modifies this
      ensures Valid()
      ensures r == if old(used) + cost <= limit then Pass else Fail(OutOfGas)
      ensures used == if r.Pass? then old(used) + cost else old(used)
    {
      if limit < used + cost {
        r := Fail(OutOfGas);
      } else {
        used := used + cost;
        r := Pass;
      }
    }

    /** Adds the intrinsic cost of a transaction, checked against the gas still available. */
    method RecordTransaction(cost: U64) returns (r: Outcome<ExitError>)
      requires Valid()
      modifies this
      ensures Valid()
      ensures r == if old(used) + cost <= limit then Pass else Fail(OutOfGas)
      ensures used == if r.Pass? then old(used) + cost else old(used)
    {
      var gas := limit - used;
      if gas < cost {
        r := Fail(OutOfGas);
      } else {
        used := used + cost;
        r := Pass;
      }
    }
  }
}
