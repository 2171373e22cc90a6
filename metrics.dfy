/** The demonstration gauge of active vehicles and the timing pass-through
    that every vehicle operation runs inside. The meter registry itself is a
    sink this model does not have: each recorded timing is kept in a ghost
    log instead. */
module Metrics {
  import opened Common

  /** The gauge after `updates` scheduled runs, starting from 0. */
  function ActiveAfter(updates: nat): (v: int)
    ensures 0 <= v < 100
  {
    if updates == 0 then 0 else (ActiveAfter(updates - 1) + 1) % 100
  }

  /** The gauge counts scheduled runs modulo 100: after 99 it wraps to 0. */
  lemma {:induction false} ActiveAfterIsModulo(updates: nat)
    ensures ActiveAfter(updates) == updates % 100
  {
    if updates > 0 {
      ActiveAfterIsModulo(updates - 1);
      var q := (updates - 1) / 100;
      var m := (updates - 1) % 100;
      assert updates == 100 * q + m + 1;
      if m == 99 {
        assert updates == 100 * (q + 1);
      } else {
        assert updates % 100 == m + 1;
      }
    }
  }

  class MetricsConfig {
    /** The gauge `vehiculos.activos`. */
    var activeVehicles: int
    /** How many times the scheduler has run `UpdateActiveVehicles`. */
    ghost var updates: nat
    /** The operation names of the timings recorded so far, oldest first. */
    ghost var timings: seq<string>

    ghost predicate Valid()
      reads this
    {
      activeVehicles == ActiveAfter(updates)
    }

    constructor ()
      ensures Valid()
      ensures activeVehicles == 0 && updates == 0 && timings == []
    {
      activeVehicles := 0;
      updates := 0;
      timings := [];
    }

    /** The scheduled gauge update: one step of a counter modulo 100. */
    method UpdateActiveVehicles()
      requires Valid()
      modifies this
      ensures Valid()
      ensures activeVehicles == (old(activeVehicles) + 1) % 100
      ensures 0 <= activeVehicles < 100
      ensures activeVehicles == updates % 100
      ensures updates == old(updates) + 1 && timings == old(timings)
    {
      activeVehicles := (activeVehicles + 1) % 100;
      updates := updates + 1;
      ActiveAfterIsModulo(updates);
    }

    /** Runs `operation` once and hands back exactly what it produced. A thrown
        exception is a `Failure` result here, and the timing is recorded in
        both cases, as the `finally` block does. */
    method RecordOperationTime<R>(operation: () -> R, operationName: string) returns (r: R)
      modifies this
      ensures r == operation()
      ensures timings == old(timings) + [operationName]
      ensures activeVehicles == old(activeVehicles) && updates == old(updates)
    {
      r := operation();
      timings := timings + [operationName];
    }

    /** The `Runnable` overload: the operation either completes or throws,
        and the call delegates to the supplier form with a unit result. */
    method RecordRunnableTime<E>(operation: () -> Result<(), E>, operationName: string)
      returns (o: Result<(), E>)
      modifies this
      ensures o == operation()
      ensures timings == old(timings) + [operationName]
      ensures activeVehicles == old(activeVehicles) && updates == old(updates)
    {
      o := RecordOperationTime(
        () => match operation() case Success(_) => Success(()) case Failure(e) => Failure(e),
        operationName);
      if operation().Success? {
        assert operation().value == ();
      }
    }
  }
}
