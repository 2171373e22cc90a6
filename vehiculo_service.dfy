/** The vehicle service over an abstract record store.

    The store (a Spring Data repository in the system) is a map from
    identifier to record owned by the service, with an identity counter for
    new identifiers. Each public operation runs one attempt inside the timing
    pass-through and, when the attempt throws or the circuit breaker refuses
    the call, answers with that operation's fallback. */
module Service {
  import opened Common
  import opened Model
  import opened Metrics

  /** The exceptions an operation can end with. */
  datatype Error =
    | Simulated                                   // the injected "Error simulado" RuntimeException
    | NotFound(id: int)                           // EntityNotFoundException
    | PlacaDuplicada(placa: Option<string>)       // IllegalArgumentException on a taken plate
    | ConstraintViolation                         // the store refuses a null in a not-null column
    | CallNotPermitted                            // the circuit breaker refused the call
    | Unavailable(operation: string, cause: Error) // the RuntimeException a write fallback throws

  /** A store after one attempt, with what the attempt returned or threw. */
  datatype Step<T> = Step(rows: map<int, Vehiculo>, nextId: int, result: Result<T, Error>)

  // ---------------------------------------------------------------------
  // The store

  /** `existsByPlaca`: some stored record carries this plate. */
  predicate PlacaTaken(rows: map<int, Vehiculo>, placa: Option<string>) {
    exists id :: id in rows && rows[id].placa == placa
  }

  /** No two stored records share a plate. */
  ghost predicate UniquePlacas(rows: map<int, Vehiculo>) {
    forall i, j :: i in rows && j in rows && rows[i].placa == rows[j].placa ==> i == j
  }

  /** What the store keeps true: every record is stored under its own id,
      below the next identity value, with all its not-null columns set, and
      plates are unique. */
  ghost predicate StoreInvariant(rows: map<int, Vehiculo>, nextId: int) {
    && UniquePlacas(rows)
    && forall id :: id in rows ==> rows[id].id == Some(id) && Complete(rows[id]) && id < nextId
  }

  /** A set with no member is the empty set. */
  lemma NoMemberMeansEmpty(ids: set<int>)
    ensures (forall x :: x !in ids) ==> ids == {}
  {
    if forall x :: x !in ids {
      assert ids == {};
    }
  }

  /** `k` is the smallest identifier in `ids`. */
  predicate IsLeast(k: int, ids: set<int>) {
    k in ids && forall j :: j in ids ==> k <= j
  }

  /** Every non-empty set of identifiers has a smallest one. */
  lemma {:induction false} LeastExists(ids: set<int>)
    requires ids != {}
    ensures exists k :: IsLeast(k, ids)
  {
    NoMemberMeansEmpty(ids);
    var x :| x in ids;
    var rest := ids - {x};
    var least := x;
    if rest != {} {
      LeastExists(rest);
      var m :| IsLeast(m, rest);
      if m < x {
        least := m;
      }
    }
    forall j | j in ids ensures least <= j {
      if j != x { assert j in rest; }
    }
    assert IsLeast(least, ids);
  }

  /** The smallest identifier in use. */
  function MinKey(ids: set<int>): (k: int)
    requires ids != {}
    ensures IsLeast(k, ids)
  {
    LeastExists(ids);
    var k :| IsLeast(k, ids);
    k
  }

  /** `findAll`: every stored record, once each, in ascending identifier
      order (the store promises no order; the model fixes one). */
  function Listing(rows: map<int, Vehiculo>): (r: seq<Vehiculo>)
    ensures |r| == |rows|
    ensures forall v :: v in r <==> v in rows.Values
    decreases |rows|
  {
    if rows.Keys == {} then
      assert rows == map[];
      []
    else
      var k := MinKey(rows.Keys);
      var rest := rows - {k};
      assert rest.Keys == rows.Keys - {k};
      assert rows.Values == rest.Values + {rows[k]} by {
        forall i | i in rows && i != k ensures rows[i] in rest.Values {
          assert i in rest && rest[i] == rows[i];
        }
      }
      [rows[k]] + Listing(rest)
  }

  // ---------------------------------------------------------------------
  // One attempt of each operation: the body of the lambda that runs inside
  // the timing pass-through. `failing` is the simulated failure firing.

  /** The attempt of `obtenerPorId`. */
  function ObtenerPorIdIntento(rows: map<int, Vehiculo>, id: int, failing: bool): (r: Result<Vehiculo, Error>)
    ensures r.Success? <==> !failing && id in rows
    ensures r.Success? ==> r.value == rows[id]
    ensures r.Failure? ==> r.error == if failing then Simulated else NotFound(id)
  {
    if failing then Failure(Simulated)
    else if id in rows then Success(rows[id])
    else Failure(NotFound(id))
  }

  /** The attempt of `crear`: refuse a taken plate, otherwise save the record
      under a fresh identity value. The caller's id is not used. */
  function CrearIntento(rows: map<int, Vehiculo>, nextId: int, v: Vehiculo, failing: bool): (s: Step<Vehiculo>)
    ensures failing ==> s == Step(rows, nextId, Failure(Simulated))
    ensures s.result.Failure? ==> s.rows == rows && s.nextId == nextId
    ensures s.result.Success? <==> !failing && !PlacaTaken(rows, v.placa) && Complete(v)
    ensures s.result == Failure(PlacaDuplicada(v.placa)) <==> !failing && PlacaTaken(rows, v.placa)
    ensures s.result.Success? ==>
      && s.result.value == v.(id := Some(nextId))
      && s.rows == rows[nextId := s.result.value]
      && s.nextId == nextId + 1
  {
    if failing then Step(rows, nextId, Failure(Simulated))
    else if PlacaTaken(rows, v.placa) then Step(rows, nextId, Failure(PlacaDuplicada(v.placa)))
    else if !Complete(v) then Step(rows, nextId, Failure(ConstraintViolation))
    else
      var saved := v.(id := Some(nextId));
      Step(rows[nextId := saved], nextId + 1, Success(saved))
  }

  /** The attempt of `actualizar`: an absent id is not found; a plate is
      checked for a clash only when it differs from the stored one; then
      every caller-settable field is overwritten and the record saved. */
  function ActualizarIntento(rows: map<int, Vehiculo>, nextId: int, id: int, upd: Vehiculo, failing: bool)
    : (s: Step<Vehiculo>)
    ensures s.nextId == nextId
    ensures failing ==> s == Step(rows, nextId, Failure(Simulated))
    ensures s.result.Failure? ==> s.rows == rows
    ensures !failing && id !in rows ==> s.result == Failure(NotFound(id))
    ensures s.result == Failure(PlacaDuplicada(upd.placa)) <==>
      !failing && id in rows && rows[id].placa != upd.placa && PlacaTaken(rows, upd.placa)
    ensures s.result.Success? <==>
      && !failing && id in rows && Complete(upd)
      && (rows[id].placa == upd.placa || !PlacaTaken(rows, upd.placa))
    ensures s.result.Success? ==>
      && s.result.value == upd.(id := rows[id].id)
      && s.rows == rows[id := s.result.value]
  {
    if failing then Step(rows, nextId, Failure(Simulated))
    else if id !in rows then Step(rows, nextId, Failure(NotFound(id)))
    else
      var current := rows[id];
      if current.placa != upd.placa && PlacaTaken(rows, upd.placa) then
        Step(rows, nextId, Failure(PlacaDuplicada(upd.placa)))
      else
        var updated := WithFieldsOf(current, upd);
        if !Complete(updated) then Step(rows, nextId, Failure(ConstraintViolation))
        else Step(rows[id := updated], nextId, Success(updated))
  }

  /** The attempt of `eliminar`: an absent id is not found, otherwise exactly
      that record is deleted. */
  function EliminarIntento(rows: map<int, Vehiculo>, nextId: int, id: int, failing: bool): (s: Step<()>)
    ensures s.nextId == nextId
    ensures s.result.Success? <==> !failing && id in rows
    ensures s.result.Success? ==> s.rows.Keys == rows.Keys - {id}
    ensures forall k :: k in s.rows ==> k in rows && s.rows[k] == rows[k]
    ensures s.result.Failure? ==> s.rows == rows && s.result.error == if failing then Simulated else NotFound(id)
  {
    if failing then Step(rows, nextId, Failure(Simulated))
    else if id !in rows then Step(rows, nextId, Failure(NotFound(id)))
    else Step(rows - {id}, nextId, Success(()))
  }

  // ---------------------------------------------------------------------
  // The fallbacks

  /** The read fallbacks swallow every failure; the write fallbacks replace
      it by a "try again later" error that keeps the original as its cause. */
  function WriteFallback<T>(operation: string, cause: Error): (r: Result<T, Error>)
    ensures r.Failure? && r.error.Unavailable?
    ensures r.error.operation == operation && r.error.cause == cause
  {
    Failure(Unavailable(operation, cause))
  }

  // ---------------------------------------------------------------------
  // Lemmas about the attempts

  /** Saving a record whose plate is free keeps plates unique. */
  lemma InsertFreePlacaKeepsInvariant(rows: map<int, Vehiculo>, nextId: int, v: Vehiculo)
    requires StoreInvariant(rows, nextId)
    requires !PlacaTaken(rows, v.placa) && Complete(v)
    ensures StoreInvariant(rows[nextId := v.(id := Some(nextId))], nextId + 1)
  {
  }

  /** `crear` keeps plates unique and the other store invariants. */
  lemma CrearKeepsInvariant(rows: map<int, Vehiculo>, nextId: int, v: Vehiculo, failing: bool)
    requires StoreInvariant(rows, nextId)
    ensures var s := CrearIntento(rows, nextId, v, failing); StoreInvariant(s.rows, s.nextId)
  {
    if !failing && !PlacaTaken(rows, v.placa) && Complete(v) {
      InsertFreePlacaKeepsInvariant(rows, nextId, v);
    }
  }

  /** `actualizar` keeps plates unique: the plate either stays the one the
      record already had, or is one no record had. */
  lemma ActualizarKeepsInvariant(rows: map<int, Vehiculo>, nextId: int, id: int, upd: Vehiculo, failing: bool)
    requires StoreInvariant(rows, nextId)
    ensures var s := ActualizarIntento(rows, nextId, id, upd, failing); StoreInvariant(s.rows, s.nextId)
  {
  }

  /** `eliminar` keeps the store invariants. */
  lemma EliminarKeepsInvariant(rows: map<int, Vehiculo>, nextId: int, id: int, failing: bool)
    requires StoreInvariant(rows, nextId)
    ensures var s := EliminarIntento(rows, nextId, id, failing); StoreInvariant(s.rows, s.nextId)
  {
  }

  /** Reading back a record just created gives the caller's record with the
      identifier the store assigned. */
  lemma CrearThenObtener(rows: map<int, Vehiculo>, nextId: int, v: Vehiculo)
    requires CrearIntento(rows, nextId, v, false).result.Success?
    ensures var s := CrearIntento(rows, nextId, v, false);
      ObtenerPorIdIntento(s.rows, s.result.value.id.value, false) == Success(v.(id := Some(nextId)))
  {
  }

  /** A deleted record is not found afterwards. */
  lemma EliminarThenObtener(rows: map<int, Vehiculo>, nextId: int, id: int)
    requires id in rows
    ensures var s := EliminarIntento(rows, nextId, id, false);
      ObtenerPorIdIntento(s.rows, id, false) == Failure(NotFound(id))
  {
  }

  /** Keeping the stored plate never clashes, whatever else is stored. */
  lemma ActualizarSamePlacaNoClash(rows: map<int, Vehiculo>, nextId: int, id: int, upd: Vehiculo)
    requires id in rows && rows[id].placa == upd.placa && Complete(upd)
    ensures ActualizarIntento(rows, nextId, id, upd, false).result == Success(upd.(id := rows[id].id))
  {
  }

  // ---------------------------------------------------------------------
  // The service

  class VehiculoService {
    /** The repository: records by identifier. */
    var rows: map<int, Vehiculo>
    /** The identity column's next value. */
    var nextId: int
    /** Whether the simulated random failure is switched on. */
    var simularFallo: bool
    const metrics: MetricsConfig

    ghost predicate Valid()
      reads this
    {
      StoreInvariant(rows, nextId)
    }

    /** A service over the repository as it stands (its records and its
        identity counter), with the simulated failure off. */
    constructor (metrics: MetricsConfig, rows: map<int, Vehiculo>, nextId: int)
      requires StoreInvariant(rows, nextId)
      ensures Valid()
      ensures this.rows == rows && this.nextId == nextId
      ensures !simularFallo && this.metrics == metrics
    {
      this.rows := rows;
      this.nextId := nextId;
      simularFallo := false;
      this.metrics := metrics;
    }

    method SetSimularFallo(simularFallo: bool)
      modifies this
      ensures this.simularFallo == simularFallo
      ensures rows == old(rows) && nextId == old(nextId)
    {
      this.simularFallo := simularFallo;
    }

    /** `simularErrorAleatorio`: the injected failure fires when the switch is
        on and the random draw (`roll`, standing for `Math.random() > 0.7`)
        says so. It runs before any access to the store. */
    predicate SimulaError(roll: bool)
      reads this
    {
      simularFallo && roll
    }

    /** `obtenerTodos`: the whole store, or an empty list from the fallback.
        `permitted` is the circuit breaker's verdict on the call. */
    method ObtenerTodos(permitted: bool, roll: bool) returns (r: seq<Vehiculo>)
      modifies metrics
      ensures permitted && !SimulaError(roll) ==> r == Listing(rows)
      ensures !(permitted && !SimulaError(roll)) ==> r == []
      ensures metrics.timings == old(metrics.timings) + if permitted then ["obtenerTodos"] else []
      ensures metrics.activeVehicles == old(metrics.activeVehicles) && metrics.updates == old(metrics.updates)
    {
      if !permitted {
        return [];
      }
      var outcome: Result<seq<Vehiculo>, Error>;
      if SimulaError(roll) {
        outcome := Failure(Simulated);
      } else {
        outcome := Success(Listing(rows));
      }
      outcome := metrics.RecordOperationTime(() => outcome, "obtenerTodos");
      r := if outcome.Success? then outcome.value else [];
    }

    /** `obtenerPorId`: the stored record, or a blank record from the fallback,
        which answers a missing id the same way as a failure. */
    method ObtenerPorId(id: int, permitted: bool, roll: bool) returns (v: Vehiculo)
      modifies metrics
      ensures permitted && !SimulaError(roll) && id in rows ==> v == rows[id]
      ensures !(permitted && !SimulaError(roll) && id in rows) ==> v == Blank()
      ensures metrics.timings == old(metrics.timings) + if permitted then ["obtenerPorId"] else []
      ensures metrics.activeVehicles == old(metrics.activeVehicles) && metrics.updates == old(metrics.updates)
    {
      if !permitted {
        return Blank();
      }
      var outcome: Result<Vehiculo, Error>;
      if SimulaError(roll) {
        outcome := Failure(Simulated);
      } else if id in rows {
        outcome := Success(rows[id]);
      } else {
        outcome := Failure(NotFound(id));
      }
      outcome := metrics.RecordOperationTime(() => outcome, "obtenerPorId");
      assert outcome == ObtenerPorIdIntento(rows, id, SimulaError(roll));
      v := if outcome.Success? then outcome.value else Blank();
    }

    /** `crear`: one attempt, with a taken plate, a missing column or the
        simulated failure turned into the "try again later" error. */
    method Crear(v: Vehiculo, permitted: bool, roll: bool) returns (r: Result<Vehiculo, Error>)
      requires Valid()
      modifies this, metrics
      ensures Valid()
      ensures simularFallo == old(simularFallo)
      ensures !permitted ==> rows == old(rows) && nextId == old(nextId) && r == WriteFallback("crear", CallNotPermitted)
      ensures permitted ==>
        var s := CrearIntento(old(rows), old(nextId), v, old(SimulaError(roll)));
        && rows == s.rows && nextId == s.nextId
        && r == if s.result.Success? then s.result else WriteFallback("crear", s.result.error)
      ensures r.Failure? ==> r.error.Unavailable? && rows == old(rows)
      ensures metrics.timings == old(metrics.timings) + if permitted then ["crear"] else []
      ensures metrics.activeVehicles == old(metrics.activeVehicles) && metrics.updates == old(metrics.updates)
    {
      if !permitted {
        return WriteFallback("crear", CallNotPermitted);
      }
      ghost var s := CrearIntento(rows, nextId, v, SimulaError(roll));
      CrearKeepsInvariant(rows, nextId, v, SimulaError(roll));
      var outcome: Result<Vehiculo, Error>;
      if SimulaError(roll) {
        outcome := Failure(Simulated);
      } else if PlacaTaken(rows, v.placa) {
        outcome := Failure(PlacaDuplicada(v.placa));
      } else if !Complete(v) {
        outcome := Failure(ConstraintViolation);
      } else {
        var saved := v.(id := Some(nextId));
        rows := rows[nextId := saved];
        nextId := nextId + 1;
        outcome := Success(saved);
      }
      assert outcome == s.result;
      r := metrics.RecordOperationTime(() => outcome, "crear");
      if r.Failure? {
        r := WriteFallback("crear", r.error);
      }
    }

    /** `actualizar`: one attempt, with every failure turned into the "try
        again later" error. */
    method Actualizar(id: int, upd: Vehiculo, permitted: bool, roll: bool) returns (r: Result<Vehiculo, Error>)
      requires Valid()
      modifies this, metrics
      ensures Valid()
      ensures simularFallo == old(simularFallo) && nextId == old(nextId)
      ensures !permitted ==> rows == old(rows) && r == WriteFallback("actualizar", CallNotPermitted)
      ensures permitted ==>
        var s := ActualizarIntento(old(rows), old(nextId), id, upd, old(SimulaError(roll)));
        && rows == s.rows
        && r == if s.result.Success? then s.result else WriteFallback("actualizar", s.result.error)
      ensures r.Failure? ==> r.error.Unavailable? && rows == old(rows)
      ensures metrics.timings == old(metrics.timings) + if permitted then ["actualizar"] else []
      ensures metrics.activeVehicles == old(metrics.activeVehicles) && metrics.updates == old(metrics.updates)
    {
      if !permitted {
        return WriteFallback("actualizar", CallNotPermitted);
      }
      ghost var s := ActualizarIntento(rows, nextId, id, upd, SimulaError(roll));
      ActualizarKeepsInvariant(rows, nextId, id, upd, SimulaError(roll));
      var outcome: Result<Vehiculo, Error>;
      if SimulaError(roll) {
        outcome := Failure(Simulated);
      } else if id !in rows {
        outcome := Failure(NotFound(id));
      } else {
        var current := rows[id];
        if current.placa != upd.placa && PlacaTaken(rows, upd.placa) {
          outcome := Failure(PlacaDuplicada(upd.placa));
        } else {
          current := WithFieldsOf(current, upd);
          if !Complete(current) {
            outcome := Failure(ConstraintViolation);
          } else {
            rows := rows[id := current];
            outcome := Success(current);
          }
        }
      }
      assert outcome == s.result;
      r := metrics.RecordOperationTime(() => outcome, "actualizar");
      if r.Failure? {
        r := WriteFallback("actualizar", r.error);
      }
    }

    /** `eliminar`: one attempt, with every failure turned into the "try again
        later" error. */
    method Eliminar(id: int, permitted: bool, roll: bool) returns (r: Result<(), Error>)
      requires Valid()
      modifies this, metrics
      ensures Valid()
      ensures simularFallo == old(simularFallo) && nextId == old(nextId)
      ensures !permitted ==> rows == old(rows) && r == WriteFallback("eliminar", CallNotPermitted)
      ensures permitted ==>
        var s := EliminarIntento(old(rows), old(nextId), id, old(SimulaError(roll)));
        && rows == s.rows
        && r == if s.result.Success? then s.result else WriteFallback("eliminar", s.result.error)
      ensures r.Failure? ==> r.error.Unavailable? && rows == old(rows)
      ensures metrics.timings == old(metrics.timings) + if permitted then ["eliminar"] else []
      ensures metrics.activeVehicles == old(metrics.activeVehicles) && metrics.updates == old(metrics.updates)
    {
      if !permitted {
        return WriteFallback("eliminar", CallNotPermitted);
      }
      ghost var s := EliminarIntento(rows, nextId, id, SimulaError(roll));
      var outcome: Result<(), Error>;
      if SimulaError(roll) {
        outcome := Failure(Simulated);
      } else if id !in rows {
        outcome := Failure(NotFound(id));
      } else {
        rows := rows - {id};
        outcome := Success(());
      }
      assert outcome == s.result;
      r := metrics.RecordOperationTime(() => outcome, "eliminar");
      if r.Failure? {
        r := WriteFallback("eliminar", r.error);
      }
    }
  }
}
