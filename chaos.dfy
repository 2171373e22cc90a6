/** The fault-injection settings and the partial-update rules the control
    panel applies to them.

    The assault settings are a value (`Assaults`); `ApplyUpdate` is the
    reference definition of a partial update: the recognised keys are applied
    one group at a time in a fixed order, and the first value of the wrong
    type aborts the update with every earlier group already written. The
    property objects the panel mutates in place are the classes at the end. */
module ChaosMonkey {
  import opened Common

  // ---------------------------------------------------------------------
  // Request bodies

  /** A JSON value as the request body's `Map<String, Object>` holds it. */
  datatype JsonValue =
    | JNull
    | JBool(b: bool)
    | JInteger(i: int)     // an Integer, Long or BigInteger
    | JDecimal(d: real)    // a Double
    | JString(s: string)
    | JStructure           // a nested object or array

  /** The runtime exception a badly typed value raises. */
  datatype UpdateError = ClassCast(key: string) | NullPointer(key: string)

  const TWO_TO_32: int := 0x1_0000_0000

  /** `intValue()` of an Integer, Long or BigInteger: the low 32 bits, read
      as a two's-complement number. */
  function Wrap32(i: int): (r: int32)
    ensures (r as int - i) % TWO_TO_32 == 0
    ensures -0x8000_0000 <= i < 0x8000_0000 ==> r as int == i
  {
    var m := i % TWO_TO_32;
    (if m >= 0x8000_0000 then m - TWO_TO_32 else m) as int32
  }

  /** `intValue()` of a Double: rounded toward zero, saturating at the
      bounds of `int`. */
  function TruncSat(d: real): (r: int32)
    ensures d >= 0x7fff_ffff as real ==> r == 0x7fff_ffff
    ensures d <= -0x8000_0000 as real ==> r == -0x8000_0000
    ensures 0.0 <= d < 0x7fff_ffff as real ==> r as real <= d < r as real + 1.0
    ensures -0x8000_0000 as real < d < 0.0 ==> r as real - 1.0 < d <= r as real
  {
    if d >= 0x7fff_ffff as real then 0x7fff_ffff
    else if d <= -0x8000_0000 as real then -0x8000_0000
    else if d >= 0.0 then d.Floor as int32
    else -((-d).Floor) as int32
  }

  /** `((Number) value).intValue()`. */
  function IntValue(key: string, value: JsonValue): Result<int32, UpdateError> {
    match value
    case JInteger(i) => Success(Wrap32(i))
    case JDecimal(d) => Success(TruncSat(d))
    case JNull => Failure(NullPointer(key))
    case _ => Failure(ClassCast(key))
  }

  /** `(Boolean) value` passed to a setter taking a primitive `boolean`. */
  function BoolValue(key: string, value: JsonValue): Result<bool, UpdateError> {
    match value
    case JBool(b) => Success(b)
    case JNull => Failure(NullPointer(key))
    case _ => Failure(ClassCast(key))
  }

  /** `(String) value`; null casts to a null string. */
  function StringValue(key: string, value: JsonValue): Result<Option<string>, UpdateError> {
    match value
    case JString(s) => Success(Some(s))
    case JNull => Success(None)
    case _ => Failure(ClassCast(key))
  }

  // ---------------------------------------------------------------------
  // The settings

  datatype ExceptionArgument = ExceptionArgument(className: Option<string>, value: Option<string>)

  /** The exception an exception assault throws: its class name and the
      constructor arguments. */
  datatype AssaultException = AssaultException(
    typeName: Option<string>,
    arguments: Option<seq<ExceptionArgument>>)

  /** The assault settings the control panel reads and writes. */
  datatype Assaults = Assaults(
    level: int32,
    deterministic: bool,
    latencyActive: bool,
    latencyRangeStart: int32,
    latencyRangeEnd: int32,
    exceptionsActive: bool,
    exception: Option<AssaultException>,
    memoryActive: bool,
    memoryMillisecondsWaitNextIncrease: int32)

  /** The assault projection the control panel answers with. */
  datatype AssaultsView = AssaultsView(
    level: int32,
    latencyActive: bool,
    latencyRangeStart: int32,
    latencyRangeEnd: int32,
    exceptionsActive: bool,
    exceptionType: Option<string>,
    exceptionMessage: Option<string>,
    memoryActive: bool,
    memoryMillisecondsWaitNextIncrease: int32)

  /** The reported exception type: "" when no exception is stored. */
  function ExceptionTypeOf(e: Option<AssaultException>): Option<string> {
    if e.Some? then e.value.typeName else Some("")
  }

  /** The reported exception message: the first argument's value, or "" when
      no exception or no argument is stored. */
  function ExceptionMessageOf(e: Option<AssaultException>): Option<string> {
    if e.Some? && e.value.arguments.Some? && |e.value.arguments.value| > 0
    then e.value.arguments.value[0].value
    else Some("")
  }

  /** `getAssaultsConfig`: the projection of the settings. */
  function View(a: Assaults): (r: AssaultsView)
    ensures a.exception.None? ==> r.exceptionType == Some("") && r.exceptionMessage == Some("")
    ensures a.exception.Some? ==> r.exceptionType == a.exception.value.typeName
    ensures a.exception.Some? && a.exception.value.arguments.Some? && |a.exception.value.arguments.value| > 0
      ==> r.exceptionMessage == a.exception.value.arguments.value[0].value
    ensures a.exception.Some? && (a.exception.value.arguments.None? || a.exception.value.arguments.value == [])
      ==> r.exceptionMessage == Some("")
    ensures r == AssaultsView(a.level, a.latencyActive, a.latencyRangeStart, a.latencyRangeEnd,
                              a.exceptionsActive, r.exceptionType, r.exceptionMessage,
                              a.memoryActive, a.memoryMillisecondsWaitNextIncrease)
  {
    AssaultsView(a.level, a.latencyActive, a.latencyRangeStart, a.latencyRangeEnd, a.exceptionsActive,
                 ExceptionTypeOf(a.exception), ExceptionMessageOf(a.exception),
                 a.memoryActive, a.memoryMillisecondsWaitNextIncrease)
  }

  /** A new exception spec with the given type. A non-empty message becomes
      its one argument; an empty one carries over the previous arguments, so
      the reported message stays what it was. */
  function RebuildException(previous: Option<AssaultException>, typeName: Option<string>, message: string)
    : (e: AssaultException)
    ensures e.typeName == typeName
    ensures message != "" ==> e.arguments == Some([ExceptionArgument(None, Some(message))])
    ensures message == "" && previous.Some? ==> e.arguments == previous.value.arguments
    ensures ExceptionMessageOf(Some(e)) == if message != "" then Some(message) else ExceptionMessageOf(previous)
  {
    var arguments :=
      if message != "" then Some([ExceptionArgument(None, Some(message))])
      else if previous.Some? then previous.value.arguments
      else None;
    AssaultException(typeName, arguments)
  }

  // ---------------------------------------------------------------------
  // Partial update

  /** The groups of keys a partial update recognises, one per guarded block. */
  datatype AssaultKey =
    | Level | LatencyActive | LatencyRangeStart | LatencyRangeEnd
    | ExceptionsActive | ExceptionSpec | MemoryActive | MemoryWait

  /** The order in which the groups are applied. */
  const UpdateOrder: seq<AssaultKey> :=
    [Level, LatencyActive, LatencyRangeStart, LatencyRangeEnd,
     ExceptionsActive, ExceptionSpec, MemoryActive, MemoryWait]

  /** The request key of a single-field group. */
  function KeyName(k: AssaultKey): string
    requires k != ExceptionSpec
  {
    match k
    case Level => "level"
    case LatencyActive => "latencyActive"
    case LatencyRangeStart => "latencyRangeStart"
    case LatencyRangeEnd => "latencyRangeEnd"
    case ExceptionsActive => "exceptionsActive"
    case MemoryActive => "memoryActive"
    case MemoryWait => "memoryMillisecondsWaitNextIncrease"
  }

  /** The group's guard: one of its keys is in the request. */
  predicate KeyPresent(k: AssaultKey, config: map<string, JsonValue>) {
    if k == ExceptionSpec then "exceptionType" in config || "exceptionMessage" in config
    else KeyName(k) in config
  }

  predicate IsIntKey(k: AssaultKey) {
    k == Level || k == LatencyRangeStart || k == LatencyRangeEnd || k == MemoryWait
  }

  /** The value of one group's field(s). */
  datatype FieldValue = IntField(n: int32) | BoolField(b: bool) | ExceptionField(e: Option<AssaultException>)

  function Field(a: Assaults, k: AssaultKey): FieldValue {
    match k
    case Level => IntField(a.level)
    case LatencyActive => BoolField(a.latencyActive)
    case LatencyRangeStart => IntField(a.latencyRangeStart)
    case LatencyRangeEnd => IntField(a.latencyRangeEnd)
    case ExceptionsActive => BoolField(a.exceptionsActive)
    case ExceptionSpec => ExceptionField(a.exception)
    case MemoryActive => BoolField(a.memoryActive)
    case MemoryWait => IntField(a.memoryMillisecondsWaitNextIncrease)
  }

  /** `f` has the kind of value group `k` stores. */
  predicate FitsKey(k: AssaultKey, f: FieldValue) {
    if k == ExceptionSpec then f.ExceptionField?
    else if IsIntKey(k) then f.IntField?
    else f.BoolField?
  }

  /** The settings with group `k` set to `f` and nothing else changed. */
  function WithField(a: Assaults, k: AssaultKey, f: FieldValue): (r: Assaults)
    requires FitsKey(k, f)
    ensures Field(r, k) == f
    ensures forall j :: j != k ==> Field(r, j) == Field(a, j)
    ensures r.deterministic == a.deterministic
  {
    match k
    case Level => a.(level := f.n)
    case LatencyActive => a.(latencyActive := f.b)
    case LatencyRangeStart => a.(latencyRangeStart := f.n)
    case LatencyRangeEnd => a.(latencyRangeEnd := f.n)
    case ExceptionsActive => a.(exceptionsActive := f.b)
    case ExceptionSpec => a.(exception := f.e)
    case MemoryActive => a.(memoryActive := f.b)
    case MemoryWait => a.(memoryMillisecondsWaitNextIncrease := f.n)
  }

  /** The cast of a single-field group: numbers through `intValue()`,
      booleans unboxed into a primitive setter. */
  function Decode(k: AssaultKey, v: JsonValue): (r: Result<FieldValue, UpdateError>)
    requires k != ExceptionSpec
    ensures r.Success? ==> FitsKey(k, r.value)
    ensures IsIntKey(k) && v.JInteger? ==> r == Success(IntField(Wrap32(v.i)))
    ensures IsIntKey(k) && v.JDecimal? ==> r == Success(IntField(TruncSat(v.d)))
    ensures !IsIntKey(k) && v.JBool? ==> r == Success(BoolField(v.b))
    ensures v.JNull? ==> r == Failure(NullPointer(KeyName(k)))
    ensures r.Failure? <==>
      if IsIntKey(k) then !v.JInteger? && !v.JDecimal? else !v.JBool?
  {
    if IsIntKey(k) then
      var n :- IntValue(KeyName(k), v);
      Success(IntField(n))
    else
      var b :- BoolValue(KeyName(k), v);
      Success(BoolField(b))
  }

  /** The exception group: the type comes from the request, else from the
      stored exception, else ""; the message from the request, else "".
      A null message fails on `isEmpty()`. */
  function DecodeException(a: Assaults, config: map<string, JsonValue>): (r: Result<Option<AssaultException>, UpdateError>)
    ensures r.Success? ==> r.value.Some?
    ensures r.Success? && "exceptionType" !in config ==>
      r.value.value.typeName == ExceptionTypeOf(a.exception)
    ensures r.Success? && "exceptionType" in config ==>
      || (config["exceptionType"].JString? && r.value.value.typeName == Some(config["exceptionType"].s))
      || (config["exceptionType"].JNull? && r.value.value.typeName == None)
    ensures r.Success? && ("exceptionMessage" !in config || config["exceptionMessage"] == JString("")) ==>
      ExceptionMessageOf(r.value) == ExceptionMessageOf(a.exception)
    ensures r.Success? && "exceptionMessage" in config ==>
      config["exceptionMessage"].JString? && config["exceptionMessage"].s != "" ==>
      ExceptionMessageOf(r.value) == Some(config["exceptionMessage"].s)
    ensures r.Failure? <==>
      || ("exceptionType" in config && !config["exceptionType"].JString? && !config["exceptionType"].JNull?)
      || ("exceptionMessage" in config && !config["exceptionMessage"].JString?)
  {
    var typeName :-
      if "exceptionType" in config then StringValue("exceptionType", config["exceptionType"])
      else Success(ExceptionTypeOf(a.exception));
    var message :-
      if "exceptionMessage" in config then StringValue("exceptionMessage", config["exceptionMessage"])
      else Success(Some(""));
    if message.None? then Failure(NullPointer("exceptionMessage"))
    else Success(Some(RebuildException(a.exception, typeName, message.value)))
  }

  /** One guarded block of the update: an absent group changes nothing; a
      present one either writes its own field(s) or fails without writing. */
  function ApplyKey(a: Assaults, k: AssaultKey, config: map<string, JsonValue>): (r: Result<Assaults, UpdateError>)
    ensures !KeyPresent(k, config) ==> r == Success(a)
  {
    if !KeyPresent(k, config) then Success(a)
    else if k == ExceptionSpec then
      var e :- DecodeException(a, config);
      Success(WithField(a, k, ExceptionField(e)))
    else
      var f :- Decode(k, config[KeyName(k)]);
      Success(WithField(a, k, f))
  }

  /** A guarded block that succeeds changes its own group's field(s) only. */
  lemma ApplyKeyTouchesOnlyItsGroup(a: Assaults, k: AssaultKey, config: map<string, JsonValue>)
    requires ApplyKey(a, k, config).Success?
    ensures ApplyKey(a, k, config).value.deterministic == a.deterministic
    ensures forall j :: j != k ==> Field(ApplyKey(a, k, config).value, j) == Field(a, j)
  {
  }

  /** A present single-field key stores its value, numbers through
      `intValue()`; any other value makes the block fail. */
  lemma PresentFieldIsStored(a: Assaults, k: AssaultKey, config: map<string, JsonValue>)
    requires k != ExceptionSpec && KeyName(k) in config
    ensures var v := config[KeyName(k)];
      && (IsIntKey(k) && v.JInteger? ==> ApplyKey(a, k, config) == Success(WithField(a, k, IntField(Wrap32(v.i)))))
      && (IsIntKey(k) && v.JDecimal? ==> ApplyKey(a, k, config) == Success(WithField(a, k, IntField(TruncSat(v.d)))))
      && (!IsIntKey(k) && v.JBool? ==> ApplyKey(a, k, config) == Success(WithField(a, k, BoolField(v.b))))
      && (ApplyKey(a, k, config).Failure? <==>
            if IsIntKey(k) then !v.JInteger? && !v.JDecimal? else !v.JBool?)
  {
  }

  /** `b` and `e` are what group `k` leaves behind: its new settings, or the
      unchanged settings and the exception it raised. */
  predicate Stepped(a: Assaults, k: AssaultKey, config: map<string, JsonValue>, b: Assaults, e: Option<UpdateError>) {
    match ApplyKey(a, k, config)
    case Success(x) => b == x && e.None?
    case Failure(err) => b == a && e == Some(err)
  }

  /** Settings after an update, and the exception that ended it early. */
  datatype Applied = Applied(assaults: Assaults, error: Option<UpdateError>)

  /** The groups `keys` applied in order, stopping at the first failure. */
  function ApplyKeys(a: Assaults, keys: seq<AssaultKey>, config: map<string, JsonValue>): Applied
    decreases |keys|
  {
    if keys == [] then Applied(a, None)
    else
      match ApplyKey(a, keys[0], config)
      case Failure(e) => Applied(a, Some(e))
      case Success(b) => ApplyKeys(b, keys[1..], config)
  }

  /** `updateAssaults` on the settings value: the eight guarded blocks in
      source order. No key reaches `deterministic`. */
  function ApplyUpdate(a: Assaults, config: map<string, JsonValue>): (r: Applied)
    ensures r.assaults.deterministic == a.deterministic
  {
    ApplyKeysKeepsDeterministic(a, UpdateOrder, config);
    ApplyKeys(a, UpdateOrder, config)
  }

  /** Continue an update with more groups, unless it has already failed. */
  function Continue(p: Applied, keys: seq<AssaultKey>, config: map<string, JsonValue>): Applied {
    if p.error.Some? then p else ApplyKeys(p.assaults, keys, config)
  }

  // ---------------------------------------------------------------------
  // Lemmas about the update

  /** After group `UpdateOrder[i]` has left `b` and `e`, the update from
      there on is: nothing more if it failed, else the following groups on `b`. */
  predicate Advanced(a: Assaults, i: nat, config: map<string, JsonValue>, b: Assaults, e: Option<UpdateError>)
    requires i < |UpdateOrder|
  {
    && (e.Some? ==> b == a && ApplyKeys(a, UpdateOrder[i..], config) == Applied(a, e))
    && (e.None? ==> ApplyKeys(a, UpdateOrder[i..], config) == ApplyKeys(b, UpdateOrder[i + 1..], config))
  }

  /** What one group does decides how the update goes on. */
  lemma ApplyKeysAdvance(a: Assaults, i: nat, config: map<string, JsonValue>, b: Assaults, e: Option<UpdateError>)
    requires i < |UpdateOrder|
    requires Stepped(a, UpdateOrder[i], config, b, e)
    ensures Advanced(a, i, config, b, e)
  {
    assert UpdateOrder[i..][0] == UpdateOrder[i];
    assert UpdateOrder[i..][1..] == UpdateOrder[i + 1..];
  }

  /** Running the groups from position `i` up to (not including) `j` on `a`
      left `b`, with `e` the exception that stopped them, if one did; either
      way the rest of the update is what it would have been from `a`. */
  predicate Ran(a: Assaults, i: nat, j: nat, config: map<string, JsonValue>, b: Assaults, e: Option<UpdateError>)
    requires i <= j <= |UpdateOrder|
  {
    && (e.Some? ==> ApplyKeys(a, UpdateOrder[i..], config) == Applied(b, e))
    && (e.None? ==> ApplyKeys(a, UpdateOrder[i..], config) == ApplyKeys(b, UpdateOrder[j..], config))
  }

  /** One more group extends a run by one position. */
  lemma RanStep(a: Assaults, i: nat, j: nat, config: map<string, JsonValue>,
                b: Assaults, c: Assaults, e: Option<UpdateError>)
    requires i <= j < |UpdateOrder|
    requires Ran(a, i, j, config, b, None)
    requires Advanced(b, j, config, c, e)
    ensures Ran(a, i, j + 1, config, c, e)
  {
  }

  /** Two consecutive runs make one. */
  lemma RanJoin(a: Assaults, i: nat, j: nat, k: nat, config: map<string, JsonValue>,
                b: Assaults, c: Assaults, e: Option<UpdateError>)
    requires i <= j <= k <= |UpdateOrder|
    requires Ran(a, i, j, config, b, None)
    requires Ran(b, j, k, config, c, e)
    ensures Ran(a, i, k, config, c, e)
  {
  }

  /** Applying groups in order is applying a prefix and then the rest: the
      order is fixed, and a failure stops everything after it. */
  lemma {:induction false} ApplyKeysAppend(a: Assaults, xs: seq<AssaultKey>, ys: seq<AssaultKey>,
                                           config: map<string, JsonValue>)
    ensures ApplyKeys(a, xs + ys, config) == Continue(ApplyKeys(a, xs, config), ys, config)
    decreases |xs|
  {
    if xs != [] {
      assert (xs + ys)[0] == xs[0];
      assert (xs + ys)[1..] == xs[1..] + ys;
      match ApplyKey(a, xs[0], config)
      case Failure(e) =>
      case Success(b) =>
        ApplyKeysAppend(b, xs[1..], ys, config);
    } else {
      assert xs + ys == ys;
    }
  }

  /** No run of groups changes `deterministic`. */
  lemma {:induction false} ApplyKeysKeepsDeterministic(a: Assaults, keys: seq<AssaultKey>,
                                                       config: map<string, JsonValue>)
    ensures ApplyKeys(a, keys, config).assaults.deterministic == a.deterministic
    decreases |keys|
  {
    if keys != [] {
      match ApplyKey(a, keys[0], config)
      case Failure(e) =>
      case Success(b) =>
        ApplyKeyTouchesOnlyItsGroup(a, keys[0], config);
        ApplyKeysKeepsDeterministic(b, keys[1..], config);
    }
  }

  /** A group whose keys are absent keeps its value through any update. */
  lemma {:induction false} ApplyKeysKeepsAbsent(a: Assaults, keys: seq<AssaultKey>,
                                                config: map<string, JsonValue>, k: AssaultKey)
    requires !KeyPresent(k, config)
    ensures Field(ApplyKeys(a, keys, config).assaults, k) == Field(a, k)
    decreases |keys|
  {
    if keys != [] {
      match ApplyKey(a, keys[0], config)
      case Failure(e) =>
      case Success(b) =>
        ApplyKeyTouchesOnlyItsGroup(a, keys[0], config);
        ApplyKeysKeepsAbsent(b, keys[1..], config, k);
    }
  }

  /** Groups none of whose keys are present change nothing and cannot fail. */
  lemma {:induction false} AbsentKeysAreNoOps(a: Assaults, keys: seq<AssaultKey>, config: map<string, JsonValue>)
    requires forall i :: 0 <= i < |keys| ==> !KeyPresent(keys[i], config)
    ensures ApplyKeys(a, keys, config) == Applied(a, None)
    decreases |keys|
  {
    if keys != [] {
      AbsentKeysAreNoOps(a, keys[1..], config);
    }
  }

  /** `updateAssaults` leaves every group whose keys are absent untouched,
      and never changes `deterministic`. */
  lemma UpdateKeepsAbsentFields(a: Assaults, config: map<string, JsonValue>, k: AssaultKey)
    requires !KeyPresent(k, config)
    ensures Field(ApplyUpdate(a, config).assaults, k) == Field(a, k)
    ensures ApplyUpdate(a, config).assaults.deterministic == a.deterministic
  {
    ApplyKeysKeepsAbsent(a, UpdateOrder, config, k);
  }

  /** An update without recognised keys (an empty body, in particular)
      changes nothing and succeeds. */
  lemma UpdateWithoutKnownKeys(a: Assaults, config: map<string, JsonValue>)
    requires forall k :: !KeyPresent(k, config)
    ensures ApplyUpdate(a, config) == Applied(a, None)
  {
    AbsentKeysAreNoOps(a, UpdateOrder, config);
  }

  /** When group `UpdateOrder[i]` is the first to fail, the update stops
      there: every earlier group is written, no later one is. */
  lemma UpdateStopsAtFirstFailure(a: Assaults, config: map<string, JsonValue>, i: nat)
    requires i < |UpdateOrder|
    requires ApplyKeys(a, UpdateOrder[..i], config).error.None?
    requires ApplyKey(ApplyKeys(a, UpdateOrder[..i], config).assaults, UpdateOrder[i], config).Failure?
    ensures var p := ApplyKeys(a, UpdateOrder[..i], config);
      ApplyUpdate(a, config) == Applied(p.assaults, Some(ApplyKey(p.assaults, UpdateOrder[i], config).error))
  {
    assert UpdateOrder == UpdateOrder[..i] + UpdateOrder[i..];
    ApplyKeysAppend(a, UpdateOrder[..i], UpdateOrder[i..], config);
  }

  /** Groups other than `k` keep `k`'s field(s), whatever they do. */
  lemma {:induction false} ApplyKeysKeepsOtherGroups(a: Assaults, keys: seq<AssaultKey>,
                                                     config: map<string, JsonValue>, k: AssaultKey)
    requires k !in keys
    ensures Field(ApplyKeys(a, keys, config).assaults, k) == Field(a, k)
    decreases |keys|
  {
    if keys != [] {
      match ApplyKey(a, keys[0], config)
      case Failure(e) =>
      case Success(b) =>
        ApplyKeyTouchesOnlyItsGroup(a, keys[0], config);
        assert k !in keys[1..];
        ApplyKeysKeepsOtherGroups(b, keys[1..], config, k);
    }
  }

  /** What group `k` does depends on its own field(s) only: the exception
      group reads the stored spec for the carry-over, the others read
      nothing of the settings. */
  lemma ApplyKeyReadsOnlyItsGroup(a: Assaults, b: Assaults, k: AssaultKey, config: map<string, JsonValue>)
    requires Field(a, k) == Field(b, k)
    ensures ApplyKey(a, k, config).Success? <==> ApplyKey(b, k, config).Success?
    ensures ApplyKey(a, k, config).Success? ==>
      Field(ApplyKey(a, k, config).value, k) == Field(ApplyKey(b, k, config).value, k)
  {
    if k == ExceptionSpec {
      assert DecodeException(a, config) == DecodeException(b, config);
    }
  }

  /** No group appears twice in `keys`. */
  predicate Distinct(keys: seq<AssaultKey>) {
    forall i, j :: 0 <= i < j < |keys| ==> keys[i] != keys[j]
  }

  /** In a run of distinct groups that completes, every group ends holding
      what its block writes on the settings the run started from. */
  lemma {:induction false} ApplyKeysStoresEachGroup(a: Assaults, keys: seq<AssaultKey>,
                                                    config: map<string, JsonValue>, k: AssaultKey)
    requires k in keys && Distinct(keys)
    requires ApplyKeys(a, keys, config).error.None?
    ensures ApplyKey(a, k, config).Success?
    ensures Field(ApplyKeys(a, keys, config).assaults, k) == Field(ApplyKey(a, k, config).value, k)
    decreases |keys|
  {
    match ApplyKey(a, keys[0], config)
    case Failure(e) =>
      assert false;
    case Success(b) =>
      if keys[0] == k {
        assert k !in keys[1..] by {
          forall j | 0 <= j < |keys[1..]| ensures keys[1..][j] != k {
            assert keys[1..][j] == keys[j + 1];
          }
        }
        ApplyKeysKeepsOtherGroups(b, keys[1..], config, k);
      } else {
        assert k in keys[1..];
        assert Distinct(keys[1..]) by {
          forall i, j | 0 <= i < j < |keys[1..]| ensures keys[1..][i] != keys[1..][j] {
            assert keys[1..][i] == keys[i + 1] && keys[1..][j] == keys[j + 1];
          }
        }
        ApplyKeyTouchesOnlyItsGroup(a, keys[0], config);
        ApplyKeysStoresEachGroup(b, keys[1..], config, k);
        ApplyKeyReadsOnlyItsGroup(a, b, k, config);
      }
  }

  /** Every group is in the update order, once. */
  lemma UpdateOrderCoversEachGroupOnce(k: AssaultKey)
    ensures k in UpdateOrder && Distinct(UpdateOrder)
  {
  }

  /** After an update that completes, every present single-field key holds
      its value, cast as its block casts it. */
  lemma UpdateStoresPresentField(a: Assaults, config: map<string, JsonValue>, k: AssaultKey)
    requires k != ExceptionSpec && KeyName(k) in config
    requires ApplyUpdate(a, config).error.None?
    ensures Decode(k, config[KeyName(k)]).Success?
    ensures Field(ApplyUpdate(a, config).assaults, k) == Decode(k, config[KeyName(k)]).value
  {
    UpdateOrderCoversEachGroupOnce(k);
    ApplyKeysStoresEachGroup(a, UpdateOrder, config, k);
  }

  /** After an update that completes with an exception key present, the
      stored spec is the one the exception block builds from the settings
      before the update: a given type is taken, an absent one kept; a given
      non-empty message replaces the reported one, an absent or empty one
      keeps it. */
  lemma UpdateStoresException(a: Assaults, config: map<string, JsonValue>)
    requires KeyPresent(ExceptionSpec, config)
    requires ApplyUpdate(a, config).error.None?
    ensures DecodeException(a, config).Success?
    ensures ApplyUpdate(a, config).assaults.exception == DecodeException(a, config).value
    ensures var e := ApplyUpdate(a, config).assaults.exception;
      && e.Some?
      && ("exceptionType" !in config ==> ExceptionTypeOf(e) == ExceptionTypeOf(a.exception))
      && ("exceptionType" in config && config["exceptionType"].JString? ==>
            ExceptionTypeOf(e) == Some(config["exceptionType"].s))
      && ("exceptionType" in config && config["exceptionType"].JNull? ==> ExceptionTypeOf(e) == None)
      && ("exceptionMessage" !in config || config["exceptionMessage"] == JString("") ==>
            ExceptionMessageOf(e) == ExceptionMessageOf(a.exception))
      && ("exceptionMessage" in config && config["exceptionMessage"].JString? && config["exceptionMessage"].s != "" ==>
            ExceptionMessageOf(e) == Some(config["exceptionMessage"].s))
  {
    UpdateOrderCoversEachGroupOnce(ExceptionSpec);
    ApplyKeysStoresEachGroup(a, UpdateOrder, config, ExceptionSpec);
  }

  /** Every present key of group `k` has a type its block accepts: a number
      for a numeric field, a Boolean for a flag, a String (or null, for the
      type) for the exception keys. */
  predicate WellTyped(k: AssaultKey, config: map<string, JsonValue>) {
    if k == ExceptionSpec then
      && ("exceptionType" in config ==> config["exceptionType"].JString? || config["exceptionType"].JNull?)
      && ("exceptionMessage" in config ==> config["exceptionMessage"].JString?)
    else if KeyName(k) !in config then true
    else if IsIntKey(k) then config[KeyName(k)].JInteger? || config[KeyName(k)].JDecimal?
    else config[KeyName(k)].JBool?
  }

  /** A guarded block fails exactly when its group is badly typed. */
  lemma ApplyKeySucceedsIffWellTyped(a: Assaults, k: AssaultKey, config: map<string, JsonValue>)
    ensures ApplyKey(a, k, config).Success? <==> WellTyped(k, config)
  {
    if k != ExceptionSpec && KeyName(k) in config {
      PresentFieldIsStored(a, k, config);
    }
  }

  /** A run of groups fails exactly when one of them is badly typed. */
  lemma {:induction false} ApplyKeysFailsIffBadlyTyped(a: Assaults, keys: seq<AssaultKey>,
                                                       config: map<string, JsonValue>)
    ensures ApplyKeys(a, keys, config).error.Some? <==>
      exists i :: 0 <= i < |keys| && !WellTyped(keys[i], config)
    decreases |keys|
  {
    if keys != [] {
      ApplyKeySucceedsIffWellTyped(a, keys[0], config);
      match ApplyKey(a, keys[0], config)
      case Failure(e) =>
        assert !WellTyped(keys[0], config);
      case Success(b) =>
        ApplyKeysFailsIffBadlyTyped(b, keys[1..], config);
        if exists i :: 0 <= i < |keys| && !WellTyped(keys[i], config) {
          var i :| 0 <= i < |keys| && !WellTyped(keys[i], config);
          assert keys[1..][i - 1] == keys[i];
        }
        if exists j :: 0 <= j < |keys[1..]| && !WellTyped(keys[1..][j], config) {
          var j :| 0 <= j < |keys[1..]| && !WellTyped(keys[1..][j], config);
          assert keys[j + 1] == keys[1..][j];
        }
    }
  }

  /** `updateAssaults` throws exactly when some group of the request is
      badly typed; a request whose present keys all have the right types
      always completes. */
  lemma UpdateFailsIffBadlyTyped(a: Assaults, config: map<string, JsonValue>)
    ensures ApplyUpdate(a, config).error.Some? <==> exists k :: !WellTyped(k, config)
  {
    ApplyKeysFailsIffBadlyTyped(a, UpdateOrder, config);
    if exists k :: !WellTyped(k, config) {
      var k :| !WellTyped(k, config);
      UpdateOrderCoversEachGroupOnce(k);
      var i :| 0 <= i < |UpdateOrder| && UpdateOrder[i] == k;
    }
  }

  /** The request `configureLatencyAssaults` builds. */
  function LatencyRequest(active: bool, from: int32, to: int32): (r: map<string, JsonValue>)
    ensures forall k :: KeyPresent(k, r) <==> k == LatencyActive || k == LatencyRangeStart || k == LatencyRangeEnd
  {
    map["latencyActive" := JBool(active),
        "latencyRangeStart" := JInteger(from as int),
        "latencyRangeEnd" := JInteger(to as int)]
  }

  /** The request `configureMemoryAssaults` builds; the megabytes are not in it. */
  function MemoryRequest(active: bool, millisWaitNextMemoryKill: int64): (r: map<string, JsonValue>)
    ensures forall k :: KeyPresent(k, r) <==> k == MemoryActive || k == MemoryWait
  {
    map["memoryActive" := JBool(active),
        "memoryMillisecondsWaitNextIncrease" := JInteger(millisWaitNextMemoryKill as int)]
  }

  /** The four latency-related groups, run on the latency request, store the
      three values and pass over the absent level. */
  lemma LatencyGroups(a: Assaults, active: bool, from: int32, to: int32)
    ensures ApplyKeys(a, UpdateOrder[..4], LatencyRequest(active, from, to))
         == Applied(a.(latencyActive := active, latencyRangeStart := from, latencyRangeEnd := to), None)
  {
    var config := LatencyRequest(active, from, to);
    var a1 := a.(latencyActive := active);
    var a2 := a1.(latencyRangeStart := from);
    assert UpdateOrder[..4] == [Level, LatencyActive, LatencyRangeStart, LatencyRangeEnd];
    assert ApplyKey(a, Level, config) == Success(a);
    assert ApplyKey(a, LatencyActive, config) == Success(a1);
    assert ApplyKey(a1, LatencyRangeStart, config) == Success(a2);
    assert ApplyKey(a2, LatencyRangeEnd, config) == Success(a2.(latencyRangeEnd := to));
    assert [Level, LatencyActive, LatencyRangeStart, LatencyRangeEnd][1..] == [LatencyActive, LatencyRangeStart, LatencyRangeEnd];
    assert [LatencyActive, LatencyRangeStart, LatencyRangeEnd][1..] == [LatencyRangeStart, LatencyRangeEnd];
    assert [LatencyRangeStart, LatencyRangeEnd][1..] == [LatencyRangeEnd];
    assert [LatencyRangeEnd][1..] == [];
  }

  /** The latency request holds none of the keys of the last four groups. */
  lemma LatencyRequestLeavesTheRest(b: Assaults, active: bool, from: int32, to: int32)
    ensures ApplyKeys(b, UpdateOrder[4..], LatencyRequest(active, from, to)) == Applied(b, None)
  {
    assert UpdateOrder[4..] == [ExceptionsActive, ExceptionSpec, MemoryActive, MemoryWait];
    AbsentKeysAreNoOps(b, UpdateOrder[4..], LatencyRequest(active, from, to));
  }

  /** The latency request sets exactly the three latency fields, as given
      (no check that the range is ordered), and cannot fail. */
  lemma LatencyUpdate(a: Assaults, active: bool, from: int32, to: int32)
    ensures ApplyUpdate(a, LatencyRequest(active, from, to))
         == Applied(a.(latencyActive := active, latencyRangeStart := from, latencyRangeEnd := to), None)
  {
    var config := LatencyRequest(active, from, to);
    var b := a.(latencyActive := active, latencyRangeStart := from, latencyRangeEnd := to);
    assert UpdateOrder == UpdateOrder[..4] + UpdateOrder[4..];
    ApplyKeysAppend(a, UpdateOrder[..4], UpdateOrder[4..], config);
    LatencyGroups(a, active, from, to);
    LatencyRequestLeavesTheRest(b, active, from, to);
  }

  /** The two memory groups, run on the memory request, store the flag and
      the wait cut to its low 32 bits. */
  lemma MemoryGroups(a: Assaults, active: bool, millisWaitNextMemoryKill: int64)
    ensures ApplyKeys(a, UpdateOrder[6..], MemoryRequest(active, millisWaitNextMemoryKill))
         == Applied(a.(memoryActive := active,
                       memoryMillisecondsWaitNextIncrease := Wrap32(millisWaitNextMemoryKill as int)), None)
  {
    var config := MemoryRequest(active, millisWaitNextMemoryKill);
    var a1 := a.(memoryActive := active);
    assert UpdateOrder[6..] == [MemoryActive, MemoryWait];
    assert ApplyKey(a, MemoryActive, config) == Success(a1);
    assert ApplyKey(a1, MemoryWait, config)
        == Success(a1.(memoryMillisecondsWaitNextIncrease := Wrap32(millisWaitNextMemoryKill as int)));
    assert [MemoryActive, MemoryWait][1..] == [MemoryWait];
    assert [MemoryWait][1..] == [];
  }

  /** The memory request sets the memory flag and the wait, the `long` wait
      cut to its low 32 bits, and cannot fail. */
  lemma MemoryUpdate(a: Assaults, active: bool, millisWaitNextMemoryKill: int64)
    ensures ApplyUpdate(a, MemoryRequest(active, millisWaitNextMemoryKill))
         == Applied(a.(memoryActive := active,
                       memoryMillisecondsWaitNextIncrease := Wrap32(millisWaitNextMemoryKill as int)), None)
  {
    var config := MemoryRequest(active, millisWaitNextMemoryKill);
    assert UpdateOrder == UpdateOrder[..6] + UpdateOrder[6..];
    ApplyKeysAppend(a, UpdateOrder[..6], UpdateOrder[6..], config);
    AbsentKeysAreNoOps(a, UpdateOrder[..6], config);
    MemoryGroups(a, active, millisWaitNextMemoryKill);
  }

  // ---------------------------------------------------------------------
  // The property objects the control panel shares with the fault injector

  class AssaultProperties {
    var level: int32
    var deterministic: bool
    var latencyActive: bool
    var latencyRangeStart: int32
    var latencyRangeEnd: int32
    var exceptionsActive: bool
    var exception: Option<AssaultException>
    var memoryActive: bool
    var memoryMillisecondsWaitNextIncrease: int32

    /** The settings these fields hold. */
    function Value(): Assaults
      reads this
    {
      Assaults(level, deterministic, latencyActive, latencyRangeStart, latencyRangeEnd,
               exceptionsActive, exception, memoryActive, memoryMillisecondsWaitNextIncrease)
    }

    /** The library's defaults: a non-null exception spec, the other fields
        whatever the library chooses. */
    constructor (libraryException: AssaultException)
      ensures exception == Some(libraryException)
    {
      exception := Some(libraryException);
    }
  }

  /** Which layers the fault injector instruments. */
  class WatcherProperties {
    var controller: bool
    var restController: bool
    var service: bool
    var repository: bool
    var component: bool

    /** The library's defaults. This model does not know them, so the
        constructor promises nothing about the five flags; every caller in
        the system sets all five before they are read. */
    constructor ()
    {
    }
  }

  class ChaosMonkeyProperties {
    var enabled: bool

    /** Bound from the application's configuration. */
    constructor (enabled: bool)
      ensures this.enabled == enabled
    {
      this.enabled := enabled;
    }
  }

  /** The three property objects, shared by reference. */
  class ChaosMonkeySettings {
    const chaosMonkeyProperties: ChaosMonkeyProperties
    const assaultProperties: AssaultProperties
    const watcherProperties: WatcherProperties?

    constructor (chaosMonkeyProperties: ChaosMonkeyProperties, assaultProperties: AssaultProperties,
                 watcherProperties: WatcherProperties?)
      ensures this.chaosMonkeyProperties == chaosMonkeyProperties
      ensures this.assaultProperties == assaultProperties
      ensures this.watcherProperties == watcherProperties
    {
      this.chaosMonkeyProperties := chaosMonkeyProperties;
      this.assaultProperties := assaultProperties;
      this.watcherProperties := watcherProperties;
    }
  }
}
