/** The control panel for the fault injector: reads the settings and changes
    them in place while the application runs. */
module ChaosControl {
  import opened Common
  import opened ChaosMonkey

  /** The status answer: whether the injector is on, and the assaults. */
  datatype Status = Status(enabled: bool, assaults: AssaultsView)

  /** The watcher answer echoes the five flags. */
  datatype WatchersResponse = WatchersResponse(
    status: string,
    controller: bool,
    restController: bool,
    service: bool,
    repository: bool,
    component: bool)

  class ChaosMonkeyController {
    const chaosMonkeySettings: ChaosMonkeySettings

    constructor (chaosMonkeySettings: ChaosMonkeySettings)
      ensures this.chaosMonkeySettings == chaosMonkeySettings
    {
      this.chaosMonkeySettings := chaosMonkeySettings;
    }

    /** `getAssaultsConfig`, also the answer of `getAssaults`. */
    function GetAssaultsConfig(): (r: AssaultsView)
      reads chaosMonkeySettings.assaultProperties
      ensures r == View(chaosMonkeySettings.assaultProperties.Value())
    {
      View(chaosMonkeySettings.assaultProperties.Value())
    }

    function GetStatus(): (r: Status)
      reads chaosMonkeySettings.chaosMonkeyProperties, chaosMonkeySettings.assaultProperties
      ensures r.enabled == chaosMonkeySettings.chaosMonkeyProperties.enabled
      ensures r.assaults == GetAssaultsConfig()
    {
      Status(chaosMonkeySettings.chaosMonkeyProperties.enabled, GetAssaultsConfig())
    }

    /** Switches the injector on; the assaults are untouched. */
    method Enable() returns (r: Status)
      modifies chaosMonkeySettings.chaosMonkeyProperties
      ensures chaosMonkeySettings.chaosMonkeyProperties.enabled
      ensures r == GetStatus() && r.enabled
      ensures r.assaults == old(GetAssaultsConfig())
    {
      chaosMonkeySettings.chaosMonkeyProperties.enabled := true;
      r := GetStatus();
    }

    /** Switches the injector off; the assaults are untouched. */
    method Disable() returns (r: Status)
      modifies chaosMonkeySettings.chaosMonkeyProperties
      ensures !chaosMonkeySettings.chaosMonkeyProperties.enabled
      ensures r == GetStatus() && !r.enabled
      ensures r.assaults == old(GetAssaultsConfig())
    {
      chaosMonkeySettings.chaosMonkeyProperties.enabled := false;
      r := GetStatus();
    }

    /** The `i`-th guarded block of `updateAssaults` when it guards a single
        field: when the key is present, its value is cast (numbers through
        `intValue()`, booleans unboxed) and handed to the field's setter. */
    method UpdateField(i: nat, config: map<string, JsonValue>) returns (e: Option<UpdateError>)
      requires i < |UpdateOrder| && UpdateOrder[i] != ExceptionSpec
      modifies chaosMonkeySettings.assaultProperties
      ensures Stepped(old(chaosMonkeySettings.assaultProperties.Value()), UpdateOrder[i], config,
                      chaosMonkeySettings.assaultProperties.Value(), e)
      ensures Advanced(old(chaosMonkeySettings.assaultProperties.Value()), i, config,
                       chaosMonkeySettings.assaultProperties.Value(), e)
    {
      var properties := chaosMonkeySettings.assaultProperties;
      var k := UpdateOrder[i];
      e := None;
      if KeyName(k) in config {
        var value := config[KeyName(k)];
        if IsIntKey(k) {
          var n := IntValue(KeyName(k), value);
          if n.Failure? {
            e := Some(n.error);
          } else {
            match k
            case Level => properties.level := n.value;
            case LatencyRangeStart => properties.latencyRangeStart := n.value;
            case LatencyRangeEnd => properties.latencyRangeEnd := n.value;
            case MemoryWait => properties.memoryMillisecondsWaitNextIncrease := n.value;
          }
        } else {
          var b := BoolValue(KeyName(k), value);
          if b.Failure? {
            e := Some(b.error);
          } else {
            match k
            case LatencyActive => properties.latencyActive := b.value;
            case ExceptionsActive => properties.exceptionsActive := b.value;
            case MemoryActive => properties.memoryActive := b.value;
          }
        }
      }
      ApplyKeysAdvance(old(properties.Value()), i, config, properties.Value(), e);
    }

    /** The exception block of `updateAssaults` (the sixth): the type comes
        from the request or the stored exception, the message from the
        request or ""; a null message fails on `isEmpty()` before anything
        is written. */
    method UpdateException(config: map<string, JsonValue>) returns (e: Option<UpdateError>)
      modifies chaosMonkeySettings.assaultProperties
      ensures Stepped(old(chaosMonkeySettings.assaultProperties.Value()), ExceptionSpec, config,
                      chaosMonkeySettings.assaultProperties.Value(), e)
      ensures Advanced(old(chaosMonkeySettings.assaultProperties.Value()), 5, config,
                       chaosMonkeySettings.assaultProperties.Value(), e)
    {
      var properties := chaosMonkeySettings.assaultProperties;
      e := None;
      if "exceptionType" in config || "exceptionMessage" in config {
        var exceptionType: Result<Option<string>, UpdateError> :=
          if "exceptionType" in config then StringValue("exceptionType", config["exceptionType"])
          else Success(if properties.exception.Some? then properties.exception.value.typeName else Some(""));
        var exceptionMessage: Result<Option<string>, UpdateError> :=
          if "exceptionMessage" in config then StringValue("exceptionMessage", config["exceptionMessage"])
          else Success(Some(""));
        if exceptionType.Failure? {
          e := Some(exceptionType.error);
        } else if exceptionMessage.Failure? {
          e := Some(exceptionMessage.error);
        } else if exceptionMessage.value.None? {
          e := Some(NullPointer("exceptionMessage"));
        } else {
          properties.exception :=
            Some(RebuildException(properties.exception, exceptionType.value, exceptionMessage.value.value));
        }
      }
      ApplyKeysAdvance(old(properties.Value()), 5, config, properties.Value(), e);
    }

    /** The first four blocks: level, latency flag, latency range start and end. */
    method UpdateLevelAndLatency(config: map<string, JsonValue>) returns (e: Option<UpdateError>)
      modifies chaosMonkeySettings.assaultProperties
      ensures Ran(old(chaosMonkeySettings.assaultProperties.Value()), 0, 4, config,
                  chaosMonkeySettings.assaultProperties.Value(), e)
    {
      var properties := chaosMonkeySettings.assaultProperties;
      ghost var before := properties.Value();
      e := UpdateField(0, config);
      RanStep(old(properties.Value()), 0, 0, config, before, properties.Value(), e);
      if e.Some? {
        return;
      }
      before := properties.Value();
      e := UpdateField(1, config);
      RanStep(old(properties.Value()), 0, 1, config, before, properties.Value(), e);
      if e.Some? {
        return;
      }
      before := properties.Value();
      e := UpdateField(2, config);
      RanStep(old(properties.Value()), 0, 2, config, before, properties.Value(), e);
      if e.Some? {
        return;
      }
      before := properties.Value();
      e := UpdateField(3, config);
      RanStep(old(properties.Value()), 0, 3, config, before, properties.Value(), e);
    }

    /** The last four blocks: exceptions flag, exception spec, memory flag and wait. */
    method UpdateExceptionAndMemory(config: map<string, JsonValue>) returns (e: Option<UpdateError>)
      modifies chaosMonkeySettings.assaultProperties
      ensures Ran(old(chaosMonkeySettings.assaultProperties.Value()), 4, 8, config,
                  chaosMonkeySettings.assaultProperties.Value(), e)
    {
      var properties := chaosMonkeySettings.assaultProperties;
      ghost var before := properties.Value();
      e := UpdateField(4, config);
      RanStep(old(properties.Value()), 4, 4, config, before, properties.Value(), e);
      if e.Some? {
        return;
      }
      before := properties.Value();
      e := UpdateException(config);
      RanStep(old(properties.Value()), 4, 5, config, before, properties.Value(), e);
      if e.Some? {
        return;
      }
      before := properties.Value();
      e := UpdateField(6, config);
      RanStep(old(properties.Value()), 4, 6, config, before, properties.Value(), e);
      if e.Some? {
        return;
      }
      before := properties.Value();
      e := UpdateField(7, config);
      RanStep(old(properties.Value()), 4, 7, config, before, properties.Value(), e);
    }

    /** The partial update, written group by group into the shared settings.
        The new settings are exactly `ApplyUpdate` of the old ones; a value of
        the wrong type ends the call with its exception, leaving the groups
        before it written. On success the response is the new view. */
    method UpdateAssaults(config: map<string, JsonValue>) returns (r: Result<AssaultsView, UpdateError>)
      modifies chaosMonkeySettings.assaultProperties
      ensures var u := ApplyUpdate(old(chaosMonkeySettings.assaultProperties.Value()), config);
        && chaosMonkeySettings.assaultProperties.Value() == u.assaults
        && (u.error.Some? ==> r == Failure(u.error.value))
        && (u.error.None? ==> r == Success(GetAssaultsConfig()))
    {
      var properties := chaosMonkeySettings.assaultProperties;
      var e := UpdateLevelAndLatency(config);
      if e.None? {
        ghost var middle := properties.Value();
        e := UpdateExceptionAndMemory(config);
        RanJoin(old(properties.Value()), 0, 4, 8, config, middle, properties.Value(), e);
      }
      assert UpdateOrder[0..] == UpdateOrder;
      assert UpdateOrder[8..] == [];
      if e.Some? {
        r := Failure(e.value);
        return;
      }
      r := Success(GetAssaultsConfig());
    }

    /** Sets the latency flag and range as given (an inverted range is
        accepted); nothing else changes. */
    method ConfigureLatencyAssaults(active: bool, from: int32, to: int32) returns (r: AssaultsView)
      modifies chaosMonkeySettings.assaultProperties
      ensures chaosMonkeySettings.assaultProperties.Value()
           == old(chaosMonkeySettings.assaultProperties.Value()).(
                latencyActive := active, latencyRangeStart := from, latencyRangeEnd := to)
      ensures r == GetAssaultsConfig()
      ensures r.latencyActive == active && r.latencyRangeStart == from && r.latencyRangeEnd == to
    {
      LatencyUpdate(chaosMonkeySettings.assaultProperties.Value(), active, from, to);
      var response := UpdateAssaults(LatencyRequest(active, from, to));
      r := response.value;
    }

    /** Sets the exception flag and a new exception spec of class
        `exceptionClass`. A non-empty message replaces the arguments, an
        empty one keeps them, so the reported message stays what it was. */
    method ConfigureExceptionAssaults(active: bool, exceptionClass: string, message: string) returns (r: AssaultsView)
      modifies chaosMonkeySettings.assaultProperties
      ensures chaosMonkeySettings.assaultProperties.Value()
           == old(chaosMonkeySettings.assaultProperties.Value()).(
                exceptionsActive := active,
                exception := Some(RebuildException(old(chaosMonkeySettings.assaultProperties.exception),
                                                   Some(exceptionClass), message)))
      ensures r == GetAssaultsConfig()
      ensures r.exceptionsActive == active && r.exceptionType == Some(exceptionClass)
      ensures r.exceptionMessage == if message != "" then Some(message) else old(GetAssaultsConfig()).exceptionMessage
    {
      var properties := chaosMonkeySettings.assaultProperties;
      properties.exceptionsActive := active;
      properties.exception := Some(RebuildException(properties.exception, Some(exceptionClass), message));
      r := GetAssaultsConfig();
    }

    /** Sets the memory flag and the wait between increases (the `long` cut to
        32 bits); `memoryMegabytes` is accepted and ignored. */
    method ConfigureMemoryAssaults(active: bool, memoryMegabytes: int32, millisWaitNextMemoryKill: int64)
      returns (r: AssaultsView)
      modifies chaosMonkeySettings.assaultProperties
      ensures chaosMonkeySettings.assaultProperties.Value()
           == old(chaosMonkeySettings.assaultProperties.Value()).(
                memoryActive := active,
                memoryMillisecondsWaitNextIncrease := Wrap32(millisWaitNextMemoryKill as int))
      ensures r == GetAssaultsConfig()
    {
      MemoryUpdate(chaosMonkeySettings.assaultProperties.Value(), active, millisWaitNextMemoryKill);
      var response := UpdateAssaults(MemoryRequest(active, millisWaitNextMemoryKill));
      r := response.value;
    }

    /** Sets the five watcher flags and echoes them. With no shared watcher
        object, a fresh one is written and dropped, so the answer reports
        flags that nothing else sees. */
    method ConfigureWatchers(controller: bool, restController: bool, service: bool,
                             repository: bool, component: bool)
      returns (r: WatchersResponse)
      modifies chaosMonkeySettings.watcherProperties
      ensures r == WatchersResponse("Observadores actualizados", controller, restController, service,
                                    repository, component)
      ensures chaosMonkeySettings.watcherProperties != null ==>
        var w := chaosMonkeySettings.watcherProperties;
        w.controller == controller && w.restController == restController && w.service == service
        && w.repository == repository && w.component == component
    {
      var watcherProperties := chaosMonkeySettings.watcherProperties;
      if watcherProperties == null {
        watcherProperties := new WatcherProperties();
      }
      watcherProperties.controller := controller;
      watcherProperties.restController := restController;
      watcherProperties.service := service;
      watcherProperties.repository := repository;
      watcherProperties.component := component;
      r := WatchersResponse("Observadores actualizados", watcherProperties.controller,
                            watcherProperties.restController, watcherProperties.service,
                            watcherProperties.repository, watcherProperties.component);
    }
  }
}
