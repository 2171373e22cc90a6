/** The bean definitions that give the fault injector its starting settings. */
module ChaosMonkeyConfiguration {
  import opened Common
  import opened ChaosMonkey

  /** The argument the default exception assault is thrown with. */
  const SimulatedArgument: ExceptionArgument :=
    ExceptionArgument(Some("java.lang.RuntimeException"), Some("Simulated exception"))

  /** The assault defaults: level 3, deterministic, latency of 1000 to 3000 ms,
      exceptions on, memory on with a 15000 ms wait, and the library's
      exception spec given the one simulated argument. Every field the bean
      does not set keeps the library default (`libraryException` is the
      library's initial exception spec). */
  method AssaultPropertiesBean(libraryException: AssaultException) returns (properties: AssaultProperties)
    ensures fresh(properties)
    ensures properties.level == 3 && properties.deterministic
    ensures properties.latencyActive && properties.latencyRangeStart == 1000 && properties.latencyRangeEnd == 3000
    ensures properties.exceptionsActive
    ensures properties.memoryActive && properties.memoryMillisecondsWaitNextIncrease == 15000
    ensures properties.exception == Some(libraryException.(arguments := Some([SimulatedArgument])))
    ensures View(properties.Value()).exceptionMessage == Some("Simulated exception")
    ensures View(properties.Value()).exceptionType == libraryException.typeName
  {
    properties := new AssaultProperties(libraryException);
    properties.level := 3;
    properties.deterministic := true;
    properties.latencyActive := true;
    properties.latencyRangeStart := 1000;
    properties.latencyRangeEnd := 3000;
    properties.exceptionsActive := true;
    properties.memoryActive := true;
    properties.memoryMillisecondsWaitNextIncrease := 15000;
    properties.exception := Some(properties.exception.value.(arguments := Some([SimulatedArgument])));
  }

  /** Every layer watched. */
  method WatcherPropertiesBean() returns (properties: WatcherProperties)
    ensures fresh(properties)
    ensures properties.controller && properties.restController && properties.service
    ensures properties.repository && properties.component
  {
    properties := new WatcherProperties();
    properties.controller := true;
    properties.restController := true;
    properties.service := true;
    properties.repository := true;
    properties.component := true;
  }

  /** The settings bundle shares the three property objects by reference, so
      a write through the control panel is a write the injector sees. */
  method ChaosMonkeySettingsBean(chaosMonkeyProperties: ChaosMonkeyProperties,
                                 assaultProperties: AssaultProperties,
                                 watcherProperties: WatcherProperties)
    returns (settings: ChaosMonkeySettings)
    ensures fresh(settings)
    ensures settings.chaosMonkeyProperties == chaosMonkeyProperties
    ensures settings.assaultProperties == assaultProperties
    ensures settings.watcherProperties == watcherProperties
  {
    settings := new ChaosMonkeySettings(chaosMonkeyProperties, assaultProperties, watcherProperties);
  }
}
