# Gradle progress-logging formatter and JUnit fork options, in Dafny

This project models two small pieces of Gradle's sequential logic and proves
properties of them.

**Progress-logging-aware formatter** (module `ProgressLogging`,
`progress_logging.dfy`). The formatter consumes output events. A progress
start pushes a new operation, with an empty status, on a stack of pending
operations; a progress event rewrites the status of the front operation; a
completion pops the front operation and stamps it with its final status; a
log-level change turns debug layout on exactly when the new level is DEBUG;
every other event is laid out as text (prefixed with timestamp, level and
category in debug mode) and routed to the error callback when its level is
ERROR and to the info callback otherwise.

- The formatter is a class, `ProgressLoggingAwareFormatter`. Its fields are
  the stack of `Operation` objects, the debug flag and the trace of callback
  calls.
- `Operation` is a class whose `status` is assigned in place.
- The five abstract callbacks are methods that append to the trace. Each
  entry records the operation's description and status, or the message, as
  the callback received it.
- `OnOutput` is proved against the pure specification `Step`, on the value
  `State` (the stack as descriptions and statuses, plus the debug flag).
- `Run` folds `Step` over a sequence of events. The lemmas about `Run` give
  LIFO nesting and the one-event-one-callback correspondence.

**JUnit test framework instance** (module `JUnitFramework`,
`junit_framework.dfy`).

- `ApplyForkArguments` forwards each JUnit fork option to the options of the
  forked JVM only when it is present. Present means a non-empty jvm string, a
  non-null working dir, a non-empty max-memory string, a non-null and
  non-empty list of JVM arguments, or the new-environment flag set.
- The forked JVM's options are a class holding the trace of setter calls it
  receives. `ApplyForkArguments` is proved to produce exactly `ForkCalls` of
  the fork options.
- Lemmas state, per option, when its call happens and with which value. A
  further lemma states that the calls come in the fixed order executable,
  working dir, max heap, JVM arguments, environment.
- The worker configuration shares exactly `junit.framework` and then
  `org.junit`. `Report` does nothing when the test task's report flag is off.
- The instance holds a reference to its test task, a class whose settings may
  change; `Report` reads the flag and the directories when it is called.
- The options are unset (`None`) until `Initialize` or `SetOptions` sets
  them, as the Java field is null until then.

Java's `null` is `None` of an `Option`. Commons Lang's `StringUtils.isNotEmpty`
is defined as "not null and length above zero" (`IsNotEmpty`).

## Model

| member | source | states |
|---|---|---|
| `ProgressLogging.StepEffects` | subprojects/gradle-core/src/main/groovy/org/gradle/logging/internal/AbstractProgressLoggingAwareFormatter.java:34-65 | Start: one new operation `(description, "")` in front, rest of the stack unchanged, one `Started` call. Progress (non-empty stack): only the front status changes, one `StatusChanged` call. Complete (non-empty stack): the front is removed, the tail is the new stack, and one `Completed` call reports it with the event's status. Log-level change: stack untouched, debug on iff the level is DEBUG, no call. Renderable: state unchanged, one call, to the error sink iff the level is ERROR, carrying the laid-out message |
| `ProgressLogging.LayoutShape` | subprojects/gradle-core/src/main/groovy/org/gradle/logging/internal/AbstractProgressLoggingAwareFormatter.java:71-85 | The message always ends with the rendered body. Without debug output it is just the body. With debug output the body is preceded by timestamp, `" ["`, level name, `"] ["`, category, `"] "` |
| `ProgressLogging.Route` | subprojects/gradle-core/src/main/groovy/org/gradle/logging/internal/AbstractProgressLoggingAwareFormatter.java:60-64 | The message goes to the error callback iff the level is ERROR, otherwise to the info callback, unchanged |
| `ProgressLogging.RunCallsAnswerEvents` | subprojects/gradle-core/src/main/groovy/org/gradle/logging/internal/AbstractProgressLoggingAwareFormatter.java:34-65 | Over any feasible event sequence, every event except a log-level change triggers exactly one callback, of the matching kind, in event order; a log-level change triggers none |
| `ProgressLogging.NestedRunKeepsBase` | subprojects/gradle-core/src/main/groovy/org/gradle/logging/internal/AbstractProgressLoggingAwareFormatter.java:36-54 | Events that never complete more operations than are open above a stack position leave everything below it untouched, keep the description of the operation at it, and never meet an empty stack |
| `ProgressLogging.StartThenCompleteRestores` | subprojects/gradle-core/src/main/groovy/org/gradle/logging/internal/AbstractProgressLoggingAwareFormatter.java:36-54 | LIFO: a start, any balanced events, then a completion restore the stack to its prior contents. The first call reports the started operation with empty status; the last reports the same operation with the completion's status |
| `ProgressLogging.LevelChangeGovernsLayout` | subprojects/gradle-core/src/main/groovy/org/gradle/logging/internal/AbstractProgressLoggingAwareFormatter.java:55-81 | After a change to DEBUG the next message carries the debug prefix; after a change to any other level it is the bare rendered body |
| `ProgressLogging.Operation.constructor` | subprojects/gradle-core/src/main/groovy/org/gradle/logging/internal/AbstractProgressLoggingAwareFormatter.java:38-40 | A new operation has the event's description and status `""` |
| `ProgressLogging.ProgressLoggingAwareFormatter.constructor` | subprojects/gradle-core/src/main/groovy/org/gradle/logging/internal/AbstractProgressLoggingAwareFormatter.java:31-32 | A new formatter has no pending operations and debug output off |
| `ProgressLogging.ProgressLoggingAwareFormatter.OnStart` | subprojects/gradle-core/src/main/groovy/org/gradle/logging/internal/AbstractProgressLoggingAwareFormatter.java:87 | Records one start call with the operation as it is now, and changes nothing else |
| `ProgressLogging.ProgressLoggingAwareFormatter.OnStatusChange` | subprojects/gradle-core/src/main/groovy/org/gradle/logging/internal/AbstractProgressLoggingAwareFormatter.java:89 | Records one status-change call with the operation as it is now, and changes nothing else |
| `ProgressLogging.ProgressLoggingAwareFormatter.OnComplete` | subprojects/gradle-core/src/main/groovy/org/gradle/logging/internal/AbstractProgressLoggingAwareFormatter.java:91 | Records one completion call with the operation as it is now, and changes nothing else |
| `ProgressLogging.ProgressLoggingAwareFormatter.OnInfoMessage` | subprojects/gradle-core/src/main/groovy/org/gradle/logging/internal/AbstractProgressLoggingAwareFormatter.java:93 | Records one info-message call, and changes nothing else |
| `ProgressLogging.ProgressLoggingAwareFormatter.OnErrorMessage` | subprojects/gradle-core/src/main/groovy/org/gradle/logging/internal/AbstractProgressLoggingAwareFormatter.java:95 | Records one error-message call, and changes nothing else |
| `ProgressLogging.ProgressLoggingAwareFormatter.DoLayout` | subprojects/gradle-core/src/main/groovy/org/gradle/logging/internal/AbstractProgressLoggingAwareFormatter.java:71-85 | The text built piece by piece is `Layout` of the current debug flag and the event |
| `ProgressLogging.StepAnswers` | subprojects/gradle-core/src/main/groovy/org/gradle/logging/internal/AbstractProgressLoggingAwareFormatter.java:36-65 | One step answers a log-level change with no callback and every other event with exactly one callback of the matching kind |
| `ProgressLogging.ProgressLoggingAwareFormatter.OnProgressStart` | subprojects/gradle-core/src/main/groovy/org/gradle/logging/internal/AbstractProgressLoggingAwareFormatter.java:36-42 | A fresh operation object goes in front of the unchanged stack of objects, with the event's description and empty status, and one start call reports it; the abstract state moves as `Step` says |
| `ProgressLogging.ProgressLoggingAwareFormatter.OnProgress` | subprojects/gradle-core/src/main/groovy/org/gradle/logging/internal/AbstractProgressLoggingAwareFormatter.java:43-48 | On a non-empty stack the stack of objects stays the same and only the front operation's status changes, in place, and one status-change call reports it; the abstract state moves as `Step` says |
| `ProgressLogging.ProgressLoggingAwareFormatter.OnProgressComplete` | subprojects/gradle-core/src/main/groovy/org/gradle/logging/internal/AbstractProgressLoggingAwareFormatter.java:49-54 | On a non-empty stack the front operation object is removed, leaving the tail of the old stack of objects; it takes the event's status, and one completion call reports it; the abstract state moves as `Step` says |
| `ProgressLogging.ProgressLoggingAwareFormatter.OnRenderable` | subprojects/gradle-core/src/main/groovy/org/gradle/logging/internal/AbstractProgressLoggingAwareFormatter.java:57-64 | The laid-out message goes to the error callback iff the level is ERROR, else to the info callback; no other state changes |
| `ProgressLogging.ProgressLoggingAwareFormatter.OnOutput` | subprojects/gradle-core/src/main/groovy/org/gradle/logging/internal/AbstractProgressLoggingAwareFormatter.java:34-69 | Needs a non-empty stack for progress and completion events. Keeps the pending operations distinct objects. A start pushes a fresh object; a completion pops the front object, which keeps its description and takes the event's status; any other event keeps the same objects. The new stack, debug flag and appended callbacks are exactly those of `Step` |
| `ProgressLogging.Feed` | subprojects/gradle-core/src/main/groovy/org/gradle/logging/internal/AbstractProgressLoggingAwareFormatter.java:34-69 | Handing events to `onOutput` one after another leaves the formatter in the state, and with the callbacks, that `Run` gives, so the lemmas about `Run` hold of the formatter object; every pending operation afterwards was pending before or is new, so the caller can go on handing it events; and below every nesting level the events never go under, the stack holds the very same operation objects as before (`KeepsBelow`) |
| `ProgressLogging.StartThenCompleteKeepsObjects` | subprojects/gradle-core/src/main/groovy/org/gradle/logging/internal/AbstractProgressLoggingAwareFormatter.java:36-54 | Object-level LIFO: after a start, balanced events and a completion handed to the formatter, its stack holds exactly the operation objects it held before, since the start pushes and the completion pops the same object |
| `JUnitFramework.ForkCalls` | subprojects/gradle-plugins/src/main/groovy/org/gradle/external/junit/JUnitTestFrameworkInstance.java:101-131 | Forwarding the fork options makes at most five setter calls |
| `JUnitFramework.ForkCallsMembers` | subprojects/gradle-plugins/src/main/groovy/org/gradle/external/junit/JUnitTestFrameworkInstance.java:101-131 | A forwarded call comes from one of the five guarded blocks and from nothing else |
| `JUnitFramework.ForkCallsInFixedOrder` | subprojects/gradle-plugins/src/main/groovy/org/gradle/external/junit/JUnitTestFrameworkInstance.java:101-131 | The calls come in the order executable, working dir, max heap, JVM arguments, environment, so each kind happens at most once |
| `JUnitFramework.ForwardsJvm` | subprojects/gradle-plugins/src/main/groovy/org/gradle/external/junit/JUnitTestFrameworkInstance.java:104-106 | `executable` is called iff the jvm is not null and not empty, and with that jvm |
| `JUnitFramework.ForwardsDir` | subprojects/gradle-plugins/src/main/groovy/org/gradle/external/junit/JUnitTestFrameworkInstance.java:108-110 | `workingDir` is called iff the dir is not null, and with that dir |
| `JUnitFramework.ForwardsMaxMemory` | subprojects/gradle-plugins/src/main/groovy/org/gradle/external/junit/JUnitTestFrameworkInstance.java:112-114 | `setMaxHeapSize` is called iff the max memory is not null and not empty, and with it |
| `JUnitFramework.ForwardsJvmArgs` | subprojects/gradle-plugins/src/main/groovy/org/gradle/external/junit/JUnitTestFrameworkInstance.java:116-119 | `jvmArgs` is called iff the list is not null and not empty, and with that list |
| `JUnitFramework.ForwardsEnvironment` | subprojects/gradle-plugins/src/main/groovy/org/gradle/external/junit/JUnitTestFrameworkInstance.java:121-124 | `setEnvironment` is called iff a new environment is asked for, and with the fork options' environment |
| `JUnitFramework.JavaForkOptions.Executable` | subprojects/gradle-plugins/src/main/groovy/org/gradle/external/junit/JUnitTestFrameworkInstance.java:105 | The target records one `executable` call |
| `JUnitFramework.JavaForkOptions.WorkingDir` | subprojects/gradle-plugins/src/main/groovy/org/gradle/external/junit/JUnitTestFrameworkInstance.java:109 | The target records one `workingDir` call |
| `JUnitFramework.JavaForkOptions.SetMaxHeapSize` | subprojects/gradle-plugins/src/main/groovy/org/gradle/external/junit/JUnitTestFrameworkInstance.java:113 | The target records one `setMaxHeapSize` call |
| `JUnitFramework.JavaForkOptions.JvmArgs` | subprojects/gradle-plugins/src/main/groovy/org/gradle/external/junit/JUnitTestFrameworkInstance.java:118 | The target records one `jvmArgs` call |
| `JUnitFramework.JavaForkOptions.SetEnvironment` | subprojects/gradle-plugins/src/main/groovy/org/gradle/external/junit/JUnitTestFrameworkInstance.java:123 | The target records one `setEnvironment` call |
| `JUnitFramework.JUnitTestFrameworkInstance.ApplyForkArguments` | subprojects/gradle-plugins/src/main/groovy/org/gradle/external/junit/JUnitTestFrameworkInstance.java:101-131 | Once options are set (line 102 dereferences them), the target receives exactly the calls `ForkCalls` of the fork options, appended to those it had; nothing else changes |
| `JUnitFramework.WorkerProcessBuilder.SharedPackage` | subprojects/gradle-plugins/src/main/groovy/org/gradle/external/junit/JUnitTestFrameworkInstance.java:67-68 | The builder records one shared package |
| `JUnitFramework.JUnitTestFrameworkInstance.ConfigureWorker` | subprojects/gradle-plugins/src/main/groovy/org/gradle/external/junit/JUnitTestFrameworkInstance.java:64-71 | The worker configuration shares exactly `junit.framework` and then `org.junit` |
| `JUnitFramework.JUnitTestFrameworkInstance.Report` | subprojects/gradle-plugins/src/main/groovy/org/gradle/external/junit/JUnitTestFrameworkInstance.java:73-79 | Needs the Ant report to be built when the flag is on (line 77 dereferences it). Reading the test task's current settings: with the test-report flag off nothing happens; with it on, one report run from the results dir to the report dir |
| `JUnitFramework.JUnitTestFrameworkInstance.SetOptions` | subprojects/gradle-plugins/src/main/groovy/org/gradle/external/junit/JUnitTestFrameworkInstance.java:85-87 | Replaces the options; `null` (`None`) unsets them again |
| `JUnitFramework.JUnitTestFrameworkInstance.Initialize` | subprojects/gradle-plugins/src/main/groovy/org/gradle/external/junit/JUnitTestFrameworkInstance.java:49-54 | The Ant report is built, and the options become those of a fresh `JUnitOptions` with the fork directory set to the project directory, so forwarding them then includes a `workingDir` call with the project directory |
| `JUnitFramework.JUnitTestFrameworkInstance.constructor` | subprojects/gradle-plugins/src/main/groovy/org/gradle/external/junit/JUnitTestFrameworkInstance.java:44-46 | The instance keeps a reference to its test task, has no options yet (null until `initialize` or `setOptions`), has no Ant report yet (null until `initialize`) and has run no report |

## Left out

- Time formatting: the date formatting of the timestamp is not modelled. A renderable event carries its timestamp already formatted, as opaque text.
- Rendering: `event.render(writer)` is not modelled. The event carries its rendered text as an opaque string.
- Writer styles: the style markers written by `doLayout` carry no text and are not modelled.
- `IOException` from a callback, and its rewrapping as `UncheckedIOException`, are not modelled. The callbacks here cannot fail.
- A progress or completion event on an empty stack is excluded by a precondition, as the source's assertions do. With assertions disabled the Java code would throw from `getFirst` or `removeFirst`; that behaviour is not modelled.
- Events of a kind other than the five modelled ones are not modelled. The Java cast to `RenderableOutputEvent` would fail on them.
- Aliasing through callbacks: the trace records what each callback received at the moment of the call. A concrete subclass that keeps an `Operation` reference sees later in-place status changes; that is not modelled.
- The console output of the concrete callbacks is not modelled. It lives in subclasses outside this model.
- The `EOL` constant is not modelled. It is unused by the modelled code.
- `LogLevel`: its source file is not part of this model. The levels and their names are Gradle's enum constants DEBUG, INFO, LIFECYCLE, WARN, QUIET and ERROR.
- `JunitForkOptions` and `JavaForkOptions`: their source files are not part of this model. Only the getters and setters `applyForkArguments` uses are modelled. The environment is taken to be a map, never null.
- `initialize` is modelled as `Initialize` for the options and for the presence of the Ant report: it builds fresh `JUnitOptions` (whose defaults come from `JUnitOptions`, not part of this model, and are a parameter) and sets the fork directory to the project directory, which is why `workingDir` is normally forwarded. The Ant report is modelled only by whether it exists; the detector it also builds is not modelled.
- Not modelled: `getProcessorFactory` and `TestClassProcessorFactoryImpl` (object construction).
- Not modelled: `JUnitDetector`, the getters `getOptions`, `getAntJUnitReport` and `getDetector`, and the setter `setAntJUnitReport` (plain field access).
- `ApplyForkArguments`: the JVM-argument list and the environment map are passed by value. The source hands the fork options' own list and map to `jvmArgs` and `setEnvironment` by reference (its `// TODO clone` at line 126 notes this), so later changes through either side are shared; that aliasing is not modelled.
- `ApplyForkArguments`: the `NullPointerException` of calling it before the options are set is not modelled; a precondition requires the options to be set.
- `Report`: the `NullPointerException` of calling it with the report flag on before the Ant report is built is not modelled; a precondition requires the report to exist in that case. `setAntJUnitReport` is not modelled, so only `Initialize` builds the report.
- `Report`: the Ant report task itself is not modelled. Its execution is recorded as a call with the results and report directories; the Ant project argument is dropped.
- `getWorkerConfigurationAction` returns an action object. The model has the action's `execute` as the method `ConfigureWorker`.
- Not modelled: `NativeBinariesTestPlugin.java`, `MicrosoftVisualCppPlugin.java` and `TaskInputsDependency.java`. They only wire framework objects together or forward to code that is not part of this model.
