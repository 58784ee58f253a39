/** A model of the JUnit test framework instance of Gradle's test task
    (org.gradle.external.junit.JUnitTestFrameworkInstance): how the JUnit fork
    options are forwarded to the options of a forked JVM, which packages a test
    worker process shares with the build, and when the test report is produced.

    Java's `null` is modelled as `None`. The objects the instance talks to (the
    forked JVM's options, the worker process builder, the Ant report) are
    modelled as traces of the calls they receive. */
module JUnitFramework {

  datatype Option<T> = None | Some(value: T)

  type Path = string

  /** Commons Lang's `StringUtils.isNotEmpty`: not null and not "". */
  predicate IsNotEmpty(s: Option<string>)
  {
    s.Some? && |s.value| > 0
  }

  /** The JUnit fork options that `applyForkArguments` reads. */
  datatype JunitForkOptions = JunitForkOptions(
    jvm: Option<string>,
    dir: Option<Path>,
    maxMemory: Option<string>,
    jvmArgs: Option<seq<string>>,
    newEnvironment: bool,
    environment: map<string, string>)

  datatype JUnitOptions = JUnitOptions(forkOptions: JunitForkOptions)


  /** One setter call on the forked JVM's options. */
  datatype ForkCall =
    | Executable(jvm: string)
    | WorkingDir(dir: Path)
    | SetMaxHeapSize(maxMemory: string)
    | JvmArgs(args: seq<string>)
    | SetEnvironment(environment: map<string, string>)

  /** The position of each kind of call in the fixed order of `applyForkArguments`. */
  function Rank(c: ForkCall): nat
  {
    match c
    case Executable(_) => 0
    case WorkingDir(_) => 1
    case SetMaxHeapSize(_) => 2
    case JvmArgs(_) => 3
    case SetEnvironment(_) => 4
  }

  /** The setter calls that forwarding `o` issues, in order: one block per
      option, each empty unless the option is present. */
  function ForkCalls(o: JunitForkOptions): (r: seq<ForkCall>)
    ensures |r| <= 5
  {
    ExecutableCall(o) + WorkingDirCall(o) + MaxHeapCall(o) + JvmArgsCall(o) + EnvironmentCall(o)
  }

  function ExecutableCall(o: JunitForkOptions): (r: seq<ForkCall>)
    ensures |r| <= 1 && (r != [] <==> IsNotEmpty(o.jvm))
    ensures forall c :: c in r ==> Rank(c) == 0 && o.jvm == Some(c.jvm)
  {
    if IsNotEmpty(o.jvm) then [Executable(o.jvm.value)] else []
  }

  function WorkingDirCall(o: JunitForkOptions): (r: seq<ForkCall>)
    ensures |r| <= 1 && (r != [] <==> o.dir.Some?)
    ensures forall c :: c in r ==> Rank(c) == 1 && o.dir == Some(c.dir)
  {
    if o.dir.Some? then [WorkingDir(o.dir.value)] else []
  }

  function MaxHeapCall(o: JunitForkOptions): (r: seq<ForkCall>)
    ensures |r| <= 1 && (r != [] <==> IsNotEmpty(o.maxMemory))
    ensures forall c :: c in r ==> Rank(c) == 2 && o.maxMemory == Some(c.maxMemory)
  {
    if IsNotEmpty(o.maxMemory) then [SetMaxHeapSize(o.maxMemory.value)] else []
  }

  function JvmArgsCall(o: JunitForkOptions): (r: seq<ForkCall>)
    ensures |r| <= 1 && (r != [] <==> o.jvmArgs.Some? && o.jvmArgs.value != [])
    ensures forall c :: c in r ==> Rank(c) == 3 && o.jvmArgs == Some(c.args)
  {
    if o.jvmArgs.Some? && o.jvmArgs.value != [] then [JvmArgs(o.jvmArgs.value)] else []
  }

  function EnvironmentCall(o: JunitForkOptions): (r: seq<ForkCall>)
    ensures |r| <= 1 && (r != [] <==> o.newEnvironment)
    ensures forall c :: c in r ==> Rank(c) == 4 && c.environment == o.environment
  {
    if o.newEnvironment then [SetEnvironment(o.environment)] else []
  }

  /** Every call in `calls` is of a kind of rank below `k`. */
  predicate RanksBelow(calls: seq<ForkCall>, k: nat)
  {
    forall i :: 0 <= i < |calls| ==> Rank(calls[i]) < k
  }

  /** Each kind of call comes at most once, and in the fixed order executable,
      working dir, max heap, JVM arguments, environment. */
  predicate InFixedOrder(calls: seq<ForkCall>)
  {
    forall i, j :: 0 <= i < j < |calls| ==> Rank(calls[i]) < Rank(calls[j])
  }

  lemma AppendKeepsOrder(calls: seq<ForkCall>, next: seq<ForkCall>, k: nat)
    requires InFixedOrder(calls) && RanksBelow(calls, k)
    requires |next| <= 1 && forall c :: c in next ==> Rank(c) == k
    ensures InFixedOrder(calls + next) && RanksBelow(calls + next, k + 1)
  {
    if next != [] {
      assert next[0] in next;
    }
  }

  /** The calls of `ForkCalls` come in the fixed order, so no kind of call is
      made twice. */
  lemma ForkCallsInFixedOrder(o: JunitForkOptions)
    ensures InFixedOrder(ForkCalls(o))
  {
    var a := ExecutableCall(o);
    var b := a + WorkingDirCall(o);
    var c := b + MaxHeapCall(o);
    var d := c + JvmArgsCall(o);
    AppendKeepsOrder([], a, 0);
    AppendKeepsOrder(a, WorkingDirCall(o), 1);
    AppendKeepsOrder(b, MaxHeapCall(o), 2);
    AppendKeepsOrder(c, JvmArgsCall(o), 3);
    AppendKeepsOrder(d, EnvironmentCall(o), 4);
  }

  /** A call is in `ForkCalls(o)` exactly when it is in one of the five blocks. */
  lemma ForkCallsMembers(o: JunitForkOptions, c: ForkCall)
    ensures c in ForkCalls(o) <==>
      c in ExecutableCall(o) || c in WorkingDirCall(o) || c in MaxHeapCall(o) ||
      c in JvmArgsCall(o) || c in EnvironmentCall(o)
  {
    var a := ExecutableCall(o);
    var b := a + WorkingDirCall(o);
    var d := b + MaxHeapCall(o);
    var e := d + JvmArgsCall(o);
    assert ForkCalls(o) == e + EnvironmentCall(o);
    assert c in e <==> c in d || c in JvmArgsCall(o);
    assert c in d <==> c in b || c in MaxHeapCall(o);
  }

  /** The executable is set exactly when the jvm is not empty, to the jvm. */
  lemma ForwardsJvm(o: JunitForkOptions)
    ensures (exists c :: c in ForkCalls(o) && c.Executable?) <==> IsNotEmpty(o.jvm)
    ensures forall c :: c in ForkCalls(o) && c.Executable? ==> o.jvm == Some(c.jvm)
  {
    forall c | c in ForkCalls(o) && c.Executable? ensures c in ExecutableCall(o) {
      ForkCallsMembers(o, c);
    }
    if IsNotEmpty(o.jvm) {
      ForkCallsMembers(o, ExecutableCall(o)[0]);
    }
  }

  /** The working dir is set exactly when the dir is not null, to the dir. */
  lemma ForwardsDir(o: JunitForkOptions)
    ensures (exists c :: c in ForkCalls(o) && c.WorkingDir?) <==> o.dir.Some?
    ensures forall c :: c in ForkCalls(o) && c.WorkingDir? ==> o.dir == Some(c.dir)
  {
    forall c | c in ForkCalls(o) && c.WorkingDir? ensures c in WorkingDirCall(o) {
      ForkCallsMembers(o, c);
    }
    if o.dir.Some? {
      ForkCallsMembers(o, WorkingDirCall(o)[0]);
    }
  }

  /** The max heap size is set exactly when the max memory is not empty, to it. */
  lemma ForwardsMaxMemory(o: JunitForkOptions)
    ensures (exists c :: c in ForkCalls(o) && c.SetMaxHeapSize?) <==> IsNotEmpty(o.maxMemory)
    ensures forall c :: c in ForkCalls(o) && c.SetMaxHeapSize? ==> o.maxMemory == Some(c.maxMemory)
  {
    forall c | c in ForkCalls(o) && c.SetMaxHeapSize? ensures c in MaxHeapCall(o) {
      ForkCallsMembers(o, c);
    }
    if IsNotEmpty(o.maxMemory) {
      ForkCallsMembers(o, MaxHeapCall(o)[0]);
    }
  }

  /** The JVM arguments are passed exactly when the list is not null and not
      empty, as that list. */
  lemma ForwardsJvmArgs(o: JunitForkOptions)
    ensures (exists c :: c in ForkCalls(o) && c.JvmArgs?) <==> o.jvmArgs.Some? && o.jvmArgs.value != []
    ensures forall c :: c in ForkCalls(o) && c.JvmArgs? ==> o.jvmArgs == Some(c.args)
  {
    forall c | c in ForkCalls(o) && c.JvmArgs? ensures c in JvmArgsCall(o) {
      ForkCallsMembers(o, c);
    }
    if o.jvmArgs.Some? && o.jvmArgs.value != [] {
      ForkCallsMembers(o, JvmArgsCall(o)[0]);
    }
  }

  /** The environment is set exactly when a new environment is asked for, to
      the fork options' environment. */
  lemma ForwardsEnvironment(o: JunitForkOptions)
    ensures (exists c :: c in ForkCalls(o) && c.SetEnvironment?) <==> o.newEnvironment
    ensures forall c :: c in ForkCalls(o) && c.SetEnvironment? ==> c.environment == o.environment
  {
    forall c | c in ForkCalls(o) && c.SetEnvironment? ensures c in EnvironmentCall(o) {
      ForkCallsMembers(o, c);
    }
    if o.newEnvironment {
      ForkCallsMembers(o, EnvironmentCall(o)[0]);
    }
  }

  /** Bookkeeping for `ApplyForkArguments`: a trace that is `before` followed by
      the calls sent so far and then by one more block. */
  lemma Sent(calls: seq<ForkCall>, before: seq<ForkCall>, sent: seq<ForkCall>, block: seq<ForkCall>)
    requires calls == before + sent + block
    ensures calls == before + (sent + block)
  {
  }

  /** The packages a JUnit test worker shares with the build process, in the
      order they are declared. */
  const SharedPackages: seq<string> := ["junit.framework", "org.junit"]

  /** A call of the Ant JUnit report task. */
  datatype ReportRun = ReportRun(testResultsDir: Path, testReportDir: Path)

  /** The owning test task, with the settings the instance consults. The
      instance holds a reference to it and reads the settings when it needs
      them, so later changes to the task are seen. */
  class TestTask {
    var testReport: bool
    var testResultsDir: Path
    var testReportDir: Path
    /** The directory of the task's project. */
    const projectDir: Path

    constructor (testReport: bool, testResultsDir: Path, testReportDir: Path, projectDir: Path)
      ensures this.testReport == testReport && this.testResultsDir == testResultsDir
      ensures this.testReportDir == testReportDir && this.projectDir == projectDir
    {
      this.testReport := testReport;
      this.testResultsDir := testResultsDir;
      this.testReportDir := testReportDir;
      this.projectDir := projectDir;
    }
  }

  /** The options of a forked JVM, as the trace of setter calls they receive. */
  class JavaForkOptions {
    var calls: seq<ForkCall>

    constructor ()
      ensures calls == []
    {
      calls := [];
    }

    method Executable(jvm: string)
      modifies this
      ensures calls == old(calls) + [ForkCall.Executable(jvm)]
    {
      calls := calls + [ForkCall.Executable(jvm)];
    }

    method WorkingDir(dir: Path)
      modifies this
      ensures calls == old(calls) + [ForkCall.WorkingDir(dir)]
    {
      calls := calls + [ForkCall.WorkingDir(dir)];
    }

    method SetMaxHeapSize(maxMemory: string)
      modifies this
      ensures calls == old(calls) + [ForkCall.SetMaxHeapSize(maxMemory)]
    {
      calls := calls + [ForkCall.SetMaxHeapSize(maxMemory)];
    }

    method JvmArgs(args: seq<string>)
      modifies this
      ensures calls == old(calls) + [ForkCall.JvmArgs(args)]
    {
      calls := calls + [ForkCall.JvmArgs(args)];
    }

    method SetEnvironment(environment: map<string, string>)
      modifies this
      ensures calls == old(calls) + [ForkCall.SetEnvironment(environment)]
    {
      calls := calls + [ForkCall.SetEnvironment(environment)];
    }
  }

  /** The builder of a worker process, as the trace of packages it is asked to share. */
  class WorkerProcessBuilder {
    var sharedPackageCalls: seq<string>

    constructor ()
      ensures sharedPackageCalls == []
    {
      sharedPackageCalls := [];
    }

    method SharedPackage(name: string)
      modifies this
      ensures sharedPackageCalls == old(sharedPackageCalls) + [name]
    {
      sharedPackageCalls := sharedPackageCalls + [name];
    }
  }

  class JUnitTestFrameworkInstance {
    const testTask: TestTask
    /** `None` until `Initialize` or `SetOptions` sets it. */
    var options: Option<JUnitOptions>
    /** The calls of the Ant report task made so far. */
    var reportRuns: seq<ReportRun>
    /** Whether the Ant report task has been built; the Java field is null until then. */
    var hasAntJUnitReport: bool

    constructor (testTask: TestTask)
      ensures this.testTask == testTask && options == None && reportRuns == []
      ensures !hasAntJUnitReport
    {
      this.testTask := testTask;
      options := None;
      reportRuns := [];
      hasAntJUnitReport := false;
    }

    /** Builds the Ant report task and sets up the options: `defaults` are the
        options of a freshly built `JUnitOptions`, whose fork directory becomes
        the project directory. */
    method Initialize(defaults: JUnitOptions)
      modifies this`options, this`hasAntJUnitReport
      ensures hasAntJUnitReport
      ensures options == Some(JUnitOptions(defaults.forkOptions.(dir := Some(testTask.projectDir))))
      ensures ForkCall.WorkingDir(testTask.projectDir) in ForkCalls(options.value.forkOptions)
    {
      hasAntJUnitReport := true;
      var forkOptions := defaults.forkOptions;
      forkOptions := forkOptions.(dir := Some(testTask.projectDir));
      options := Some(JUnitOptions(forkOptions));
      assert WorkingDirCall(forkOptions) == [ForkCall.WorkingDir(testTask.projectDir)];
    }

    /** Replaces the options; `None` stands for Java's `null`, which unsets them. */
    method SetOptions(options: Option<JUnitOptions>)
      modifies this`options
      ensures this.options == options
    {
      this.options := options;
    }

    /** The worker configuration action: shares the JUnit packages, and nothing
        else, with the worker process. */
    method ConfigureWorker(builder: WorkerProcessBuilder)
      modifies builder
      ensures builder.sharedPackageCalls == old(builder.sharedPackageCalls) + SharedPackages
    {
      builder.SharedPackage("junit.framework");
      builder.SharedPackage("org.junit");
    }

    /** Produces the test report, unless the test task has reports switched off. */
    method Report()
      requires testTask.testReport ==> hasAntJUnitReport
      modifies this`reportRuns
      ensures !testTask.testReport ==> reportRuns == old(reportRuns)
      ensures testTask.testReport ==>
        reportRuns == old(reportRuns) + [ReportRun(testTask.testResultsDir, testTask.testReportDir)]
    {
      if !testTask.testReport {
        return;
      }
      reportRuns := reportRuns + [ReportRun(testTask.testResultsDir, testTask.testReportDir)];
    }

    /** Forwards the present JUnit fork options to `javaForkOptions`; the calls
        it receives are exactly `ForkCalls` of the fork options. */
    method ApplyForkArguments(javaForkOptions: JavaForkOptions)
      requires options.Some?
      modifies javaForkOptions
      ensures javaForkOptions.calls == old(javaForkOptions.calls) + ForkCalls(options.value.forkOptions)
    {
      var forkOptions := options.value.forkOptions;
      ghost var before := javaForkOptions.calls;

      if IsNotEmpty(forkOptions.jvm) {
        javaForkOptions.Executable(forkOptions.jvm.value);
      }
      ghost var sent := ExecutableCall(forkOptions);
      assert javaForkOptions.calls == before + sent;

      if forkOptions.dir.Some? {
        javaForkOptions.WorkingDir(forkOptions.dir.value);
      }
      Sent(javaForkOptions.calls, before, sent, WorkingDirCall(forkOptions));
      sent := sent + WorkingDirCall(forkOptions);

      if IsNotEmpty(forkOptions.maxMemory) {
        javaForkOptions.SetMaxHeapSize(forkOptions.maxMemory.value);
      }
      Sent(javaForkOptions.calls, before, sent, MaxHeapCall(forkOptions));
      sent := sent + MaxHeapCall(forkOptions);

      var jvmArgs := forkOptions.jvmArgs;
      if jvmArgs.Some? && jvmArgs.value != [] {
        javaForkOptions.JvmArgs(jvmArgs.value);
      }
      Sent(javaForkOptions.calls, before, sent, JvmArgsCall(forkOptions));
      sent := sent + JvmArgsCall(forkOptions);

      if forkOptions.newEnvironment {
        javaForkOptions.SetEnvironment(forkOptions.environment);
      }
      Sent(javaForkOptions.calls, before, sent, EnvironmentCall(forkOptions));
    }
  }
}
