/** A model of Gradle's progress-logging-aware output formatter
    (org.gradle.logging.internal.AbstractProgressLoggingAwareFormatter).

    The formatter receives output events one at a time. Progress events drive a
    stack of pending operations (the most recently started one in front); a
    log-level change switches the debug layout on or off; every other event is
    laid out as text and handed to the error sink or the info sink.

    The five abstract callbacks of the source are modelled as a recorded trace
    of calls: each call records what the callback is given at the moment it is
    called. */
module ProgressLogging {

  /** Gradle's log levels. */
  datatype LogLevel = Debug | Info | Lifecycle | Warn | Quiet | Error

  /** The text the writer emits for a log level (the enum constant's name). */
  function LevelName(level: LogLevel): string
  {
    match level
    case Debug => "DEBUG"
    case Info => "INFO"
    case Lifecycle => "LIFECYCLE"
    case Warn => "WARN"
    case Quiet => "QUIET"
    case Error => "ERROR"
  }

  /** The events the formatter consumes. For a renderable event, `timestamp` is
      the already formatted time of day and `rendered` is the text the event
      renders itself as; both are opaque here. */
  datatype OutputEvent =
    | ProgressStart(description: string)
    | Progress(status: string)
    | ProgressComplete(status: string)
    | LogLevelChange(newLogLevel: LogLevel)
    | Renderable(timestamp: string, category: string, logLevel: LogLevel, rendered: string)

  /** What can be observed of an operation: its description and current status. */
  datatype OpView = OpView(description: string, status: string)

  /** One call of an abstract callback, with the argument it received. */
  datatype Call =
    | Started(op: OpView)
    | StatusChanged(op: OpView)
    | Completed(op: OpView)
    | InfoMessage(message: string)
    | ErrorMessage(message: string)

  /** The formatter's state as values: the pending operations, front first, and
      the debug flag. */
  datatype State = State(pending: seq<OpView>, debugOutput: bool)

  /** The effect of handling events: the new state and the callbacks issued. */
  datatype Reaction = Reaction(state: State, calls: seq<Call>)

  /** The formatter asserts that a progress or completion event meets a
      non-empty stack of pending operations. */
  predicate Accepts(s: State, e: OutputEvent)
  {
    (e.Progress? || e.ProgressComplete?) ==> s.pending != []
  }

  /** The text placed before a rendered message in debug mode. */
  function DebugPrefix(e: OutputEvent): string
    requires e.Renderable?
  {
    e.timestamp + " [" + LevelName(e.logLevel) + "] [" + e.category + "] "
  }

  /** The laid-out text of a renderable event: the rendered body, preceded by the
      debug prefix exactly when debug output is on. */
  function Layout(debugOutput: bool, e: OutputEvent): string
    requires e.Renderable?
  {
    (if debugOutput then DebugPrefix(e) else "") + e.rendered
  }

  /** A laid-out message always ends with the rendered body; without debug
      output it is just the body, with debug output the body is preceded by
      the timestamp, the level and the category. */
  lemma LayoutShape(debugOutput: bool, e: OutputEvent)
    requires e.Renderable?
    ensures |e.rendered| <= |Layout(debugOutput, e)|
    ensures Layout(debugOutput, e)[|Layout(debugOutput, e)| - |e.rendered|..] == e.rendered
    ensures !debugOutput ==> Layout(debugOutput, e) == e.rendered
    ensures debugOutput ==> Layout(debugOutput, e) == DebugPrefix(e) + e.rendered
  {
  }

  /** The callback that a renderable event is routed to. */
  function Route(e: OutputEvent, message: string): (c: Call)
    requires e.Renderable?
    ensures c.ErrorMessage? <==> e.logLevel == Error
    ensures c.InfoMessage? <==> e.logLevel != Error
    ensures (c.ErrorMessage? || c.InfoMessage?) && c.message == message
  {
    if e.logLevel == Error then ErrorMessage(message) else InfoMessage(message)
  }

  /** Handling of one event. */
  function Step(s: State, e: OutputEvent): Reaction
    requires Accepts(s, e)
  {
    match e
    case ProgressStart(description) =>
      var op := OpView(description, "");
      Reaction(State([op] + s.pending, s.debugOutput), [Started(op)])
    case Progress(status) =>
      var op := OpView(s.pending[0].description, status);
      Reaction(State([op] + s.pending[1..], s.debugOutput), [StatusChanged(op)])
    case ProgressComplete(status) =>
      var op := OpView(s.pending[0].description, status);
      Reaction(State(s.pending[1..], s.debugOutput), [Completed(op)])
    case LogLevelChange(level) =>
      Reaction(State(s.pending, level == Debug), [])
    case Renderable(_, _, _, _) =>
      Reaction(s, [Route(e, Layout(s.debugOutput, e))])
  }

  /** What handling one event does, event kind by event kind. */
  lemma StepEffects(s: State, e: OutputEvent)
    requires Accepts(s, e)
    // A start pushes one new operation, with empty status, in front of an unchanged stack.
    ensures e.ProgressStart? ==>
      && |Step(s, e).state.pending| == |s.pending| + 1
      && Step(s, e).state.pending[0] == OpView(e.description, "")
      && Step(s, e).state.pending[1..] == s.pending
      && Step(s, e).state.debugOutput == s.debugOutput
      && Step(s, e).calls == [Started(OpView(e.description, ""))]
    // A progress event rewrites only the status of the front operation.
    ensures e.Progress? ==>
      && |Step(s, e).state.pending| == |s.pending|
      && Step(s, e).state.pending[0] == OpView(s.pending[0].description, e.status)
      && Step(s, e).state.pending[1..] == s.pending[1..]
      && Step(s, e).state.debugOutput == s.debugOutput
      && Step(s, e).calls == [StatusChanged(Step(s, e).state.pending[0])]
    // A completion removes the front operation and reports it with its final status.
    ensures e.ProgressComplete? ==>
      && Step(s, e).state.pending == s.pending[1..]
      && Step(s, e).state.debugOutput == s.debugOutput
      && Step(s, e).calls == [Completed(OpView(s.pending[0].description, e.status))]
    // A log-level change only sets the debug flag, exactly when the new level is DEBUG.
    ensures e.LogLevelChange? ==>
      && Step(s, e).state.pending == s.pending
      && (Step(s, e).state.debugOutput <==> e.newLogLevel == Debug)
      && Step(s, e).calls == []
    // Anything else is laid out and routed by level, and changes no state.
    ensures e.Renderable? ==>
      && Step(s, e).state == s
      && |Step(s, e).calls| == 1
      && (Step(s, e).calls[0].ErrorMessage? <==> e.logLevel == Error)
      && (Step(s, e).calls[0].InfoMessage? <==> e.logLevel != Error)
      && (Step(s, e).calls[0].ErrorMessage? || Step(s, e).calls[0].InfoMessage?)
      && Step(s, e).calls[0].message == Layout(s.debugOutput, e)
  {
  }

  /** Every event of `es`, handled in order from `s`, meets the assertions of the
      formatter. */
  predicate Feasible(s: State, es: seq<OutputEvent>)
    decreases |es|
  {
    es == [] || (Accepts(s, es[0]) && Feasible(Step(s, es[0]).state, es[1..]))
  }

  /** Handling a sequence of events in order; the callbacks are concatenated. */
  function Run(s: State, es: seq<OutputEvent>): Reaction
    requires Feasible(s, es)
    decreases |es|
  {
    if es == [] then Reaction(s, [])
    else
      var first := Step(s, es[0]);
      var rest := Run(first.state, es[1..]);
      Reaction(rest.state, first.calls + rest.calls)
  }

  /** How an event changes the number of pending operations. */
  function Delta(e: OutputEvent): int
  {
    if e.ProgressStart? then 1 else if e.ProgressComplete? then -1 else 0
  }

  /** The nesting level reached from `level` after the events of `es`. */
  function LevelAfter(level: int, es: seq<OutputEvent>): int
    decreases |es|
  {
    if es == [] then level else LevelAfter(level + Delta(es[0]), es[1..])
  }

  /** Starting at nesting level `level`, the events of `es` never complete more
      operations than are open. */
  predicate NeverBelow(level: int, es: seq<OutputEvent>)
    decreases |es|
  {
    es == [] || (level + Delta(es[0]) >= 0 && NeverBelow(level + Delta(es[0]), es[1..]))
  }

  /** `es` completes exactly the operations it starts, each after it started. */
  predicate Balanced(es: seq<OutputEvent>)
  {
    NeverBelow(0, es) && LevelAfter(0, es) == 0
  }

  /** The events that the formatter answers with a callback. */
  function Notified(es: seq<OutputEvent>): seq<OutputEvent>
  {
    if es == [] then []
    else if es[0].LogLevelChange? then Notified(es[1..])
    else [es[0]] + Notified(es[1..])
  }

  /** A callback of the kind that answers event `e`. */
  predicate Answers(e: OutputEvent, c: Call)
  {
    match e
    case ProgressStart(_) => c.Started?
    case Progress(_) => c.StatusChanged?
    case ProgressComplete(_) => c.Completed?
    case LogLevelChange(_) => false
    case Renderable(_, _, level, _) => if level == Error then c.ErrorMessage? else c.InfoMessage?
  }

  /** Every event except a log-level change triggers exactly one callback, of the
      matching kind and in event order; a log-level change triggers none. */
  lemma {:induction false} RunCallsAnswerEvents(s: State, es: seq<OutputEvent>)
    requires Feasible(s, es)
    ensures |Run(s, es).calls| == |Notified(es)|
    ensures forall i :: 0 <= i < |Notified(es)| ==> Answers(Notified(es)[i], Run(s, es).calls[i])
    decreases |es|
  {
    if es != [] {
      var first := Step(s, es[0]);
      RunCallsAnswerEvents(first.state, es[1..]);
      var rest := Run(first.state, es[1..]);
      assert Run(s, es).calls == first.calls + rest.calls;
      StepAnswers(s, es[0]);
      if es[0].LogLevelChange? {
        assert Notified(es) == Notified(es[1..]);
        assert Run(s, es).calls == rest.calls;
      } else {
        assert Notified(es) == [es[0]] + Notified(es[1..]);
        AnswersCons(es[0], first.calls, Notified(es[1..]), rest.calls);
      }
    }
  }

  /** A single step answers its event with one callback, or with none for a
      log-level change. */
  lemma StepAnswers(s: State, e: OutputEvent)
    requires Accepts(s, e)
    ensures e.LogLevelChange? ==> Step(s, e).calls == []
    ensures !e.LogLevelChange? ==> |Step(s, e).calls| == 1 && Answers(e, Step(s, e).calls[0])
  {
  }

  /** Pointwise answering extends by one event and its one callback. */
  lemma AnswersCons(e: OutputEvent, c: seq<Call>, events: seq<OutputEvent>, calls: seq<Call>)
    requires |c| == 1 && Answers(e, c[0])
    requires |calls| == |events|
    requires forall i :: 0 <= i < |events| ==> Answers(events[i], calls[i])
    ensures |c + calls| == |[e] + events|
    ensures forall i :: 0 <= i < |[e] + events| ==> Answers(([e] + events)[i], (c + calls)[i])
  {
    forall i | 0 <= i < |[e] + events|
      ensures Answers(([e] + events)[i], (c + calls)[i])
    {
      if i > 0 {
        assert ([e] + events)[i] == events[i - 1];
        assert (c + calls)[i] == calls[i - 1];
      }
    }
  }

  /** Handling a single event is one step. */
  lemma RunSingle(s: State, e: OutputEvent)
    requires Accepts(s, e)
    ensures Feasible(s, [e]) && Run(s, [e]) == Step(s, e)
  {
    assert [e][1..] == [];
  }

  /** Handling `a + b` is handling `a`, then `b` from the state `a` leaves. */
  lemma {:induction false} RunAppend(s: State, a: seq<OutputEvent>, b: seq<OutputEvent>)
    requires Feasible(s, a)
    requires Feasible(Run(s, a).state, b)
    ensures Feasible(s, a + b)
    ensures Run(s, a + b).state == Run(Run(s, a).state, b).state
    ensures Run(s, a + b).calls == Run(s, a).calls + Run(Run(s, a).state, b).calls
    decreases |a|
  {
    if a == [] {
      assert a + b == b;
    } else {
      var first := Step(s, a[0]);
      assert (a + b)[0] == a[0];
      assert (a + b)[1..] == a[1..] + b;
      RunAppend(first.state, a[1..], b);
      var rest := Run(first.state, a[1..]);
      assert Run(s, a) == Reaction(rest.state, first.calls + rest.calls);
      var restB := Run(rest.state, b);
      assert Run(s, a + b) == Reaction(restB.state, first.calls + (rest.calls + restB.calls));
    }
  }

  /** Events that never close more operations than are open (counting from the
      `level` operations above index `level` of the stack) leave everything
      below that index untouched, and only change the status of the operation
      at that index, which ends up at index `LevelAfter(level, es)`. */
  lemma {:induction false} NestedRunKeepsBase(s: State, level: int, es: seq<OutputEvent>)
    requires 0 <= level < |s.pending|
    requires NeverBelow(level, es)
    ensures Feasible(s, es)
    ensures 0 <= LevelAfter(level, es)
    ensures |Run(s, es).state.pending| == |s.pending| - level + LevelAfter(level, es)
    ensures Run(s, es).state.pending[LevelAfter(level, es) + 1..] == s.pending[level + 1..]
    ensures Run(s, es).state.pending[LevelAfter(level, es)].description == s.pending[level].description
    decreases |es|
  {
    if es != [] {
      var e := es[0];
      var inner := level + Delta(e);
      var next := Step(s, e).state;
      StepKeepsBase(s, level, e);
      NestedRunKeepsBase(next, inner, es[1..]);
      RunCons(s, es);
      var last := LevelAfter(inner, es[1..]);
      assert LevelAfter(level, es) == last;
      var final := Run(next, es[1..]).state;
      assert final.pending[last + 1..] == next.pending[inner + 1..] == s.pending[level + 1..];
    }
  }

  /** Handling a non-empty sequence is one step, then the rest. */
  lemma RunCons(s: State, es: seq<OutputEvent>)
    requires es != [] && Accepts(s, es[0]) && Feasible(Step(s, es[0]).state, es[1..])
    ensures Feasible(s, es)
    ensures Run(s, es).state == Run(Step(s, es[0]).state, es[1..]).state
    ensures Run(s, es).calls == Step(s, es[0]).calls + Run(Step(s, es[0]).state, es[1..]).calls
  {
  }

  /** One step of `NestedRunKeepsBase`. */
  lemma StepKeepsBase(s: State, level: int, e: OutputEvent)
    requires 0 <= level < |s.pending| && level + Delta(e) >= 0
    ensures Accepts(s, e)
    ensures |Step(s, e).state.pending| == |s.pending| + Delta(e)
    ensures Step(s, e).state.pending[level + Delta(e) + 1..] == s.pending[level + 1..]
    ensures Step(s, e).state.pending[level + Delta(e)].description == s.pending[level].description
  {
  }


  /** LIFO nesting: a start, followed by balanced events and then a completion,
      restores the stack of pending operations, and the completion reports the
      operation that was started, with the completion's status. */
  lemma StartThenCompleteRestores(s: State, description: string, es: seq<OutputEvent>, status: string)
    requires Balanced(es)
    ensures Feasible(s, [ProgressStart(description)] + es + [ProgressComplete(status)])
    ensures Run(s, [ProgressStart(description)] + es + [ProgressComplete(status)]).state.pending == s.pending
    ensures var calls := Run(s, [ProgressStart(description)] + es + [ProgressComplete(status)]).calls;
      |calls| >= 2 && calls[0] == Started(OpView(description, "")) &&
      calls[|calls| - 1] == Completed(OpView(description, status))
  {
    var start := [ProgressStart(description)];
    var complete := [ProgressComplete(status)];
    var pushed := Step(s, ProgressStart(description)).state;
    RunSingle(s, ProgressStart(description));
    NestedRunKeepsBase(pushed, 0, es);
    RunAppend(s, start, es);
    var inner := Run(pushed, es).state;
    assert inner.pending != [] && inner.pending[1..] == s.pending;
    RunSingle(inner, ProgressComplete(status));
    RunAppend(s, start + es, complete);
  }

  /** After a log-level change to DEBUG the next message carries the debug
      prefix; after a change to any other level it is the bare rendered text. */
  lemma LevelChangeGovernsLayout(s: State, level: LogLevel, e: OutputEvent)
    requires e.Renderable?
    ensures Feasible(s, [LogLevelChange(level), e])
    ensures var calls := Run(s, [LogLevelChange(level), e]).calls;
      |calls| == 1 && (calls[0].InfoMessage? || calls[0].ErrorMessage?) &&
      calls[0].message == if level == Debug then DebugPrefix(e) + e.rendered else e.rendered
  {
    var changed := Step(s, LogLevelChange(level)).state;
    assert [LogLevelChange(level), e][1..] == [e];
    assert Run(changed, [e]).calls == Step(changed, e).calls;
  }

  /** An operation object: its description is set when it is started, its status
      is rewritten in place by progress and completion events. */
  class Operation {
    var description: string
    var status: string

    constructor (description: string)
      ensures this.description == description && status == ""
    {
      this.description := description;
      status := "";
    }

    function View(): OpView
      reads this
    {
      OpView(description, status)
    }
  }

  /** The current views of a sequence of operation objects. */
  function Views(ops: seq<Operation>): (vs: seq<OpView>)
    reads ops
    ensures |vs| == |ops|
    ensures forall i :: 0 <= i < |ops| ==> vs[i] == ops[i].View()
    decreases |ops|
  {
    if ops == [] then [] else [ops[0].View()] + Views(ops[1..])
  }

  /** No object occurs twice in `ops`. */
  ghost predicate Distinct(ops: seq<Operation>)
  {
    forall i, j :: 0 <= i < j < |ops| ==> ops[i] != ops[j]
  }

  lemma DistinctPush(op: Operation, ops: seq<Operation>)
    requires Distinct(ops) && op !in ops
    ensures Distinct([op] + ops)
  {
    forall i, j | 0 <= i < j < |ops| + 1 ensures ([op] + ops)[i] != ([op] + ops)[j] {
      if i > 0 {
        assert ([op] + ops)[i] == ops[i - 1];
      } else {
        assert ([op] + ops)[j] in ops;
      }
    }
  }

  lemma DistinctPop(ops: seq<Operation>)
    requires Distinct(ops) && ops != []
    ensures Distinct(ops[1..]) && ops[0] !in ops[1..]
  {
    forall i, j | 0 <= i < j < |ops| - 1 ensures ops[1..][i] != ops[1..][j] {
      assert ops[1..][i] == ops[i + 1] && ops[1..][j] == ops[j + 1];
    }
  }

  class ProgressLoggingAwareFormatter {
    /** Pending operations, the most recently started one first. */
    var pendingOperations: seq<Operation>
    var debugOutput: bool
    /** The callbacks issued so far, in order. */
    var calls: seq<Call>

    /** Every pending operation is a distinct object. */
    ghost predicate Valid()
      reads this
    {
      Distinct(pendingOperations)
    }

    ghost function Abstract(): State
      reads this, pendingOperations
    {
      State(Views(pendingOperations), debugOutput)
    }

    constructor ()
      ensures Valid() && Abstract() == State([], false) && calls == []
    {
      pendingOperations := [];
      debugOutput := false;
      calls := [];
    }

    method OnStart(operation: Operation)
      modifies this`calls
      ensures calls == old(calls) + [Started(operation.View())]
    {
      calls := calls + [Started(operation.View())];
    }

    method OnStatusChange(operation: Operation)
      modifies this`calls
      ensures calls == old(calls) + [StatusChanged(operation.View())]
    {
      calls := calls + [StatusChanged(operation.View())];
    }

    method OnComplete(operation: Operation)
      modifies this`calls
      ensures calls == old(calls) + [Completed(operation.View())]
    {
      calls := calls + [Completed(operation.View())];
    }

    method OnInfoMessage(message: string)
      modifies this`calls
      ensures calls == old(calls) + [InfoMessage(message)]
    {
      calls := calls + [InfoMessage(message)];
    }

    method OnErrorMessage(message: string)
      modifies this`calls
      ensures calls == old(calls) + [ErrorMessage(message)]
    {
      calls := calls + [ErrorMessage(message)];
    }

    /** Builds the message text piece by piece, as the writer does. */
    method DoLayout(event: OutputEvent) returns (message: string)
      requires event.Renderable?
      ensures message == Layout(debugOutput, event)
    {
      message := "";
      if debugOutput {
        message := message + event.timestamp;
        message := message + " [";
        message := message + LevelName(event.logLevel);
        message := message + "] [";
        message := message + event.category;
        message := message + "] ";
      }
      message := message + event.rendered;
    }

    /** Handles one output event; the new state and the callbacks issued are
        those of `Step`. */
    method OnOutput(event: OutputEvent)
      requires Valid() && Accepts(Abstract(), event)
      modifies this, pendingOperations
      ensures Valid()
      ensures Abstract() == Step(old(Abstract()), event).state
      ensures calls == old(calls) + Step(old(Abstract()), event).calls
      // The operation objects: a start pushes a fresh one, a completion pops
      // the front one, and every other event keeps the same objects.
      ensures event.ProgressStart? ==>
        |pendingOperations| > 0 && fresh(pendingOperations[0]) &&
        pendingOperations[1..] == old(pendingOperations)
      ensures event.ProgressComplete? ==> pendingOperations == old(pendingOperations)[1..]
      ensures event.ProgressComplete? ==>
        old(pendingOperations)[0].View() == OpView(old(Abstract()).pending[0].description, event.status)
      ensures !event.ProgressStart? && !event.ProgressComplete? ==>
        pendingOperations == old(pendingOperations)
    {
      match event {
        case ProgressStart(_) => OnProgressStart(event);
        case Progress(_) => OnProgress(event);
        case ProgressComplete(_) => OnProgressComplete(event);
        case LogLevelChange(level) =>
          debugOutput := level == Debug;
          assert Abstract() == Step(old(Abstract()), event).state;
        case Renderable(_, _, _, _) => OnRenderable(event);
      }
    }

    /** A start pushes a new operation, with empty status, and reports it. */
    method OnProgressStart(event: OutputEvent)
      requires Valid() && event.ProgressStart?
      modifies this
      ensures Valid()
      ensures Abstract() == Step(old(Abstract()), event).state
      ensures calls == old(calls) + Step(old(Abstract()), event).calls
      ensures |pendingOperations| > 0 && fresh(pendingOperations[0])
      ensures pendingOperations[1..] == old(pendingOperations)
    {
      ghost var before := Abstract();
      var operation := new Operation(event.description);
      DistinctPush(operation, pendingOperations);
      pendingOperations := [operation] + pendingOperations;
      OnStart(operation);
      assert Views(pendingOperations) == [operation.View()] + before.pending;
    }

    /** A progress event rewrites the status of the front operation and reports it. */
    method OnProgress(event: OutputEvent)
      requires Valid() && event.Progress? && pendingOperations != []
      modifies this, pendingOperations[0]
      ensures Valid()
      ensures Abstract() == Step(old(Abstract()), event).state
      ensures calls == old(calls) + Step(old(Abstract()), event).calls
      ensures pendingOperations == old(pendingOperations)
    {
      ghost var before := Abstract();
      var operation := pendingOperations[0];
      DistinctPop(pendingOperations);
      operation.status := event.status;
      OnStatusChange(operation);
      assert Views(pendingOperations) == [operation.View()] + before.pending[1..];
    }

    /** A completion pops the front operation, stamps it with its final status
        and reports it. */
    method OnProgressComplete(event: OutputEvent)
      requires Valid() && event.ProgressComplete? && pendingOperations != []
      modifies this, pendingOperations[0]
      ensures Valid()
      ensures Abstract() == Step(old(Abstract()), event).state
      ensures calls == old(calls) + Step(old(Abstract()), event).calls
      ensures pendingOperations == old(pendingOperations)[1..]
      // The removed operation keeps its description and takes the event's status.
      ensures old(pendingOperations)[0].View() == OpView(old(Abstract()).pending[0].description, event.status)
    {
      ghost var before := Abstract();
      var operation := pendingOperations[0];
      DistinctPop(pendingOperations);
      pendingOperations := pendingOperations[1..];
      operation.status := event.status;
      OnComplete(operation);
      assert Views(pendingOperations) == before.pending[1..];
    }

    /** Any other event is laid out and routed by its level. */
    method OnRenderable(event: OutputEvent)
      requires event.Renderable?
      modifies this`calls
      ensures calls == old(calls) + Step(old(Abstract()), event).calls
    {
      var message := DoLayout(event);
      if event.logLevel == Error {
        OnErrorMessage(message);
      } else {
        OnInfoMessage(message);
      }
    }
  }

  /** Events handed to `onOutput` one after another: the formatter ends in the
      state `Run` gives and has issued the callbacks `Run` gives, so every
      lemma about `Run` holds of the formatter object. */
  method Feed(f: ProgressLoggingAwareFormatter, es: seq<OutputEvent>)
    requires f.Valid() && Feasible(f.Abstract(), es)
    modifies f, f.pendingOperations
    ensures f.Valid()
    ensures f.Abstract() == Run(old(f.Abstract()), es).state
    ensures f.calls == old(f.calls) + Run(old(f.Abstract()), es).calls
    // Every pending operation afterwards was pending before or is new.
    ensures forall i :: 0 <= i < |f.pendingOperations| ==>
      f.pendingOperations[i] in old(f.pendingOperations) || fresh(f.pendingOperations[i])
    // The operation objects below any nesting level the events never go under
    // are the very same objects afterwards.
    ensures KeepsBelow(old(f.pendingOperations), f.pendingOperations, es)
    decreases |es|
  {
    if es != [] {
      ghost var s0, c0, p0 := f.Abstract(), f.calls, f.pendingOperations;
      FeasibleHead(s0, es);
      f.OnOutput(es[0]);
      ghost var s1, c1, p1 := f.Abstract(), f.calls, f.pendingOperations;
      Feed(f, es[1..]);
      FedInOrder(s0, es, s1, f.Abstract(), c0, c1, f.calls);
      ObjectsBelow(p0, p1, f.pendingOperations, es);
    }
  }

  /** A feasible non-empty sequence starts with an accepted event. */
  lemma FeasibleHead(s: State, es: seq<OutputEvent>)
    requires es != [] && Feasible(s, es)
    ensures Accepts(s, es[0]) && Feasible(Step(s, es[0]).state, es[1..])
  {
  }

  /** Bookkeeping for `Feed`: one step from `s0` to `s1`, then the rest to
      `s2`, is the run of the whole sequence, callbacks included. */
  lemma FedInOrder(s0: State, es: seq<OutputEvent>, s1: State, s2: State,
                   c0: seq<Call>, c1: seq<Call>, c2: seq<Call>)
    requires es != [] && Accepts(s0, es[0]) && s1 == Step(s0, es[0]).state
    requires Feasible(s1, es[1..]) && s2 == Run(s1, es[1..]).state
    requires c1 == c0 + Step(s0, es[0]).calls && c2 == c1 + Run(s1, es[1..]).calls
    ensures Feasible(s0, es) && s2 == Run(s0, es).state && c2 == c0 + Run(s0, es).calls
  {
    RunCons(s0, es);
    assert c2 == c0 + Step(s0, es[0]).calls + Run(s1, es[1..]).calls;
  }

  /** Object-level nesting: for every level of `before` that the events of
      `es` never go under, the operations from that level down are the same
      objects in `after`, now below `LevelAfter(level, es)` operations. A level
      equal to `|before|` stands for the bottom of the stack. */
  ghost predicate KeepsBelow(before: seq<Operation>, after: seq<Operation>, es: seq<OutputEvent>)
  {
    forall level :: 0 <= level <= |before| && NeverBelow(level, es) ==>
      && 0 <= LevelAfter(level, es)
      && |after| == |before| - level + LevelAfter(level, es)
      && after[LevelAfter(level, es)..] == before[level..]
  }

  /** Bookkeeping for `Feed`: one step of `onOutput` on the object stack
      `p0`, giving `p1`, followed by the rest of the events, giving `p2`. */
  lemma ObjectsBelow(p0: seq<Operation>, p1: seq<Operation>, p2: seq<Operation>, es: seq<OutputEvent>)
    requires es != []
    requires es[0].ProgressStart? ==> |p1| > 0 && p1[1..] == p0
    requires es[0].ProgressComplete? ==> p0 != [] && p1 == p0[1..]
    requires !es[0].ProgressStart? && !es[0].ProgressComplete? ==> p1 == p0
    requires KeepsBelow(p1, p2, es[1..])
    ensures KeepsBelow(p0, p2, es)
  {
    forall level | 0 <= level <= |p0| && NeverBelow(level, es)
      ensures 0 <= LevelAfter(level, es)
      ensures |p2| == |p0| - level + LevelAfter(level, es)
      ensures p2[LevelAfter(level, es)..] == p0[level..]
    {
      var inner := level + Delta(es[0]);
      assert NeverBelow(inner, es[1..]);
      assert LevelAfter(level, es) == LevelAfter(inner, es[1..]);
      assert 0 <= inner <= |p1| && |p1| - inner == |p0| - level;
      assert p1[inner..] == p0[level..];
    }
  }

  /** Raising the starting level by one raises every later level by one. */
  lemma {:induction false} NeverBelowShift(level: int, es: seq<OutputEvent>)
    requires NeverBelow(level, es)
    ensures NeverBelow(level + 1, es) && LevelAfter(level + 1, es) == LevelAfter(level, es) + 1
    decreases |es|
  {
    if es != [] {
      NeverBelowShift(level + Delta(es[0]), es[1..]);
    }
  }

  /** Levels through `a + b` are levels through `a`, then through `b`. */
  lemma {:induction false} NeverBelowAppend(level: int, a: seq<OutputEvent>, b: seq<OutputEvent>)
    requires NeverBelow(level, a) && NeverBelow(LevelAfter(level, a), b)
    ensures NeverBelow(level, a + b) && LevelAfter(level, a + b) == LevelAfter(LevelAfter(level, a), b)
    decreases |a|
  {
    if a == [] {
      assert a + b == b;
    } else {
      assert (a + b)[0] == a[0] && (a + b)[1..] == a[1..] + b;
      NeverBelowAppend(level + Delta(a[0]), a[1..], b);
    }
  }

  /** LIFO nesting of the operation objects: if a start, balanced events and a
      completion keep the objects below every level they never go under, as
      `Feed` ensures, then the stack holds exactly the objects it held before. */
  lemma StartThenCompleteKeepsObjects(before: seq<Operation>, after: seq<Operation>,
                                      description: string, es: seq<OutputEvent>, status: string)
    requires Balanced(es)
    requires KeepsBelow(before, after, [ProgressStart(description)] + es + [ProgressComplete(status)])
    ensures after == before
  {
    var start, complete := [ProgressStart(description)], [ProgressComplete(status)];
    assert NeverBelow(0, start) && LevelAfter(0, start) == 1 by {
      assert start[1..] == [];
    }
    NeverBelowShift(0, es);
    NeverBelowAppend(0, start, es);
    assert NeverBelow(1, complete) && LevelAfter(1, complete) == 0 by {
      assert complete[1..] == [];
    }
    NeverBelowAppend(0, start + es, complete);
  }
}
