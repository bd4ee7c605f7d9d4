/**
 * `safelyQueryPhotos` (src/services/vercel-postgres.ts:279-305), the wrapper
 * every catalog read goes through. The callback is the query; its runs are
 * given as a function from the run number (0 for the first, 1 for the
 * retry) to what that run does, so a retry may see a different outcome from
 * the first run. The wrapper's observable steps (query runs, table creation,
 * the pause, console lines) are returned as a trace.
 */
module SafeQuery {
  import opened Js

  /** One run of the query: it resolves with a value or throws an error carrying a message. */
  datatype Outcome<T> = Resolved(value: T) | Threw(message: string)

  /** The observable steps of the wrapper. `Wait` stands for the timer; no time passes in the model. */
  datatype Step = Call | CreateTable | Wait(ms: nat) | Log(line: LogLine)

  /** The console lines the wrapper writes. */
  datatype LogLine = CreatingTable | RetryError(message: string) | QueryError(message: string)

  const RelationMissingPattern: string := "relation \"photos\" does not exist"
  const InTransitionPattern: string := "endpoint is in transition"
  const RetryDelayMs: nat := 5000

  function LogText(line: LogLine): string {
    match line
    case CreatingTable => "Creating table \"photos\" because it did not exist"
    case RetryError(message) => "sql get error on retry (after 5000ms): " + message + " "
    case QueryError(message) => "sql get error: " + message + " "
  }

  /** The first run failed because the `photos` table does not exist yet. */
  predicate SchemaMissing(o: Outcome) {
    o.Threw? && ContainsIgnoringCase(o.message, RelationMissingPattern)
  }

  /** The first run failed because the database endpoint is waking up; a table error takes precedence. */
  predicate EndpointInTransition(o: Outcome) {
    o.Threw? && !SchemaMissing(o) && ContainsIgnoringCase(o.message, InTransitionPattern)
  }

  /** How many times the query ran. */
  function Calls(trace: seq<Step>): nat {
    if trace == [] then 0
    else (if trace[0] == Call then 1 else 0) + Calls(trace[1..])
  }

  /** Runs are counted step by step. */
  lemma {:induction false} CallsAppend(trace: seq<Step>, s: Step)
    ensures Calls(trace + [s]) == Calls(trace) + (if s == Call then 1 else 0)
  {
    if trace == [] {
      assert [s][1..] == [];
    } else {
      assert (trace + [s])[1..] == trace[1..] + [s];
      CallsAppend(trace[1..], s);
    }
  }

  /**
   * Runs the query once; on a missing table creates it and runs the query
   * again; on an endpoint in transition waits 5 s and runs it again, logging
   * a second failure; any other error is logged and thrown.
   */
  method SafelyQueryPhotos<T>(callback: nat -> Outcome<T>) returns (result: Outcome<T>, trace: seq<Step>)
    ensures callback(0).Resolved? ==> trace == [Call]
    ensures SchemaMissing(callback(0)) ==> trace == [Call, Log(CreatingTable), CreateTable, Call]
    ensures EndpointInTransition(callback(0)) ==>
      trace == [Call, Wait(RetryDelayMs), Call] + (if callback(1).Threw? then [Log(RetryError(callback(1).message))] else [])
    ensures callback(0).Threw? && !SchemaMissing(callback(0)) && !EndpointInTransition(callback(0)) ==>
      trace == [Call, Log(QueryError(callback(0).message))]
    // the query runs at most twice, and a second time only after one of the two recoverable errors
    ensures 1 <= Calls(trace) <= 2
    ensures Calls(trace) == 2 <==> SchemaMissing(callback(0)) || EndpointInTransition(callback(0))
    // the outcome of the last run is the wrapper's outcome: its value, or its error rethrown
    ensures result == callback(Calls(trace) - 1)
    ensures CreateTable in trace <==> SchemaMissing(callback(0))
    ensures Wait(RetryDelayMs) in trace <==> EndpointInTransition(callback(0))
  {
    trace := Record([], Call);
    var first := callback(0);
    if first.Resolved? {
      result := first;
    } else if SchemaMissing(first) {
      trace := Record(trace, Log(CreatingTable));
      trace := Record(trace, CreateTable);
      trace := Record(trace, Call);
      assert trace == [Call, Log(CreatingTable), CreateTable, Call];
      result := callback(1);
    } else if EndpointInTransition(first) {
      trace := Record(trace, Wait(RetryDelayMs));
      trace := Record(trace, Call);
      assert trace == [Call, Wait(RetryDelayMs), Call] && Calls(trace) == 2;
      var second := callback(1);
      if second.Threw? {
        trace := Record(trace, Log(RetryError(second.message)));
      }
      result := second;
    } else {
      trace := Record(trace, Log(QueryError(first.message)));
      assert trace == [Call, Log(QueryError(first.message))];
      result := first;
    }
  }

  /** Appends one step to the trace. */
  method Record(trace: seq<Step>, s: Step) returns (extended: seq<Step>)
    ensures extended == trace + [s]
    ensures Calls(extended) == Calls(trace) + (if s == Call then 1 else 0)
  {
    CallsAppend(trace, s);
    extended := trace + [s];
  }
}
