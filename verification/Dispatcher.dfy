/**
 * One dispatch of one envelope (claude_ai/bus/dispatcher.py): the middleware chain,
 * the fan-out to handlers, and each handler's own retry loop.
 */
module Dispatcher {
  import opened Wrappers
  import opened EventMachine

  /** How the n-th run of a handler ends: None is a normal return, Some the raised error. */
  type Behaviour = nat -> Option<string>

  datatype Entry = Entry(name: string, retryAttempts: int, retryBackoff: real, behaviour: Behaviour)

  /**
   * What the middleware chain does. Each pass is one time it reaches the handlers, with the matched
   * entries as they behave in that pass: none if the chain stops short, several if it repeats itself.
   */
  datatype Chain = Chain(passes: seq<seq<Entry>>, raises: Option<string>)

  function Runs(entry: Entry): nat {
    Max(entry.retryAttempts, 0) + 1
  }

  /** The run that settles a handler: its first success, or else the last run allowed. */
  function LastRun(entry: Entry, from: nat): (n: nat)
    requires 1 <= from <= Runs(entry)
    ensures from <= n <= Runs(entry)
    ensures forall i :: from <= i < n ==> entry.behaviour(i).Some?
    ensures entry.behaviour(n).Some? ==> n == Runs(entry)
    decreases Runs(entry) - from
  {
    if entry.behaviour(from).None? || from == Runs(entry) then from else LastRun(entry, from + 1)
  }

  function Report(entry: Entry): Option<HandlerError> {
    var last := entry.behaviour(LastRun(entry, 1));
    if last.Some? then Some(HandlerError(entry.name, last.value)) else None
  }

  /** A handler reports no error exactly when some allowed run succeeds. */
  lemma {:induction false} ReportsNothingIffSomeRunSucceeds(entry: Entry)
    ensures Report(entry).None? <==> exists i :: 1 <= i <= Runs(entry) && entry.behaviour(i).None?
  {
    var n := LastRun(entry, 1);
    if entry.behaviour(n).None? {
      assert 1 <= n <= Runs(entry);
    }
  }

  /** The sleeps before run `n`: the backoff times 1, 2, 4 and so on. */
  function SleptBefore(backoff: real, n: nat): real
    requires n >= 1
  {
    backoff * ((Pow2(n - 1) - 1) as real)
  }

  lemma SleepOnce(backoff: real, n: nat)
    requires n >= 1
    ensures SleptBefore(backoff, n) + backoff * (Pow2(n - 1) as real) == SleptBefore(backoff, n + 1)
  {
    var x: int := Pow2(n - 1);
    assert (Pow2(n) - 1) as real == ((x - 1) as real) + (x as real);
  }

  /** `_invoke`: run, and on failure sleep and run again while attempts remain. */
  method Invoke(entry: Entry) returns (error: Option<HandlerError>, runs: nat, slept: real)
    ensures error == Report(entry)
    ensures 1 <= runs <= Max(entry.retryAttempts, 0) + 1
    ensures forall i :: 1 <= i < runs ==> entry.behaviour(i).Some?
    ensures error.None? <==> entry.behaviour(runs).None?
    ensures error.Some? ==> runs == Max(entry.retryAttempts, 0) + 1
    ensures slept == SleptBefore(entry.retryBackoff, runs)
  {
    slept, runs := 0.0, 1;
    while runs < Max(entry.retryAttempts, 0) + 2
      invariant 1 <= runs <= Runs(entry)
      invariant forall i :: 1 <= i < runs ==> entry.behaviour(i).Some?
      invariant LastRun(entry, 1) == LastRun(entry, runs)
      invariant slept == SleptBefore(entry.retryBackoff, runs)
    {
      var outcome := entry.behaviour(runs);
      if outcome.None? {
        return None, runs, slept;
      }
      if runs > entry.retryAttempts {
        return Some(HandlerError(entry.name, outcome.value)), runs, slept;
      }
      SleepOnce(entry.retryBackoff, runs);
      slept := slept + entry.retryBackoff * (Pow2(runs - 1) as real);
      runs := runs + 1;
    }
    error := None;
  }

  /** The reported errors of the entries, in entry order. */
  function Reports(entries: seq<Entry>): (errors: seq<HandlerError>)
    ensures |errors| <= |entries|
    ensures errors == [] <==> forall e :: e in entries ==> Report(e).None?
  {
    if entries == [] then []
    else
      var rest := Reports(entries[..|entries| - 1]);
      var last := Report(entries[|entries| - 1]);
      assert entries == entries[..|entries| - 1] + [entries[|entries| - 1]];
      if last.Some? then rest + [last.value] else rest
  }

  /** The errors of all passes, one after the other. */
  function AllReports(passes: seq<seq<Entry>>): (errors: seq<HandlerError>)
    ensures errors == [] <==> forall p, e :: p in passes && e in p ==> Report(e).None?
  {
    if passes == [] then []
    else
      assert passes == passes[..|passes| - 1] + [passes[|passes| - 1]];
      AllReports(passes[..|passes| - 1]) + Reports(passes[|passes| - 1])
  }

  /** The innermost step of the chain: every matched handler is invoked. */
  method Pass(entries: seq<Entry>) returns (errors: seq<HandlerError>)
    ensures errors == Reports(entries)
  {
    errors := [];
    for i := 0 to |entries|
      invariant errors == Reports(entries[..i])
    {
      assert entries[..i + 1][..i] == entries[..i];
      var error, _, _ := Invoke(entries[i]);
      if error.Some? {
        errors := errors + [error.value];
      }
    }
    assert entries[..|entries|] == entries;
  }

  /** `dispatch`: the result the worker acts on. */
  method Dispatch(chain: Chain) returns (result: DispatchResult)
    ensures result == DispatchResult(AllReports(chain.passes), chain.raises)
  {
    var errors := [];
    for i := 0 to |chain.passes|
      invariant errors == AllReports(chain.passes[..i])
    {
      assert chain.passes[..i + 1][..i] == chain.passes[..i];
      var more := Pass(chain.passes[i]);
      errors := errors + more;
    }
    assert chain.passes[..|chain.passes|] == chain.passes;
    return DispatchResult(errors, chain.raises);
  }

  predicate Clean(result: DispatchResult) {
    result.middlewareError.None? && result.handlerErrors == []
  }

  /** An envelope succeeds exactly when the chain does not raise and every handler recovers in every pass. */
  lemma CleanIffEveryHandlerRecovers(chain: Chain)
    ensures Clean(DispatchResult(AllReports(chain.passes), chain.raises)) <==>
      && chain.raises.None?
      && forall p, e :: p in chain.passes && e in p ==> exists i :: 1 <= i <= Runs(e) && e.behaviour(i).None?
  {
    forall p, e | p in chain.passes && e in p
      ensures Report(e).None? <==> exists i :: 1 <= i <= Runs(e) && e.behaviour(i).None?
    {
      ReportsNothingIffSomeRunSucceeds(e);
    }
  }
}
