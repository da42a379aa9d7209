/** The fan-out composer: broadcasts each record to its enabled children and joins their errors. */
module Fanout {
  import opened Wrappers
  import opened XErrors
  import opened Records
  import opened Sinks
  import TryCatch

  const FanoutHandlerType: string := "fanout"

  /** The constructor never fails and keeps the children as given. */
  function NewFanoutHandler(handlers: seq<Sink>): (r: Result<FanoutHandler, Error>)
    ensures r.Success? && r.value.handlers == handlers
  {
    Success(FanoutHandler(handlers))
  }

  /** The children, in registration order. */
  function ChildHandlers(h: FanoutHandler): (cs: seq<Sink>)
    ensures |cs| == |h.handlers| && forall i :: 0 <= i < |cs| ==> cs[i] == h.handlers[i]
  {
    h.handlers
  }

  function Type(h: FanoutHandler): (t: string)
    ensures t == FanoutHandlerType
  {
    FanoutHandlerType
  }

  /** The errors among a list of results, in order. */
  function Collect(results: seq<Option<Error>>): (errs: seq<Error>)
  {
    if results == [] then []
    else
      var last := results[|results| - 1];
      Collect(results[..|results| - 1]) + (if last.Some? then [last.value] else [])
  }

  /** No error is collected exactly when every result is nil. */
  lemma {:induction false} CollectEmptyIff(results: seq<Option<Error>>)
    ensures Collect(results) == [] <==> forall k :: 0 <= k < |results| ==> results[k].None?
  {
    if results != [] {
      var init := results[..|results| - 1];
      CollectEmptyIff(init);
      assert forall k :: 0 <= k < |init| ==> init[k] == results[k];
    }
  }

  /** Every non-nil result is among the collected errors. */
  lemma {:induction false} CollectKeeps(results: seq<Option<Error>>, k: nat)
    requires k < |results| && results[k].Some?
    ensures results[k].value in Collect(results)
  {
    var init := results[..|results| - 1];
    if k < |init| {
      CollectKeeps(init, k);
    }
  }

  /** Collecting one more result adds its error, if any, at the end. */
  lemma CollectAppend(results: seq<Option<Error>>, e: Option<Error>)
    ensures Collect(results + [e]) == Collect(results) + (if e.Some? then [e.value] else [])
  {
    assert (results + [e])[..|results|] == results;
  }

  /** Positions listed in strictly increasing order. */
  predicate Increasing(s: seq<nat>)
  {
    forall a, b :: 0 <= a < b < |s| ==> s[a] < s[b]
  }

  /** Appending a position above every listed one keeps the list increasing. */
  lemma AppendIncreasing(s: seq<nat>, i: nat)
    requires Increasing(s) && forall k :: 0 <= k < |s| ==> s[k] < i
    ensures Increasing(s + [i])
  {
  }

  /** Reports whether some child accepts the level, stopping at the first that does. */
  method Enabled(h: FanoutHandler, level: int) returns (b: bool)
    requires AllWellFormed(h.handlers)
    ensures b <==> exists i :: 0 <= i < |h.handlers| && Sinks.Enabled(h.handlers[i], level)
    ensures b == AnyEnabled(h.handlers, level)
    ensures h.handlers == [] ==> !b
  {
    AnyEnabledIff(h.handlers, level);
    var i := 0;
    while i < |h.handlers|
      invariant 0 <= i <= |h.handlers|
      invariant forall k :: 0 <= k < i ==> !Sinks.Enabled(h.handlers[k], level)
    {
      if Sinks.Enabled(h.handlers[i], level) {
        return true;
      }
      i := i + 1;
    }
    return false;
  }

  /** The level variables the gates of a list of children read. */
  function ChildGates(hs: seq<Sink>): set<object>
  {
    set j, o | 0 <= j < |hs| && o in Gates(hs[j]) :: o
  }

  /** The positions below n of the children enabled for the level, in child order. */
  ghost function EnabledBelow(hs: seq<Sink>, level: int, n: nat): seq<nat>
    requires AllWellFormed(hs) && n <= |hs|
    reads ChildGates(hs)
  {
    if n == 0 then []
    else EnabledBelow(hs, level, n - 1) + (if Sinks.Enabled(hs[n - 1], level) then [n - 1] else [])
  }

  /** EnabledBelow lists exactly the enabled positions below n, each once, in increasing order. */
  lemma {:induction false} EnabledBelowExact(hs: seq<Sink>, level: int, n: nat)
    requires AllWellFormed(hs) && n <= |hs|
    ensures forall k :: 0 <= k < |EnabledBelow(hs, level, n)| ==>
      EnabledBelow(hs, level, n)[k] < n && Sinks.Enabled(hs[EnabledBelow(hs, level, n)[k]], level)
    ensures forall i :: 0 <= i < n && Sinks.Enabled(hs[i], level) ==> i in EnabledBelow(hs, level, n)
    ensures Increasing(EnabledBelow(hs, level, n))
  {
    if n > 0 {
      EnabledBelowExact(hs, level, n - 1);
      var prev := EnabledBelow(hs, level, n - 1);
      if Sinks.Enabled(hs[n - 1], level) {
        AppendIncreasing(prev, n - 1);
      }
    }
  }

  /** The recovered results of the children enabled below n, in child order. */
  ghost function Recovered(hs: seq<Sink>, level: int, outcome: nat -> TryCatch.Outcome, n: nat): seq<Option<Error>>
    requires AllWellFormed(hs) && n <= |hs|
    reads ChildGates(hs)
  {
    if n == 0 then []
    else
      var last := if Sinks.Enabled(hs[n - 1], level) then [TryCatch.Try(outcome(n - 1))] else [];
      Recovered(hs, level, outcome, n - 1) + last
  }

  /** The k-th recovered result is that of the k-th enabled child. */
  lemma {:induction false} RecoveredPointwise(hs: seq<Sink>, level: int, outcome: nat -> TryCatch.Outcome, n: nat)
    requires AllWellFormed(hs) && n <= |hs|
    ensures |Recovered(hs, level, outcome, n)| == |EnabledBelow(hs, level, n)|
    ensures forall k :: 0 <= k < |EnabledBelow(hs, level, n)| ==>
      Recovered(hs, level, outcome, n)[k] == TryCatch.Try(outcome(EnabledBelow(hs, level, n)[k]))
  {
    if n > 0 {
      RecoveredPointwise(hs, level, outcome, n - 1);
    }
  }

  /** Broadcasts a record. `outcome(i)` stands for what child i's Handle does with its own copy of the
      record (returns, fails or panics); each outcome goes through the panic recovery. Exactly the children
      enabled for the record's level are invoked, in order, whatever earlier children did; the result joins
      their errors in child order. */
  method Handle(h: FanoutHandler, r: Record, outcome: nat -> TryCatch.Outcome)
    returns (err: Option<Error>, ghost invoked: seq<nat>, ghost results: seq<Option<Error>>)
    requires AllWellFormed(h.handlers)
    ensures invoked == EnabledBelow(h.handlers, r.level, |h.handlers|)
    ensures results == Recovered(h.handlers, r.level, outcome, |h.handlers|)
    ensures err == Join(Collect(Recovered(h.handlers, r.level, outcome, |h.handlers|)))
  {
    var errs: seq<Error> := [];
    invoked := [];
    results := [];
    var i := 0;
    while i < |h.handlers|
      invariant 0 <= i <= |h.handlers|
      invariant invoked == EnabledBelow(h.handlers, r.level, i)
      invariant results == Recovered(h.handlers, r.level, outcome, i)
      invariant errs == Collect(results)
    {
      errs, invoked, results := HandleChild(h.handlers, r.level, outcome, i, errs, invoked, results);
      i := i + 1;
    }
    return Join(errs), invoked, results;
  }

  /** One step of the broadcast: child i is invoked, through the panic recovery, exactly when it is enabled,
      and its error, if any, is collected. */
  method HandleChild(hs: seq<Sink>, level: int, outcome: nat -> TryCatch.Outcome, i: nat,
                     errs: seq<Error>, ghost invoked: seq<nat>, ghost results: seq<Option<Error>>)
    returns (errs': seq<Error>, ghost invoked': seq<nat>, ghost results': seq<Option<Error>>)
    requires AllWellFormed(hs) && i < |hs|
    requires invoked == EnabledBelow(hs, level, i)
    requires results == Recovered(hs, level, outcome, i)
    requires errs == Collect(results)
    ensures invoked' == EnabledBelow(hs, level, i + 1)
    ensures results' == Recovered(hs, level, outcome, i + 1)
    ensures errs' == Collect(results')
  {
    errs', invoked', results' := errs, invoked, results;
    if Sinks.Enabled(hs[i], level) {
      var e := TryCatch.Try(outcome(i));
      CollectAppend(results, e);
      invoked' := invoked + [i];
      results' := results + [e];
      if e.Some? {
        errs' := errs + [e.value];
      }
    }
  }

  /** Handling succeeds exactly when every invoked child succeeded, and a child that panicked is reported. */
  lemma HandleResult(results: seq<Option<Error>>, k: nat)
    requires k < |results|
    ensures Join(Collect(results)).None? <==> forall j :: 0 <= j < |results| ==> results[j].None?
    ensures results[k].Some? ==> results[k].value in Join(Collect(results)).value.errs
  {
    CollectEmptyIff(results);
    if results[k].Some? {
      CollectKeeps(results, k);
    }
  }

  /** An enabled child that panics makes the broadcast report an error, whatever it panicked with. */
  lemma PanickingChildIsReported(hs: seq<Sink>, level: int, outcome: nat -> TryCatch.Outcome, i: nat)
    requires AllWellFormed(hs) && i < |hs| && Sinks.Enabled(hs[i], level) && outcome(i).Panicked?
    ensures Join(Collect(Recovered(hs, level, outcome, |hs|))).Some?
  {
    var invoked := EnabledBelow(hs, level, |hs|);
    var results := Recovered(hs, level, outcome, |hs|);
    EnabledBelowExact(hs, level, |hs|);
    RecoveredPointwise(hs, level, outcome, |hs|);
    var k :| 0 <= k < |invoked| && invoked[k] == i;
    TryCatch.PanicIsNeverNil(outcome(i).value);
    HandleResult(results, k);
  }

  /** The positions below n of the children that can be closed, in child order. */
  function ClosersBelow(hs: seq<Sink>, n: nat): seq<nat>
    requires n <= |hs|
  {
    if n == 0 then []
    else ClosersBelow(hs, n - 1) + (if IsCloser(hs[n - 1]) then [n - 1] else [])
  }

  /** ClosersBelow lists exactly the closable positions below n, each once, in increasing order. */
  lemma {:induction false} ClosersBelowExact(hs: seq<Sink>, n: nat)
    requires n <= |hs|
    ensures forall k :: 0 <= k < |ClosersBelow(hs, n)| ==>
      ClosersBelow(hs, n)[k] < n && IsCloser(hs[ClosersBelow(hs, n)[k]])
    ensures forall i :: 0 <= i < n && IsCloser(hs[i]) ==> i in ClosersBelow(hs, n)
    ensures Increasing(ClosersBelow(hs, n))
  {
    if n > 0 {
      ClosersBelowExact(hs, n - 1);
      var prev := ClosersBelow(hs, n - 1);
      if IsCloser(hs[n - 1]) {
        AppendIncreasing(prev, n - 1);
      }
    }
  }

  /** The results of closing the closable children below n, in child order. */
  function CloseResults(hs: seq<Sink>, closeOf: nat -> Option<Error>, n: nat): seq<Option<Error>>
    requires n <= |hs|
  {
    if n == 0 then [] else CloseResults(hs, closeOf, n - 1) + (if IsCloser(hs[n - 1]) then [closeOf(n - 1)] else [])
  }

  /** The k-th close result is that of the k-th closable child. */
  lemma {:induction false} CloseResultsPointwise(hs: seq<Sink>, closeOf: nat -> Option<Error>, n: nat)
    requires n <= |hs|
    ensures |CloseResults(hs, closeOf, n)| == |ClosersBelow(hs, n)|
    ensures forall k :: 0 <= k < |ClosersBelow(hs, n)| ==> CloseResults(hs, closeOf, n)[k] == closeOf(ClosersBelow(hs, n)[k])
  {
    if n > 0 {
      CloseResultsPointwise(hs, closeOf, n - 1);
    }
  }

  /** Closes every child that can be closed, in order, without stopping at a failure. `closeOf(i)` stands for
      what child i's Close returns. The result joins the failures in child order. */
  method Close(h: FanoutHandler, closeOf: nat -> Option<Error>)
    returns (err: Option<Error>, ghost attempted: seq<nat>, ghost results: seq<Option<Error>>)
    ensures attempted == ClosersBelow(h.handlers, |h.handlers|)
    ensures results == CloseResults(h.handlers, closeOf, |h.handlers|)
    ensures err == Join(Collect(CloseResults(h.handlers, closeOf, |h.handlers|)))
  {
    var errs: seq<Error> := [];
    attempted := [];
    results := [];
    var i := 0;
    while i < |h.handlers|
      invariant 0 <= i <= |h.handlers|
      invariant attempted == ClosersBelow(h.handlers, i)
      invariant results == CloseResults(h.handlers, closeOf, i)
      invariant errs == Collect(results)
    {
      if IsCloser(h.handlers[i]) {
        var e := closeOf(i);
        CollectAppend(results, e);
        attempted := attempted + [i];
        results := results + [e];
        if e.Some? {
          errs := errs + [e.value];
        }
      }
      i := i + 1;
    }
    return Join(errs), attempted, results;
  }

  /** A new fan-out whose i-th child is the i-th child with the attributes added. */
  method WithAttrs(h: FanoutHandler, attrs: seq<Attr>) returns (c: FanoutHandler)
    ensures |c.handlers| == |h.handlers|
    ensures forall i :: 0 <= i < |h.handlers| ==> c.handlers[i] == Sinks.WithAttrs(h.handlers[i], attrs)
    ensures FanoutSink(c) == Sinks.WithAttrs(FanoutSink(h), attrs)
  {
    var handlers: seq<Sink> := [];
    var i := 0;
    while i < |h.handlers|
      invariant 0 <= i <= |h.handlers|
      invariant |handlers| == i
      invariant forall k :: 0 <= k < i ==> handlers[k] == Sinks.WithAttrs(h.handlers[k], attrs)
    {
      handlers := handlers + [Sinks.WithAttrs(h.handlers[i], attrs)];
      i := i + 1;
    }
    c := FanoutHandler(handlers);
    assert handlers == WithAttrsAll(h.handlers, attrs);
  }

  /** The empty name returns the receiver itself; any other name gives a new fan-out whose i-th child is the
      i-th child with the group opened. */
  method WithGroup(h: FanoutHandler, name: string) returns (c: Sink)
    ensures name == "" ==> c == FanoutSink(h)
    ensures name != "" ==>
      c.FanoutSink? && |c.fanout.handlers| == |h.handlers|
      && forall i :: 0 <= i < |h.handlers| ==> c.fanout.handlers[i] == Sinks.WithGroup(h.handlers[i], name)
    ensures c == Sinks.WithGroup(FanoutSink(h), name)
  {
    if name == "" {
      return FanoutSink(h);
    }
    var handlers: seq<Sink> := [];
    var i := 0;
    while i < |h.handlers|
      invariant 0 <= i <= |h.handlers|
      invariant |handlers| == i
      invariant forall k :: 0 <= k < i ==> handlers[k] == Sinks.WithGroup(h.handlers[k], name)
    {
      handlers := handlers + [Sinks.WithGroup(h.handlers[i], name)];
      i := i + 1;
    }
    assert handlers == WithGroupAll(h.handlers, name);
    return FanoutSink(FanoutHandler(handlers));
  }

  /** What one child builder produced, with that builder's type name. */
  datatype Built = Built(builderType: string, result: Result<Sink, Error>)

  /** The error recorded for a failed child builder (the child's text is folded into the message). */
  function BuildFailure(b: Built): Error
  {
    Formatted("failed to build '" + b.builderType + "' handler", None)
  }

  /** The positions below n whose builder failed, in order. */
  function FailedBelow(built: seq<Built>, n: nat): seq<nat>
    requires n <= |built|
  {
    if n == 0 then [] else FailedBelow(built, n - 1) + (if built[n - 1].result.Failure? then [n - 1] else [])
  }

  /** FailedBelow lists exactly the failed positions below n, each once, in increasing order. */
  lemma {:induction false} FailedBelowExact(built: seq<Built>, n: nat)
    requires n <= |built|
    ensures forall k :: 0 <= k < |FailedBelow(built, n)| ==>
      FailedBelow(built, n)[k] < n && built[FailedBelow(built, n)[k]].result.Failure?
    ensures forall i :: 0 <= i < n && built[i].result.Failure? ==> i in FailedBelow(built, n)
    ensures Increasing(FailedBelow(built, n))
  {
    if n > 0 {
      FailedBelowExact(built, n - 1);
      if built[n - 1].result.Failure? {
        AppendIncreasing(FailedBelow(built, n - 1), n - 1);
      }
    }
  }

  /** The recorded failures of the builders below n, in order. */
  function FailuresBelow(built: seq<Built>, n: nat): seq<Error>
    requires n <= |built|
  {
    if n == 0 then []
    else FailuresBelow(built, n - 1) + (if built[n - 1].result.Failure? then [BuildFailure(built[n - 1])] else [])
  }

  /** The k-th recorded failure is that of the k-th failed builder. */
  lemma {:induction false} FailuresBelowPointwise(built: seq<Built>, n: nat)
    requires n <= |built|
    ensures |FailuresBelow(built, n)| == |FailedBelow(built, n)|
    ensures forall k :: 0 <= k < |FailedBelow(built, n)| ==> FailedBelow(built, n)[k] < n
    ensures forall k :: 0 <= k < |FailedBelow(built, n)| ==>
      FailuresBelow(built, n)[k] == BuildFailure(built[FailedBelow(built, n)[k]])
  {
    FailedBelowExact(built, n);
    if n > 0 {
      FailuresBelowPointwise(built, n - 1);
    }
  }

  /** The slot of each builder below n: the built handler, or a standard discarding handler in place of
      one that failed (never used, since the build then fails). */
  function SlotsBelow(built: seq<Built>, n: nat): (hs: seq<Sink>)
    requires n <= |built|
    ensures |hs| == n
  {
    if n == 0 then []
    else
      var b := built[n - 1];
      SlotsBelow(built, n - 1) + [if b.result.Failure? then SlogDiscardSink(Discard.SlogDiscardHandler) else b.result.value]
  }

  /** With no failure below n, every builder below n succeeded and its slot holds what it built. */
  lemma {:induction false} NoFailureBelow(built: seq<Built>, n: nat)
    requires n <= |built|
    ensures FailedBelow(built, n) == [] <==> forall i :: 0 <= i < n ==> built[i].result.Success?
    ensures forall i :: 0 <= i < n && built[i].result.Success? ==> SlotsBelow(built, n)[i] == built[i].result.value
  {
    if n > 0 {
      NoFailureBelow(built, n - 1);
      assert forall i :: 0 <= i < n - 1 ==> SlotsBelow(built, n)[i] == SlotsBelow(built, n - 1)[i];
    }
  }

  /** The fan-out builder's Build, given what each child builder produced: every child is built; if any
      failed, one build error wrapping the joined failures (one per failed child, in order) is returned;
      otherwise a fan-out over all the built children, in order. */
  method Build(built: seq<Built>) returns (r: Result<FanoutHandler, Error>, ghost failures: seq<nat>)
    ensures failures == FailedBelow(built, |built|)
    ensures r.Success? <==> forall i :: 0 <= i < |built| ==> built[i].result.Success?
    ensures r.Success? <==> failures == []
    ensures r.Success? ==>
      |r.value.handlers| == |built| && forall i :: 0 <= i < |built| ==> r.value.handlers[i] == built[i].result.value
    ensures r.Failure? ==>
      && HasCode(r.error, BuildHandlerError)
      && r.error.cause == Join(FailuresBelow(built, |built|))
  {
    var errs: seq<Error> := [];
    var handlers: seq<Sink> := [];
    failures := [];
    var i := 0;
    while i < |built|
      invariant 0 <= i <= |built|
      invariant handlers == SlotsBelow(built, i)
      invariant failures == FailedBelow(built, i)
      invariant errs == FailuresBelow(built, i)
      invariant |errs| == |failures|
    {
      var b := built[i];
      if b.result.Failure? {
        errs := errs + [BuildFailure(b)];
        failures := failures + [i];
        handlers := handlers + [SlogDiscardSink(Discard.SlogDiscardHandler)];
      } else {
        handlers := handlers + [b.result.value];
      }
      i := i + 1;
    }
    NoFailureBelow(built, |built|);
    if |errs| > 0 {
      return Failure(Coded(BuildHandlerError, "failed to build one or more handlers", Join(errs))), failures;
    }
    return Success(FanoutHandler(handlers)), failures;
  }
}
