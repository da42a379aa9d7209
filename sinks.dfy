/** The closed set of handlers a fan-out can hold: the package's own sinks, the standard discarding handler
    that the discard sink's extensions return, and nested fan-outs. */
module Sinks {
  import opened Wrappers
  import opened Records
  import Console
  import File
  import Forwarder
  import Discard

  datatype Sink =
    | ConsoleSink(console: Console.ConsoleHandler)
    | FileSink(file: File.FileHandler)
    | ForwarderSink(forwarder: Forwarder.SentinelOneHECHandler)
    | DiscardSink(discard: Discard.DiscardHandler)
    | SlogDiscardSink(slogDiscard: Discard.SlogDiscardHandler)
    | FanoutSink(fanout: FanoutHandler)

  /** The fan-out handler: its children, in registration order. */
  datatype FanoutHandler = FanoutHandler(handlers: seq<Sink>)

  /** Every leaf sink has its level variable set, as its constructor guarantees. */
  predicate WellFormed(s: Sink)
    decreases s
  {
    match s
    case ConsoleSink(c) => c.options.level.Some?
    case FileSink(f) => f.options.level.Some?
    case ForwarderSink(w) => w.options.level.Some?
    case FanoutSink(f) => AllWellFormed(f.handlers)
    case _ => true
  }

  predicate AllWellFormed(hs: seq<Sink>)
    decreases hs
  {
    forall i :: 0 <= i < |hs| ==> WellFormed(hs[i])
  }

  /** The level variables a sink's gate reads. */
  function Gates(s: Sink): set<object>
    decreases s
  {
    match s
    case ConsoleSink(c) => if c.options.level.Some? then {c.options.level.value} else {}
    case FileSink(f) => if f.options.level.Some? then {f.options.level.value} else {}
    case ForwarderSink(w) => if w.options.level.Some? then {w.options.level.value} else {}
    case FanoutSink(f) => GatesOf(f.handlers)
    case _ => {}
  }

  function GatesOf(hs: seq<Sink>): set<object>
    decreases hs
  {
    if hs == [] then {} else Gates(hs[0]) + GatesOf(hs[1..])
  }

  /** Each handler's own Enabled; a fan-out is enabled when some child is. */
  function Enabled(s: Sink, level: int): bool
    requires WellFormed(s)
    reads Gates(s)
    decreases s
  {
    match s
    case ConsoleSink(c) => Console.Enabled(c, level)
    case FileSink(f) => File.Enabled(f, level)
    case ForwarderSink(w) => Forwarder.Enabled(w, level)
    case DiscardSink(d) => Discard.Enabled(d, level)
    case SlogDiscardSink(_) => false
    case FanoutSink(f) => AnyEnabled(f.handlers, level)
  }

  function AnyEnabled(hs: seq<Sink>, level: int): bool
    requires AllWellFormed(hs)
    reads GatesOf(hs)
    decreases hs
  {
    hs != [] && (Enabled(hs[0], level) || AnyEnabled(hs[1..], level))
  }

  /** Some child of the list is enabled exactly when one of its positions is. */
  lemma {:induction false} AnyEnabledIff(hs: seq<Sink>, level: int)
    requires AllWellFormed(hs)
    ensures AnyEnabled(hs, level) <==> exists i :: 0 <= i < |hs| && Enabled(hs[i], level)
    decreases hs
  {
    if hs != [] {
      AnyEnabledIff(hs[1..], level);
      if Enabled(hs[0], level) {
        assert 0 <= 0 < |hs| && Enabled(hs[0], level);
      }
      if exists i :: 0 <= i < |hs| && Enabled(hs[i], level) {
        var i :| 0 <= i < |hs| && Enabled(hs[i], level);
        if i > 0 {
          assert hs[1..][i - 1] == hs[i];
        }
      }
    }
  }

  /** Each handler's own WithAttrs. The discard sink yields the standard discarding handler. */
  function WithAttrs(s: Sink, attrs: seq<Attr>): Sink
    decreases s
  {
    match s
    case ConsoleSink(c) => ConsoleSink(Console.WithAttrs(c, attrs))
    case FileSink(f) => FileSink(File.WithAttrs(f, attrs))
    case ForwarderSink(w) => ForwarderSink(Forwarder.WithAttrs(w, attrs))
    case DiscardSink(d) => SlogDiscardSink(Discard.WithAttrs(d, attrs))
    case SlogDiscardSink(d) => SlogDiscardSink(Discard.SlogWithAttrs(d, attrs))
    case FanoutSink(f) => FanoutSink(FanoutHandler(WithAttrsAll(f.handlers, attrs)))
  }

  /** WithAttrs applied to every child, position by position. */
  function WithAttrsAll(hs: seq<Sink>, attrs: seq<Attr>): (r: seq<Sink>)
    ensures |r| == |hs|
    ensures forall i :: 0 <= i < |hs| ==> r[i] == WithAttrs(hs[i], attrs)
    decreases hs
  {
    if hs == [] then [] else [WithAttrs(hs[0], attrs)] + WithAttrsAll(hs[1..], attrs)
  }

  /** Each handler's own WithGroup. The empty name returns the receiver everywhere except in the discard
      sink, which always delegates. */
  function WithGroup(s: Sink, name: string): Sink
    decreases s
  {
    match s
    case ConsoleSink(c) => ConsoleSink(Console.WithGroup(c, name))
    case FileSink(f) => FileSink(File.WithGroup(f, name))
    case ForwarderSink(w) => ForwarderSink(Forwarder.WithGroup(w, name))
    case DiscardSink(d) => SlogDiscardSink(Discard.WithGroup(d, name))
    case SlogDiscardSink(d) => SlogDiscardSink(Discard.SlogWithGroup(d, name))
    case FanoutSink(f) => if name == "" then s else FanoutSink(FanoutHandler(WithGroupAll(f.handlers, name)))
  }

  /** WithGroup applied to every child, position by position. */
  function WithGroupAll(hs: seq<Sink>, name: string): (r: seq<Sink>)
    ensures |r| == |hs|
    ensures forall i :: 0 <= i < |hs| ==> r[i] == WithGroup(hs[i], name)
    decreases hs
  {
    if hs == [] then [] else [WithGroup(hs[0], name)] + WithGroupAll(hs[1..], name)
  }

  /** Whether the handler has a Close method; the standard discarding handler has none. */
  predicate IsCloser(s: Sink)
  {
    !s.SlogDiscardSink?
  }

  /** The registered type name, for the handlers that have one. */
  function TypeName(s: Sink): (t: Option<string>)
    ensures t.None? <==> s.SlogDiscardSink?
  {
    match s
    case ConsoleSink(c) => Some(Console.Type(c))
    case FileSink(f) => Some(File.Type(f))
    case ForwarderSink(w) => Some(Forwarder.Type(w))
    case DiscardSink(d) => Some(Discard.Type(d))
    case SlogDiscardSink(_) => None
    case FanoutSink(_) => Some("fanout")
  }

  /** Adding attributes never changes which levels a handler accepts, nor the level variables it reads. */
  lemma {:induction false} WithAttrsKeepsGate(s: Sink, attrs: seq<Attr>, level: int)
    requires WellFormed(s)
    ensures WellFormed(WithAttrs(s, attrs)) && Gates(WithAttrs(s, attrs)) == Gates(s)
    ensures Enabled(WithAttrs(s, attrs), level) == Enabled(s, level)
    decreases s, 1
  {
    if s.FanoutSink? {
      WithAttrsAllKeepsGate(s.fanout.handlers, attrs, level);
    }
  }

  lemma {:induction false} WithAttrsAllKeepsGate(hs: seq<Sink>, attrs: seq<Attr>, level: int)
    requires AllWellFormed(hs)
    ensures AllWellFormed(WithAttrsAll(hs, attrs)) && GatesOf(WithAttrsAll(hs, attrs)) == GatesOf(hs)
    ensures AnyEnabled(WithAttrsAll(hs, attrs), level) == AnyEnabled(hs, level)
    decreases hs, 0
  {
    var r := WithAttrsAll(hs, attrs);
    forall i | 0 <= i < |hs|
      ensures WellFormed(r[i])
    {
      WithAttrsKeepsGate(hs[i], attrs, level);
    }
    if hs != [] {
      WithAttrsKeepsGate(hs[0], attrs, level);
      WithAttrsAllKeepsGate(hs[1..], attrs, level);
      assert r[1..] == WithAttrsAll(hs[1..], attrs);
    }
  }

  /** Opening a group never changes which levels a handler accepts, nor the level variables it reads. */
  lemma {:induction false} WithGroupKeepsGate(s: Sink, name: string, level: int)
    requires WellFormed(s)
    ensures WellFormed(WithGroup(s, name)) && Gates(WithGroup(s, name)) == Gates(s)
    ensures Enabled(WithGroup(s, name), level) == Enabled(s, level)
    decreases s, 1
  {
    if s.FanoutSink? && name != "" {
      WithGroupAllKeepsGate(s.fanout.handlers, name, level);
    }
  }

  lemma {:induction false} WithGroupAllKeepsGate(hs: seq<Sink>, name: string, level: int)
    requires AllWellFormed(hs)
    ensures AllWellFormed(WithGroupAll(hs, name)) && GatesOf(WithGroupAll(hs, name)) == GatesOf(hs)
    ensures AnyEnabled(WithGroupAll(hs, name), level) == AnyEnabled(hs, level)
    decreases hs, 0
  {
    var r := WithGroupAll(hs, name);
    forall i | 0 <= i < |hs|
      ensures WellFormed(r[i])
    {
      WithGroupKeepsGate(hs[i], name, level);
    }
    if hs != [] {
      WithGroupKeepsGate(hs[0], name, level);
      WithGroupAllKeepsGate(hs[1..], name, level);
      assert r[1..] == WithGroupAll(hs[1..], name);
    }
  }

  /** A fan-out of a discard sink and a file sink accepts exactly the levels the file sink accepts. */
  lemma DiscardBesideFile(d: Discard.DiscardHandler, f: File.FileHandler, level: int)
    requires f.options.level.Some?
    ensures var s := FanoutSink(FanoutHandler([DiscardSink(d), FileSink(f)]));
      WellFormed(s) && (Enabled(s, level) <==> File.Enabled(f, level))
  {
    var hs := [DiscardSink(d), FileSink(f)];
    assert hs[1..] == [FileSink(f)];
    assert hs[1..][1..] == [];
    assert !Enabled(hs[0], level);
    assert AnyEnabled(hs[1..], level) == Enabled(FileSink(f), level);
  }
}
