/** The console sink: records go to standard output or standard error through a wrapped handler. */
module Console {
  import opened Wrappers
  import opened XErrors
  import opened Records
  import opened Levels
  import Strings
  import Slog

  const ConsoleHandlerType: string := "console"
  const JSONFormat: string := "json"
  const PlaintextFormat: string := "plaintext"
  const PrettyFormat: string := "pretty"

  /** The format used when none is configured. */
  const DefaultConsoleHandlerFormat: string := PrettyFormat

  /** The formats the sink can build a wrapped handler for. */
  predicate IsKnownFormat(f: string)
  {
    f == JSONFormat || f == PlaintextFormat || f == PrettyFormat
  }

  /** The console options. `level` and `maxLevel` are nil until set; the constructor fills in `level`. */
  datatype ConsoleOptions = ConsoleOptions(
    errorHandler: Option<ErrorHandlerFn<Record>>,
    format: string,
    includeCaller: bool,
    level: Option<LevelVar>,
    maxLevel: Option<LevelVar>,
    stderr: bool)

  /** The options as decoded from JSON, before validation; an absent level is the empty string. */
  datatype JsonConsoleOptions = JsonConsoleOptions(
    format: string, includeCaller: bool, level: string, maxLevel: string, stderr: bool)

  /** The console sink: the wrapped handler and the options. */
  datatype ConsoleHandler = ConsoleHandler(handler: Slog.Inner, options: ConsoleOptions)

  /** The format text after normalisation: lower-cased and trimmed. */
  function NormalizedFormat(text: string): string
  {
    Strings.Normalize(text)
  }

  /** The formats the decoder accepts: a known format name or the empty string, after normalisation. */
  predicate AcceptedFormat(text: string)
  {
    var f := NormalizedFormat(text);
    IsKnownFormat(f) || f == ""
  }

  /** Decodes already-parsed JSON fields into the receiver `o`, as the decoder does: the format is
      normalised and must be known or empty; a non-empty level text must parse; `parseLevel` stands for the
      standard level parser. Fields are assigned one by one, so an error leaves the earlier ones set.
      Fields the JSON does not carry (the error handler) keep their value. */
  method UnmarshalJSON(o: ConsoleOptions, j: JsonConsoleOptions, parseLevel: string -> Option<int>)
    returns (o': ConsoleOptions, err: Option<Error>)
    ensures err.None? <==>
      AcceptedFormat(j.format)
      && (j.level == "" || parseLevel(j.level).Some?)
      && (j.maxLevel == "" || parseLevel(j.maxLevel).Some?)
    ensures !AcceptedFormat(j.format) ==> o' == o
    ensures AcceptedFormat(j.format) ==> o'.format == NormalizedFormat(j.format)
    ensures o'.errorHandler == o.errorHandler
    ensures j.level == "" ==> o'.level == o.level
    ensures err.None? && j.level != "" ==>
      o'.level.Some? && fresh(o'.level.value) && o'.level.value.level == parseLevel(j.level).value
    ensures err.None? && j.maxLevel == "" ==> o'.maxLevel == o.maxLevel
    ensures err.None? && j.maxLevel != "" ==>
      o'.maxLevel.Some? && fresh(o'.maxLevel.value) && o'.maxLevel.value.level == parseLevel(j.maxLevel).value
    ensures err.None? ==> o'.includeCaller == j.includeCaller && o'.stderr == j.stderr
    ensures err.Some? ==> o'.maxLevel == o.maxLevel && o'.includeCaller == o.includeCaller && o'.stderr == o.stderr
    ensures j.level != "" && parseLevel(j.level).None? ==> o'.level == o.level
  {
    o' := o;
    var format := NormalizedFormat(j.format);
    if !(IsKnownFormat(format) || format == "") {
      return o', Some(Formatted(j.format + ": invalid format for console handler", None));
    }
    o' := o'.(format := format);
    if j.level != "" {
      var parsed := parseLevel(j.level);
      if parsed.None? {
        return o', Some(Formatted("failed to parse level '" + j.level + "' for console handler", None));
      }
      var lv := new LevelVar(parsed.value);
      o' := o'.(level := Some(lv));
    }
    if j.maxLevel != "" {
      var parsed := parseLevel(j.maxLevel);
      if parsed.None? {
        return o', Some(Formatted("failed to parse max level '" + j.maxLevel + "' for console handler", None));
      }
      var lv := new LevelVar(parsed.value);
      o' := o'.(maxLevel := Some(lv));
    }
    o' := o'.(includeCaller := j.includeCaller, stderr := j.stderr);
    return o', None;
  }

  /** Builds the sink: a nil level becomes a fresh level variable at the package default, an empty format
      becomes "pretty", and any other unknown format is rejected. `isTerminal` stands for the terminal test
      that decides whether "pretty" output is colourised. */
  method NewConsoleHandler(options: ConsoleOptions, defaults: LevelDefaults, isTerminal: Slog.Dest -> bool)
    returns (r: Result<ConsoleHandler, Error>)
    ensures r.Success? <==> options.format == "" || IsKnownFormat(options.format)
    ensures r.Failure? ==> HasCode(r.error, OptionsValidationError)
    ensures r.Success? ==>
      var h := r.value;
      && h.options.format == (if options.format == "" then DefaultConsoleHandlerFormat else options.format)
      && h.options.level.Some?
      && (options.level.Some? ==> h.options.level == options.level)
      && (options.level.None? ==> fresh(h.options.level.value) && h.options.level.value.level == defaults.console)
      && h.options == options.(level := h.options.level, format := h.options.format)
      && h.handler.dest == (if options.stderr then Slog.Stderr else Slog.Stdout)
      && h.handler.addSource == options.includeCaller
      && h.handler.extensions == []
      && h.handler.kind == FormatKind(h.options.format, isTerminal(h.handler.dest))
  {
    var opts := options;
    var writer := if opts.stderr then Slog.Stderr else Slog.Stdout;
    if opts.level.None? {
      var lv := new LevelVar(defaults.console);
      opts := opts.(level := Some(lv));
    }
    if opts.format == "" {
      opts := opts.(format := DefaultConsoleHandlerFormat);
    }
    var kind;
    if opts.format == JSONFormat {
      kind := Slog.JSONHandler;
    } else if opts.format == PlaintextFormat {
      kind := Slog.TextHandler;
    } else if opts.format == PrettyFormat {
      kind := Slog.TintHandler(!isTerminal(writer));
    } else {
      return Failure(Coded(OptionsValidationError, opts.format + ": invalid console handler format", None));
    }
    return Success(ConsoleHandler(Slog.NewInner(kind, writer, opts.includeCaller), opts));
  }

  /** The console builder made from configuration, then built without a callback: the JSON is decoded into
      zero-valued options (a decoding failure is a marshal error wrapping it) and the constructor runs on the
      result (a failure there is a build error wrapping it). Every configuration the decoder accepts builds,
      so the only failures are decoding failures. */
  method BuildFromConfig(j: JsonConsoleOptions, parseLevel: string -> Option<int>, defaults: LevelDefaults,
                         isTerminal: Slog.Dest -> bool)
    returns (r: Result<ConsoleHandler, Error>)
    ensures r.Success? <==>
      AcceptedFormat(j.format)
      && (j.level == "" || parseLevel(j.level).Some?)
      && (j.maxLevel == "" || parseLevel(j.maxLevel).Some?)
    ensures r.Failure? ==> HasCode(r.error, MarshalError)
    ensures r.Success? ==>
      var f := NormalizedFormat(j.format);
      && r.value.options.format == (if f == "" then DefaultConsoleHandlerFormat else f)
      && r.value.handler.kind == FormatKind(r.value.options.format, isTerminal(r.value.handler.dest))
      && r.value.handler.dest == (if j.stderr then Slog.Stderr else Slog.Stdout)
      && r.value.options.errorHandler.None?
  {
    var zero := ConsoleOptions(None, "", false, None, None, false);
    var o, err := UnmarshalJSON(zero, j, parseLevel);
    if err.Some? {
      return Failure(Coded(MarshalError, "failed to unmarshal handler options", Some(err.value)));
    }
    var built := NewConsoleHandler(o, defaults, isTerminal);
    if built.Failure? {
      // The build-error wrapping is unreachable: the decoder stores only formats the constructor accepts.
      assert false;
      return built;
    }
    return built;
  }

  /** The kind of wrapped handler each known format selects. */
  function FormatKind(format: string, terminal: bool): Slog.Kind
  {
    if format == JSONFormat then Slog.JSONHandler
    else if format == PlaintextFormat then Slog.TextHandler
    else Slog.TintHandler(!terminal)
  }

  /** The level gate, as written: every level from the minimum up when no maximum is set, and only the
      minimum itself when one is. */
  function Enabled(h: ConsoleHandler, level: int): (b: bool)
    requires h.options.level.Some?
    reads h.options.level.value
    ensures h.options.maxLevel.None? ==> (b <==> level >= h.options.level.value.level)
    ensures h.options.maxLevel.Some? ==> (b <==> level == h.options.level.value.level)
  {
    EnabledAsWritten(level, h.options.level.value, h.options.maxLevel)
  }

  /** Handling passes the wrapped handler's result, `written`, through the error handler when it failed. */
  function Handle(h: ConsoleHandler, r: Record, written: Option<Error>): (err: Option<Error>)
    ensures written.None? ==> err.None?
    ensures written.Some? && h.options.errorHandler.None? ==> err == written
    ensures written.Some? && h.options.errorHandler.Some? ==>
      err == h.options.errorHandler.value(written.value, Some(r))
  {
    Route(h.options.errorHandler, written, Some(r))
  }

  /** Closing is a no-op that succeeds. */
  function Close(h: ConsoleHandler): (err: Option<Error>)
    ensures err.None?
  {
    None
  }

  /** The type name under which the sink is registered. */
  function Type(h: ConsoleHandler): (t: string)
    ensures t == ConsoleHandlerType
  {
    ConsoleHandlerType
  }

  /** A clone with the same options whose wrapped handler carries the extra attributes. */
  function WithAttrs(h: ConsoleHandler, attrs: seq<Attr>): (c: ConsoleHandler)
    ensures c.options == h.options
    ensures c.handler == Slog.WithAttrs(h.handler, attrs)
  {
    ConsoleHandler(Slog.WithAttrs(h.handler, attrs), h.options)
  }

  /** The empty group name returns the receiver; any other name gives a clone with the same options
      whose wrapped handler opens the group. */
  function WithGroup(h: ConsoleHandler, name: string): (c: ConsoleHandler)
    ensures name == "" ==> c == h
    ensures name != "" ==> c.options == h.options && c.handler == Slog.WithGroup(h.handler, name)
  {
    if |name| == 0 then h else ConsoleHandler(Slog.WithGroup(h.handler, name), h.options)
  }

  /** The three format names pass normalisation unchanged, so each is accepted as written. */
  lemma KnownFormatIsNormal(f: string)
    requires IsKnownFormat(f)
    ensures NormalizedFormat(f) == f
  {
    if f == JSONFormat {
      assert !Strings.IsSpace('j') && !Strings.IsSpace('n');
    } else if f == PlaintextFormat {
      assert !Strings.IsSpace('p') && !Strings.IsSpace('t');
    } else {
      assert !Strings.IsSpace('p') && !Strings.IsSpace('y');
    }
    NameIsNormal(f);
  }

  lemma NameIsNormal(name: string)
    requires name != [] && !Strings.IsSpace(name[0]) && !Strings.IsSpace(name[|name| - 1])
    requires forall i :: 0 <= i < |name| ==> 'a' <= name[i] <= 'z'
    ensures NormalizedFormat(name) == name
  {
    Strings.NormalizeOfNormal(name);
  }

  /** The format the decoder stores is accepted again when decoded a second time. */
  lemma AcceptedFormatStable(text: string)
    ensures AcceptedFormat(NormalizedFormat(text)) <==> AcceptedFormat(text)
  {
    Strings.NormalizeIdempotent(text);
  }
}
