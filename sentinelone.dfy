/** The batching forwarder: records are formatted as JSON events, collected in one buffer shared by the
    handler and its clones, and posted in batches to a SentinelOne HTTP event collector. */
module Forwarder {
  import opened Wrappers
  import opened XErrors
  import opened Records
  import Levels

  newtype byte = b: int | 0 <= b < 256

  const Newline: byte := 10

  const SentinelOneHECHandlerType: string := "sentinelone:hec"
  const IngestURLScheme: string := "https://"
  const IngestURLPath: string := "/services/collector/event"
  const BearerPrefix: string := "Bearer "

  const DefaultCallerKey: string := "caller"
  const DefaultDSCategory: string := "applog"
  const DefaultDSName: string := "unknown"
  const DefaultDSVendor: string := "Unknown"
  const DefaultHostname: string := "unknown"
  const DefaultSource: string := "unknown"
  const SourceType: string := "gron"

  /** Ten seconds, in nanoseconds. */
  const DefaultSendTimeout: int := 10_000_000_000

  /** The severity names of the collector, by slog level band. */
  function DefaultLevelTranslator(l: int): (s: string)
    ensures s in {"critical", "error", "warning", "info", "debug", "trace", "finest"}
  {
    if l > Levels.Error then "critical"
    else if l > Levels.Warn then "error"
    else if l > Levels.Info then "warning"
    else if l > Levels.Debug then "info"
    else if l > Levels.Debug - 4 then "debug"
    else if l > Levels.Debug - 8 then "trace"
    else "finest"
  }

  /** The order of the severity names, least severe first; other names rank lowest. */
  function SeverityRank(s: string): nat
  {
    if s == "critical" then 6
    else if s == "error" then 5
    else if s == "warning" then 4
    else if s == "info" then 3
    else if s == "debug" then 2
    else if s == "trace" then 1
    else 0
  }

  /** The translator is total and each name covers exactly one band of levels. */
  lemma SeverityBands(l: int)
    ensures DefaultLevelTranslator(l) == "critical" <==> l > 8
    ensures DefaultLevelTranslator(l) == "error" <==> 5 <= l <= 8
    ensures DefaultLevelTranslator(l) == "warning" <==> 1 <= l <= 4
    ensures DefaultLevelTranslator(l) == "info" <==> -3 <= l <= 0
    ensures DefaultLevelTranslator(l) == "debug" <==> -7 <= l <= -4
    ensures DefaultLevelTranslator(l) == "trace" <==> -11 <= l <= -8
    ensures DefaultLevelTranslator(l) == "finest" <==> l <= -12
  {
  }

  /** A more severe level never gets a less severe name. */
  lemma TranslatorMonotone(a: int, b: int)
    requires a <= b
    ensures SeverityRank(DefaultLevelTranslator(a)) <= SeverityRank(DefaultLevelTranslator(b))
  {
  }

  /** The forwarder's options; `level` and `maxLevel` are nil until set, and a send timeout of -1 means
      "use the default". */
  datatype Options = Options(
    apiToken: string,
    bufferSize: nat,
    callerKey: string,
    disableAsync: bool,
    dsCategory: string,
    dsName: string,
    dsVendor: string,
    errorHandler: Option<ErrorHandlerFn<Record>>,
    host: string,
    includeCaller: bool,
    ingestHostname: string,
    level: Option<Levels.LevelVar>,
    levelTranslator: Option<int -> string>,
    maxLevel: Option<Levels.LevelVar>,
    scope: string,
    sendTimeout: int,
    source: string)

  /** The options as decoded from JSON; an absent level is the empty string and an absent send timeout None. */
  datatype JsonOptions = JsonOptions(
    apiToken: string, bufferSize: nat, callerKey: string, disableAsync: bool,
    dsCategory: string, dsName: string, dsVendor: string, host: string, includeCaller: bool,
    ingestHostname: string, level: string, maxLevel: string, scope: string,
    sendTimeout: Option<int>, source: string)

  /** Decodes already-parsed JSON fields into the receiver `o`: the level texts first (a failure returns with
      everything else untouched), then the send timeout (-1 when absent), then the plain fields. */
  method UnmarshalJSON(o: Options, j: JsonOptions, parseLevel: string -> Option<int>)
    returns (o': Options, err: Option<Error>)
    ensures err.None? <==>
      (j.level == "" || parseLevel(j.level).Some?) && (j.maxLevel == "" || parseLevel(j.maxLevel).Some?)
    ensures o'.errorHandler == o.errorHandler && o'.levelTranslator == o.levelTranslator
    ensures err.Some? ==> o'.sendTimeout == o.sendTimeout && o'.apiToken == o.apiToken
    ensures j.level == "" ==> o'.level == o.level
    ensures err.None? && j.level != "" ==>
      o'.level.Some? && fresh(o'.level.value) && o'.level.value.level == parseLevel(j.level).value
    ensures err.None? && j.maxLevel == "" ==> o'.maxLevel == o.maxLevel
    ensures err.None? && j.maxLevel != "" ==>
      o'.maxLevel.Some? && fresh(o'.maxLevel.value) && o'.maxLevel.value.level == parseLevel(j.maxLevel).value
    ensures err.None? ==> o'.sendTimeout == (if j.sendTimeout.None? then -1 else j.sendTimeout.value)
    ensures err.None? ==>
      o' == o.(apiToken := j.apiToken, bufferSize := j.bufferSize, callerKey := j.callerKey,
               disableAsync := j.disableAsync, dsCategory := j.dsCategory, dsName := j.dsName,
               dsVendor := j.dsVendor, host := j.host, includeCaller := j.includeCaller,
               ingestHostname := j.ingestHostname, scope := j.scope, source := j.source,
               level := o'.level, maxLevel := o'.maxLevel, sendTimeout := o'.sendTimeout)
  {
    o' := o;
    if j.level != "" {
      var parsed := parseLevel(j.level);
      if parsed.None? {
        return o', Some(Formatted("failed to parse level '" + j.level + "' for console handler", None));
      }
      var lv := new Levels.LevelVar(parsed.value);
      o' := o'.(level := Some(lv));
    }
    if j.maxLevel != "" {
      var parsed := parseLevel(j.maxLevel);
      if parsed.None? {
        return o', Some(Formatted("failed to parse max level '" + j.maxLevel + "' for console handler", None));
      }
      var lv := new Levels.LevelVar(parsed.value);
      o' := o'.(maxLevel := Some(lv));
    }
    if j.sendTimeout.None? {
      o' := o'.(sendTimeout := -1);
    } else {
      o' := o'.(sendTimeout := j.sendTimeout.value);
    }
    o' := o'.(apiToken := j.apiToken, bufferSize := j.bufferSize, callerKey := j.callerKey,
              disableAsync := j.disableAsync, dsCategory := j.dsCategory, dsName := j.dsName,
              dsVendor := j.dsVendor, host := j.host, includeCaller := j.includeCaller,
              ingestHostname := j.ingestHostname, scope := j.scope, source := j.source);
    return o', None;
  }

  /** The concatenation of a list of byte strings, first to last. */
  function Flatten(chunks: seq<seq<byte>>): seq<byte>
  {
    if chunks == [] then [] else Flatten(chunks[..|chunks| - 1]) + chunks[|chunks| - 1]
  }

  /** How a cut batch leaves the handler: posted before Handle returns, or handed to a background
      sender (whose completion is not ordered with anything else). */
  datatype Dispatch = Synchronous | Handoff

  /** A batch taken out of the buffer to be posted. */
  datatype Batch = Batch(payload: seq<byte>, dispatch: Dispatch)

  function Payloads(batches: seq<Batch>): seq<seq<byte>>
  {
    if batches == [] then [] else Payloads(batches[..|batches| - 1]) + [batches[|batches| - 1].payload]
  }

  /** The buffer shared by a handler and all its clones. The ghost fields log every record appended, the
      records currently buffered, and every batch taken out, so that nothing is lost or duplicated. */
  class HandlerState {
    var buf: seq<byte>
    ghost var records: seq<seq<byte>>
    ghost var pending: seq<seq<byte>>
    ghost var batches: seq<Batch>

    /** The buffer is the concatenation of the pending records, and the batches taken out followed by the
        buffer are exactly the records appended, in order. */
    ghost predicate Valid()
      reads this
    {
      && buf == Flatten(pending)
      && Flatten(Payloads(batches)) + buf == Flatten(records)
      && (forall i :: 0 <= i < |pending| ==> pending[i] != [])
    }

    constructor ()
      ensures Valid()
      ensures buf == [] && records == [] && pending == [] && batches == []
    {
      buf := [];
      records := [];
      pending := [];
      batches := [];
    }

    /** Copies the whole buffer out as a batch and resets the buffer. */
    method Take(ghost dispatch: Dispatch) returns (payload: seq<byte>)
      requires Valid()
      modifies this
      ensures Valid()
      ensures payload == old(buf)
      ensures buf == [] && pending == [] && records == old(records)
      ensures batches == old(batches) + [Batch(payload, dispatch)]
    {
      payload := buf;
      buf := [];
      assert Payloads(batches + [Batch(payload, dispatch)]) == Payloads(batches) + [payload] by {
        assert (batches + [Batch(payload, dispatch)])[..|batches|] == batches;
      }
      batches := batches + [Batch(payload, dispatch)];
      pending := [];
    }

    /** Appends one record, whole, to the buffer. */
    method Append(rec: seq<byte>)
      requires Valid() && rec != []
      modifies this
      ensures Valid()
      ensures buf == old(buf) + rec
      ensures pending == old(pending) + [rec] && records == old(records) + [rec] && batches == old(batches)
    {
      buf := buf + rec;
      assert (pending + [rec])[..|pending|] == pending;
      assert (records + [rec])[..|records|] == records;
      pending := pending + [rec];
      records := records + [rec];
    }
  }

  /** Whether a batch is cut before appending `rec`: the buffer holds something and either batching is off
      or the record would take the buffer past its size. */
  predicate CutsBatch(buf: seq<byte>, rec: seq<byte>, bufferSize: nat): (cut: bool)
    ensures cut ==> |buf| > 0
    ensures bufferSize == 0 ==> (cut <==> |buf| > 0)
    ensures |buf| + |rec| <= bufferSize ==> !cut
  {
    |buf| > 0 && (bufferSize == 0 || |buf| + |rec| > bufferSize)
  }

  /** The forwarder. `clientTimeout` is the HTTP client's timeout (None for none); clones share `state`. */
  datatype SentinelOneHECHandler = SentinelOneHECHandler(
    attrs: seq<Attr>,
    authToken: string,
    clientTimeout: Option<int>,
    groups: seq<string>,
    ingestionURL: string,
    options: Options,
    state: HandlerState)

  /** The required settings, checked in order: API token, ingest host name, scope. */
  function Validate(o: Options): (err: Option<Error>)
    ensures err.None? <==> o.apiToken != "" && o.ingestHostname != "" && o.scope != ""
    ensures err.Some? ==> HasCode(err.value, OptionsValidationError)
    ensures o.apiToken == "" ==> err == Some(Coded(OptionsValidationError, "api_token is a required setting", None))
    ensures o.apiToken != "" && o.ingestHostname == "" ==>
      err == Some(Coded(OptionsValidationError, "ingest_hostname is a required setting", None))
    ensures o.apiToken != "" && o.ingestHostname != "" && o.scope == "" ==>
      err == Some(Coded(OptionsValidationError, "scope is a required setting", None))
  {
    if |o.apiToken| == 0 then Some(Coded(OptionsValidationError, "api_token is a required setting", None))
    else if o.ingestHostname == "" then Some(Coded(OptionsValidationError, "ingest_hostname is a required setting", None))
    else if o.scope == "" then Some(Coded(OptionsValidationError, "scope is a required setting", None))
    else None
  }

  /** Builds the forwarder. `exe` stands for the executable's name as the code finds it: the base name
      without extension of the resolved path, the unresolved path when resolving symbolic links fails, or ""
      when the executable cannot be found. `hostname` stands for the machine's host name (None when it
      cannot be read). The level defaults to the console sink's package default, not to the forwarder's own. */
  method NewSentinelOneHECHandler(options: Options, defaults: Levels.LevelDefaults, exe: string, hostname: Option<string>)
    returns (r: Result<SentinelOneHECHandler, Error>)
    ensures Validate(options).Some? ==> r == Failure(Validate(options).value)
    ensures Validate(options).None? ==> r.Success?
    ensures r.Success? ==>
      var h := r.value;
      && h.ingestionURL == IngestURLScheme + options.ingestHostname + IngestURLPath
      && h.authToken == BearerPrefix + options.apiToken
      && h.attrs == [] && h.groups == []
      && fresh(h.state) && h.state.Valid()
      && h.state.buf == [] && h.state.records == [] && h.state.batches == []
      && h.options.level.Some?
      && (options.level.Some? ==> h.options.level == options.level)
      && (options.level.None? ==> fresh(h.options.level.value) && h.options.level.value.level == defaults.console)
      && h.options.sendTimeout == (if options.sendTimeout == -1 then DefaultSendTimeout else options.sendTimeout)
      && h.clientTimeout == (if h.options.sendTimeout > 0 then Some(h.options.sendTimeout) else None)
      && h.options.dsCategory == (if options.dsCategory == "" then DefaultDSCategory else options.dsCategory)
      && h.options.dsName == (if options.dsName != "" then options.dsName else if exe != "" then exe else DefaultDSName)
      && h.options.dsVendor == (if options.dsVendor == "" then DefaultDSVendor else options.dsVendor)
      && h.options.callerKey == (if options.callerKey == "" then DefaultCallerKey else options.callerKey)
      && h.options.host == (if options.host != "" then options.host
                            else if hostname.Some? then hostname.value else DefaultHostname)
      && h.options.source == (if options.source != "" then options.source else if exe != "" then exe else DefaultSource)
      && h.options == options.(level := h.options.level, sendTimeout := h.options.sendTimeout,
                               dsCategory := h.options.dsCategory, dsName := h.options.dsName,
                               dsVendor := h.options.dsVendor, callerKey := h.options.callerKey,
                               host := h.options.host, source := h.options.source)
  {
    var invalid := Validate(options);
    if invalid.Some? {
      return Failure(invalid.value);
    }
    var url := IngestURLScheme + options.ingestHostname + IngestURLPath;
    var auth := BearerPrefix + options.apiToken;
    var level := options.level;
    if level.None? {
      var lv := new Levels.LevelVar(defaults.console);
      level := Some(lv);
    }
    var dsCategory := options.dsCategory;
    if dsCategory == "" {
      dsCategory := DefaultDSCategory;
    }
    var dsName := options.dsName;
    if dsName == "" {
      dsName := if exe != "" then exe else DefaultDSName;
    }
    var dsVendor := options.dsVendor;
    if dsVendor == "" {
      dsVendor := DefaultDSVendor;
    }
    var callerKey := options.callerKey;
    if callerKey == "" {
      callerKey := DefaultCallerKey;
    }
    var host := options.host;
    if host == "" {
      host := if hostname.Some? then hostname.value else DefaultHostname;
    }
    var sendTimeout := options.sendTimeout;
    if sendTimeout == -1 {
      sendTimeout := DefaultSendTimeout;
    }
    var clientTimeout: Option<int> := None;
    if sendTimeout > 0 {
      clientTimeout := Some(sendTimeout);
    }
    var source := options.source;
    if source == "" {
      source := if exe != "" then exe else DefaultSource;
    }
    var opts := options.(level := level, sendTimeout := sendTimeout, dsCategory := dsCategory, dsName := dsName,
                         dsVendor := dsVendor, callerKey := callerKey, host := host, source := source);
    var state := new HandlerState();
    return Success(SentinelOneHECHandler([], auth, clientTimeout, [], url, opts, state));
  }

  /** The severity name of a level: the configured translator when there is one, the default otherwise. */
  function Severity(o: Options, level: int): (s: string)
    ensures o.levelTranslator.Some? ==> s == o.levelTranslator.value(level)
    ensures o.levelTranslator.None? ==> s == DefaultLevelTranslator(level)
  {
    if o.levelTranslator.Some? then o.levelTranslator.value(level) else DefaultLevelTranslator(level)
  }

  /** The fields added after the record's own attributes inside the "event" group: the message, the
      severity, the caller (when asked for and known) and the data-source group. */
  function EventTrailer(h: SentinelOneHECHandler, r: Record): seq<Attr>
  {
    [Attr("message", Leaf(Str(r.message))), Attr("severity", Leaf(Str(Severity(h.options, r.level))))]
    + (if h.options.includeCaller && r.source.Some? then [Attr(h.options.callerKey, Leaf(Caller(r.source.value)))] else [])
    + [Attr("dataSource", Group([Attr("category", Leaf(Str(h.options.dsCategory))),
                                 Attr("name", Leaf(Str(h.options.dsName))),
                                 Attr("vendor", Leaf(Str(h.options.dsVendor)))]))]
  }

  /** The record that is formatted and sent: same time, level, message and call site; its attributes are
      the "event" group (the record's attributes followed by the trailer) and the host, source and
      source type. */
  function Event(h: SentinelOneHECHandler, r: Record): (e: Record)
    ensures e.time == r.time && e.level == r.level && e.message == r.message && e.source == r.source
    ensures |e.attrs| == 4 && e.attrs[0].key == "event" && e.attrs[0].value.Group?
    ensures |e.attrs[0].value.attrs| > |r.attrs| && e.attrs[0].value.attrs[..|r.attrs|] == r.attrs
    ensures e.attrs[1..] == [Attr("host", Leaf(Str(h.options.host))), Attr("source", Leaf(Str(h.options.source))),
                             Attr("sourcetype", Leaf(Str(SourceType)))]
  {
    Record(r.time, r.level, r.message,
      [Attr("event", Group(r.attrs + EventTrailer(h, r))),
       Attr("host", Leaf(Str(h.options.host))),
       Attr("source", Leaf(Str(h.options.source))),
       Attr("sourcetype", Leaf(Str(SourceType)))],
      r.source)
  }

  /** The event group holds every record attribute in order, then the message and the severity, then the
      caller exactly when it is asked for and known, and the data source last. */
  lemma EventGroupShape(h: SentinelOneHECHandler, r: Record)
    ensures var g := Event(h, r).attrs[0].value.attrs;
      var n := |r.attrs|;
      var caller := h.options.includeCaller && r.source.Some?;
      && |g| == n + (if caller then 4 else 3)
      && g[n] == Attr("message", Leaf(Str(r.message)))
      && g[n + 1] == Attr("severity", Leaf(Str(Severity(h.options, r.level))))
      && (caller ==> g[n + 2] == Attr(h.options.callerKey, Leaf(Caller(r.source.value))))
      && g[|g| - 1].key == "dataSource"
  {
  }

  /** Builds the event attributes the way the handler does: the record's attributes one by one, then the
      trailer. */
  method BuildEvent(h: SentinelOneHECHandler, r: Record) returns (e: Record)
    ensures e == Event(h, r)
  {
    var eventAttrs: seq<Attr> := [];
    var i := 0;
    while i < |r.attrs|
      invariant 0 <= i <= |r.attrs|
      invariant eventAttrs == r.attrs[..i]
    {
      eventAttrs := eventAttrs + [r.attrs[i]];
      i := i + 1;
    }
    assert r.attrs[..i] == r.attrs;
    eventAttrs := eventAttrs + EventTrailer(h, r);
    e := Record(r.time, r.level, r.message,
      [Attr("event", Group(eventAttrs)),
       Attr("host", Leaf(Str(h.options.host))),
       Attr("source", Leaf(Str(h.options.source))),
       Attr("sourcetype", Leaf(Str(SourceType)))],
      r.source);
  }

  /** The handler's error hook: the error goes through the error handler when one is set. */
  function HandleError(h: SentinelOneHECHandler, err: Error, r: Option<Record>): (res: Option<Error>)
    ensures h.options.errorHandler.None? ==> res == Some(err)
    ensures h.options.errorHandler.Some? ==> res == h.options.errorHandler.value(err, r)
  {
    Route(h.options.errorHandler, Some(err), r)
  }

  /** What posting a batch came to: compression failed, the request could not be built, the round trip
      failed, or the collector answered with a status code and body. */
  datatype SendOutcome =
    | CompressFailed(cause: Error)
    | RequestFailed(cause: Error)
    | TransportFailed(cause: Error)
    | Responded(status: int, body: string)

  /** Whether the outcome is a success: only an answer with a status below 400 is. */
  predicate Delivered(o: SendOutcome)
  {
    o.Responded? && o.status < 400
  }

  /** The error code each failed outcome is reported with; a status of 400 or more is a response error. */
  function FailureCode(o: SendOutcome): ErrorCode
  {
    match o
    case CompressFailed(_) => DataCompressionError
    case RequestFailed(_) => HTTPRequestError
    case TransportFailed(_) => HTTPClientError
    case Responded(_, _) => HTTPResponseError
  }

  /** The error a failed outcome is reported with. */
  function SendError(o: SendOutcome): (e: Error)
    requires !Delivered(o)
    ensures HasCode(e, FailureCode(o))
  {
    match o
    case CompressFailed(cause) => Coded(DataCompressionError, "failed to compress payload", Some(cause))
    case RequestFailed(cause) => Coded(HTTPRequestError, "failed to create HTTP request", Some(cause))
    case TransportFailed(cause) => Coded(HTTPClientError, "failed to execute HTTP request", Some(cause))
    case Responded(_, body) => Coded(HTTPResponseError, "log endpoint returned non-OK status, body: " + body, None)
  }

  /** The result of posting `payload`, given the outcome of the attempt: nil on delivery; otherwise an error
      with the outcome's code, passed through the error hook. */
  function Send(h: SentinelOneHECHandler, r: Option<Record>, payload: seq<byte>, outcome: SendOutcome): (err: Option<Error>)
    ensures Delivered(outcome) ==> err.None?
    ensures !Delivered(outcome) && h.options.errorHandler.None? ==>
      err.Some? && HasCode(err.value, FailureCode(outcome))
    ensures !Delivered(outcome) && h.options.errorHandler.Some? ==>
      err == h.options.errorHandler.value(SendError(outcome), r)
  {
    if Delivered(outcome) then None else HandleError(h, SendError(outcome), r)
  }

  /** Without an error handler, an answer is an error exactly when its status is 400 or more, and then it is
      a response error. */
  lemma StatusRule(h: SentinelOneHECHandler, r: Option<Record>, payload: seq<byte>, status: int, body: string)
    requires h.options.errorHandler.None?
    ensures Send(h, r, payload, Responded(status, body)).None? <==> status < 400
    ensures status >= 400 ==> HasCode(Send(h, r, payload, Responded(status, body)).value, HTTPResponseError)
  {
  }

  /** The formatter standing for the JSON handler that renders an event, given the handler's attributes
      and groups. */
  type Formatter = (seq<Attr>, seq<string>, Record) -> Result<seq<byte>, Error>

  function DispatchOf(h: SentinelOneHECHandler): Dispatch
  {
    if h.options.disableAsync then Synchronous else Handoff
  }

  /** Handles one record: builds and formats the event; a formatting failure goes through the error hook and
      leaves the buffer as it was. Otherwise the formatted event plus a newline is the record; if a batch is
      cut, the old buffer is taken out first; the record is then appended whole. A cut batch is posted before
      returning (its result is returned) when asynchronous sending is disabled, and handed off otherwise. */
  method Handle(h: SentinelOneHECHandler, r: Record, format: Formatter, outcome: SendOutcome) returns (err: Option<Error>)
    requires h.state.Valid()
    modifies h.state
    ensures h.state.Valid()
    ensures var e := Event(h, r); var out := format(h.attrs, h.groups, e);
      out.Failure? ==>
        && err == HandleError(h, Formatted("failed to format log record to send to SentinelOne HTTP event collector",
                                           Some(out.error)), Some(e))
        && unchanged(h.state)
    ensures var e := Event(h, r); var out := format(h.attrs, h.groups, e);
      out.Success? ==>
        var rec := out.value + [Newline];
        var cut := CutsBatch(old(h.state.buf), rec, h.options.bufferSize);
        && h.state.records == old(h.state.records) + [rec]
        && h.state.buf == (if cut then rec else old(h.state.buf) + rec)
        && h.state.batches == old(h.state.batches) + (if cut then [Batch(old(h.state.buf), DispatchOf(h))] else [])
        && err == (if cut && h.options.disableAsync then Send(h, Some(e), old(h.state.buf), outcome) else None)
        && (h.options.bufferSize > 0 ==> |h.state.buf| <= h.options.bufferSize || |h.state.pending| == 1)
        && (h.options.bufferSize == 0 ==> |h.state.pending| == 1)
  {
    var e := BuildEvent(h, r);
    var out := format(h.attrs, h.groups, e);
    if out.Failure? {
      return HandleError(h, Formatted("failed to format log record to send to SentinelOne HTTP event collector",
                                      Some(out.error)), Some(e));
    }
    var rec := out.value + [Newline];
    var payload: Option<seq<byte>> := None;
    if |h.state.buf| > 0 && (h.options.bufferSize == 0 || |h.state.buf| + |rec| > h.options.bufferSize) {
      var taken := h.state.Take(DispatchOf(h));
      payload := Some(taken);
    }
    assert h.state.buf == [] ==> h.state.pending == [];
    h.state.Append(rec);
    if payload.Some? {
      if h.options.disableAsync {
        return Send(h, Some(e), payload.value, outcome);
      }
    }
    return None;
  }

  /** Closing posts whatever the buffer holds, once and synchronously, and empties it; nothing is posted when
      it is empty. The post's result is dropped: Close always succeeds. */
  method Close(h: SentinelOneHECHandler, outcome: SendOutcome) returns (err: Option<Error>)
    requires h.state.Valid()
    modifies h.state
    ensures h.state.Valid()
    ensures err.None?
    ensures old(h.state.buf) == [] ==> unchanged(h.state)
    ensures old(h.state.buf) != [] ==>
      && h.state.buf == [] && h.state.pending == [] && h.state.records == old(h.state.records)
      && h.state.batches == old(h.state.batches) + [Batch(old(h.state.buf), Synchronous)]
  {
    if |h.state.buf| == 0 {
      return None;
    }
    var payload := h.state.Take(Synchronous);
    var dropped := Send(h, None, payload, outcome);
    return None;
  }

  /** The level gate, as written (the same rule as the console sink's). */
  function Enabled(h: SentinelOneHECHandler, level: int): (b: bool)
    requires h.options.level.Some?
    reads h.options.level.value
    ensures h.options.maxLevel.None? ==> (b <==> level >= h.options.level.value.level)
    ensures h.options.maxLevel.Some? ==> (b <==> level == h.options.level.value.level)
  {
    Levels.EnabledAsWritten(level, h.options.level.value, h.options.maxLevel)
  }

  /** The forwarder has no wrapped handlers. */
  function ChildHandlers(h: SentinelOneHECHandler): (cs: seq<SentinelOneHECHandler>)
    ensures cs == []
  {
    []
  }

  /** The type name under which the forwarder is registered. */
  function Type(h: SentinelOneHECHandler): (t: string)
    ensures t == SentinelOneHECHandlerType
  {
    SentinelOneHECHandlerType
  }

  /** A clone whose attributes are the receiver's followed by `attrs`; everything else, the buffer state
      included, is shared. */
  function WithAttrs(h: SentinelOneHECHandler, attrs: seq<Attr>): (c: SentinelOneHECHandler)
    ensures c.attrs == h.attrs + attrs && |c.attrs| == |h.attrs| + |attrs|
    ensures c.groups == h.groups && c.state == h.state && c.options == h.options
    ensures c.authToken == h.authToken && c.ingestionURL == h.ingestionURL && c.clientTimeout == h.clientTimeout
  {
    h.(attrs := h.attrs + attrs)
  }

  /** The empty group name returns the receiver; any other name gives a clone whose groups are the receiver's
      followed by the name, sharing everything else. */
  function WithGroup(h: SentinelOneHECHandler, name: string): (c: SentinelOneHECHandler)
    ensures name == "" ==> c == h
    ensures name != "" ==> c.groups == h.groups + [name] && c.attrs == h.attrs && c.state == h.state
    ensures c.options == h.options && c.authToken == h.authToken && c.ingestionURL == h.ingestionURL
    ensures c.clientTimeout == h.clientTimeout
  {
    if |name| == 0 then h else h.(groups := h.groups + [name])
  }

  /** The forwarder of the scenario below: a 100-byte buffer and synchronous sending. */
  method ScenarioForwarder() returns (h: SentinelOneHECHandler)
    ensures fresh(h.state) && h.state.Valid() && h.state.buf == [] && h.state.batches == []
    ensures h.options.bufferSize == 100 && h.options.disableAsync
  {
    var opts := Options("token", 100, "", true, "", "", "", None, "", false, "collector.example", None, None, None,
                        "scope", -1, "");
    var built := NewSentinelOneHECHandler(opts, Levels.ShippedDefaults, "", None);
    h := built.value;
  }

  /** A formatted event of 39 bytes, so that each record takes 40 bytes with its newline. */
  const ScenarioLine: seq<byte> := seq(39, _ => 65 as byte)

  /** Handles one record whose formatted event is `ScenarioLine`, with every post delivered. */
  method HandleScenarioRecord(h: SentinelOneHECHandler)
    requires h.state.Valid() && h.options.disableAsync
    modifies h.state
    ensures h.state.Valid()
    ensures var rec := ScenarioLine + [Newline];
      var cut := CutsBatch(old(h.state.buf), rec, h.options.bufferSize);
      && h.state.buf == (if cut then rec else old(h.state.buf) + rec)
      && h.state.batches == old(h.state.batches) + (if cut then [Batch(old(h.state.buf), Synchronous)] else [])
  {
    var format: Formatter := (attrs, groups, e) => Success(ScenarioLine);
    var err := Handle(h, Record(0, Levels.Info, "hello", [], None), format, Responded(200, ""));
  }

  /** A scenario record that fits the buffer is appended to it: no batch is cut. */
  method FittingScenarioRecord(h: SentinelOneHECHandler) returns (size: nat)
    requires h.state.Valid() && h.options.disableAsync
    requires |h.state.buf| + 40 <= h.options.bufferSize
    modifies h.state
    ensures h.state.Valid() && size == |h.state.buf| == old(|h.state.buf|) + 40
    ensures h.state.batches == old(h.state.batches)
  {
    assert |ScenarioLine + [Newline]| == 40;
    HandleScenarioRecord(h);
    size := |h.state.buf|;
  }

  /** The first two records of the scenario fit the buffer together: no batch is cut. */
  method TwoScenarioRecords(h: SentinelOneHECHandler) returns (buffered: seq<nat>)
    requires h.state.Valid() && h.state.buf == [] && h.state.batches == []
    requires h.options.bufferSize == 100 && h.options.disableAsync
    modifies h.state
    ensures h.state.Valid() && |h.state.buf| == 80 && h.state.batches == []
    ensures buffered == [40, 80]
  {
    var first := FittingScenarioRecord(h);
    var second := FittingScenarioRecord(h);
    buffered := [first, second];
  }

  /** The third record would take the buffer past 100 bytes: the first two are cut as one batch, posted
      before Handle returns. */
  method ThirdScenarioRecord(h: SentinelOneHECHandler) returns (size: nat)
    requires h.state.Valid() && |h.state.buf| == 80 && h.state.batches == []
    requires h.options.bufferSize == 100 && h.options.disableAsync
    modifies h.state
    ensures h.state.Valid() && size == |h.state.buf| == 40
    ensures |h.state.batches| == 1 && |h.state.batches[0].payload| == 80 && h.state.batches[0].dispatch == Synchronous
  {
    assert |ScenarioLine + [Newline]| == 40;
    HandleScenarioRecord(h);
    size := |h.state.buf|;
  }

  /** Three 40-byte records through a forwarder with a 100-byte buffer and synchronous sending, then two
      closes: the third record cuts the first two as one 80-byte batch, the first close posts the third
      record alone, and the second close posts nothing. */
  method ThreeRecordsThenCloseTwice() returns (buffered: seq<nat>, remaining: seq<byte>, ghost batches: seq<Batch>)
    ensures buffered == [40, 80, 40]
    ensures |batches| == 2
    ensures |batches[0].payload| == 80 && batches[0].dispatch == Synchronous
    ensures |batches[1].payload| == 40 && batches[1].dispatch == Synchronous
    ensures remaining == []
  {
    var h := ScenarioForwarder();
    var firstTwo := TwoScenarioRecords(h);
    var third := ThirdScenarioRecord(h);
    buffered := firstTwo + [third];
    remaining, batches := CloseScenarioTwice(h);
  }

  /** The first close posts the 40 buffered bytes; the second finds the buffer empty and posts nothing. */
  method CloseScenarioTwice(h: SentinelOneHECHandler) returns (remaining: seq<byte>, ghost batches: seq<Batch>)
    requires h.state.Valid() && |h.state.buf| == 40
    requires |h.state.batches| == 1 && |h.state.batches[0].payload| == 80 && h.state.batches[0].dispatch == Synchronous
    modifies h.state
    ensures remaining == [] && |batches| == 2
    ensures |batches[0].payload| == 80 && batches[0].dispatch == Synchronous
    ensures |batches[1].payload| == 40 && batches[1].dispatch == Synchronous
  {
    var first := Close(h, Responded(200, ""));
    var second := Close(h, Responded(200, ""));
    batches := h.state.batches;
    remaining := h.state.buf;
  }
}
