/** The sink that drops every record. */
module Discard {
  import opened Wrappers
  import opened XErrors
  import opened Records

  const DiscardHandlerType: string := "discard"

  /** The standard library's discarding handler, which this sink wraps. */
  datatype SlogDiscardHandler = SlogDiscardHandler

  /** The discard sink: it holds only the wrapped standard handler. */
  datatype DiscardHandler = DiscardHandler(handler: SlogDiscardHandler)

  /** The constructor never fails. */
  function NewDiscardHandler(): (r: Result<DiscardHandler, Error>)
    ensures r.Success?
  {
    Success(DiscardHandler(SlogDiscardHandler))
  }

  /** No level is ever enabled. */
  function Enabled(h: DiscardHandler, level: int): (b: bool)
    ensures !b
  {
    false
  }

  /** Handling succeeds and does nothing. */
  function Handle(h: DiscardHandler, r: Record): (err: Option<Error>)
    ensures err.None?
  {
    None
  }

  /** Closing succeeds. */
  function Close(h: DiscardHandler): (err: Option<Error>)
    ensures err.None?
  {
    None
  }

  /** The only child handler is the wrapped standard handler. */
  function ChildHandlers(h: DiscardHandler): (cs: seq<SlogDiscardHandler>)
    ensures cs == [h.handler]
  {
    [h.handler]
  }

  /** The type name under which the sink is registered. */
  function Type(h: DiscardHandler): (t: string)
    ensures t == DiscardHandlerType
  {
    DiscardHandlerType
  }

  /** Extending with attributes is delegated to the wrapped handler, which returns itself: the result
      is the standard discarding handler, not a DiscardHandler. */
  function WithAttrs(h: DiscardHandler, attrs: seq<Attr>): (r: SlogDiscardHandler)
    ensures r == h.handler
  {
    SlogWithAttrs(h.handler, attrs)
  }

  /** Opening a group is delegated likewise; the empty name gets no special treatment here. */
  function WithGroup(h: DiscardHandler, name: string): (r: SlogDiscardHandler)
    ensures r == h.handler
  {
    SlogWithGroup(h.handler, name)
  }

  /** The standard discarding handler returns itself from both extensions and is never enabled. */
  function SlogWithAttrs(d: SlogDiscardHandler, attrs: seq<Attr>): SlogDiscardHandler { d }
  function SlogWithGroup(d: SlogDiscardHandler, name: string): SlogDiscardHandler { d }
}
