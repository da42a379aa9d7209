/** The standard-library handlers that the console and file sinks wrap. Their output format is not
    modelled; a wrapped handler is described by its kind, its destination and the extensions applied. */
module Slog {
  import opened Records

  /** Where a wrapped handler writes. `Writer` is a writer object owned by a file sink. */
  datatype Dest = Stdout | Stderr | Writer(w: object)

  /** The kind of wrapped handler: JSON lines, key=value text, or colourised "pretty" text. */
  datatype Kind = JSONHandler | TextHandler | TintHandler(noColor: bool)

  /** One extension applied to a wrapped handler. */
  datatype Extension = AddAttrs(attrs: seq<Attr>) | OpenGroup(name: string)

  /** A wrapped handler. */
  datatype Inner = Inner(kind: Kind, dest: Dest, addSource: bool, extensions: seq<Extension>)

  /** A wrapped handler with no extensions yet. */
  function NewInner(kind: Kind, dest: Dest, addSource: bool): (i: Inner)
    ensures i.extensions == []
  {
    Inner(kind, dest, addSource, [])
  }

  /** The wrapped handler's WithAttrs: the same handler with the attributes appended to its extensions. */
  function WithAttrs(i: Inner, attrs: seq<Attr>): (r: Inner)
    ensures r.kind == i.kind && r.dest == i.dest && r.addSource == i.addSource
    ensures r.extensions == i.extensions + [AddAttrs(attrs)]
  {
    i.(extensions := i.extensions + [AddAttrs(attrs)])
  }

  /** The wrapped handler's WithGroup: the same handler with the group appended to its extensions. */
  function WithGroup(i: Inner, name: string): (r: Inner)
    ensures r.kind == i.kind && r.dest == i.dest && r.addSource == i.addSource
    ensures r.extensions == i.extensions + [OpenGroup(name)]
  {
    i.(extensions := i.extensions + [OpenGroup(name)])
  }
}
