/** The in-memory log record and its conversion into a keyed map. */
module Records {
  import opened Wrappers

  /** A non-group attribute value; its underlying Go value is kept as a tagged scalar. `Caller` is a
      call-site value stored as an attribute. */
  datatype Scalar = Str(s: string) | Int(i: int) | Bool(b: bool) | Caller(src: Source) | Other(repr: string)

  /** An attribute value: a scalar, or a group of further attributes (nested to any depth). */
  datatype Value = Leaf(scalar: Scalar) | Group(attrs: seq<Attr>)

  /** A key/value pair attached to a record or a handler. */
  datatype Attr = Attr(key: string, value: Value)

  /** The call site of a log call, as resolved from the record's program counter. */
  datatype Source = Source(file: string, line: int, func: string)

  /** One log event. `source` is present exactly when the record carries a program counter. */
  datatype Record = Record(time: int, level: int, message: string, attrs: seq<Attr>, source: Option<Source>)

  /** The untyped values of the produced map. The level's text form is left symbolic. */
  datatype Any =
    | ScalarValue(scalar: Scalar)
    | Dict(entries: map<string, Any>)
    | TimeValue(time: int)
    | LevelName(level: int)
    | Text(text: string)
    | Number(n: int)

  const TimeKey: string := "time"
  const LevelKey: string := "level"
  const MessageKey: string := "msg"
  const SourceKey: string := "source"
  const AttrsKey: string := "attrs"
  const FileKey: string := "file"
  const LineKey: string := "line"
  const FunctionKey: string := "function"

  /** A group becomes a nested map over its attributes; any other value becomes its underlying value. */
  function ResolveValue(v: Value): (r: Any)
    decreases v
  {
    match v
    case Leaf(s) => ScalarValue(s)
    case Group(attrs) => Dict(ResolveAttrs(attrs))
  }

  /** The map built by storing each attribute's resolved value under its key, first to last. */
  function ResolveAttrs(attrs: seq<Attr>): (r: map<string, Any>)
    decreases attrs
  {
    if attrs == [] then map[]
    else
      var last := attrs[|attrs| - 1];
      ResolveAttrs(attrs[..|attrs| - 1])[last.key := ResolveValue(last.value)]
  }

  /** Position i holds the last attribute with key k. */
  ghost predicate LastWithKey(attrs: seq<Attr>, k: string, i: int)
  {
    0 <= i < |attrs| && attrs[i].key == k && forall j :: i < j < |attrs| ==> attrs[j].key != k
  }

  /** A key is in the resolved map iff some attribute has it. */
  lemma {:induction false} ResolveAttrsKeys(attrs: seq<Attr>, k: string)
    ensures k in ResolveAttrs(attrs) <==> exists i :: 0 <= i < |attrs| && attrs[i].key == k
    decreases |attrs|
  {
    if attrs != [] {
      var n := |attrs| - 1;
      var init := attrs[..n];
      ResolveAttrsKeys(init, k);
      if attrs[n].key == k {
        assert k in ResolveAttrs(attrs);
      } else {
        assert k in ResolveAttrs(attrs) <==> k in ResolveAttrs(init);
        if exists i :: 0 <= i < |attrs| && attrs[i].key == k {
          var i :| 0 <= i < |attrs| && attrs[i].key == k;
          assert init[i].key == k;
        }
        if exists i :: 0 <= i < |init| && init[i].key == k {
          var i :| 0 <= i < |init| && init[i].key == k;
          assert attrs[i].key == k;
        }
      }
    }
  }

  /** Later attributes overwrite earlier ones: a key holds the resolved value of the LAST attribute with it. */
  lemma {:induction false} ResolveAttrsLastWins(attrs: seq<Attr>, k: string, i: int)
    requires LastWithKey(attrs, k, i)
    ensures k in ResolveAttrs(attrs) && ResolveAttrs(attrs)[k] == ResolveValue(attrs[i].value)
    decreases |attrs|
  {
    var n := |attrs| - 1;
    var init := attrs[..n];
    if i < n {
      assert LastWithKey(init, k, i);
      ResolveAttrsLastWins(init, k, i);
      assert attrs[n].key != k;
    }
  }

  /** The resolved map is empty exactly when there are no attributes. */
  lemma ResolveAttrsEmpty(attrs: seq<Attr>)
    ensures |ResolveAttrs(attrs)| == 0 <==> attrs == []
  {
    if attrs != [] {
      assert attrs[|attrs| - 1].key in ResolveAttrs(attrs);
    }
  }

  /** The caller map stored under SourceKey. */
  function SourceMap(src: Source): map<string, Any>
  {
    map[FileKey := Text(src.file), LineKey := Number(src.line), FunctionKey := Text(src.func)]
  }

  /** Converts an optional record into an optional map: a nil record gives a nil map; otherwise the map holds
      the time, level and message, the caller when the record has one, and the attributes when there are any. */
  method RecordToMap(r: Option<Record>) returns (m: Option<map<string, Any>>)
    ensures r.None? <==> m.None?
    ensures r.Some? ==>
      && TimeKey in m.value && m.value[TimeKey] == TimeValue(r.value.time)
      && LevelKey in m.value && m.value[LevelKey] == LevelName(r.value.level)
      && MessageKey in m.value && m.value[MessageKey] == Text(r.value.message)
    ensures r.Some? ==> (SourceKey in m.value <==> r.value.source.Some?)
    ensures r.Some? && r.value.source.Some? ==> m.value[SourceKey] == Dict(SourceMap(r.value.source.value))
    ensures r.Some? ==> (AttrsKey in m.value <==> r.value.attrs != [])
    ensures r.Some? && AttrsKey in m.value ==> m.value[AttrsKey] == Dict(ResolveAttrs(r.value.attrs))
    ensures r.Some? ==> m.value.Keys <= {TimeKey, LevelKey, MessageKey, SourceKey, AttrsKey}
  {
    if r.None? {
      return None;
    }
    var rec := r.value;
    var out: map<string, Any> := map[];
    out := out[TimeKey := TimeValue(rec.time)];
    out := out[LevelKey := LevelName(rec.level)];
    out := out[MessageKey := Text(rec.message)];
    if rec.source.Some? {
      out := out[SourceKey := Dict(SourceMap(rec.source.value))];
    }
    var attrs: map<string, Any> := map[];
    var i := 0;
    while i < |rec.attrs|
      invariant 0 <= i <= |rec.attrs|
      invariant attrs == ResolveAttrs(rec.attrs[..i])
    {
      var a := rec.attrs[i];
      assert rec.attrs[..i + 1][..i] == rec.attrs[..i];
      attrs := attrs[a.key := ResolveValue(a.value)];
      i := i + 1;
    }
    assert rec.attrs[..i] == rec.attrs;
    ResolveAttrsEmpty(rec.attrs);
    if |attrs| > 0 {
      out := out[AttrsKey := Dict(attrs)];
    }
    return Some(out);
  }
}
