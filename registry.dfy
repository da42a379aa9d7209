/** The registry of builder factories, keyed by normalised handler type name. */
module Registry {
  import opened Wrappers
  import opened XErrors
  import Strings
  import Console
  import Discard
  import Fanout
  import File
  import Forwarder

  /** A factory that makes a builder from raw JSON options: the five built-in ones, or one the application
      registers (told apart by a number). */
  datatype Factory =
    | ConsoleFactory
    | DiscardFactory
    | FanoutFactory
    | FileFactory
    | SentinelOneFactory
    | CustomFactory(id: nat)

  /** The type name that the builders a built-in factory makes report; unknown for custom factories. */
  function BuilderType(f: Factory): (t: Option<string>)
    ensures t.None? <==> f.CustomFactory?
  {
    match f
    case ConsoleFactory => Some(Console.ConsoleHandlerType)
    case DiscardFactory => Some(Discard.DiscardHandlerType)
    case FanoutFactory => Some(Fanout.FanoutHandlerType)
    case FileFactory => Some(File.FileHandlerType)
    case SentinelOneFactory => Some(Forwarder.SentinelOneHECHandlerType)
    case CustomFactory(_) => None
  }

  /** The registry's contents when the package is initialised. */
  function InitialBuilders(): map<string, Factory>
  {
    map[Console.ConsoleHandlerType := ConsoleFactory,
        Discard.DiscardHandlerType := DiscardFactory,
        Fanout.FanoutHandlerType := FanoutFactory,
        File.FileHandlerType := FileFactory,
        Forwarder.SentinelOneHECHandlerType := SentinelOneFactory]
  }

  /** A key the registry can hold: non-empty and already normalised. */
  predicate IsKey(k: string)
  {
    k != "" && Strings.Normalize(k) == k
  }

  /** The initial registry holds exactly the five built-in names. */
  lemma InitialKeys()
    ensures InitialBuilders().Keys == {"console", "discard", "fanout", "file", "sentinelone:hec"}
  {
  }

  /** Every initial key is the type name of the builders its factory makes. */
  lemma InitialKeysAreTypes()
    ensures forall k :: k in InitialBuilders() ==> BuilderType(InitialBuilders()[k]) == Some(k)
  {
  }

  lemma {:induction false} NameIsKey(k: string)
    requires k != [] && !Strings.IsSpace(k[0]) && !Strings.IsSpace(k[|k| - 1])
    requires forall i :: 0 <= i < |k| ==> ('a' <= k[i] <= 'z' || k[i] == ':')
    ensures IsKey(k)
  {
    Strings.NormalizeOfNormal(k);
  }

  /** Every initial key is non-empty, lower-case and trimmed, so a normalised lookup finds it
      (see KeysFindTheirEntries). */
  lemma InitialKeysAreKeys(k: string)
    requires k in InitialBuilders()
    ensures IsKey(k)
  {
    if k == Console.ConsoleHandlerType {
      assert !Strings.IsSpace('c') && !Strings.IsSpace('e');
    } else if k == Discard.DiscardHandlerType {
      assert !Strings.IsSpace('d');
    } else if k == Fanout.FanoutHandlerType {
      assert !Strings.IsSpace('f') && !Strings.IsSpace('t');
    } else if k == File.FileHandlerType {
      assert !Strings.IsSpace('f') && !Strings.IsSpace('e');
    } else {
      assert !Strings.IsSpace('s') && !Strings.IsSpace('c');
    }
    NameIsKey(k);
  }

  /** The factory a type name finds, after normalisation. */
  function Lookup(builders: map<string, Factory>, handlerType: string): (f: Option<Factory>)
    ensures f.Some? <==> Strings.Normalize(handlerType) in builders
    ensures f.Some? ==> f.value == builders[Strings.Normalize(handlerType)]
  {
    var t := Strings.Normalize(handlerType);
    if t in builders then Some(builders[t]) else None
  }

  /** Case and surrounding white space never matter: a name and its normal form find the same factory. */
  lemma LookupIgnoresCaseAndSpace(builders: map<string, Factory>, handlerType: string)
    ensures Lookup(builders, Strings.Normalize(handlerType)) == Lookup(builders, handlerType)
  {
    Strings.NormalizeIdempotent(handlerType);
  }

  /** " FILE " finds the file factory in the initial registry. */
  lemma SpacedUpperCaseFileResolves()
    ensures Lookup(InitialBuilders(), " FILE ") == Some(FileFactory)
  {
    var l := Strings.ToLower(" FILE ");
    Strings.ToLowerPointwise(" FILE ");
    assert l == " file " by {
      assert l[0] == Strings.LowerChar(' ') == ' ';
      assert l[1] == Strings.LowerChar('F') == 'f';
      assert l[2] == Strings.LowerChar('I') == 'i';
      assert l[3] == Strings.LowerChar('L') == 'l';
      assert l[4] == Strings.LowerChar('E') == 'e';
      assert l[5] == Strings.LowerChar(' ') == ' ';
    }
    assert Strings.IsSpace(' ') && !Strings.IsSpace('f') && !Strings.IsSpace('e');
    assert Strings.TrimLeft(" file ") == Strings.TrimLeft("file ") by { assert " file "[1..] == "file "; }
    assert Strings.TrimLeft("file ") == "file ";
    assert Strings.TrimRight("file ") == Strings.TrimRight("file") by { assert "file "[..4] == "file"; }
    assert Strings.TrimRight("file") == "file";
  }

  /** Accented capitals are lower-cased too: "\U{C9}CRAN" and "\U{E9}cran" find the same factory in any registry. */
  lemma AccentedCaseIgnored(builders: map<string, Factory>)
    ensures Strings.Normalize("\U{C9}CRAN") == "\U{E9}cran"
    ensures Lookup(builders, "\U{C9}CRAN") == Lookup(builders, "\U{E9}cran")
  {
    var l := Strings.ToLower("\U{C9}CRAN");
    Strings.ToLowerPointwise("\U{C9}CRAN");
    assert l == "\U{E9}cran" by {
      assert l[0] == Strings.LowerChar('\U{C9}') == '\U{E9}';
      assert l[1] == Strings.LowerChar('C') == 'c';
      assert l[2] == Strings.LowerChar('R') == 'r';
      assert l[3] == Strings.LowerChar('A') == 'a';
      assert l[4] == Strings.LowerChar('N') == 'n';
    }
    assert !Strings.IsSpace('\U{E9}') && !Strings.IsSpace('n');
    assert Strings.IsLower("\U{E9}cran");
    Strings.NormalizeOfNormal("\U{E9}cran");
    Strings.TrimSpaceOfTrimmed("\U{E9}cran");
  }

  /** Under the registry's invariant every stored key finds its own entry. */
  lemma KeysFindTheirEntries(builders: map<string, Factory>)
    requires forall k :: k in builders ==> IsKey(k)
    ensures forall k :: k in builders ==> Lookup(builders, k) == Some(builders[k])
  {
  }

  /** The message for an already registered name, as the code writes it: the format has a `%s` verb but
      no argument is passed, so Go's formatter prints its missing-operand marker instead of the name. */
  function ExistsMessageAsWritten(handlerType: string): string
  {
    "%!s(MISSING): handler type is already registered"
  }

  /** The intended message: the normalised name, then the complaint. */
  function ExistsMessage(handlerType: string): string
  {
    handlerType + ": handler type is already registered"
  }

  /** The intended message starts with the name, so different names give different messages. */
  lemma {:induction false} ExistsMessageNamesType(a: string, b: string)
    ensures ExistsMessage(a)[..|a|] == a
    ensures a != b ==> ExistsMessage(a) != ExistsMessage(b)
  {
    assert ExistsMessage(a)[..|a|] == a;
    if a != b && |a| == |b| {
      assert ExistsMessage(b)[..|b|] == b;
    }
  }

  /** As written, two different names give the same message, where the intended messages differ. */
  lemma ExistsMessageOmitsName(a: string, b: string)
    requires a != b
    ensures ExistsMessageAsWritten(a) == ExistsMessageAsWritten(b)
    ensures ExistsMessage(a) != ExistsMessage(b)
  {
    ExistsMessageNamesType(a, b);
  }

  /** The outcome of registering, checked in order: an empty normalised name, then a nil factory (both invalid
      parameters), then an existing name without overwrite. */
  function RegisterError(builders: map<string, Factory>, handlerType: string, factory: Option<Factory>, overwrite: bool)
    : (err: Option<Error>)
    ensures Strings.Normalize(handlerType) == "" ==>
      err == Some(Coded(InvalidParameter, "handler type cannot be empty", None))
    ensures Strings.Normalize(handlerType) != "" && factory.None? ==>
      err == Some(Coded(InvalidParameter, "factory function cannot be nil", None))
    ensures Strings.Normalize(handlerType) != "" && factory.Some? && Strings.Normalize(handlerType) in builders && !overwrite ==>
      err.Some? && HasCode(err.value, HandlerTypeExists)
      && err == Some(Coded(HandlerTypeExists, ExistsMessage(Strings.Normalize(handlerType)), None))
    ensures err.None? <==>
      Strings.Normalize(handlerType) != "" && factory.Some? && (overwrite || Strings.Normalize(handlerType) !in builders)
  {
    var t := Strings.Normalize(handlerType);
    if t == "" then Some(Coded(InvalidParameter, "handler type cannot be empty", None))
    else if factory.None? then Some(Coded(InvalidParameter, "factory function cannot be nil", None))
    else if t in builders && !overwrite then Some(Coded(HandlerTypeExists, ExistsMessage(t), None))
    else None
  }

  /** Re-registering a built-in name without overwrite fails, whatever the factory. */
  lemma BuiltinsCannotBeReplacedSilently(k: string, f: Factory)
    requires k in InitialBuilders()
    ensures var err := RegisterError(InitialBuilders(), k, Some(f), false);
      err.Some? && HasCode(err.value, HandlerTypeExists)
  {
    InitialKeysAreKeys(k);
  }

  /** The registry: the factories by normalised type name. */
  class Registry {
    var builders: map<string, Factory>

    /** Every key is non-empty and normalised. */
    ghost predicate Valid()
      reads this
    {
      forall k :: k in builders ==> IsKey(k)
    }

    /** The package initialisation: the five built-in factories. */
    constructor ()
      ensures builders == InitialBuilders()
      ensures Valid()
    {
      builders := InitialBuilders();
      forall k | k in InitialBuilders()
        ensures IsKey(k)
      {
        InitialKeysAreKeys(k);
      }
    }

    /** Registers a factory under the normalised name. On failure nothing changes; on success that one entry
        is set (replacing an old one only with overwrite) and every other entry is unchanged. */
    method RegisterBuilder(handlerType: string, factory: Option<Factory>, overwrite: bool) returns (err: Option<Error>)
      requires Valid()
      modifies this
      ensures Valid()
      ensures err == RegisterError(old(builders), handlerType, factory, overwrite)
      ensures err.Some? ==> builders == old(builders)
      ensures err.None? ==> builders == old(builders)[Strings.Normalize(handlerType) := factory.value]
    {
      var t := Strings.Normalize(handlerType);
      if t == "" {
        return Some(Coded(InvalidParameter, "handler type cannot be empty", None));
      }
      if factory.None? {
        return Some(Coded(InvalidParameter, "factory function cannot be nil", None));
      }
      if t in builders && !overwrite {
        return Some(Coded(HandlerTypeExists, ExistsMessage(t), None));
      }
      Strings.NormalizeIdempotent(handlerType);
      builders := builders[t := factory.value];
      return None;
    }

    /** Makes a builder from a type name and options. `marshalled` stands for the options encoded as JSON (or
        the encoding failure) and `make` for calling a factory; the factory's result is returned as is. */
    method NewBuilderFromConfig<B>(handlerType: string, marshalled: Result<seq<int>, Error>,
                                   make: (Factory, seq<int>) -> Result<B, Error>)
      returns (r: Result<B, Error>)
      ensures marshalled.Failure? ==> r.Failure? && HasCode(r.error, MarshalError) && r.error.cause == Some(marshalled.error)
      ensures marshalled.Success? && Lookup(builders, handlerType).Some? ==>
        r == make(Lookup(builders, handlerType).value, marshalled.value)
      ensures marshalled.Success? && Lookup(builders, handlerType).None? ==>
        r.Failure? && HasCode(r.error, UnsupportedHandlerType)
    {
      var t := Strings.Normalize(handlerType);
      if marshalled.Failure? {
        return Failure(Coded(MarshalError, "failed to marshal handler options to JSON", Some(marshalled.error)));
      }
      if t in builders {
        return make(builders[t], marshalled.value);
      }
      return Failure(Coded(UnsupportedHandlerType, "unsupported handler type: " + t, None));
    }
  }

  /** After a successful registration, every spelling of the name that normalises the same finds the new
      factory, and every other name finds what it found before. */
  lemma RegisterThenLookup(builders: map<string, Factory>, handlerType: string, f: Factory, overwrite: bool, other: string)
    requires RegisterError(builders, handlerType, Some(f), overwrite).None?
    ensures var after := builders[Strings.Normalize(handlerType) := f];
      && (Strings.Normalize(other) == Strings.Normalize(handlerType) ==> Lookup(after, other) == Some(f))
      && (Strings.Normalize(other) != Strings.Normalize(handlerType) ==> Lookup(after, other) == Lookup(builders, other))
  {
  }
}
