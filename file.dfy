/** The file sink: JSON lines written to a rotating log file, optionally through a buffer. */
module File {
  import opened Wrappers
  import opened XErrors
  import opened Records
  import opened Levels
  import Slog

  const FileHandlerType: string := "file"

  /** Package defaults for absent path settings. Modes are octal 0755 and 0640. */
  const DefaultAutoChmod: bool := true
  const DefaultAutoChown: bool := false
  const DefaultAutoCreateParent: bool := true
  const DefaultDirMode: int := 493
  const DefaultFileMode: int := 416

  /** The log file's path settings. A mode of 0 and an owner or group of -1 mean "use the default". */
  datatype PathOptions = PathOptions(
    autoChmod: bool, autoChown: bool, autoCreateParent: bool,
    dirMode: int, fileMode: int, fsPath: string, group: int, owner: int)

  /** The file sink's options; `level` and `maxLevel` are nil until set. */
  datatype FileOptions = FileOptions(
    bufferSize: nat,
    compress: bool,
    errorHandler: Option<ErrorHandlerFn<Record>>,
    file: PathOptions,
    includeCaller: bool,
    level: Option<LevelVar>,
    maxAge: int,
    maxCount: int,
    maxLevel: Option<LevelVar>,
    maxSize: int)

  /** The path settings as decoded from JSON: each one may be absent. */
  datatype JsonPathOptions = JsonPathOptions(
    autoChmod: Option<bool>, autoChown: Option<bool>, autoCreateParent: Option<bool>,
    dirMode: Option<int>, fileMode: Option<int>, fsPath: Option<string>, group: Option<int>, owner: Option<int>)

  /** The options as decoded from JSON, before defaulting; an absent level is the empty string. */
  datatype JsonFileOptions = JsonFileOptions(
    bufferSize: nat, compress: bool, file: JsonPathOptions, includeCaller: bool,
    level: string, maxAge: int, maxCount: int, maxLevel: string, maxSize: int)

  /** The rotating log file writer. */
  class RotatingFile {
    const compress: bool
    const filename: string
    const maxAge: int
    const maxBackups: int
    const maxSize: int

    constructor (compress: bool, filename: string, maxAge: int, maxBackups: int, maxSize: int)
      ensures this.compress == compress && this.filename == filename
      ensures this.maxAge == maxAge && this.maxBackups == maxBackups && this.maxSize == maxSize
    {
      this.compress := compress;
      this.filename := filename;
      this.maxAge := maxAge;
      this.maxBackups := maxBackups;
      this.maxSize := maxSize;
    }
  }

  /** The buffered writer in front of the log file. */
  class BufferedWriter {
    const target: RotatingFile
    const size: nat

    constructor (target: RotatingFile, size: nat)
      ensures this.target == target && this.size == size
    {
      this.target := target;
      this.size := size;
    }
  }

  /** The file sink. Clones share the two writers. */
  datatype FileHandler = FileHandler(
    bufferedWriter: Option<BufferedWriter>,
    fileWriter: Option<RotatingFile>,
    handler: Slog.Inner,
    options: FileOptions)

  /** The path settings the decoder produces: a present field is copied, an absent one takes the package
      default (the three flags), 0 (the modes), "" (the path) or -1 (owner and group). */
  function DecodedPath(j: JsonPathOptions): PathOptions
  {
    PathOptions(
      if j.autoChmod.Some? then j.autoChmod.value else DefaultAutoChmod,
      if j.autoChown.Some? then j.autoChown.value else DefaultAutoChown,
      if j.autoCreateParent.Some? then j.autoCreateParent.value else DefaultAutoCreateParent,
      if j.dirMode.Some? then j.dirMode.value else 0,
      if j.fileMode.Some? then j.fileMode.value else 0,
      if j.fsPath.Some? then j.fsPath.value else "",
      if j.group.Some? then j.group.value else -1,
      if j.owner.Some? then j.owner.value else -1)
  }

  /** Decoding a path setting that is already present in every field gives back those fields. */
  lemma DecodedPathOfPresent(p: PathOptions)
    ensures DecodedPath(JsonPathOptions(Some(p.autoChmod), Some(p.autoChown), Some(p.autoCreateParent),
      Some(p.dirMode), Some(p.fileMode), Some(p.fsPath), Some(p.group), Some(p.owner))) == p
  {
  }

  /** Decodes the path settings: a present field is copied, an absent one takes the package default
      (the three flags), 0 (the modes), "" (the path) or -1 (owner and group). */
  method DecodePathOptions(j: JsonPathOptions) returns (p: PathOptions)
    ensures j.autoChmod.Some? ==> p.autoChmod == j.autoChmod.value
    ensures j.autoChmod.None? ==> p.autoChmod == DefaultAutoChmod
    ensures j.autoChown.Some? ==> p.autoChown == j.autoChown.value
    ensures j.autoChown.None? ==> p.autoChown == DefaultAutoChown
    ensures j.autoCreateParent.Some? ==> p.autoCreateParent == j.autoCreateParent.value
    ensures j.autoCreateParent.None? ==> p.autoCreateParent == DefaultAutoCreateParent
    ensures j.dirMode.Some? ==> p.dirMode == j.dirMode.value
    ensures j.dirMode.None? ==> p.dirMode == 0
    ensures j.fileMode.Some? ==> p.fileMode == j.fileMode.value
    ensures j.fileMode.None? ==> p.fileMode == 0
    ensures j.fsPath.Some? ==> p.fsPath == j.fsPath.value
    ensures j.fsPath.None? ==> p.fsPath == ""
    ensures j.group.Some? ==> p.group == j.group.value
    ensures j.group.None? ==> p.group == -1
    ensures j.owner.Some? ==> p.owner == j.owner.value
    ensures j.owner.None? ==> p.owner == -1
    ensures p == DecodedPath(j)
  {
    var autoChmod := DefaultAutoChmod;
    if j.autoChmod.Some? {
      autoChmod := j.autoChmod.value;
    }
    var autoChown := DefaultAutoChown;
    if j.autoChown.Some? {
      autoChown := j.autoChown.value;
    }
    var autoCreateParent := DefaultAutoCreateParent;
    if j.autoCreateParent.Some? {
      autoCreateParent := j.autoCreateParent.value;
    }
    var dirMode := 0;
    if j.dirMode.Some? {
      dirMode := j.dirMode.value;
    }
    var fileMode := 0;
    if j.fileMode.Some? {
      fileMode := j.fileMode.value;
    }
    var fsPath := "";
    if j.fsPath.Some? {
      fsPath := j.fsPath.value;
    }
    var group := -1;
    if j.group.Some? {
      group := j.group.value;
    }
    var owner := -1;
    if j.owner.Some? {
      owner := j.owner.value;
    }
    p := PathOptions(autoChmod, autoChown, autoCreateParent, dirMode, fileMode, fsPath, group, owner);
  }

  /** Decodes already-parsed JSON fields into the receiver `o`: the level texts first (a failure returns
      with the rest untouched), then the path settings, then the plain fields. */
  method UnmarshalJSON(o: FileOptions, j: JsonFileOptions, parseLevel: string -> Option<int>)
    returns (o': FileOptions, err: Option<Error>)
    ensures err.None? <==>
      (j.level == "" || parseLevel(j.level).Some?) && (j.maxLevel == "" || parseLevel(j.maxLevel).Some?)
    ensures o'.errorHandler == o.errorHandler
    ensures err.Some? ==> o'.file == o.file && o'.bufferSize == o.bufferSize
    ensures j.level == "" ==> o'.level == o.level
    ensures err.None? && j.level != "" ==>
      o'.level.Some? && fresh(o'.level.value) && o'.level.value.level == parseLevel(j.level).value
    ensures err.None? && j.maxLevel == "" ==> o'.maxLevel == o.maxLevel
    ensures err.None? && j.maxLevel != "" ==>
      o'.maxLevel.Some? && fresh(o'.maxLevel.value) && o'.maxLevel.value.level == parseLevel(j.maxLevel).value
    ensures err.None? ==>
      && (j.file.dirMode.None? ==> o'.file.dirMode == 0)
      && (j.file.owner.None? ==> o'.file.owner == -1)
      && (j.file.group.None? ==> o'.file.group == -1)
      && (j.file.fsPath.Some? ==> o'.file.fsPath == j.file.fsPath.value)
    ensures err.None? ==> o'.file == DecodedPath(j.file)
    ensures err.None? ==>
      o'.bufferSize == j.bufferSize && o'.compress == j.compress && o'.includeCaller == j.includeCaller
      && o'.maxAge == j.maxAge && o'.maxCount == j.maxCount && o'.maxSize == j.maxSize
  {
    o' := o;
    if j.level != "" {
      var parsed := parseLevel(j.level);
      if parsed.None? {
        return o', Some(Formatted("failed to parse level '" + j.level + "' for console handler", None));
      }
      var lv := new LevelVar(parsed.value);
      o' := o'.(level := Some(lv));
    }
    if j.maxLevel != "" {
      var parsed := parseLevel(j.maxLevel);
      if parsed.None? {
        return o', Some(Formatted("failed to parse max level '" + j.maxLevel + "' for console handler", None));
      }
      var lv := new LevelVar(parsed.value);
      o' := o'.(maxLevel := Some(lv));
    }
    var path := DecodePathOptions(j.file);
    o' := o'.(file := path);
    o' := o'.(bufferSize := j.bufferSize, compress := j.compress, includeCaller := j.includeCaller,
              maxAge := j.maxAge, maxCount := j.maxCount, maxSize := j.maxSize);
    return o', None;
  }

  /** The path settings after the constructor's defaulting: a 0 mode takes the package mode, and an owner
      or group of -1 takes the process's user or group id. */
  function PathDefaults(p: PathOptions, uid: int, gid: int): (q: PathOptions)
    ensures q.dirMode == (if p.dirMode == 0 then DefaultDirMode else p.dirMode)
    ensures q.fileMode == (if p.fileMode == 0 then DefaultFileMode else p.fileMode)
    ensures q.owner == (if p.owner == -1 then uid else p.owner)
    ensures q.group == (if p.group == -1 then gid else p.group)
    ensures q.autoChmod == p.autoChmod && q.autoChown == p.autoChown
    ensures q.autoCreateParent == p.autoCreateParent && q.fsPath == p.fsPath
  {
    p.(dirMode := if p.dirMode == 0 then DefaultDirMode else p.dirMode,
       fileMode := if p.fileMode == 0 then DefaultFileMode else p.fileMode,
       owner := if p.owner == -1 then uid else p.owner,
       group := if p.group == -1 then gid else p.group)
  }

  /** After defaulting, no mode is 0 and, for real process ids, no owner or group is -1; so defaulting
      a second time changes nothing. */
  lemma PathDefaultsSettle(p: PathOptions, uid: int, gid: int)
    requires uid >= 0 && gid >= 0
    ensures var q := PathDefaults(p, uid, gid);
      q.dirMode != 0 && q.fileMode != 0 && q.owner != -1 && q.group != -1
      && PathDefaults(q, uid, gid) == q
  {
  }

  /** The constructor's defaulting steps for the path settings, one field at a time. */
  method ApplyPathDefaults(p: PathOptions, uid: int, gid: int) returns (q: PathOptions)
    ensures q == PathDefaults(p, uid, gid)
  {
    var dirMode := p.dirMode;
    if dirMode == 0 {
      dirMode := DefaultDirMode;
    }
    var fileMode := p.fileMode;
    if fileMode == 0 {
      fileMode := DefaultFileMode;
    }
    var owner := p.owner;
    if owner == -1 {
      owner := uid;
    }
    var group := p.group;
    if group == -1 {
      group := gid;
    }
    q := p.(dirMode := dirMode, fileMode := fileMode, owner := owner, group := group);
  }

  /** Builds the sink. The level defaults to the package level; the path settings are defaulted
      (`uid` and `gid` stand for the process ids); `openLog` stands for creating the log file (it yields its
      name or an error that is returned as is) and `absPath` for making that name absolute (its failure is
      wrapped as an options validation error). A buffered writer is installed iff the buffer size is positive. */
  method NewFileHandler(options: FileOptions, defaults: LevelDefaults, uid: int, gid: int,
                        openLog: PathOptions -> Result<string, Error>, absPath: string -> Result<string, Error>)
    returns (r: Result<FileHandler, Error>)
    ensures var path := PathDefaults(options.file, uid, gid);
      && (openLog(path).Failure? ==> r == Failure(openLog(path).error))
      && (openLog(path).Success? && absPath(openLog(path).value).Failure? ==>
            r.Failure? && HasCode(r.error, OptionsValidationError))
      && (r.Success? <==> openLog(path).Success? && absPath(openLog(path).value).Success?)
    ensures r.Success? ==>
      var h := r.value;
      var name := absPath(openLog(PathDefaults(options.file, uid, gid)).value).value;
      && h.options == options.(level := h.options.level, file := PathDefaults(options.file, uid, gid).(fsPath := name))
      && h.options.level.Some?
      && (options.level.Some? ==> h.options.level == options.level)
      && (options.level.None? ==> fresh(h.options.level.value) && h.options.level.value.level == defaults.file)
      && h.fileWriter.Some? && fresh(h.fileWriter.value)
      && h.fileWriter.value.filename == name && h.fileWriter.value.compress == options.compress
      && h.fileWriter.value.maxAge == options.maxAge && h.fileWriter.value.maxBackups == options.maxCount
      && h.fileWriter.value.maxSize == options.maxSize
      && (h.bufferedWriter.Some? <==> options.bufferSize > 0)
      && (h.bufferedWriter.Some? ==>
            fresh(h.bufferedWriter.value) && h.bufferedWriter.value.target == h.fileWriter.value
            && h.bufferedWriter.value.size == options.bufferSize
            && h.handler.dest == Slog.Writer(h.bufferedWriter.value))
      && (h.bufferedWriter.None? ==> h.handler.dest == Slog.Writer(h.fileWriter.value))
      && h.handler.kind == Slog.JSONHandler && h.handler.addSource == options.includeCaller
      && h.handler.extensions == []
  {
    var opts := options;
    if opts.level.None? {
      var lv := new LevelVar(defaults.file);
      opts := opts.(level := Some(lv));
    }
    var path := ApplyPathDefaults(opts.file, uid, gid);
    opts := opts.(file := path);
    var created := openLog(path);
    if created.Failure? {
      return Failure(created.error);
    }
    var absolute := absPath(created.value);
    if absolute.Failure? {
      return Failure(Coded(OptionsValidationError,
        "failed to convert log file path '" + created.value + "' to an absolute path", Some(absolute.error)));
    }
    var filename := absolute.value;
    opts := opts.(file := opts.file.(fsPath := filename));
    var fileWriter := new RotatingFile(opts.compress, filename, opts.maxAge, opts.maxCount, opts.maxSize);
    var dest: Slog.Dest := Slog.Writer(fileWriter);
    var buffered: Option<BufferedWriter> := None;
    if opts.bufferSize > 0 {
      var bw := new BufferedWriter(fileWriter, opts.bufferSize);
      buffered := Some(bw);
      dest := Slog.Writer(bw);
    }
    var inner := Slog.NewInner(Slog.JSONHandler, dest, opts.includeCaller);
    return Success(FileHandler(buffered, Some(fileWriter), inner, opts));
  }

  /** The effectful steps of Close, in the order attempted. */
  datatype CloseStep = FlushBuffer | CloseFile

  /** Closing flushes the buffer (if any) and then closes the file (if any). `flushResult` and `closeResult`
      stand for what those writer calls would return; a flush failure is returned at once and the file is
      left open. */
  method Close(h: FileHandler, flushResult: Option<Error>, closeResult: Option<Error>)
    returns (err: Option<Error>, ghost steps: seq<CloseStep>)
    ensures var flushFailed := h.bufferedWriter.Some? && flushResult.Some?;
      steps == (if h.bufferedWriter.Some? then [FlushBuffer] else [])
               + (if h.fileWriter.Some? && !flushFailed then [CloseFile] else [])
    ensures h.bufferedWriter.Some? && flushResult.Some? ==> err == flushResult
    ensures !(h.bufferedWriter.Some? && flushResult.Some?) && h.fileWriter.Some? ==> err == closeResult
    ensures !(h.bufferedWriter.Some? && flushResult.Some?) && h.fileWriter.None? ==> err.None?
  {
    steps := [];
    if h.bufferedWriter.Some? {
      steps := steps + [FlushBuffer];
      if flushResult.Some? {
        return flushResult, steps;
      }
    }
    if h.fileWriter.Some? {
      steps := steps + [CloseFile];
      if closeResult.Some? {
        return closeResult, steps;
      }
    }
    return None, steps;
  }

  /** The level gate, as written (the same rule as the console sink's). */
  function Enabled(h: FileHandler, level: int): (b: bool)
    requires h.options.level.Some?
    reads h.options.level.value
    ensures h.options.maxLevel.None? ==> (b <==> level >= h.options.level.value.level)
    ensures h.options.maxLevel.Some? ==> (b <==> level == h.options.level.value.level)
  {
    EnabledAsWritten(level, h.options.level.value, h.options.maxLevel)
  }

  /** Handling passes the wrapped handler's result, `written`, through the error handler when it failed. */
  function Handle(h: FileHandler, r: Record, written: Option<Error>): (err: Option<Error>)
    ensures written.None? ==> err.None?
    ensures written.Some? && h.options.errorHandler.None? ==> err == written
    ensures written.Some? && h.options.errorHandler.Some? ==>
      err == h.options.errorHandler.value(written.value, Some(r))
  {
    Route(h.options.errorHandler, written, Some(r))
  }

  /** The type name under which the sink is registered. */
  function Type(h: FileHandler): (t: string)
    ensures t == FileHandlerType
  {
    FileHandlerType
  }

  /** A clone sharing both writers and the options, whose wrapped handler carries the attributes. */
  function WithAttrs(h: FileHandler, attrs: seq<Attr>): (c: FileHandler)
    ensures c.bufferedWriter == h.bufferedWriter && c.fileWriter == h.fileWriter && c.options == h.options
    ensures c.handler == Slog.WithAttrs(h.handler, attrs)
  {
    h.(handler := Slog.WithAttrs(h.handler, attrs))
  }

  /** The empty group name returns the receiver; any other name gives a clone sharing both writers. */
  function WithGroup(h: FileHandler, name: string): (c: FileHandler)
    ensures name == "" ==> c == h
    ensures name != "" ==>
      c.bufferedWriter == h.bufferedWriter && c.fileWriter == h.fileWriter && c.options == h.options
      && c.handler == Slog.WithGroup(h.handler, name)
  {
    if |name| == 0 then h else h.(handler := Slog.WithGroup(h.handler, name))
  }
}
