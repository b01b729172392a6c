/** The meaning of one command line: what each handler does to the session
    state, what it prints, and when it throws; then `handleCommand`, which
    tokenizes, dispatches, turns every exception into one message and always
    ends with the working-directory prompt. */
module Commands {
  import opened Wrappers
  import opened Host
  import Tokenizer
  import Listing

  /** The state a command can change: the working directory and the files. */
  datatype State = State(wd: Path, files: Store)

  /** How a handler ends: normally, having printed `out`, or by throwing
      (having printed nothing), in both cases leaving state `st`. */
  datatype Completion = Normal(st: State, out: seq<Output>) | Threw(st: State)

  /** What one `handleCommand` call leaves behind. */
  datatype StepResult = StepResult(st: State, out: seq<Output>, exited: bool)

  const InvalidCommand: string := "Invalid command"
  const OperationFailed: string := "Operation failed"

  /** The command names of the dispatch switch other than `.exit`. */
  const Handled: set<string> :=
    {"up", "cd", "ls", "cat", "add", "rn", "cp", "mv", "rm", "os", "hash", "compress", "decompress"}

  /** The commands whose handlers may change the files. */
  const Writers: set<string> := {"add", "rn", "cp", "mv", "rm", "compress", "decompress"}

  function Prompt(wd: Path): string {
    "You are currently in " + wd
  }

  function Welcome(username: string): string {
    "Welcome to the File Manager, " + username + "!"
  }

  function Farewell(username: string): string {
    "Thank you for using File Manager, " + username + ", goodbye!"
  }

  /** Destructuring `[a, b] = args`: a missing element is `undefined`. */
  function Arg(args: seq<string>, i: nat): (r: Option<string>)
    ensures r.Some? <==> i < |args|
    ensures r.Some? ==> r.value == args[i]
  {
    if i < |args| then Some(args[i]) else None
  }

  /** `inWorkingDir(segment)`: `path.resolve` throws on `undefined`. */
  function InWorkingDir(p: Platform, st: State, segment: Option<string>): Option<Path> {
    match segment
    case None => None
    case Some(s) => Some(p.resolve(st.wd, [s]))
  }

  /** `handleUp`: move to `path.resolve(workingDirectory, "..")`. */
  function Up(p: Platform, st: State): Completion {
    Normal(st.(wd := p.resolve(st.wd, [".."])), [])
  }

  /** `handleCd`: resolve the destination, check access, and only then
      commit it. */
  function Cd(p: Platform, st: State, args: seq<string>): Completion {
    match InWorkingDir(p, st, Arg(args, 0))
    case None => Threw(st)
    case Some(dir) =>
      if p.accessible(st.files, dir) then Normal(st.(wd := dir), []) else Threw(st)
  }

  /** `handleLs`: read the working directory and print the grouped table. */
  function Ls(p: Platform, st: State): Completion {
    match p.readdir(st.files, st.wd)
    case None => Threw(st)
    case Some(entries) => Normal(st, [Table(Listing.Group(entries))])
  }

  /** `streamToString`: the chunks decoded one by one and concatenated. */
  function DecodeChunks(chunks: seq<Bytes>, decode: Bytes -> string): string {
    if chunks == [] then ""
    else DecodeChunks(chunks[..|chunks| - 1], decode) + decode(chunks[|chunks| - 1])
  }

  /** `handleCat`: print the whole file as text. */
  function Cat(p: Platform, st: State, args: seq<string>): Completion {
    match InWorkingDir(p, st, Arg(args, 0))
    case None => Threw(st)
    case Some(file) =>
      if Readable(p, st.files, file) then Normal(st, [Line(DecodeChunks(p.chunks(st.files[file]), p.decode))])
      else Threw(st)
  }

  /** A read stream on `file` delivers its bytes: it is a regular file and
      reading it is allowed. */
  predicate Readable(p: Platform, files: Store, file: Path) {
    file in files && p.canRead(files, file)
  }

  /** `handleAdd`: `openSync(path, "w")` creates the file, or empties it. */
  function Add(p: Platform, st: State, args: seq<string>): Completion {
    match InWorkingDir(p, st, Arg(args, 0))
    case None => Threw(st)
    case Some(file) =>
      if p.canWrite(st.files, file) then Normal(st.(files := st.files[file := []]), []) else Threw(st)
  }

  /** The files after renaming `from` to `to`. */
  function Renamed(files: Store, from: Path, to: Path): Store
    requires from in files
  {
    (files - {from})[to := files[from]]
  }

  /** `handleRn`: `renameSync` of the two resolved paths. Renaming an entry
      that is not a regular file (a directory, a link) carries no bytes, and
      replaces a regular file at the new name. */
  function Rn(p: Platform, st: State, args: seq<string>): Completion {
    if |args| < 2 then Threw(st)
    else
      var from, to := p.resolve(st.wd, [args[0]]), p.resolve(st.wd, [args[1]]);
      if !p.canRename(st.files, from, to) then Threw(st)
      else if from in st.files then Normal(st.(files := Renamed(st.files, from, to)), [])
      else Normal(st.(files := st.files - {to}), [])
  }

  /** `stream.pipeline(createReadStream(src), transform?, createWriteStream(dst))`:
      the new files, or `None` when a stage fails. */
  function Pipe(p: Platform, files: Store, src: Path, dst: Path, transform: Bytes -> Option<Bytes>): Option<Store> {
    if !Readable(p, files, src) then None
    else match transform(files[src])
      case None => None
      case Some(data) => if p.canWrite(files, dst) then Some(files[dst := data]) else None
  }

  /** The identity stage of a plain copy. */
  function Copy(data: Bytes): Option<Bytes> {
    Some(data)
  }

  /** `handleCp`: copy into `destDir` under the source's base name. */
  function Cp(p: Platform, st: State, args: seq<string>): Completion {
    if |args| < 2 then Threw(st)
    else
      var src := p.resolve(st.wd, [args[0]]);
      var dst := p.resolve(st.wd, [args[1], p.basename(args[0])]);
      match Pipe(p, st.files, src, dst, Copy)
      case None => Threw(st)
      case Some(files) => Normal(st.(files := files), [])
  }

  /** `deleteFile`: `rmSync` of a resolved path. Removing an entry that is
      not a regular file (a link) leaves the regular files as they are. */
  function Remove(p: Platform, files: Store, file: Path): Option<Store> {
    if p.canRemove(files, file) then Some(files - {file}) else None
  }

  /** `handleMv`: copy to the exact destination, and only once that pipeline
      has completed, delete the source. A failed delete leaves the copy. */
  function Mv(p: Platform, st: State, args: seq<string>): Completion {
    if |args| < 2 then Threw(st)
    else
      var src := p.resolve(st.wd, [args[0]]);
      var dst := p.resolve(st.wd, [args[1]]);
      match Pipe(p, st.files, src, dst, Copy)
      case None => Threw(st)
      case Some(copied) =>
        match Remove(p, copied, p.resolve(st.wd, [args[0]]))
        case None => Threw(st.(files := copied))
        case Some(files) => Normal(st.(files := files), [])
  }

  /** `handleRm` */
  function Rm(p: Platform, st: State, args: seq<string>): Completion {
    match InWorkingDir(p, st, Arg(args, 0))
    case None => Threw(st)
    case Some(file) =>
      match Remove(p, st.files, file)
      case None => Threw(st)
      case Some(files) => Normal(st.(files := files), [])
  }

  /** The decimal numeral of `n`, as a template literal prints it. */
  function Decimal(n: nat): (s: string)
    ensures s != []
    ensures forall i :: 0 <= i < |s| ==> '0' <= s[i] <= '9'
    ensures n > 0 ==> s[0] != '0'
  {
    if n < 10 then [Digit(n)] else Decimal(n / 10) + [Digit(n % 10)]
  }

  function Digit(d: nat): (c: char)
    requires d < 10
  {
    ('0' as int + d) as char
  }

  /** The value of a string of decimal digits. */
  function DecimalValue(s: string): nat
    requires forall i :: 0 <= i < |s| ==> '0' <= s[i] <= '9'
  {
    if s == [] then 0 else DecimalValue(s[..|s| - 1]) * 10 + (s[|s| - 1] as int - '0' as int)
  }

  /** `handleOs`: one line (or the CPU table) per known flag; any other flag,
      or none, throws "Unknown flag". */
  function Os(p: Platform, st: State, args: seq<string>): Completion {
    match Arg(args, 0)
    case None => Threw(st)
    case Some(flag) =>
      if flag == "--EOL" then Normal(st, [Line(if p.eol == "\r\n" then "\\r\\n" else "\\n")])
      else if flag == "--cpus" then Normal(st, [Line("CPU count: " + Decimal(|p.cpus|)), CpuTable(p.cpus)])
      else if flag == "--homedir" then Normal(st, [Line(p.homedir)])
      else if flag == "--username" then Normal(st, [Line(p.userName)])
      else if flag == "--architecture" then Normal(st, [Line(p.arch)])
      else Threw(st)
  }

  /** `handleHash`: print the SHA-256 digest of the file in hex. */
  function Hash(p: Platform, st: State, args: seq<string>): Completion {
    match InWorkingDir(p, st, Arg(args, 0))
    case None => Threw(st)
    case Some(file) =>
      if Readable(p, st.files, file) then Normal(st, [Line(p.sha256Hex(st.files[file]))]) else Threw(st)
  }

  /** `handleCompress` and `handleDecompress`: a pipeline through a codec
      stage from the first to the second resolved path. */
  function Transcode(p: Platform, st: State, args: seq<string>, codec: Bytes -> Option<Bytes>): Completion {
    if |args| < 2 then Threw(st)
    else
      match Pipe(p, st.files, p.resolve(st.wd, [args[0]]), p.resolve(st.wd, [args[1]]), codec)
      case None => Threw(st)
      case Some(files) => Normal(st.(files := files), [])
  }

  function Compressor(p: Platform): Bytes -> Option<Bytes> {
    data => Some(p.brotliCompress(data))
  }

  /** The `switch (command)` of `handleCommand`, for every name but `.exit`. */
  function Dispatch(p: Platform, st: State, name: string, args: seq<string>): Completion {
    if name == "up" then Up(p, st)
    else if name == "cd" then Cd(p, st, args)
    else if name == "ls" then Ls(p, st)
    else if name == "cat" then Cat(p, st, args)
    else if name == "add" then Add(p, st, args)
    else if name == "rn" then Rn(p, st, args)
    else if name == "cp" then Cp(p, st, args)
    else if name == "mv" then Mv(p, st, args)
    else if name == "rm" then Rm(p, st, args)
    else if name == "os" then Os(p, st, args)
    else if name == "hash" then Hash(p, st, args)
    else if name == "compress" then Transcode(p, st, args, Compressor(p))
    else if name == "decompress" then Transcode(p, st, args, p.brotliDecompress)
    else Normal(st, [Line(InvalidCommand)])
  }

  /** `handleCommand(input)`: `.exit` prints the farewell and ends the process;
      any other line is dispatched, an exception is reported only as
      "Operation failed", and the prompt with the (possibly new) working
      directory follows. */
  function Step(p: Platform, username: string, st: State, input: string): StepResult {
    var cmd := Tokenizer.Tokenize(input);
    if cmd.name == ".exit" then StepResult(st, [Line(Farewell(username))], true)
    else Respond(Dispatch(p, st, cmd.name, cmd.args))
  }

  /** What follows a handler: the failure message in place of its output
      when it threw, then the prompt in the (possibly new) directory. */
  function Respond(c: Completion): StepResult {
    var report := if c.Threw? then [Line(OperationFailed)] else c.out;
    StepResult(c.st, report + [Line(Prompt(c.st.wd))], false)
  }
}
