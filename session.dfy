/** The running file manager: the module-level `workingDirectory`, the
    files on disk and the console transcript, changed step by step by the
    handlers, each proved to do what `Commands` says. */
module Session {
  import opened Wrappers
  import opened Host
  import Tokenizer
  import Listing
  import Startup
  import opened Commands

  /** `streamToString`: append each chunk's text as it arrives. */
  method StreamToString(chunks: seq<Bytes>, decode: Bytes -> string) returns (data: string)
    ensures data == DecodeChunks(chunks, decode)
  {
    data := "";
    var i := 0;
    while i < |chunks|
      invariant 0 <= i <= |chunks|
      invariant data == DecodeChunks(chunks[..i], decode)
    {
      assert chunks[..i + 1][..i] == chunks[..i];
      data := data + decode(chunks[i]);
      i := i + 1;
    }
    assert chunks[..i] == chunks;
  }

  class FileManager {
    const platform: Platform
    const username: string
    var workingDirectory: Path
    var files: Store
    /** Everything printed so far, one entry per `console.log`/`console.table`. */
    var console: seq<Output>
    /** `process.exit()` has been called. */
    var exited: bool

    function State(): Commands.State
      reads this
    {
      Commands.State(workingDirectory, files)
    }

    /** A handler ended as `c` says: same outcome, same state, and its output
        appended to `console0` only when it did not throw. */
    ghost predicate Completes(c: Completion, console0: seq<Output>, threw: bool)
      reads this
    {
      threw == c.Threw? && State() == c.st &&
      console == console0 + (if c.Normal? then c.out else [])
    }

    /** Start-up: `args` is `process.argv.slice(2)`. Parse the name and
        start in the home directory; nothing is printed yet. */
    constructor (platform: Platform, args: seq<string>, disk: Store)
      ensures this.platform == platform
      ensures username == Startup.Username(args)
      ensures workingDirectory == platform.homedir && files == disk
      ensures console == [] && !exited
    {
      this.platform := platform;
      username := Startup.Username(args);
      workingDirectory := platform.homedir;
      files := disk;
      console := [];
      exited := false;
    }

    /** The greeting printed once start-up is done: the welcome with the user
        name, then the prompt. */
    method Greet()
      modifies this`console
      ensures console == old(console) + [Line(Welcome(username)), Line(Prompt(workingDirectory))]
    {
      Log(Line(Welcome(username)));
      Log(Line(Prompt(workingDirectory)));
    }

    /** `console.log` / `console.table` */
    method Log(o: Output)
      modifies this`console
      ensures console == old(console) + [o]
    {
      console := console + [o];
    }

    /** `createReadStream(path)` read to its end; the stream fails when the
        file is missing or may not be read. */
    method ReadFile(path: Path) returns (ok: bool, data: Bytes)
      ensures ok <==> path in files && platform.canRead(files, path)
      ensures ok ==> data == files[path]
    {
      ok := path in files && platform.canRead(files, path);
      data := if ok then files[path] else [];
    }

    /** `createWriteStream(path)` written with `data` and closed. */
    method WriteFile(path: Path, data: Bytes) returns (ok: bool)
      modifies this`files
      ensures ok == platform.canWrite(old(files), path)
      ensures files == if ok then old(files)[path := data] else old(files)
    {
      ok := platform.canWrite(files, path);
      if ok {
        files := files[path := data];
      }
    }

    /** `stream.pipeline` from `src` through `codec` to `dst`. */
    method Pipeline(src: Path, dst: Path, codec: Bytes -> Option<Bytes>) returns (ok: bool)
      modifies this`files
      ensures ok == Pipe(platform, old(files), src, dst, codec).Some?
      ensures files == Pipe(platform, old(files), src, dst, codec).GetOr(old(files))
    {
      var read, data := ReadFile(src);
      if !read {
        return false;
      }
      var transformed := codec(data);
      if transformed.None? {
        return false;
      }
      ok := WriteFile(dst, transformed.value);
    }

    /** `deleteFile(path)`: `rmSync` of the resolved path. */
    method DeleteFile(file: string) returns (ok: bool)
      modifies this`files
      ensures ok == Remove(platform, old(files), platform.resolve(workingDirectory, [file])).Some?
      ensures files == Remove(platform, old(files), platform.resolve(workingDirectory, [file])).GetOr(old(files))
    {
      var path := platform.resolve(workingDirectory, [file]);
      ok := platform.canRemove(files, path);
      if ok {
        files := files - {path};
      }
    }

    method HandleExit()
      modifies this`console, this`exited
      ensures console == old(console) + [Line(Farewell(username))] && exited
    {
      Log(Line(Farewell(username)));
      exited := true;
    }

    method HandleUp()
      modifies this`workingDirectory
      ensures Completes(Up(platform, old(State())), console, false)
    {
      workingDirectory := platform.resolve(workingDirectory, [".."]);
    }

    method HandleCd(args: seq<string>) returns (threw: bool)
      modifies this`workingDirectory
      ensures Completes(Cd(platform, old(State()), args), console, threw)
    {
      if |args| == 0 {
        return true;
      }
      var newDirectory := platform.resolve(workingDirectory, [args[0]]);
      if !platform.accessible(files, newDirectory) {
        return true;
      }
      workingDirectory := newDirectory;
      threw := false;
    }

    method HandleLs() returns (threw: bool)
      modifies this`console
      ensures Completes(Ls(platform, old(State())), old(console), threw)
    {
      var contents := platform.readdir(files, workingDirectory);
      if contents.None? {
        return true;
      }
      Log(Table(Listing.Group(contents.value)));
      threw := false;
    }

    method HandleCat(args: seq<string>) returns (threw: bool)
      modifies this`console
      ensures Completes(Cat(platform, old(State()), args), old(console), threw)
    {
      if |args| == 0 {
        return true;
      }
      var ok, data := ReadFile(platform.resolve(workingDirectory, [args[0]]));
      if !ok {
        return true;
      }
      var contents := StreamToString(platform.chunks(data), platform.decode);
      Log(Line(contents));
      threw := false;
    }

    method HandleAdd(args: seq<string>) returns (threw: bool)
      modifies this`files
      ensures Completes(Add(platform, old(State()), args), console, threw)
    {
      if |args| == 0 {
        return true;
      }
      var ok := WriteFile(platform.resolve(workingDirectory, [args[0]]), []);
      threw := !ok;
    }

    method HandleRn(args: seq<string>) returns (threw: bool)
      modifies this`files
      ensures Completes(Rn(platform, old(State()), args), console, threw)
    {
      if |args| < 2 {
        return true;
      }
      var from := platform.resolve(workingDirectory, [args[0]]);
      var to := platform.resolve(workingDirectory, [args[1]]);
      if !platform.canRename(files, from, to) {
        return true;
      }
      if from in files {
        files := Renamed(files, from, to);
      } else {
        files := files - {to};
      }
      threw := false;
    }

    method HandleCp(args: seq<string>) returns (threw: bool)
      modifies this`files
      ensures Completes(Cp(platform, old(State()), args), console, threw)
    {
      if |args| < 2 {
        return true;
      }
      var src := platform.resolve(workingDirectory, [args[0]]);
      var dst := platform.resolve(workingDirectory, [args[1], platform.basename(args[0])]);
      var ok := Pipeline(src, dst, Copy);
      threw := !ok;
    }

    /** Copy first; the source is deleted only after the copy completed. */
    method HandleMv(args: seq<string>) returns (threw: bool)
      modifies this`files
      ensures Completes(Mv(platform, old(State()), args), console, threw)
    {
      if |args| < 2 {
        return true;
      }
      var src := platform.resolve(workingDirectory, [args[0]]);
      var dst := platform.resolve(workingDirectory, [args[1]]);
      var copied := Pipeline(src, dst, Copy);
      if !copied {
        return true;
      }
      var deleted := DeleteFile(args[0]);
      threw := !deleted;
    }

    method HandleRm(args: seq<string>) returns (threw: bool)
      modifies this`files
      ensures Completes(Rm(platform, old(State()), args), console, threw)
    {
      if |args| == 0 {
        return true;
      }
      var ok := DeleteFile(args[0]);
      threw := !ok;
    }

    method HandleOs(args: seq<string>) returns (threw: bool)
      modifies this`console
      ensures Completes(Os(platform, old(State()), args), old(console), threw)
    {
      match Arg(args, 0)
      case None =>
        return true;
      case Some(flag) =>
        if flag == "--EOL" {
          var visibleEol := if platform.eol == "\r\n" then "\\r\\n" else "\\n";
          Log(Line(visibleEol));
        } else if flag == "--cpus" {
          Log(Line("CPU count: " + Decimal(|platform.cpus|)));
          Log(CpuTable(platform.cpus));
        } else if flag == "--homedir" {
          Log(Line(platform.homedir));
        } else if flag == "--username" {
          Log(Line(platform.userName));
        } else if flag == "--architecture" {
          Log(Line(platform.arch));
        } else {
          return true;
        }
        threw := false;
    }

    method HandleHash(args: seq<string>) returns (threw: bool)
      modifies this`console
      ensures Completes(Hash(platform, old(State()), args), old(console), threw)
    {
      if |args| == 0 {
        return true;
      }
      var ok, data := ReadFile(platform.resolve(workingDirectory, [args[0]]));
      if !ok {
        return true;
      }
      Log(Line(platform.sha256Hex(data)));
      threw := false;
    }

    /** `handleCompress` (with `Compressor(platform)`) and `handleDecompress`
        (with `platform.brotliDecompress`). */
    method HandleTranscode(args: seq<string>, codec: Bytes -> Option<Bytes>) returns (threw: bool)
      modifies this`files
      ensures Completes(Transcode(platform, old(State()), args, codec), console, threw)
    {
      if |args| < 2 {
        return true;
      }
      var ok := Pipeline(platform.resolve(workingDirectory, [args[0]]), platform.resolve(workingDirectory, [args[1]]), codec);
      threw := !ok;
    }

    /** The `switch (command)` for every name but `.exit`. */
    method Dispatch(command: string, args: seq<string>) returns (threw: bool)
      modifies this`workingDirectory, this`files, this`console
      ensures Completes(Commands.Dispatch(platform, old(State()), command, args), old(console), threw)
    {
      threw := false;
      if command == "up" {
        HandleUp();
      } else if command == "cd" {
        threw := HandleCd(args);
      } else if command == "ls" {
        threw := HandleLs();
      } else if command == "cat" {
        threw := HandleCat(args);
      } else if command == "add" {
        threw := HandleAdd(args);
      } else if command == "rn" {
        threw := HandleRn(args);
      } else if command == "cp" {
        threw := HandleCp(args);
      } else if command == "mv" {
        threw := HandleMv(args);
      } else if command == "rm" {
        threw := HandleRm(args);
      } else if command == "os" {
        threw := HandleOs(args);
      } else if command == "hash" {
        threw := HandleHash(args);
      } else if command == "compress" {
        threw := HandleTranscode(args, Compressor(platform));
      } else if command == "decompress" {
        threw := HandleTranscode(args, platform.brotliDecompress);
      } else {
        Log(Line(InvalidCommand));
      }
    }

    /** `handleCommand`: tokenize, dispatch, report any exception as
        "Operation failed", then print the working directory. */
    method HandleCommand(input: string)
      requires !exited
      modifies this
      ensures State() == Step(platform, username, old(State()), input).st
      ensures console == old(console) + Step(platform, username, old(State()), input).out
      ensures exited == Step(platform, username, old(State()), input).exited
    {
      var cmd := Tokenizer.Tokenize(input);
      if cmd.name == ".exit" {
        HandleExit();
        return;
      }
      Execute(cmd.name, cmd.args);
    }

    /** Everything after tokenizing a command other than `.exit`. */
    method Execute(command: string, args: seq<string>)
      modifies this`workingDirectory, this`files, this`console
      ensures State() == Respond(Commands.Dispatch(platform, old(State()), command, args)).st
      ensures console == old(console) + Respond(Commands.Dispatch(platform, old(State()), command, args)).out
    {
      ghost var console0 := console;
      ghost var c := Commands.Dispatch(platform, State(), command, args);
      var threw := Dispatch(command, args);
      assert Completes(c, console0, threw);
      if threw {
        Log(Line(OperationFailed));
      }
      Log(Line(Prompt(workingDirectory)));
    }
  }
}
