/** What the session controller promises, stated over `Commands`: which
    commands can change which part of the state, how failures are reported,
    the order of `mv`'s steps, and round trips through the codecs. */
module Guarantees {
  import opened Wrappers
  import opened Host
  import Tokenizer
  import opened Commands

  /** An unknown command prints "Invalid command" and the unchanged working
      directory, and changes neither the directory nor the files. */
  lemma UnknownCommandIsInert(p: Platform, username: string, st: State, input: string)
    requires Tokenizer.Tokenize(input).name !in Handled
    requires Tokenizer.Tokenize(input).name != ".exit"
    ensures Step(p, username, st, input) == StepResult(st, [Line(InvalidCommand), Line(Prompt(st.wd))], false)
  {
    var c := Tokenizer.Tokenize(input);
    DispatchUnknown(p, st, c.name, c.args);
  }

  lemma DispatchUnknown(p: Platform, st: State, name: string, args: seq<string>)
    requires name !in Handled
    ensures Dispatch(p, st, name, args) == Normal(st, [Line(InvalidCommand)])
  {
  }

  lemma DispatchKeepsDirectory(p: Platform, st: State, name: string, args: seq<string>)
    requires name != "up" && name != "cd"
    ensures Dispatch(p, st, name, args).st.wd == st.wd
  {
  }

  lemma DispatchKeepsFiles(p: Platform, st: State, name: string, args: seq<string>)
    requires name !in Writers
    ensures Dispatch(p, st, name, args).st.files == st.files
  {
  }

  /** Only `up` and `cd` change the working directory. */
  lemma OnlyUpAndCdMove(p: Platform, username: string, st: State, input: string)
    ensures Step(p, username, st, input).st.wd != st.wd ==> Tokenizer.Tokenize(input).name in {"up", "cd"}
  {
    var c := Tokenizer.Tokenize(input);
    if c.name != "up" && c.name != "cd" && c.name != ".exit" {
      DispatchKeepsDirectory(p, st, c.name, c.args);
    }
  }

  /** Only the writing commands change the files. */
  lemma OnlyWritersTouchFiles(p: Platform, username: string, st: State, input: string)
    ensures Step(p, username, st, input).st.files != st.files ==> Tokenizer.Tokenize(input).name in Writers
  {
    var c := Tokenizer.Tokenize(input);
    if c.name !in Writers && c.name != ".exit" {
      DispatchKeepsFiles(p, st, c.name, c.args);
    }
  }

  /** `.exit` prints only the farewell and changes nothing; every other line
      ends with the prompt naming the working directory it leaves behind. */
  lemma PromptAfterEveryCommand(p: Platform, username: string, st: State, input: string)
    ensures var r := Step(p, username, st, input);
      (r.exited <==> Tokenizer.Tokenize(input).name == ".exit") &&
      (r.exited ==> r.st == st && r.out == [Line(Farewell(username))]) &&
      (!r.exited ==> |r.out| >= 1 && r.out[|r.out| - 1] == Line(Prompt(r.st.wd)))
  {
  }

  /** Whatever a handler throws, the user sees exactly "Operation failed" and
      the prompt. */
  lemma FailureReportedUniformly(p: Platform, username: string, st: State, input: string)
    requires var c := Tokenizer.Tokenize(input); c.name != ".exit" && Dispatch(p, st, c.name, c.args).Threw?
    ensures var r := Step(p, username, st, input); r.out == [Line(OperationFailed), Line(Prompt(r.st.wd))]
  {
  }

  /** `up` always succeeds and moves to `path.resolve(workingDirectory, "..")`. */
  lemma UpGoesToParent(p: Platform, st: State)
    ensures Up(p, st) == Normal(State(p.resolve(st.wd, [".."]), st.files), [])
  {
  }

  /** `cd` commits the resolved destination exactly when the access check
      passes; otherwise it throws and the working directory stays. */
  lemma CdCommitsOnlyAccessible(p: Platform, st: State, args: seq<string>)
    ensures var c := Cd(p, st, args);
      var ok := |args| > 0 && p.accessible(st.files, p.resolve(st.wd, [args[0]]));
      c.Normal? == ok && c.st.files == st.files &&
      c.st.wd == if ok then p.resolve(st.wd, [args[0]]) else st.wd
  {
  }

  /** The flags `os` knows. */
  const OsFlags: set<string> := {"--EOL", "--cpus", "--homedir", "--username", "--architecture"}

  /** `os` throws ("Unknown flag") exactly when its flag is missing or unknown,
      and never changes the state. */
  lemma OsThrowsOnUnknownFlag(p: Platform, st: State, args: seq<string>)
    ensures Os(p, st, args).Threw? <==> (|args| == 0 || args[0] !in OsFlags)
    ensures Os(p, st, args).st == st
  {
  }

  /** If `mv`'s copy fails, nothing changes: in particular the source is not
      deleted. */
  lemma MvKeepsSourceWhenCopyFails(p: Platform, st: State, args: seq<string>)
    requires |args| >= 2
    requires Pipe(p, st.files, p.resolve(st.wd, [args[0]]), p.resolve(st.wd, [args[1]]), Copy).None?
    ensures Mv(p, st, args) == Threw(st)
  {
  }

  /** A successful `mv` read the source, wrote its bytes to the destination
      and then deleted the source. */
  lemma MvMovesContent(p: Platform, st: State, args: seq<string>)
    requires Mv(p, st, args).Normal?
    ensures |args| >= 2
    ensures var src, dst := p.resolve(st.wd, [args[0]]), p.resolve(st.wd, [args[1]]);
      Readable(p, st.files, src) && p.canWrite(st.files, dst) &&
      Mv(p, st, args).st == State(st.wd, st.files[dst := st.files[src]] - {src})
  {
  }

  /** A delete that fails after the copy completed leaves both files, and the
      command still reports a failure. */
  lemma MvFailedDeleteLeavesCopy(p: Platform, st: State, args: seq<string>)
    requires |args| >= 2
    requires var src, dst := p.resolve(st.wd, [args[0]]), p.resolve(st.wd, [args[1]]);
      Readable(p, st.files, src) && p.canWrite(st.files, dst) &&
      !p.canRemove(st.files[dst := st.files[src]], src)
    ensures var src, dst := p.resolve(st.wd, [args[0]]), p.resolve(st.wd, [args[1]]);
      Mv(p, st, args) == Threw(State(st.wd, st.files[dst := st.files[src]]))
  {
  }

  /** Moving a file onto itself deletes it: the copy lands on the source,
      which is then removed. */
  lemma MvOntoItselfDeletes(p: Platform, st: State, args: seq<string>)
    requires |args| >= 2 && p.resolve(st.wd, [args[0]]) == p.resolve(st.wd, [args[1]])
    requires Mv(p, st, args).Normal?
    ensures p.resolve(st.wd, [args[0]]) in st.files
    ensures p.resolve(st.wd, [args[0]]) !in Mv(p, st, args).st.files
  {
  }

  /** `cp` writes the source's bytes to `path.resolve(wd, destDir,
      path.basename(source))` and changes no other file. */
  lemma CpCopiesIntoDirectory(p: Platform, st: State, args: seq<string>)
    requires Cp(p, st, args).Normal?
    ensures |args| >= 2
    ensures var src := p.resolve(st.wd, [args[0]]);
      Readable(p, st.files, src) &&
      Cp(p, st, args).st == State(st.wd, st.files[p.resolve(st.wd, [args[1], p.basename(args[0])]) := st.files[src]])
  {
  }

  /** `rn` succeeds exactly when `renameSync` does, and then the bytes of a
      regular file move from the old name to the new one; renaming anything
      else only drops a regular file the new name replaces. Every other file
      stays as it was, and a failure changes nothing. */
  lemma RnRenames(p: Platform, st: State, args: seq<string>)
    ensures var c := Rn(p, st, args);
      c.Normal? <==> |args| >= 2 && p.canRename(st.files, p.resolve(st.wd, [args[0]]), p.resolve(st.wd, [args[1]]))
    ensures Rn(p, st, args).Threw? ==> Rn(p, st, args).st == st
    ensures Rn(p, st, args).Normal? ==>
      var from, to := p.resolve(st.wd, [args[0]]), p.resolve(st.wd, [args[1]]);
      var files := Rn(p, st, args).st.files;
      (from in st.files ==> to in files && files[to] == st.files[from] && (from != to ==> from !in files)) &&
      (from !in st.files ==> files == st.files - {to}) &&
      forall f :: f in st.files && f != from && f != to ==> f in files && files[f] == st.files[f]
  {
  }

  /** `rm` succeeds exactly when `rmSync` does on the resolved path, and then
      that path is no longer a regular file while every other file stays; a
      failure changes nothing. */
  lemma RmRemoves(p: Platform, st: State, args: seq<string>)
    ensures Rm(p, st, args).Normal? <==> |args| >= 1 && p.canRemove(st.files, p.resolve(st.wd, [args[0]]))
    ensures Rm(p, st, args).Threw? ==> Rm(p, st, args).st == st
    ensures Rm(p, st, args).Normal? ==>
      Rm(p, st, args) == Normal(State(st.wd, st.files - {p.resolve(st.wd, [args[0]])}), [])
  {
  }

  /** `cat` prints the file's text exactly when its read stream delivers the
      file, and throws when the file is missing or may not be read. */
  lemma CatPrintsReadable(p: Platform, st: State, args: seq<string>)
    ensures Cat(p, st, args).st == st
    ensures Cat(p, st, args).Normal? <==> |args| >= 1 && Readable(p, st.files, p.resolve(st.wd, [args[0]]))
    ensures Cat(p, st, args).Normal? ==>
      Cat(p, st, args).out == [Line(DecodeChunks(p.chunks(st.files[p.resolve(st.wd, [args[0]])]), p.decode))]
  {
  }

  /** `hash` prints the digest exactly when the file can be read. */
  lemma HashPrintsReadable(p: Platform, st: State, args: seq<string>)
    ensures Hash(p, st, args).st == st
    ensures Hash(p, st, args).Normal? <==> |args| >= 1 && Readable(p, st.files, p.resolve(st.wd, [args[0]]))
    ensures Hash(p, st, args).Normal? ==>
      Hash(p, st, args).out == [Line(p.sha256Hex(st.files[p.resolve(st.wd, [args[0]])]))]
  {
  }

  /** With a codec pair that round-trips, `compress f g` then
      `decompress g h` leaves in `h` the bytes of `f`. */
  lemma CompressRoundTrip(p: Platform, st: State, f: string, g: string, h: string)
    requires forall data :: p.brotliDecompress(p.brotliCompress(data)) == Some(data)
    requires Readable(p, st.files, p.resolve(st.wd, [f]))
    requires p.canWrite(st.files, p.resolve(st.wd, [g]))
    requires var compressed := st.files[p.resolve(st.wd, [g]) := p.brotliCompress(st.files[p.resolve(st.wd, [f])])];
      p.canRead(compressed, p.resolve(st.wd, [g])) && p.canWrite(compressed, p.resolve(st.wd, [h]))
    ensures var c1 := Dispatch(p, st, "compress", [f, g]);
      var c2 := Dispatch(p, c1.st, "decompress", [g, h]);
      c1.Normal? && c2.Normal? && p.resolve(st.wd, [h]) in c2.st.files &&
      c2.st.files[p.resolve(st.wd, [h])] == st.files[p.resolve(st.wd, [f])]
  {
    var data := st.files[p.resolve(st.wd, [f])];
    assert p.brotliDecompress(p.brotliCompress(data)) == Some(data);
  }

  /** Decoding chunk by chunk and concatenating does not depend on where the
      stream is cut between two runs of chunks. */
  lemma {:induction false} DecodeChunksAppend(a: seq<Bytes>, b: seq<Bytes>, decode: Bytes -> string)
    ensures DecodeChunks(a + b, decode) == DecodeChunks(a, decode) + DecodeChunks(b, decode)
  {
    if b == [] {
      assert a + b == a;
    } else {
      var b' := b[..|b| - 1];
      DecodeChunksAppend(a, b', decode);
      assert (a + b)[..|a + b| - 1] == a + b';
      assert (a + b)[|a + b| - 1] == b[|b| - 1];
    }
  }

  /** The CPU count is printed as a decimal numeral that reads back as the
      count. */
  lemma {:induction false} DecimalRoundTrip(n: nat)
    ensures DecimalValue(Decimal(n)) == n
  {
    if n >= 10 {
      DecimalRoundTrip(n / 10);
      var s := Decimal(n);
      assert s[..|s| - 1] == Decimal(n / 10);
    }
  }
}
