# Node file manager: a Dafny model of its session controller

The program is an interactive file manager for Node.js (`main.js`). It reads
one command per input chunk, keeps a current working directory (starting in
the user's home directory), and runs a handler per command: `up`, `cd`, `ls`,
`cat`, `add`, `rn`, `cp`, `mv`, `rm`, `os`, `hash`, `compress`,
`decompress` and `.exit`. Any exception a handler throws is reported as
"Operation failed". After every command except `.exit` the program prints
"You are currently in <dir>".

This project models the controller around those handlers:

- `tokenizer.dfy` (`Tokenizer`): `input.trim().split(/ +/)`. `Trim` removes the
  ECMAScript whitespace and line terminators at both ends. `Split` cuts at runs
  of the space character only. It is proved that tokens hold no space, that
  they are non-empty for a non-blank input, that splitting keeps every
  non-space character, that a run of spaces separates like one space, and
  that `Split` undoes `Join`.
- `startup.dfy` (`Startup`): the `--username=` parse, with
  `String.prototype.replace` (first occurrence only) and the `||` fallback to
  `Anonymous`.
- `listing.dfy` (`Listing`): `handleLs`'s filter/sort/map grouping. The sort
  is by string form, and every `Dirent` has the same string form, so it is
  proved to keep `readdir`'s order.
- `host.dfy` (`Host`): the platform as parameters. It holds `path.resolve`,
  `path.basename`, the access check, `readdir`, the filesystem's success
  verdicts, the stream chunking, the digest and Brotli codecs, and the `os`
  facts. Files are a map from resolved path to bytes.
- `commands.dfy` (`Commands`): each handler as a function from state and
  arguments to a `Completion`, either `Normal` with its output or `Threw`,
  plus `Dispatch` (the `switch`), `Respond` (the failure message and the
  prompt that follow it) and `Step` (one `handleCommand` call).
- `session.dfy` (`Session`): the imperative program. `FileManager` is a
  class holding `workingDirectory`, the files and the console transcript. Its
  handler methods change those fields step by step, and each is proved to
  end as `Commands` says. `StreamToString` is the `for await` loop.
- `guarantees.dfy` (`Guarantees`): what the controller promises, stated over
  `Commands`.

Two consequences of the code are worth stating outright:
- `split(/ +/)` cuts only at U+0020, so `cd<TAB>docs` is one unknown command
  (`Tokenizer.TabIsNotSeparator`), while `cd  docs` is `cd` with the argument
  `docs` (`Tokenizer.RunSeparatesWords`).
- `.sort()` with no comparator compares string forms, and the string form of
  every `Dirent` is `[object Object]`, so each `ls` group keeps `readdir`'s
  order (`Listing.SortKeepsOrder`).

## Model

| member | source | states |
|---|---|---|
| Tokenizer.Trim | main.js:168 | the result is the slice of the input after its leading whitespace, what follows it is all whitespace, it neither starts nor ends with whitespace, and it is empty exactly when the input is all whitespace |
| Tokenizer.Split | main.js:168 | a split always yields at least one token, so a command name always exists |
| Tokenizer.SplitSpaceFree | main.js:168 | no token holds a space character |
| Tokenizer.SplitNonEmpty | main.js:168 | a string that neither starts nor ends with a space splits into non-empty tokens |
| Tokenizer.SplitKeepsCharacters | main.js:168 | the tokens concatenated are the input with its spaces removed |
| Tokenizer.SplitRun | main.js:168 | a run of one or more spaces after a space-free token separates it from the rest exactly as a single space does |
| Tokenizer.SplitJoin | main.js:168 | non-empty space-free tokens joined by single spaces split back into the same tokens |
| Tokenizer.BlankInput | main.js:168 | an all-whitespace input is the command `""` with no arguments |
| Tokenizer.TokensNonEmptySpaceFree | main.js:168 | for an input with a non-whitespace character, the command name and every argument are non-empty and space-free |
| Tokenizer.TokenizeJoin | main.js:168 | whitespace-free words joined by single spaces tokenize to the first word as command and the rest as arguments |
| Tokenizer.SingleWord | main.js:168 | input that holds no space and has no whitespace at either end is one command name, the whole input, with no arguments |
| Tokenizer.TabIsNotSeparator | main.js:168 | a tab does not separate tokens |
| Tokenizer.RunSeparatesWords | main.js:168 | two words with any run of spaces between them are a command name and one argument |
| Startup.FindFlag | main.js:12 | `find` returns the first argument starting with the prefix, and none when no argument does |
| Startup.IndexOf | main.js:13 | the first occurrence of a pattern at or after a position, and none when there is none |
| Startup.ReplacePrefix | main.js:13 | replacing the first occurrence of a prefix by nothing removes exactly that prefix |
| Startup.Username | main.js:10-13 | the name is never empty; it is the remainder of the first `--username=` argument, or `Anonymous` when there is none or the remainder is empty |
| Startup.FirstFlagWins | main.js:10-13 | the first `--username=<name>` with a non-empty name decides the name, whatever follows it |
| Startup.EmptyFlagShadows | main.js:10-13 | an empty `--username=` shadows a later non-empty one: the name is `Anonymous` |
| Listing.RowsOf | main.js:41 | one row per entry, in order, holding the entry's name and type |
| Listing.Insert | main.js:40 | inserting adds exactly one element |
| Listing.Sort | main.js:40 | the sort is a permutation of its input |
| Listing.SortDirents | main.js:40 | the default sort of `Dirent`s is a permutation of its input |
| Listing.SortConstantKey | main.js:40 | sorting by a key that is the same for every element changes nothing |
| Listing.SortKeepsOrder | main.js:40 | the default sort of `Dirent`s leaves `readdir`'s order unchanged |
| Listing.GroupPermutation | main.js:36-54 | every `readdir` entry appears exactly once in the table, so its length is the number of entries |
| Listing.GroupOrdered | main.js:54 | directories come before files, and files before everything else |
| Listing.GroupStable | main.js:38-54 | within each group the rows keep `readdir`'s relative order |
| Commands.Arg | main.js:30 | a destructured argument is present exactly when the line had that many arguments |
| Commands.Decimal | main.js:116 | the CPU count is printed as non-empty decimal digits without a leading zero |
| Session.StreamToString | main.js:57-65 | the loop's text is every chunk decoded in turn and concatenated |
| Session.FileManager.constructor | main.js:9-15 | the session starts in the home directory with the user name parsed from `process.argv.slice(2)`, having printed nothing |
| Session.FileManager.Greet | main.js:224-225 | the greeting appends exactly the welcome with the user name and the prompt naming the working directory |
| Session.FileManager.Log | main.js:22 | printing appends exactly one entry to the console |
| Session.FileManager.ReadFile | main.js:69 | reading succeeds exactly for an existing file that may be read, and yields its bytes |
| Session.FileManager.WriteFile | main.js:75 | a write succeeds as the filesystem decides and then stores exactly the written bytes; otherwise nothing changes |
| Session.FileManager.Pipeline | main.js:83-88 | the pipeline reads, transforms and writes as `Commands.Pipe` says, and changes nothing when a stage fails |
| Session.FileManager.DeleteFile | main.js:91-93 | `rmSync` of the resolved path succeeds as the filesystem decides, and then that path is no longer a file; otherwise nothing changes |
| Session.FileManager.HandleExit | main.js:21-24 | `.exit` prints the farewell with the user name and ends the session |
| Session.FileManager.HandleUp | main.js:26-28 | `up` sets the working directory to `resolve(wd, "..")` and changes nothing else |
| Session.FileManager.HandleCd | main.js:30-34 | `cd` assigns the resolved destination only after the access check passed, and otherwise throws with the directory unchanged |
| Session.FileManager.HandleLs | main.js:36-55 | `ls` prints the grouped table of the working directory, or throws when it cannot be read |
| Session.FileManager.HandleCat | main.js:67-72 | `cat` prints the whole file as text when it exists and may be read, and throws when it is missing, may not be read, or no argument is given |
| Session.FileManager.HandleAdd | main.js:74-76 | `add` creates or empties the resolved file |
| Session.FileManager.HandleRn | main.js:78-80 | `rn` renames between the two resolved paths as the filesystem allows: a file's bytes move, any other entry replaces a file at the new name |
| Session.FileManager.HandleCp | main.js:82-89 | `cp` copies to `resolve(wd, destDir, basename(source))` |
| Session.FileManager.HandleMv | main.js:95-102 | `mv` copies to the resolved destination and deletes the source only after the copy succeeded |
| Session.FileManager.HandleRm | main.js:104-106 | `rm` deletes the resolved path as the filesystem allows, and throws with no argument |
| Session.FileManager.HandleOs | main.js:108-135 | `os` prints the fact its flag names and throws for any other flag |
| Session.FileManager.HandleHash | main.js:137-145 | `hash` prints the hex SHA-256 digest of the file's bytes, and throws when it is missing or may not be read |
| Session.FileManager.HandleTranscode | main.js:147-165 | `compress` and `decompress` pipe the source through the codec into the destination |
| Session.FileManager.Dispatch | main.js:171-216 | the switch runs the handler named by the command, and prints "Invalid command" for any other name |
| Session.FileManager.Execute | main.js:170-221 | a command other than `.exit` leaves the state and the console as `Commands.Respond` of `Commands.Dispatch` says: the handler's output, or "Operation failed" if it threw, then the prompt in the directory it left |
| Session.FileManager.HandleCommand | main.js:167-222 | one command leaves the state, the console and the exit flag as `Commands.Step` says |
| Guarantees.UnknownCommandIsInert | main.js:214-221 | an unknown command prints "Invalid command" and the unchanged directory, and changes nothing |
| Guarantees.DispatchUnknown | main.js:214-216 | the switch's default case changes nothing and prints only "Invalid command" |
| Guarantees.DispatchKeepsDirectory | main.js:171-216 | no handler other than `up` and `cd` changes the working directory |
| Guarantees.DispatchKeepsFiles | main.js:171-216 | no handler other than the seven writing ones changes the files |
| Guarantees.OnlyUpAndCdMove | main.js:26-34 | a command line changes the working directory only if it is `up` or `cd` |
| Guarantees.OnlyWritersTouchFiles | main.js:74-106 | a command line changes the files only if it is `add`, `rn`, `cp`, `mv`, `rm`, `compress` or `decompress` |
| Guarantees.PromptAfterEveryCommand | main.js:172-221 | `.exit`, and only `.exit`, ends the session with the farewell alone; every other command's output ends with the prompt naming the resulting directory |
| Guarantees.FailureReportedUniformly | main.js:217-221 | whatever a handler throws, the output is exactly "Operation failed" and the prompt |
| Guarantees.UpGoesToParent | main.js:26-28 | `up` always succeeds and moves to `resolve(wd, "..")` |
| Guarantees.CdCommitsOnlyAccessible | main.js:30-34 | `cd` succeeds exactly when an argument is given and its resolved path passes the access check, and only then moves there |
| Guarantees.OsThrowsOnUnknownFlag | main.js:108-135 | `os` throws exactly when its flag is missing or unknown, and never changes the state |
| Guarantees.MvKeepsSourceWhenCopyFails | main.js:95-102 | if the copy fails, `mv` changes nothing, so the source stays |
| Guarantees.MvMovesContent | main.js:95-102 | a successful `mv` found the source, wrote its bytes to the destination and then removed the source |
| Guarantees.MvFailedDeleteLeavesCopy | main.js:95-102 | a delete failing after a completed copy leaves both files and reports a failure |
| Guarantees.MvOntoItselfDeletes | main.js:95-102 | moving a file onto its own resolved path deletes it |
| Guarantees.CpCopiesIntoDirectory | main.js:82-89 | a successful `cp` writes the source's bytes under the source's base name in the destination directory and changes no other file |
| Guarantees.RnRenames | main.js:78-80 | `rn` succeeds exactly when `renameSync` does; a renamed file's bytes go to the new name and the old name is gone, another entry only replaces a file at the new name, every other file is kept, and a failure changes nothing |
| Guarantees.RmRemoves | main.js:104-106 | `rm` succeeds exactly when `deleteFile`'s `rmSync` does on the resolved path, which then holds no file while the others stay; a failure changes nothing |
| Guarantees.CatPrintsReadable | main.js:67-72 | `cat` never changes the state, succeeds exactly when the file exists and may be read, and then prints its decoded chunks |
| Guarantees.HashPrintsReadable | main.js:137-145 | `hash` never changes the state, succeeds exactly when the file exists and may be read, and then prints its digest |
| Guarantees.CompressRoundTrip | main.js:147-165 | with a codec pair that round-trips, `compress f g` then `decompress g h` leaves the bytes of `f` in `h` |
| Guarantees.DecodeChunksAppend | main.js:57-65 | decoding chunk by chunk is the same whichever way the chunks are grouped |
| Guarantees.DecimalRoundTrip | main.js:116 | the printed CPU count reads back as the count |

## Left out

- Node's `path.resolve` and `path.basename` are parameters of the platform, with no normalisation rules. So "`cd D` then `up` returns to D's parent" is not stated.
- `readdirSync` is a parameter of the platform, not derived from the file map. So "`add F` then `ls` lists F" is not stated.
- The file map holds regular files only. Whether an operation succeeds is the platform's verdict (`accessible`, `canRead`, `canWrite`, `canRename`, `canRemove`), including permission failures. For `cd`, `rn` and `rm` the verdicts `accessible`, `canRename` and `canRemove` also cover entries that are not regular files (directories, symbolic links, FIFOs, sockets).
- Session.FileManager.ReadFile: symbolic links are not followed. A read of a path the map does not hold always fails, whatever `canRead` says, so `cat`, `hash`, `cp`, `mv`, `compress` and `decompress` on a link to a regular file, or on a device such as `/dev/null`, throw in the model, while `createReadStream` opens the link's target and reads it.
- Session.FileManager.WriteFile: symbolic links are not followed. A write through a link stores the bytes under the link's own path and leaves the target unchanged, while Node writes the target (`add link.txt` empties the file the link points to).
- Commands.Rn: renaming a directory moves the files below it in Node; the model leaves those files under their old paths, because the map does not record which paths lie inside which directory.
- Session.FileManager.Pipeline: on a failed pipeline the model changes nothing. In Node the write stream opens its file while the read is still pending, so a failed `cp`, `mv`, `compress` or `decompress` can leave an empty or truncated destination. The same race decides a successful copy whose destination resolves to its own source (`cp a.txt .`, `mv a.txt a.txt`): Node may truncate the file before reading it, while the model reads first and writes the same bytes back. The outcome of that race is not modelled.
- Streams are read in one piece: `ReadFile` yields the whole file. The bytes are cut into chunks only for `cat` (the platform's `chunks`), and each chunk is decoded separately, as the `for await` loop does.
- SHA-256 and Brotli are platform functions. `CompressRoundTrip` assumes the codec pair round-trips; it does not prove it.
- `console.table` layout, the `os` queries and the `speed / 1000` display division (floating point) are not modelled. The CPU table is kept as the raw `os.cpus()` list.
- The stdin `data` listener, `process.exit` and the SIGINT handler are out. `exited` records that the process would end, and the model takes one command at a time, so overlapping asynchronous commands are not modelled.
- Listing.Sort: the string comparison orders characters by code point. JavaScript compares UTF-16 code units. The two agree here because every key is the same.
