/** What the session controller asks of its platform: Node's `path`
    functions, the filesystem's decisions, the streaming codecs and the `os`
    queries. Each is a parameter of the model; the filesystem's file contents
    are a map from resolved path to bytes. */
module Host {
  import opened Wrappers
  import Listing

  type Path = string

  newtype byte = x: int | 0 <= x < 256

  type Bytes = seq<byte>

  /** The regular files on disk, by absolute path. */
  type Store = map<Path, Bytes>

  /** One `os.cpus()` entry, as far as it is printed. */
  datatype Cpu = Cpu(model: string, speed: nat)

  /** The host platform. Paths and the filesystem's verdicts are functions of
      their arguments and of the current store. */
  datatype Platform = Platform(
    /** `os.homedir()` */
    homedir: Path,
    /** `path.resolve(base, ...segments)` */
    resolve: (Path, seq<string>) -> Path,
    /** `path.basename(p)` */
    basename: string -> string,
    /** `fs.accessSync(p)` succeeds */
    accessible: (Store, Path) -> bool,
    /** `fs.readdirSync(p, { withFileTypes: true })`, `None` when it throws */
    readdir: (Store, Path) -> Option<seq<Listing.Dirent>>,
    /** opening `p` for writing succeeds (its directory exists and is writable) */
    canWrite: (Store, Path) -> bool,
    /** `fs.createReadStream(p)` opens and reads `p` to its end: `p` is a
        regular file whose permissions allow reading */
    canRead: (Store, Path) -> bool,
    /** `fs.renameSync(from, to)` succeeds. `from` is a regular file of the
        store or an entry the store does not hold: a directory, a symbolic
        link, a FIFO or a socket */
    canRename: (Store, Path, Path) -> bool,
    /** `fs.rmSync(p)` without `recursive` succeeds: `p` is a regular file of
        the store, or a symbolic link, FIFO or socket the store does not hold,
        never a directory */
    canRemove: (Store, Path) -> bool,
    /** how a read stream cuts a file into chunks */
    chunks: Bytes -> seq<Bytes>,
    /** `Buffer.prototype.toString()` */
    decode: Bytes -> string,
    /** `createHash("sha256")` fed the bytes, then `digest("hex")` */
    sha256Hex: Bytes -> string,
    /** the Brotli compressor stream */
    brotliCompress: Bytes -> Bytes,
    /** the Brotli decompressor stream, `None` on malformed input */
    brotliDecompress: Bytes -> Option<Bytes>,
    /** `os.EOL` */
    eol: string,
    /** `os.cpus()` */
    cpus: seq<Cpu>,
    /** `os.userInfo().username` */
    userName: string,
    /** `os.arch()` */
    arch: string)

  /** One `console.log` or `console.table` call. */
  datatype Output =
    | Line(text: string)
    | Table(rows: seq<Listing.Row>)
    | CpuTable(cpus: seq<Cpu>)
}
