/** The grouping that `handleLs` applies to `readdir` entries: directories,
    then regular files, then everything else, each group passed through
    `Array.prototype.sort()` without a comparator. */
module Listing {

  /** What `Dirent.isDirectory()` / `Dirent.isFile()` report. */
  datatype Kind = Directory | File | Other

  /** One `readdir(..., { withFileTypes: true })` entry. */
  datatype Dirent = Dirent(name: string, kind: Kind)

  /** One row of the printed table: `{ name, type }`. */
  datatype Row = Row(name: string, tag: string)

  /** The `type` column for each kind of entry. */
  function Tag(k: Kind): string {
    match k
    case Directory => "directory"
    case File => "file"
    case Other => "something else"
  }

  function RowOf(d: Dirent): Row {
    Row(d.name, Tag(d.kind))
  }

  /** `.map(...)` from entries to rows. */
  function RowsOf(es: seq<Dirent>): (rows: seq<Row>)
    ensures |rows| == |es|
    ensures forall i :: 0 <= i < |es| ==> rows[i] == RowOf(es[i])
  {
    if es == [] then [] else [RowOf(es[0])] + RowsOf(es[1..])
  }

  /** `.filter(...)` keeping the entries of one kind. */
  function OfKind(es: seq<Dirent>, k: Kind): seq<Dirent> {
    if es == [] then [] else (if es[0].kind == k then [es[0]] else []) + OfKind(es[1..], k)
  }

  const ObjectString: string := "[object Object]"

  /** The string a `Dirent` converts to. A `Dirent` defines no `toString`,
      so every entry converts to the same string. */
  function StringForm(d: Dirent): string {
    ObjectString
  }

  /** Comparison of two strings by character codes, as the default sort
      compares the string forms of its elements. */
  predicate Less(a: string, b: string) {
    if a == [] then b != []
    else if b == [] then false
    else a[0] < b[0] || (a[0] == b[0] && Less(a[1..], b[1..]))
  }

  /** Insert `x` into `sorted` before the first element whose key is
      strictly greater: elements with equal keys keep their order. */
  function Insert<T>(sorted: seq<T>, x: T, key: T -> string): (r: seq<T>)
    ensures multiset(r) == multiset(sorted) + multiset{x}
  {
    if sorted == [] then [x]
    else if Less(key(x), key(sorted[0])) then [x] + sorted
    else
      assert sorted == [sorted[0]] + sorted[1..];
      [sorted[0]] + Insert(sorted[1..], x, key)
  }

  /** An insertion sort by `key`. It is proved a permutation of its input;
      ordering and stability are established only for a key that is the same
      for every element (`SortConstantKey`), the one case `ls` uses. */
  function Sort<T>(xs: seq<T>, key: T -> string): (r: seq<T>)
    ensures multiset(r) == multiset(xs)
  {
    if xs == [] then []
    else
      assert xs == xs[..|xs| - 1] + [xs[|xs| - 1]];
      Insert(Sort(xs[..|xs| - 1], key), xs[|xs| - 1], key)
  }

  /** `Array.prototype.sort()` with no comparator on `Dirent`s: a sort by
      string form, which is the same for every entry. */
  function SortDirents(es: seq<Dirent>): (r: seq<Dirent>)
    ensures multiset(r) == multiset(es)
  {
    Sort(es, StringForm)
  }

  /** The table `handleLs` prints: `[...directories, ...files, ...rest]`. */
  function Group(es: seq<Dirent>): seq<Row> {
    RowsOf(SortDirents(OfKind(es, Directory))) + RowsOf(SortDirents(OfKind(es, File))) +
    RowsOf(SortDirents(OfKind(es, Other)))
  }

  /** Position of a row's group in the table. */
  function Rank(r: Row): nat {
    if r.tag == Tag(Directory) then 0 else if r.tag == Tag(File) then 1 else 2
  }

  /** The rows of `rows` that carry `tag`, in order. */
  function WithTag(rows: seq<Row>, tag: string): seq<Row> {
    if rows == [] then [] else (if rows[0].tag == tag then [rows[0]] else []) + WithTag(rows[1..], tag)
  }

  lemma {:induction false} LessIrreflexive(a: string)
    ensures !Less(a, a)
  {
    if a != [] {
      LessIrreflexive(a[1..]);
    }
  }

  /** Inserting an element whose key equals every other key appends it. */
  lemma {:induction false} InsertAppends<T>(sorted: seq<T>, x: T, key: T -> string)
    requires forall y :: key(y) == key(x)
    ensures Insert(sorted, x, key) == sorted + [x]
  {
    LessIrreflexive(key(x));
    if sorted != [] {
      InsertAppends(sorted[1..], x, key);
      assert [sorted[0]] + (sorted[1..] + [x]) == sorted + [x];
    }
  }

  /** Sorting by a key that is the same for every element changes nothing. */
  lemma {:induction false} SortConstantKey<T>(xs: seq<T>, key: T -> string)
    requires forall y, z :: key(y) == key(z)
    ensures Sort(xs, key) == xs
  {
    if xs != [] {
      SortConstantKey(xs[..|xs| - 1], key);
      InsertAppends(xs[..|xs| - 1], xs[|xs| - 1], key);
      assert xs[..|xs| - 1] + [xs[|xs| - 1]] == xs;
    }
  }

  /** The default sort leaves `readdir`'s order unchanged: every `Dirent` has
      the same string form, so it is not a sort by name. */
  lemma SortKeepsOrder(es: seq<Dirent>)
    ensures SortDirents(es) == es
  {
    SortConstantKey(es, StringForm);
  }

  /** `Group` without the sorts, which change nothing. */
  lemma GroupUnsorted(es: seq<Dirent>)
    ensures Group(es) == RowsOf(OfKind(es, Directory)) + RowsOf(OfKind(es, File)) + RowsOf(OfKind(es, Other))
  {
    SortKeepsOrder(OfKind(es, Directory));
    SortKeepsOrder(OfKind(es, File));
    SortKeepsOrder(OfKind(es, Other));
  }

  lemma {:induction false} OfKindTags(es: seq<Dirent>, k: Kind)
    ensures forall i :: 0 <= i < |RowsOf(OfKind(es, k))| ==> RowsOf(OfKind(es, k))[i].tag == Tag(k)
  {
    if es != [] {
      OfKindTags(es[1..], k);
      var head := if es[0].kind == k then [es[0]] else [];
      assert OfKind(es, k) == head + OfKind(es[1..], k);
      RowsOfAppend(head, OfKind(es[1..], k));
    }
  }

  lemma {:induction false} PartitionRows(es: seq<Dirent>)
    ensures multiset(RowsOf(OfKind(es, Directory))) + multiset(RowsOf(OfKind(es, File))) +
      multiset(RowsOf(OfKind(es, Other))) == multiset(RowsOf(es))
  {
    if es != [] {
      var rest := es[1..];
      PartitionRows(rest);
      var m := multiset{RowOf(es[0])};
      var d, f, o := multiset(RowsOf(OfKind(rest, Directory))), multiset(RowsOf(OfKind(rest, File))),
        multiset(RowsOf(OfKind(rest, Other)));
      var all := multiset(RowsOf(es));
      assert all == m + (d + f + o) by {
        assert RowsOf(es) == [RowOf(es[0])] + RowsOf(rest);
      }
      var d', f', o' := multiset(RowsOf(OfKind(es, Directory))), multiset(RowsOf(OfKind(es, File))),
        multiset(RowsOf(OfKind(es, Other)));
      match es[0].kind
      case Directory =>
        OfKindConsSame(es); OfKindConsOther(es, File); OfKindConsOther(es, Other);
        AddToOne(m, d, f, o, d', f', o', all);
      case File =>
        OfKindConsSame(es); OfKindConsOther(es, Directory); OfKindConsOther(es, Other);
        AddToOne(m, f, d, o, f', d', o', all);
      case Other =>
        OfKindConsSame(es); OfKindConsOther(es, Directory); OfKindConsOther(es, File);
        AddToOne(m, o, d, f, o', d', f', all);
    }
  }

  /** Multiset bookkeeping for one step of `PartitionRows`: the head lands
      in exactly one of the three parts. */
  lemma AddToOne<T>(m: multiset<T>, x: multiset<T>, y: multiset<T>, z: multiset<T>,
                    x': multiset<T>, y': multiset<T>, z': multiset<T>, all: multiset<T>)
    requires x' == m + x && y' == y && z' == z
    requires all == m + (x + y + z) || all == m + (y + x + z) || all == m + (y + z + x)
    ensures x' + y' + z' == all && y' + x' + z' == all && y' + z' + x' == all
  {
  }

  lemma OfKindConsSame(es: seq<Dirent>)
    requires es != []
    ensures multiset(RowsOf(OfKind(es, es[0].kind))) ==
      multiset{RowOf(es[0])} + multiset(RowsOf(OfKind(es[1..], es[0].kind)))
  {
    RowsOfAppend([es[0]], OfKind(es[1..], es[0].kind));
  }

  lemma OfKindConsOther(es: seq<Dirent>, k: Kind)
    requires es != [] && es[0].kind != k
    ensures OfKind(es, k) == OfKind(es[1..], k)
  {
  }

  lemma RowsOfAppend(a: seq<Dirent>, b: seq<Dirent>)
    ensures RowsOf(a + b) == RowsOf(a) + RowsOf(b)
  {
    assert RowsOf(a + b) == RowsOf(a) + RowsOf(b);
  }

  /** Every entry appears exactly once: the table is a permutation of the
      entries' rows, so its length is the number of entries. */
  lemma GroupPermutation(es: seq<Dirent>)
    ensures multiset(Group(es)) == multiset(RowsOf(es))
    ensures |Group(es)| == |es|
  {
    GroupUnsorted(es);
    PartitionRows(es);
    assert |multiset(Group(es))| == |multiset(RowsOf(es))|;
  }

  /** Directories come first, then files, then everything else. */
  lemma GroupOrdered(es: seq<Dirent>)
    ensures forall i, j :: 0 <= i < j < |Group(es)| ==> Rank(Group(es)[i]) <= Rank(Group(es)[j])
  {
    GroupUnsorted(es);
    OfKindTags(es, Directory);
    OfKindTags(es, File);
    OfKindTags(es, Other);
    BlocksOrdered(RowsOf(OfKind(es, Directory)), RowsOf(OfKind(es, File)), RowsOf(OfKind(es, Other)));
  }

  lemma BlocksOrdered(d: seq<Row>, f: seq<Row>, o: seq<Row>)
    requires forall i :: 0 <= i < |d| ==> d[i].tag == Tag(Directory)
    requires forall i :: 0 <= i < |f| ==> f[i].tag == Tag(File)
    requires forall i :: 0 <= i < |o| ==> o[i].tag == Tag(Other)
    ensures forall i, j :: 0 <= i < j < |d + f + o| ==> Rank((d + f + o)[i]) <= Rank((d + f + o)[j])
  {
    var g := d + f + o;
    forall i | 0 <= i < |g|
      ensures Rank(g[i]) == if i < |d| then 0 else if i < |d| + |f| then 1 else 2
    {
      if i < |d| {
        assert g[i] == d[i];
      } else if i < |d| + |f| {
        assert g[i] == f[i - |d|];
      } else {
        assert g[i] == o[i - |d| - |f|];
      }
    }
  }

  lemma {:induction false} WithTagAppend(a: seq<Row>, b: seq<Row>, tag: string)
    ensures WithTag(a + b, tag) == WithTag(a, tag) + WithTag(b, tag)
  {
    if a == [] {
      assert a + b == b;
    } else {
      assert (a + b)[0] == a[0];
      assert (a + b)[1..] == a[1..] + b;
      WithTagAppend(a[1..], b, tag);
    }
  }

  lemma {:induction false} WithTagAll(rows: seq<Row>, tag: string, keep: bool)
    requires forall i :: 0 <= i < |rows| ==> (rows[i].tag == tag) == keep
    ensures WithTag(rows, tag) == if keep then rows else []
  {
    if rows != [] {
      WithTagAll(rows[1..], tag, keep);
    }
  }

  /** Each group keeps the relative order `readdir` gave its entries. */
  lemma GroupStable(es: seq<Dirent>, k: Kind)
    ensures WithTag(Group(es), Tag(k)) == RowsOf(OfKind(es, k))
  {
    GroupUnsorted(es);
    OfKindTags(es, Directory);
    OfKindTags(es, File);
    OfKindTags(es, Other);
    BlocksStable(RowsOf(OfKind(es, Directory)), RowsOf(OfKind(es, File)), RowsOf(OfKind(es, Other)), k);
  }

  lemma BlocksStable(d: seq<Row>, f: seq<Row>, o: seq<Row>, k: Kind)
    requires forall i :: 0 <= i < |d| ==> d[i].tag == Tag(Directory)
    requires forall i :: 0 <= i < |f| ==> f[i].tag == Tag(File)
    requires forall i :: 0 <= i < |o| ==> o[i].tag == Tag(Other)
    ensures WithTag(d + f + o, Tag(k)) == match k case Directory => d case File => f case Other => o
  {
    TagInjective(k, Directory);
    TagInjective(k, File);
    TagInjective(k, Other);
    WithTagAppend(d + f, o, Tag(k));
    WithTagAppend(d, f, Tag(k));
    WithTagAll(d, Tag(k), k == Directory);
    WithTagAll(f, Tag(k), k == File);
    WithTagAll(o, Tag(k), k == Other);
  }

  lemma TagInjective(k: Kind, k': Kind)
    ensures Tag(k) == Tag(k') <==> k == k'
  {
    if k != k' {
      assert Tag(k)[0] != Tag(k')[0] || |Tag(k)| != |Tag(k')|;
    }
  }
}
