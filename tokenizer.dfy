/** The command tokenizer of `handleCommand`: the input chunk is trimmed with
    `String.prototype.trim` and split with the regular expression `/ +/`; the
    first token is the command name and the others are its arguments. */
module Tokenizer {

  /** One parsed input line. */
  datatype Command = Command(name: string, args: seq<string>)

  /** The characters `String.prototype.trim` removes: ECMAScript WhiteSpace
      (tab, vertical tab, form feed, space, no-break space, byte order mark and
      the Unicode space separators) and LineTerminator (LF, CR, LS, PS). */
  predicate IsWhitespace(c: char) {
    c == '\t' || c == '\n' || c == '\U{000B}' || c == '\U{000C}' || c == '\r' ||
    c == ' ' || c == '\U{00A0}' || c == '\U{1680}' || ('\U{2000}' <= c <= '\U{200A}') ||
    c == '\U{2028}' || c == '\U{2029}' || c == '\U{202F}' || c == '\U{205F}' ||
    c == '\U{3000}' || c == '\U{FEFF}'
  }

  /** Number of whitespace characters at the start of `s`. */
  function Leading(s: string): (n: nat)
    ensures n <= |s|
    ensures forall k :: 0 <= k < n ==> IsWhitespace(s[k])
    ensures n < |s| ==> !IsWhitespace(s[n])
  {
    if s != [] && IsWhitespace(s[0]) then 1 + Leading(s[1..]) else 0
  }

  /** `s` without its trailing whitespace. */
  function TrimEnd(s: string): (r: string)
    ensures |r| <= |s| && r == s[..|r|]
    ensures r == [] || !IsWhitespace(r[|r| - 1])
    ensures forall k :: |r| <= k < |s| ==> IsWhitespace(s[k])
  {
    if s != [] && IsWhitespace(s[|s| - 1]) then TrimEnd(s[..|s| - 1]) else s
  }

  /** `String.prototype.trim`: the slice of `s` between its leading and its
      trailing run of whitespace. */
  function Trim(s: string): (r: string)
    ensures Leading(s) + |r| <= |s| && r == s[Leading(s)..Leading(s) + |r|]
    ensures forall k :: Leading(s) + |r| <= k < |s| ==> IsWhitespace(s[k])
    ensures r == [] || (!IsWhitespace(r[0]) && !IsWhitespace(r[|r| - 1]))
    ensures r == [] <==> forall k :: 0 <= k < |s| ==> IsWhitespace(s[k])
  {
    var n := Leading(s);
    var r := TrimEnd(s[n..]);
    assert r != [] ==> r[0] == s[n];
    r
  }

  /** Length of the longest prefix of `s` that holds no space character. */
  function SpaceFreePrefix(s: string): (n: nat)
    ensures n <= |s| && ' ' !in s[..n]
    ensures n < |s| ==> s[n] == ' '
  {
    if s == [] || s[0] == ' ' then 0
    else
      var n := 1 + SpaceFreePrefix(s[1..]);
      assert s[..n] == [s[0]] + s[1..][..n - 1];
      n
  }

  /** `s` without its leading run of space characters. */
  function DropSpaces(s: string): (r: string)
    ensures |r| <= |s| && r == s[|s| - |r|..]
    ensures r == [] || r[0] != ' '
    ensures forall k :: 0 <= k < |s| - |r| ==> s[k] == ' '
  {
    if s != [] && s[0] == ' ' then DropSpaces(s[1..]) else s
  }

  /** `s.split(/ +/)`: the pieces of `s` between maximal runs of the space
      character. Only U+0020 separates; tabs and other whitespace stay inside
      tokens. The empty string splits into the single piece `""`. */
  function Split(s: string): (r: seq<string>)
    ensures |r| >= 1
    decreases |s|
  {
    var n := SpaceFreePrefix(s);
    if n == |s| then [s] else [s[..n]] + Split(DropSpaces(s[n..]))
  }

  /** The tokens joined with one space between neighbours. */
  function Join(ts: seq<string>): string
    requires |ts| >= 1
  {
    if |ts| == 1 then ts[0] else ts[0] + [' '] + Join(ts[1..])
  }

  /** All characters of the tokens, in order, without separators. */
  function Concat(ts: seq<string>): string {
    if ts == [] then [] else ts[0] + Concat(ts[1..])
  }

  /** The characters of `s` other than the space character, in order. */
  function WithoutSpaces(s: string): string {
    if s == [] then [] else (if s[0] == ' ' then [] else [s[0]]) + WithoutSpaces(s[1..])
  }

  /** `const [command, ...args] = input.trim().split(/ +/)` */
  function Tokenize(input: string): Command {
    var ts := Split(Trim(input));
    Command(ts[0], ts[1..])
  }

  /** No piece of a split holds a space character. */
  lemma {:induction false} SplitSpaceFree(s: string)
    ensures forall k :: 0 <= k < |Split(s)| ==> ' ' !in Split(s)[k]
    decreases |s|
  {
    var n := SpaceFreePrefix(s);
    if n < |s| {
      SplitSpaceFree(DropSpaces(s[n..]));
    }
  }

  /** A string that neither starts nor ends with a space splits into non-empty
      pieces. */
  lemma {:induction false} SplitNonEmpty(s: string)
    requires s != [] && s[0] != ' ' && s[|s| - 1] != ' '
    ensures forall k :: 0 <= k < |Split(s)| ==> Split(s)[k] != []
    decreases |s|
  {
    var n := SpaceFreePrefix(s);
    if n < |s| {
      var rest := DropSpaces(s[n..]);
      assert s[n..][|s| - 1 - n] == s[|s| - 1];
      assert rest != [];
      assert rest[|rest| - 1] == s[|s| - 1];
      SplitNonEmpty(rest);
    }
  }

  /** Splitting keeps every non-space character, in order: the pieces
      concatenated are the input with its spaces removed. */
  lemma {:induction false} SplitKeepsCharacters(s: string)
    ensures Concat(Split(s)) == WithoutSpaces(s)
    decreases |s|
  {
    var n := SpaceFreePrefix(s);
    if n == |s| {
      WithoutSpacesOfSpaceFree(s);
      assert s[..n] == s;
      assert Concat([s]) == s + Concat([]);
    } else {
      SplitKeepsCharacters(DropSpaces(s[n..]));
      SplitKeepsCharactersStep(s);
    }
  }

  /** The inductive step of `SplitKeepsCharacters`: from the remainder after
      the first run of spaces to the whole string. */
  lemma SplitKeepsCharactersStep(s: string)
    requires SpaceFreePrefix(s) < |s|
    requires var rest := DropSpaces(s[SpaceFreePrefix(s)..]); Concat(Split(rest)) == WithoutSpaces(rest)
    ensures Concat(Split(s)) == WithoutSpaces(s)
  {
    var n := SpaceFreePrefix(s);
    var head, spaced := s[..n], s[n..];
    var rest := DropSpaces(spaced);
    calc {
      Concat(Split(s));
      { SplitStep(s); }
      Concat([head] + Split(rest));
      { ConcatCons(head, Split(rest)); }
      head + Concat(Split(rest));
      head + WithoutSpaces(rest);
      { DropSpacesKeepsCharacters(spaced); }
      head + WithoutSpaces(spaced);
      { WithoutSpacesOfSpaceFree(head); }
      WithoutSpaces(head) + WithoutSpaces(spaced);
      { WithoutSpacesAppend(head, spaced); }
      WithoutSpaces(head + spaced);
      { SliceJoin(s, n); }
      WithoutSpaces(s);
    }
  }

  lemma SliceJoin(s: string, n: nat)
    requires n <= |s|
    ensures s[..n] + s[n..] == s
  {
  }

  lemma SplitStep(s: string)
    requires SpaceFreePrefix(s) < |s|
    ensures Split(s) == [s[..SpaceFreePrefix(s)]] + Split(DropSpaces(s[SpaceFreePrefix(s)..]))
  {
  }

  lemma ConcatCons(t: string, ts: seq<string>)
    ensures Concat([t] + ts) == t + Concat(ts)
  {
    assert ([t] + ts)[0] == t && ([t] + ts)[1..] == ts;
  }

  lemma {:induction false} DropSpacesKeepsCharacters(s: string)
    ensures WithoutSpaces(DropSpaces(s)) == WithoutSpaces(s)
  {
    if s != [] && s[0] == ' ' {
      DropSpacesKeepsCharacters(s[1..]);
    }
  }

  lemma {:induction false} WithoutSpacesAppend(a: string, b: string)
    ensures WithoutSpaces(a + b) == WithoutSpaces(a) + WithoutSpaces(b)
  {
    if a == [] {
      assert a + b == b;
    } else {
      assert (a + b)[0] == a[0];
      assert (a + b)[1..] == a[1..] + b;
      WithoutSpacesAppend(a[1..], b);
    }
  }

  lemma {:induction false} WithoutSpacesOfSpaceFree(s: string)
    requires ' ' !in s
    ensures WithoutSpaces(s) == s
  {
    if s != [] {
      WithoutSpacesOfSpaceFree(s[1..]);
    }
  }

  /** Splitting undoes joining: tokens that are non-empty and free of spaces
      come back unchanged from `Split(Join(ts))`. */
  lemma {:induction false} SplitJoin(ts: seq<string>)
    requires |ts| >= 1
    requires forall k :: 0 <= k < |ts| ==> ts[k] != [] && ' ' !in ts[k]
    ensures Split(Join(ts)) == ts
  {
    if |ts| == 1 {
      SpaceFreePrefixOf(ts[0], []);
      assert ts[0] + [] == ts[0];
    } else {
      var rest := ts[1..];
      assert forall k :: 0 <= k < |rest| ==> rest[k] == ts[k + 1];
      SplitJoin(rest);
      JoinStartsWithToken(rest);
      SplitRun(ts[0], [' '], Join(rest));
      assert ts == [ts[0]] + rest;
    }
  }

  /** A run of one or more spaces separates exactly as one space does: a
      space-free token, the run and a string that does not start with a space
      split as that token followed by the string's own pieces. */
  lemma SplitRun(t: string, run: string, tail: string)
    requires ' ' !in t
    requires run != [] && forall k :: 0 <= k < |run| ==> run[k] == ' '
    requires tail != [] && tail[0] != ' '
    ensures Split(t + run + tail) == [t] + Split(tail)
    ensures Split(t + run + tail) == Split(t + [' '] + tail)
  {
    SplitRunOnce(t, run, tail);
    SplitRunOnce(t, [' '], tail);
  }

  lemma SplitRunOnce(t: string, run: string, tail: string)
    requires ' ' !in t
    requires run != [] && forall k :: 0 <= k < |run| ==> run[k] == ' '
    requires tail != [] && tail[0] != ' '
    ensures Split(t + run + tail) == [t] + Split(tail)
  {
    var s := t + run + tail;
    assert s == t + (run + tail);
    SpaceFreePrefixOf(t, run + tail);
    assert s[..|t|] == t;
    assert s[|t|..] == run + tail;
    DropRun(run, tail);
  }

  lemma {:induction false} DropRun(run: string, tail: string)
    requires forall k :: 0 <= k < |run| ==> run[k] == ' '
    requires tail == [] || tail[0] != ' '
    ensures DropSpaces(run + tail) == tail
  {
    if run == [] {
      assert run + tail == tail;
    } else {
      assert (run + tail)[0] == ' ';
      assert (run + tail)[1..] == run[1..] + tail;
      DropRun(run[1..], tail);
    }
  }

  lemma {:induction false} SpaceFreePrefixOf(t: string, rest: string)
    requires ' ' !in t
    requires rest == [] || rest[0] == ' '
    ensures SpaceFreePrefix(t + rest) == |t|
  {
    if t != [] {
      assert (t + rest)[0] == t[0];
      assert (t + rest)[1..] == t[1..] + rest;
      SpaceFreePrefixOf(t[1..], rest);
    }
  }

  lemma JoinStartsWithToken(ts: seq<string>)
    requires |ts| >= 1 && ts[0] != []
    ensures Join(ts) != [] && Join(ts)[0] == ts[0][0]
  {
  }

  /** An input made only of whitespace is the command `""` with no arguments. */
  lemma BlankInput(input: string)
    requires forall k :: 0 <= k < |input| ==> IsWhitespace(input[k])
    ensures Tokenize(input) == Command("", [])
  {
  }

  /** For an input with some non-whitespace character, the command name and
      every argument are non-empty and hold no space character. */
  lemma TokensNonEmptySpaceFree(input: string)
    requires exists k :: 0 <= k < |input| && !IsWhitespace(input[k])
    ensures var c := Tokenize(input);
      c.name != [] && ' ' !in c.name &&
      forall k :: 0 <= k < |c.args| ==> c.args[k] != [] && ' ' !in c.args[k]
  {
    var t := Trim(input);
    var j :| 0 <= j < |input| && !IsWhitespace(input[j]);
    assert t != [];
    SplitNonEmpty(t);
    SplitSpaceFree(t);
    var ts := Split(t);
    assert forall k :: 0 <= k < |ts| - 1 ==> ts[1..][k] == ts[k + 1];
  }

  /** A line of whitespace-free words joined by single spaces tokenizes to its
      first word as command and the rest as arguments. */
  lemma TokenizeJoin(ts: seq<string>)
    requires |ts| >= 1
    requires forall k :: 0 <= k < |ts| ==> ts[k] != []
    requires forall k, m :: 0 <= k < |ts| && 0 <= m < |ts[k]| ==> !IsWhitespace(ts[k][m])
    ensures Tokenize(Join(ts)) == Command(ts[0], ts[1..])
  {
    JoinEnds(ts);
    var s := Join(ts);
    assert Leading(s) == 0;
    assert TrimEnd(s) == s;
    SplitJoin(ts);
  }

  lemma {:induction false} JoinEnds(ts: seq<string>)
    requires |ts| >= 1
    requires forall k :: 0 <= k < |ts| ==> ts[k] != []
    requires forall k, m :: 0 <= k < |ts| && 0 <= m < |ts[k]| ==> !IsWhitespace(ts[k][m])
    ensures var s := Join(ts); s != [] && !IsWhitespace(s[0]) && !IsWhitespace(s[|s| - 1])
  {
    if |ts| > 1 {
      JoinEnds(ts[1..]);
      var s := Join(ts);
      var tail := Join(ts[1..]);
      assert s == ts[0] + [' '] + tail;
      assert s[|s| - 1] == tail[|tail| - 1];
    }
  }

  /** Input whose ends are not whitespace and that holds no space is a
      single command name with no arguments, whatever else it holds. */
  lemma SingleWord(s: string)
    requires s != [] && !IsWhitespace(s[0]) && !IsWhitespace(s[|s| - 1])
    requires forall k :: 0 <= k < |s| ==> s[k] != ' '
    ensures Tokenize(s) == Command(s, [])
  {
    TrimmedInput(s);
    SplitWord(s);
  }

  lemma TrimmedInput(s: string)
    requires s != [] && !IsWhitespace(s[0]) && !IsWhitespace(s[|s| - 1])
    ensures Trim(s) == s
  {
    assert Leading(s) == 0;
    assert TrimEnd(s) == s;
  }

  lemma SplitWord(t: string)
    requires ' ' !in t
    ensures Split(t) == [t]
  {
    SpaceFreePrefixOf(t, []);
    assert t + [] == t;
  }

  /** A tab does not separate tokens: `cd<TAB>docs` is one unknown command. */
  lemma TabIsNotSeparator()
    ensures Tokenize("cd\tdocs") == Command("cd\tdocs", [])
  {
    var s := "cd\tdocs";
    assert !IsWhitespace(s[0]) && !IsWhitespace(s[|s| - 1]);
    SingleWord(s);
  }

  /** A run of spaces between two words separates them like one space:
      `cd  docs` is `cd` with the argument `docs`. */
  lemma RunSeparatesWords(name: string, run: string, arg: string)
    requires name != [] && !IsWhitespace(name[0]) && ' ' !in name
    requires arg != [] && !IsWhitespace(arg[|arg| - 1]) && ' ' !in arg
    requires run != [] && forall k :: 0 <= k < |run| ==> run[k] == ' '
    ensures Tokenize(name + run + arg) == Command(name, [arg])
  {
    var s := name + run + arg;
    assert s[0] == name[0] && s[|s| - 1] == arg[|arg| - 1];
    TrimmedInput(s);
    assert arg[0] in arg;
    SplitRun(name, run, arg);
    SplitWord(arg);
  }
}
