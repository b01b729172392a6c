/** The start-up parse of the display name: the first command-line argument
    that starts with `--username=`, with that text replaced by nothing, or
    `Anonymous` when there is no such argument or what remains is empty. */
module Startup {
  import opened Wrappers

  const Flag: string := "--username="
  const Anonymous: string := "Anonymous"

  /** `s.startsWith(p)` */
  predicate StartsWith(s: string, p: string) {
    |p| <= |s| && s[..|p|] == p
  }

  /** `s` holds `p` at position `i`. */
  predicate OccursAt(s: string, p: string, i: nat) {
    i + |p| <= |s| && s[i..i + |p|] == p
  }

  /** `args.findIndex((arg) => arg.startsWith(p))`, absent as `None`. */
  function FindFlag(args: seq<string>, p: string): (r: Option<nat>)
    ensures r.Some? ==> r.value < |args| && StartsWith(args[r.value], p)
    ensures r.Some? ==> forall j :: 0 <= j < r.value ==> !StartsWith(args[j], p)
    ensures r.None? ==> forall j :: 0 <= j < |args| ==> !StartsWith(args[j], p)
  {
    if args == [] then None
    else if StartsWith(args[0], p) then Some(0)
    else match FindFlag(args[1..], p)
      case None => None
      case Some(i) => Some(i + 1)
  }

  /** The position of the first occurrence of `p` in `s` at or after `from`
      (`String.prototype.indexOf`). */
  function IndexOf(s: string, p: string, from: nat): (r: Option<nat>)
    ensures r.Some? ==> from <= r.value && OccursAt(s, p, r.value)
    ensures r.Some? ==> forall j :: from <= j < r.value ==> !OccursAt(s, p, j)
    ensures r.None? ==> forall j :: from <= j ==> !OccursAt(s, p, j)
    decreases |s| - from
  {
    if from + |p| > |s| then None
    else if s[from..from + |p|] == p then Some(from)
    else IndexOf(s, p, from + 1)
  }

  /** `s.replace(p, q)` with a string pattern: only the first occurrence of
      `p` is replaced. */
  function ReplaceFirst(s: string, p: string, q: string): string {
    match IndexOf(s, p, 0)
    case None => s
    case Some(i) => s[..i] + q + s[i + |p|..]
  }

  /** Replacing a prefix by nothing removes exactly that prefix: its first
      occurrence is the one at position 0. */
  lemma ReplacePrefix(s: string, p: string)
    requires StartsWith(s, p)
    ensures ReplaceFirst(s, p, "") == s[|p|..]
  {
    assert OccursAt(s, p, 0);
  }

  /** `args.find(...)?.replace("--username=", "") || "Anonymous"`: the empty
      string and `undefined` are both falsy. */
  function Username(args: seq<string>): (name: string)
    ensures name != []
    ensures FindFlag(args, Flag).None? ==> name == Anonymous
    ensures FindFlag(args, Flag).Some? ==>
      var arg := args[FindFlag(args, Flag).value];
      name == if |arg| == |Flag| then Anonymous else arg[|Flag|..]
  {
    match FindFlag(args, Flag)
    case None => Anonymous
    case Some(i) =>
      ReplacePrefix(args[i], Flag);
      var rest := ReplaceFirst(args[i], Flag, "");
      if rest == "" then Anonymous else rest
  }

  /** The first `--username=<name>` with a non-empty name decides the name,
      whatever follows it. */
  lemma {:induction false} FirstFlagWins(before: seq<string>, name: string, after: seq<string>)
    requires forall j :: 0 <= j < |before| ==> !StartsWith(before[j], Flag)
    requires name != []
    ensures Username(before + [Flag + name] + after) == name
  {
    var args := before + [Flag + name] + after;
    assert args[|before|] == Flag + name;
    assert StartsWith(Flag + name, Flag);
    NoEarlierFlag(args, |before|);
    assert (Flag + name)[|Flag|..] == name;
  }

  /** An empty `--username=` is found first and shadows a later, non-empty
      one: the name stays `Anonymous`. */
  lemma EmptyFlagShadows(name: string)
    ensures Username([Flag, Flag + name]) == Anonymous
  {
    assert StartsWith(Flag, Flag);
  }

  lemma {:induction false} NoEarlierFlag(args: seq<string>, i: nat)
    requires i < |args| && StartsWith(args[i], Flag)
    requires forall j :: 0 <= j < i ==> !StartsWith(args[j], Flag)
    ensures FindFlag(args, Flag) == Some(i)
  {
    if i > 0 {
      assert !StartsWith(args[0], Flag);
      assert forall j :: 0 <= j < i - 1 ==> args[1..][j] == args[j + 1];
      NoEarlierFlag(args[1..], i - 1);
    }
  }
}
