/**
 * The pieces the interactive pickers share: a map from id to record built
 * by a loop (later records overwrite earlier ones), the ids of a list,
 * sorted map keys, and the first option equal to the user's choice.
 */
module Picking {
  import opened Common
  import opened Strings
  import opened Sorting

  /** The map a Go loop `m[key(x)] = x` over `xs` builds. */
  function ById<T(!new)>(xs: seq<T>, key: T -> string): (m: map<string, T>)
    ensures forall k :: k in m <==> exists i :: 0 <= i < |xs| && key(xs[i]) == k
    ensures forall k :: k in m ==> m[k] in xs && key(m[k]) == k
    decreases |xs|
  {
    if xs == [] then map[]
    else
      var n := |xs| - 1;
      var m := ById(xs[..n], key);
      assert forall i :: 0 <= i < n ==> xs[..n][i] == xs[i];
      m[key(xs[n]) := xs[n]]
  }

  /** The last record with a key is the one the map keeps. */
  lemma {:induction false} ByIdLast<T(!new)>(xs: seq<T>, key: T -> string, i: nat)
    requires i < |xs|
    requires forall j :: i < j < |xs| ==> key(xs[j]) != key(xs[i])
    ensures key(xs[i]) in ById(xs, key) && ById(xs, key)[key(xs[i])] == xs[i]
    decreases |xs|
  {
    var n := |xs| - 1;
    if i < n {
      ByIdLast(xs[..n], key, i);
    }
  }

  /** The elements of `xs` without repetitions, first occurrences kept. */
  function Distinct(xs: seq<string>): (r: seq<string>)
    ensures forall x :: x in r <==> x in xs
    ensures forall i, j :: 0 <= i < j < |r| ==> r[i] != r[j]
    decreases |xs|
  {
    if xs == [] then []
    else
      var n := |xs| - 1;
      assert forall x :: x in xs <==> x in xs[..n] || x == xs[n];
      Distinct(xs[..n]) + (if xs[n] in xs[..n] then [] else [xs[n]])
  }

  /** The strictly ascending arrangement of the strings in `xs`. */
  function SortedDistinct(xs: seq<string>): (r: seq<string>) {
    SortStrings(Distinct(xs))
  }

  lemma SortedDistinctSpec(xs: seq<string>)
    ensures StrictlySorted(SortedDistinct(xs))
    ensures forall x :: x in SortedDistinct(xs) <==> x in xs
  {
    var d := Distinct(xs);
    SortStringsStrict(d);
    forall x ensures x in SortedDistinct(xs) <==> x in d {
      assert x in SortedDistinct(xs) <==> x in multiset(SortedDistinct(xs));
    }
  }

  /**
   * Go ranges over a map's keys in an order it picks at random; the keys
   * are then sorted, which yields the strictly ascending key sequence
   * whatever that order was.
   */
  method SortedMapKeys<T>(m: map<string, T>) returns (keys: seq<string>)
    ensures StrictlySorted(keys)
    ensures forall k :: k in keys <==> k in m
  {
    var ks: seq<string> := [];
    var remaining := m.Keys;
    while remaining != {}
      invariant remaining <= m.Keys
      invariant forall k :: k in ks <==> k in m && k !in remaining
      invariant forall i, j :: 0 <= i < j < |ks| ==> ks[i] != ks[j]
      decreases |remaining|
    {
      var k :| k in remaining;
      ks := ks + [k];
      remaining := remaining - {k};
    }
    keys := SortStrings(ks);
    SortStringsStrict(ks);
    forall x ensures x in keys <==> x in ks {
      assert x in keys <==> x in multiset(keys);
    }
  }

  /** The option lines shown for `keys`, one per key, each rendered from the record the map holds for it. */
  function OptionLines<T>(keys: seq<string>, m: map<string, T>, line: T -> string): (r: seq<string>)
    requires forall k :: k in keys ==> k in m
    ensures |r| == |keys| && forall i :: 0 <= i < |keys| ==> r[i] == line(m[keys[i]])
  {
    seq(|keys|, i requires 0 <= i < |keys| => line(m[keys[i]]))
  }

  /** The text the tabwriter flush leaves behind: every option line followed by a newline. */
  function Rendered(lines: seq<string>): string
    decreases |lines|
  {
    if lines == [] then "" else lines[0] + "\n" + Rendered(lines[1..])
  }

  /** Go's `strings.Split(s, "\n")`: the pieces between the newlines of `s`, one more than there are newlines. */
  function SplitLines(s: string): (pieces: seq<string>)
    ensures |pieces| >= 1
    decreases |s|
  {
    if s == [] then [""]
    else
      var rest := SplitLines(s[1..]);
      if s[0] == '\n' then [""] + rest
      else [[s[0]] + rest[0]] + rest[1..]
  }

  /**
   * The options the pickers offer as written: the rendered table split at
   * newlines, without the empty piece after the last newline. A line that
   * itself holds a newline becomes several options.
   */
  function SplitOptions(lines: seq<string>): (options: seq<string>)
    ensures forall o :: o in options ==> '\n' !in o
  {
    var pieces := SplitLines(Rendered(lines));
    SplitLinesPieces(Rendered(lines));
    pieces[..|pieces| - 1]
  }

  /** Go's split yields one piece more than there are newlines, and no piece holds a newline. */
  lemma {:induction false} SplitLinesPieces(s: string)
    ensures |SplitLines(s)| == multiset(s)['\n'] + 1
    ensures forall p :: p in SplitLines(s) ==> '\n' !in p
    decreases |s|
  {
    if s != [] {
      assert s == [s[0]] + s[1..];
      SplitLinesPieces(s[1..]);
    }
  }

  /** A line without a newline is one piece of the split. */
  lemma {:induction false} SplitAfterLine(a: string, t: string)
    requires '\n' !in a
    ensures SplitLines(a + "\n" + t) == [a] + SplitLines(t)
    decreases |a|
  {
    var s := a + "\n" + t;
    if a == [] {
      assert s[1..] == t;
    } else {
      assert s[1..] == a[1..] + "\n" + t;
      SplitAfterLine(a[1..], t);
      assert [a[0]] + a[1..] == a;
    }
  }

  /** Splitting the rendered text of newline-free lines gives back the lines and one empty piece. */
  lemma {:induction false} SplitRendered(lines: seq<string>)
    requires forall i :: 0 <= i < |lines| ==> '\n' !in lines[i]
    ensures SplitLines(Rendered(lines)) == lines + [""]
    decreases |lines|
  {
    if lines != [] {
      var tail := lines[1..];
      assert forall i :: 0 <= i < |tail| ==> tail[i] == lines[i + 1];
      SplitRendered(tail);
      SplitAfterLine(lines[0], Rendered(tail));
      calc {
        SplitLines(Rendered(lines));
        SplitLines(lines[0] + "\n" + Rendered(tail));
        [lines[0]] + SplitLines(Rendered(tail));
        [lines[0]] + (tail + [""]);
        { assert [lines[0]] + tail == lines; }
        lines + [""];
      }
    }
  }

  /** When no line holds a newline, the split options are exactly the lines: one option per row. */
  lemma SplitOptionsPlain(lines: seq<string>)
    requires forall i :: 0 <= i < |lines| ==> '\n' !in lines[i]
    ensures SplitOptions(lines) == lines
  {
    SplitRendered(lines);
    assert (lines + [""])[..|lines|] == lines;
  }

  /** A row holding one newline is offered as two options. */
  lemma SplitRowTwoOptions(a: string, b: string, rest: seq<string>)
    requires '\n' !in a && '\n' !in b
    requires forall i :: 0 <= i < |rest| ==> '\n' !in rest[i]
    ensures SplitOptions([a + "\n" + b] + rest) == [a, b] + rest
  {
    var lines := [a + "\n" + b] + rest;
    assert lines[1..] == rest;
    var t := Rendered(rest);
    assert Rendered(lines) == a + "\n" + (b + "\n" + t);
    SplitAfterLine(a, b + "\n" + t);
    SplitAfterLine(b, t);
    SplitRendered(rest);
    assert [a] + ([b] + (rest + [""])) == [a, b] + rest + [""];
    assert ([a, b] + rest + [""])[..|rest| + 2] == [a, b] + rest;
  }

  /** The position of the first option equal to `x` (Go's `for index, option := range options`). */
  function IndexOf(xs: seq<string>, x: string): (r: Option<nat>)
    ensures r.Some? ==> r.value < |xs| && xs[r.value] == x && forall j :: 0 <= j < r.value ==> xs[j] != x
    ensures r.None? ==> x !in xs
  {
    if xs == [] then None
    else if xs[0] == x then Some(0)
    else match IndexOf(xs[1..], x)
      case None => None
      case Some(i) => Some(i + 1)
  }

  /** The line of the option for `keys[k]` is found, at `k` or at an earlier key with the same line. */
  lemma OptionOfKey<T>(keys: seq<string>, m: map<string, T>, line: T -> string, k: int)
    requires forall x :: x in keys ==> x in m
    requires 0 <= k < |keys|
    ensures var r := IndexOf(OptionLines(keys, m, line), line(m[keys[k]]));
      r.Some? && r.value <= k && line(m[keys[r.value]]) == line(m[keys[k]])
  {
    var options := OptionLines(keys, m, line);
    assert options[k] == line(m[keys[k]]);
  }

  /** Builds the id map by storing each element under its key in turn (later elements overwrite earlier ones). */
  method MapByKey<T(!new)>(xs: seq<T>, key: T -> string) returns (m: map<string, T>)
    ensures m == ById(xs, key)
  {
    m := map[];
    var n := 0;
    while n < |xs|
      invariant 0 <= n <= |xs|
      invariant m == ById(xs[..n], key)
    {
      assert xs[..n + 1][..n] == xs[..n];
      m := m[key(xs[n]) := xs[n]];
      n := n + 1;
    }
    assert xs[..n] == xs;
  }

  /** Renders one option line per key, in key order. */
  method RenderOptions<T>(keys: seq<string>, m: map<string, T>, line: T -> string) returns (options: seq<string>)
    requires forall k :: k in keys ==> k in m
    ensures options == OptionLines(keys, m, line)
  {
    options := [];
    while |options| < |keys|
      invariant |options| <= |keys|
      invariant forall j :: 0 <= j < |options| ==> options[j] == line(m[keys[j]])
    {
      options := options + [line(m[keys[|options|]])];
    }
  }

  /** Scans the options for the picked line and stops at the first equal one. */
  method FindOption(options: seq<string>, selected: string) returns (r: Option<nat>)
    ensures r == IndexOf(options, selected)
  {
    var index := 0;
    while index < |options|
      invariant 0 <= index <= |options|
      invariant forall j :: 0 <= j < index ==> options[j] != selected
    {
      if options[index] == selected {
        return Some(index);
      }
      index := index + 1;
    }
    return None;
  }

  /** Collects the key of every element, in order (duplicates kept). */
  method CollectKeys<T>(xs: seq<T>, key: T -> string) returns (keys: seq<string>)
    ensures keys == MapSeq(xs, key)
  {
    keys := [];
    while |keys| < |xs|
      invariant |keys| <= |xs|
      invariant forall j :: 0 <= j < |keys| ==> keys[j] == key(xs[j])
    {
      keys := keys + [key(xs[|keys|])];
    }
  }

  /** The line of every key's record is among the options. */
  lemma LineListed<T>(keys: seq<string>, m: map<string, T>, line: T -> string, k: string)
    requires forall k :: k in keys ==> k in m
    requires k in keys
    ensures line(m[k]) in OptionLines(keys, m, line)
  {
    var i :| 0 <= i < |keys| && keys[i] == k;
    assert OptionLines(keys, m, line)[i] == line(m[k]);
  }

  /** A line found among the first options is found there whatever follows. */
  lemma {:induction false} IndexOfPrefix(a: seq<string>, b: seq<string>, x: string)
    requires x in a
    ensures IndexOf(a + b, x) == IndexOf(a, x)
  {
    if a[0] != x {
      assert (a + b)[1..] == a[1..] + b;
      IndexOfPrefix(a[1..], b, x);
    }
  }

  /** An element whose key no other element shares is the map's entry for that key. */
  lemma KeyedEntry<T(!new)>(xs: seq<T>, key: T -> string, x: T)
    requires x in xs
    requires forall y :: y in xs && key(y) == key(x) ==> y == x
    ensures key(x) in ById(xs, key) && ById(xs, key)[key(x)] == x
  {
  }
}
