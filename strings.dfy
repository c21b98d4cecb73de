/** Splitting and joining strings on a separator character, as the hosting
    code does with `String.Split(new[] { ';' }, StringSplitOptions.RemoveEmptyEntries)`.

    `SplitAll` keeps empty pieces (plain `String.Split`); `Split` drops them
    (the `RemoveEmptyEntries` option). Neither trims whitespace, and both keep
    the order of the pieces and any duplicates. */
module Strings {

  /** The separator-joined form of `xs`: `xs[0] + sep + xs[1] + ... `. */
  function Join(xs: seq<string>, sep: char): string
  {
    if |xs| == 0 then ""
    else if |xs| == 1 then xs[0]
    else xs[0] + [sep] + Join(xs[1..], sep)
  }

  /** All characters of all pieces, in order. */
  function Concat(xs: seq<string>): string
  {
    if xs == [] then "" else xs[0] + Concat(xs[1..])
  }

  /** `s` with every occurrence of `c` removed. */
  function Without(s: string, c: char): string
  {
    if s == [] then "" else (if s[0] == c then "" else [s[0]]) + Without(s[1..], c)
  }

  /** No piece contains the separator. */
  predicate SeparatorFree(xs: seq<string>, sep: char)
  {
    forall i :: 0 <= i < |xs| ==> sep !in xs[i]
  }

  /** No piece is the empty string. */
  predicate NoEmpty(xs: seq<string>)
  {
    forall i :: 0 <= i < |xs| ==> xs[i] != ""
  }

  /** The pieces of `s` between occurrences of `sep`, empty pieces included:
      `n` separators give `n + 1` pieces, and joining them back gives `s`. */
  function SplitAll(s: string, sep: char): (r: seq<string>)
    ensures |r| >= 1
    ensures SeparatorFree(r, sep)
    ensures Join(r, sep) == s
  {
    if s == [] then [""]
    else
      var rest := SplitAll(s[1..], sep);
      if s[0] == sep then
        assert Join([""] + rest, sep) == "" + [sep] + Join(rest, sep);
        [""] + rest
      else
        var r := [[s[0]] + rest[0]] + rest[1..];
        assert r[1..] == rest[1..];
        assert Join(r, sep) == [s[0]] + Join(rest, sep) by {
          if |rest| > 1 {
            assert Join(rest, sep) == rest[0] + [sep] + Join(rest[1..], sep);
          }
        }
        assert s == [s[0]] + s[1..];
        r
  }

  /** The non-empty pieces of `xs`, in order. */
  function RemoveEmpty(xs: seq<string>): (r: seq<string>)
    ensures NoEmpty(r)
    ensures |r| <= |xs|
    ensures forall x :: x in r <==> x in xs && x != ""
  {
    if xs == [] then []
    else if xs[0] == "" then RemoveEmpty(xs[1..])
    else [xs[0]] + RemoveEmpty(xs[1..])
  }

  /** `String.Split(new[] { sep }, StringSplitOptions.RemoveEmptyEntries)`. */
  function Split(s: string, sep: char): (r: seq<string>)
    ensures NoEmpty(r)
    ensures SeparatorFree(r, sep)
  {
    var all := SplitAll(s, sep);
    var r := RemoveEmpty(all);
    assert forall i :: 0 <= i < |r| ==> r[i] in all;
    r
  }

  /** A piece free of the separator, glued in front of a string, only
      lengthens that string's first piece. */
  lemma {:induction false} SplitAllPrefix(x: string, s: string, sep: char)
    requires sep !in x
    ensures SplitAll(x + s, sep) == [x + SplitAll(s, sep)[0]] + SplitAll(s, sep)[1..]
  {
    if x == [] {
      var r := SplitAll(s, sep);
      assert x + s == s && x + r[0] == r[0];
      assert r == [r[0]] + r[1..];
    } else {
      assert (x + s)[0] == x[0];
      assert (x + s)[1..] == x[1..] + s;
      assert sep !in x[1..];
      SplitAllPrefix(x[1..], s, sep);
      assert [x[0]] + (x[1..] + SplitAll(s, sep)[0]) == x + SplitAll(s, sep)[0];
    }
  }

  /** Joining separator-free pieces and splitting again gives the pieces back. */
  lemma {:induction false} SplitAllJoin(xs: seq<string>, sep: char)
    requires |xs| >= 1
    requires SeparatorFree(xs, sep)
    ensures SplitAll(Join(xs, sep), sep) == xs
  {
    if |xs| == 1 {
      SplitAllPrefix(xs[0], "", sep);
      assert xs[0] + "" == xs[0];
      assert [xs[0] + ""] == xs;
    } else {
      var tail := [sep] + Join(xs[1..], sep);
      assert Join(xs, sep) == xs[0] + tail;
      assert sep !in xs[0];
      SplitAllPrefix(xs[0], tail, sep);
      assert tail[0] == sep && tail[1..] == Join(xs[1..], sep);
      SplitAllJoin(xs[1..], sep);
      assert SplitAll(tail, sep) == [""] + xs[1..];
      assert xs[0] + "" == xs[0];
      assert xs == [xs[0]] + xs[1..];
    }
  }

  lemma {:induction false} RemoveEmptyKeeps(xs: seq<string>)
    requires NoEmpty(xs)
    ensures RemoveEmpty(xs) == xs
  {
    if xs != [] {
      RemoveEmptyKeeps(xs[1..]);
    }
  }

  /** Joining non-empty, separator-free pieces and splitting with
      `RemoveEmptyEntries` gives the pieces back, duplicates and order kept. */
  lemma SplitJoin(xs: seq<string>, sep: char)
    requires NoEmpty(xs)
    requires SeparatorFree(xs, sep)
    ensures Split(Join(xs, sep), sep) == xs
  {
    if xs == [] {
      assert SplitAll("", sep) == [""];
    } else {
      SplitAllJoin(xs, sep);
      RemoveEmptyKeeps(xs);
    }
  }

  lemma {:induction false} ConcatRemoveEmpty(xs: seq<string>)
    ensures Concat(RemoveEmpty(xs)) == Concat(xs)
  {
    if xs != [] {
      ConcatRemoveEmpty(xs[1..]);
    }
  }

  lemma {:induction false} ConcatSplitAll(s: string, sep: char)
    ensures Concat(SplitAll(s, sep)) == Without(s, sep)
  {
    if s != [] {
      var rest := SplitAll(s[1..], sep);
      ConcatSplitAll(s[1..], sep);
      if s[0] != sep {
        var r := [[s[0]] + rest[0]] + rest[1..];
        assert r[1..] == rest[1..];
        assert Concat(rest) == rest[0] + Concat(rest[1..]);
      } else {
        assert ([""] + rest)[1..] == rest;
      }
    }
  }

  /** Splitting loses exactly the separators: nothing is trimmed, reordered
      or dropped besides them. */
  lemma SplitContent(s: string, sep: char)
    ensures Concat(Split(s, sep)) == Without(s, sep)
  {
    ConcatRemoveEmpty(SplitAll(s, sep));
    ConcatSplitAll(s, sep);
  }

  /** A string splits to nothing exactly when it holds nothing but separators. */
  lemma SplitEmptyIff(s: string, sep: char)
    ensures Split(s, sep) == [] <==> forall i :: 0 <= i < |s| ==> s[i] == sep
  {
    SplitContent(s, sep);
    if Split(s, sep) == [] {
      WithoutEmpty(s, sep);
    } else {
      var xs := Split(s, sep);
      assert xs[0] != "" && Concat(xs) == xs[0] + Concat(xs[1..]);
      WithoutEmpty(s, sep);
    }
  }

  lemma {:induction false} WithoutEmpty(s: string, c: char)
    ensures Without(s, c) == "" <==> forall i :: 0 <= i < |s| ==> s[i] == c
  {
    if s != [] {
      WithoutEmpty(s[1..], c);
      assert forall i :: 1 <= i < |s| ==> s[i] == s[1..][i - 1];
    }
  }

  /** A join whose first piece is non-empty is non-empty. */
  lemma {:induction false} JoinNonEmpty(xs: seq<string>, sep: char)
    requires xs != [] && xs[0] != ""
    ensures Join(xs, sep) != ""
  {
    if |xs| > 1 {
      assert |Join(xs, sep)| >= |xs[0]|;
    }
  }
}
