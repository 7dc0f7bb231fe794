/**
 * The string operations the serialiser relies on: `str::split('\n')`,
 * joining fragments with a separator, and replacing every newline.
 * All three are defined from the last character (or fragment) backwards,
 * the order in which the serialiser grows its output.
 */
module Strings {

  /** The fragments `parts` with `sep` between consecutive ones. */
  function Join(parts: seq<string>, sep: string): string
  {
    if |parts| == 0 then ""
    else if |parts| == 1 then parts[0]
    else Join(parts[..|parts| - 1], sep) + sep + parts[|parts| - 1]
  }

  /**
   * The fragments of `s` between newlines, as Rust's `s.split('\n')` yields
   * them: there is always at least one, the empty string gives `[""]`, and a
   * final newline leaves an empty last fragment.
   */
  function Split(s: string): (r: seq<string>)
    ensures |r| >= 1
  {
    if |s| == 0 then [""]
    else
      var init := Split(s[..|s| - 1]);
      var c := s[|s| - 1];
      if c == '\n' then init + [""]
      else init[..|init| - 1] + [init[|init| - 1] + [c]]
  }

  /** No fragment of a split contains the separator. */
  lemma {:induction false} SplitFragmentsHaveNoNewline(s: string)
    ensures forall k :: 0 <= k < |Split(s)| ==> '\n' !in Split(s)[k]
  {
    if |s| > 0 {
      var init := Split(s[..|s| - 1]);
      SplitFragmentsHaveNoNewline(s[..|s| - 1]);
      if s[|s| - 1] != '\n' {
        assert '\n' !in init[|init| - 1] + [s[|s| - 1]];
      }
    }
  }

  /** `s` with every newline replaced by `sep`. */
  function Replace(s: string, sep: string): string
  {
    if |s| == 0 then ""
    else Replace(s[..|s| - 1], sep) + (if s[|s| - 1] == '\n' then sep else [s[|s| - 1]])
  }

  /** A string without newlines is left as it is. */
  lemma {:induction false} ReplaceWithoutNewline(s: string, sep: string)
    requires '\n' !in s
    ensures Replace(s, sep) == s
  {
    if |s| > 0 {
      ReplaceWithoutNewline(s[..|s| - 1], sep);
      assert s == s[..|s| - 1] + [s[|s| - 1]];
    }
  }

  /** Replacing newlines works piece by piece: over a concatenation it concatenates. */
  lemma {:induction false} ReplaceAppend(a: string, b: string, sep: string)
    ensures Replace(a + b, sep) == Replace(a, sep) + Replace(b, sep)
  {
    if |b| == 0 {
      assert a + b == a;
      assert Replace(a, sep) + "" == Replace(a, sep);
    } else {
      var init, c := b[..|b| - 1], b[|b| - 1];
      var tail := if c == '\n' then sep else [c];
      ReplaceAppend(a, init, sep);
      assert (a + b)[..|a + b| - 1] == a + init && (a + b)[|a + b| - 1] == c;
      assert Replace(a + b, sep) == Replace(a, sep) + Replace(init, sep) + tail;
    }
  }

  /** Joining the fragments of `s` with `sep` is replacing its newlines by `sep`. */
  lemma {:induction false} JoinSplit(s: string, sep: string)
    ensures Join(Split(s), sep) == Replace(s, sep)
  {
    if |s| > 0 {
      var p, c := s[..|s| - 1], s[|s| - 1];
      JoinSplit(p, sep);
      var init := Split(p);
      var n := |init|;
      if c == '\n' {
        assert Split(s) == init + [""];
        assert (init + [""])[..n] == init;
      } else {
        var r := init[..n - 1] + [init[n - 1] + [c]];
        assert Split(s) == r;
        assert r[..n - 1] == init[..n - 1];
        if n > 1 {
          assert Join(r, sep) == Join(init[..n - 1], sep) + sep + init[n - 1] + [c];
        }
      }
    }
  }

  /** Replacing newlines by a newline changes nothing. */
  lemma {:induction false} ReplaceNewlineIdentity(s: string)
    ensures Replace(s, "\n") == s
  {
    if |s| > 0 {
      ReplaceNewlineIdentity(s[..|s| - 1]);
      assert s == s[..|s| - 1] + [s[|s| - 1]];
    }
  }

  /** Splitting on newlines and joining with newlines gives back the input. */
  lemma {:induction false} SplitJoinRoundTrip(s: string)
    ensures Join(Split(s), "\n") == s
  {
    JoinSplit(s, "\n");
    ReplaceNewlineIdentity(s);
  }
}
