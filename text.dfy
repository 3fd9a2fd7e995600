/** Strings, bytes and the few `str`/`bytes` operations the source relies on. */
module Text {

  /** One byte of a process's output (Python `bytes` elements). */
  newtype byte = b: int | 0 <= b < 256

  type bytes = seq<byte>

  /** ASCII digit, the characters `\d` matches in `ip link show` output. */
  predicate IsDigit(c: char)
  {
    '0' <= c <= '9'
  }

  predicate IsLowercase(c: char)
  {
    'a' <= c <= 'z'
  }

  /** `needle` occurs in `hay` starting at position `i`. */
  predicate OccursAt<T(==)>(hay: seq<T>, needle: seq<T>, i: int)
  {
    0 <= i && i + |needle| <= |hay| && hay[i..i + |needle|] == needle
  }

  /** Dropping the first element shifts every occurrence one place to the left. */
  lemma OccursShift<T>(hay: seq<T>, needle: seq<T>, i: int)
    requires hay != [] && 0 <= i
    ensures OccursAt(hay, needle, i + 1) <==> OccursAt(hay[1..], needle, i)
  {
    if i + 1 + |needle| <= |hay| {
      assert hay[i + 1..i + 1 + |needle|] == hay[1..][i..i + |needle|];
    }
  }

  /** Python's `needle in hay` for `str` and `bytes`: a scan from the left. */
  function Contains<T(==)>(hay: seq<T>, needle: seq<T>): bool
  {
    needle <= hay || (hay != [] && Contains(hay[1..], needle))
  }

  /** `needle` occurs somewhere in `hay`. */
  ghost predicate Occurs<T>(hay: seq<T>, needle: seq<T>)
  {
    exists i :: OccursAt(hay, needle, i)
  }

  /** The scan finds `needle` exactly when it occurs at some position. */
  lemma {:induction false} ContainsIff<T>(hay: seq<T>, needle: seq<T>)
    ensures Contains(hay, needle) <==> Occurs(hay, needle)
  {
    if needle <= hay {
      assert OccursAt(hay, needle, 0);
    } else if hay != [] {
      ContainsIff(hay[1..], needle);
      if exists i :: OccursAt(hay[1..], needle, i) {
        var i :| OccursAt(hay[1..], needle, i);
        OccursShift(hay, needle, i);
      }
      if exists i :: OccursAt(hay, needle, i) {
        var i :| OccursAt(hay, needle, i);
        if i > 0 {
          OccursShift(hay, needle, i - 1);
        }
      }
    }
  }

  /** Python's `s.split(sep)` for a one-character separator. */
  function Split(s: string, sep: char): (parts: seq<string>)
    ensures |parts| > 0
    ensures forall i :: 0 <= i < |parts| ==> sep !in parts[i]
  {
    if s == [] then [[]]
    else if s[0] == sep then [[]] + Split(s[1..], sep)
    else
      var rest := Split(s[1..], sep);
      [[s[0]] + rest[0]] + rest[1..]
  }

  /** Python's `sep.join(words)`. */
  function Join(words: seq<string>, sep: char): string
    requires |words| > 0
  {
    if |words| == 1 then words[0] else words[0] + [sep] + Join(words[1..], sep)
  }

  lemma {:induction false} JoinSnoc(words: seq<string>, w: string, sep: char)
    requires |words| > 0
    ensures Join(words + [w], sep) == Join(words, sep) + [sep] + w
  {
    if |words| > 1 {
      assert (words + [w])[1..] == words[1..] + [w];
      JoinSnoc(words[1..], w, sep);
    }
  }

  /** Joining the parts of a split gives back the original string. */
  lemma {:induction false} JoinSplit(s: string, sep: char)
    ensures Join(Split(s, sep), sep) == s
  {
    if s != [] {
      JoinSplit(s[1..], sep);
      var rest := Split(s[1..], sep);
      if s[0] != sep && |rest| > 1 {
        assert ([[s[0]] + rest[0]] + rest[1..])[1..] == rest[1..];
      }
    }
  }

  /** Splitting a word followed by the separator peels that word off. */
  lemma {:induction false} SplitCons(w: string, rest: string, sep: char)
    requires sep !in w
    ensures Split(w + [sep] + rest, sep) == [w] + Split(rest, sep)
  {
    if w != [] {
      assert (w + [sep] + rest)[1..] == w[1..] + [sep] + rest;
      SplitCons(w[1..], rest, sep);
      assert [w[0]] + w[1..] == w;
    } else {
      assert w + [sep] + rest == [sep] + rest;
    }
  }

  lemma {:induction false} SplitWord(w: string, sep: char)
    requires sep !in w
    ensures Split(w, sep) == [w]
  {
    if w != [] {
      SplitWord(w[1..], sep);
      assert [w[0]] + w[1..] == w;
    }
  }

  /** Python's `s.split(sep)[-1]`: the text after the last separator. */
  function LastPart(s: string, sep: char): (r: string)
    ensures sep !in r
    ensures |r| <= |s| && r == s[|s| - |r|..]
    ensures |r| < |s| ==> s[|s| - |r| - 1] == sep
  {
    var parts := Split(s, sep);
    JoinSplit(s, sep);
    if |parts| > 1 then
      assert parts == parts[..|parts| - 1] + [parts[|parts| - 1]];
      JoinSnoc(parts[..|parts| - 1], parts[|parts| - 1], sep);
      parts[|parts| - 1]
    else
      parts[0]
  }

  /** Python's `s.split(needle)[0]`: the text before the first occurrence of `needle`. */
  function BeforeFirst<T(==)>(s: seq<T>, needle: seq<T>): (r: seq<T>)
    requires |needle| > 0
    ensures r <= s
    ensures forall i :: 0 <= i < |r| ==> !OccursAt(s, needle, i)
    ensures r == s || OccursAt(s, needle, |r|)
  {
    if needle <= s then []
    else if s == [] then []
    else
      var rest := BeforeFirst(s[1..], needle);
      assert forall i :: 1 <= i <= |rest| + 1 ==> (OccursAt(s, needle, i) <==> OccursAt(s[1..], needle, i - 1)) by {
        forall i | 1 <= i <= |rest| + 1
          ensures OccursAt(s, needle, i) <==> OccursAt(s[1..], needle, i - 1)
        {
          OccursShift(s, needle, i - 1);
        }
      }
      [s[0]] + rest
  }
}
