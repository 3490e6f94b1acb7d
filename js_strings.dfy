/**
 * JavaScript's `String.prototype.split` with a one-character separator, and the
 * matching `join`. `"a b".split(' ')` is `["a", "b"]`, `"".split(' ')` is `[""]`,
 * and two adjacent separators produce an empty segment between them.
 */
module JsStrings {

  /** `s.split(sep)`: the maximal separator-free runs of `s`, in order. */
  function Split(s: string, sep: char): (parts: seq<string>)
    ensures |parts| >= 1
    ensures forall i :: 0 <= i < |parts| ==> sep !in parts[i]
    decreases |s|
  {
    if |s| == 0 then [""]
    else if s[0] == sep then [""] + Split(s[1..], sep)
    else
      var rest := Split(s[1..], sep);
      [[s[0]] + rest[0]] + rest[1..]
  }

  /** `parts.join(sep)`. */
  function Join(parts: seq<string>, sep: char): string
    requires |parts| >= 1
    decreases |parts|
  {
    if |parts| == 1 then parts[0] else parts[0] + [sep] + Join(parts[1..], sep)
  }

  /** Splitting loses nothing: joining the segments gives back the string. */
  lemma {:induction false} JoinSplit(s: string, sep: char)
    ensures Join(Split(s, sep), sep) == s
    decreases |s|
  {
    if |s| == 0 {
    } else if s[0] == sep {
      JoinSplit(s[1..], sep);
      assert [""] + Split(s[1..], sep) == Split(s, sep);
      assert Split(s, sep)[1..] == Split(s[1..], sep);
      assert s == [sep] + s[1..];
    } else {
      var rest := Split(s[1..], sep);
      JoinSplit(s[1..], sep);
      var parts := Split(s, sep);
      assert parts[0] == [s[0]] + rest[0];
      assert parts[1..] == rest[1..];
      if |rest| == 1 {
        assert s == [s[0]] + s[1..];
      } else {
        assert Join(rest, sep) == rest[0] + [sep] + Join(rest[1..], sep);
        assert s == [s[0]] + s[1..];
      }
    }
  }

  /** A separator-free string is a single segment. */
  lemma {:induction false} SplitWord(w: string, sep: char)
    requires sep !in w
    ensures Split(w, sep) == [w]
    decreases |w|
  {
    if |w| > 0 {
      assert sep !in w[1..] by {
        forall k | 0 <= k < |w[1..]| ensures w[1..][k] != sep {
          assert w[1..][k] == w[k + 1];
        }
      }
      SplitWord(w[1..], sep);
      assert w == [w[0]] + w[1..];
    }
  }

  /** A separator-free word followed by the separator is split off as the first segment. */
  lemma {:induction false} SplitCons(w: string, sep: char, t: string)
    requires sep !in w
    ensures Split(w + [sep] + t, sep) == [w] + Split(t, sep)
    decreases |w|
  {
    var s := w + [sep] + t;
    if |w| == 0 {
      assert s[0] == sep;
      assert s[1..] == t;
    } else {
      assert sep !in w[1..] by {
        forall k | 0 <= k < |w[1..]| ensures w[1..][k] != sep {
          assert w[1..][k] == w[k + 1];
        }
      }
      assert s[0] == w[0];
      assert s[1..] == w[1..] + [sep] + t;
      SplitCons(w[1..], sep, t);
      assert [w[0]] + w[1..] == w;
    }
  }

  /** Joining separator-free segments and splitting again gives back the segments. */
  lemma {:induction false} SplitJoin(parts: seq<string>, sep: char)
    requires |parts| >= 1
    requires forall i :: 0 <= i < |parts| ==> sep !in parts[i]
    ensures Split(Join(parts, sep), sep) == parts
    decreases |parts|
  {
    if |parts| == 1 {
      SplitWord(parts[0], sep);
    } else {
      assert sep !in parts[0];
      assert forall i :: 0 <= i < |parts[1..]| ==> sep !in parts[1..][i] by {
        forall i | 0 <= i < |parts[1..]| ensures sep !in parts[1..][i] {
          assert parts[1..][i] == parts[i + 1];
        }
      }
      SplitJoin(parts[1..], sep);
      SplitCons(parts[0], sep, Join(parts[1..], sep));
      assert [parts[0]] + parts[1..] == parts;
    }
  }
}
