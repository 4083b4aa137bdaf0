/** The pieces of Python's string and list behaviour the model relies on:
    `str.split` with a one-character separator, the matching join, and the
    clamping slice operators `s[i:j]` and `s[i:]`. */
module Strings {

  /** `s.split(c)`: the maximal pieces between separators, always at least one
      (`"".split('.') == ['']`, `"a..b".split('.') == ['a', '', 'b']`). */
  function Split(s: string, c: char): (parts: seq<string>)
    ensures |parts| >= 1
    ensures forall i :: 0 <= i < |parts| ==> c !in parts[i]
  {
    if |s| == 0 then [""]
    else
      var rest := Split(s[1..], c);
      if s[0] == c then [""] + rest
      else [[s[0]] + rest[0]] + rest[1..]
  }

  /** `c.join(parts)`. */
  function Join(parts: seq<string>, c: char): string
    requires |parts| >= 1
  {
    if |parts| == 1 then parts[0]
    else parts[0] + [c] + Join(parts[1..], c)
  }

  /** Splitting a piece that holds no separator gives that piece alone. */
  lemma {:induction false} SplitNoSeparator(s: string, c: char)
    requires c !in s
    ensures Split(s, c) == [s]
  {
    if |s| > 0 {
      SplitNoSeparator(s[1..], c);
      assert [s[0]] + s[1..] == s;
    }
  }

  /** A leading separator-free piece is split off as the first part. */
  lemma {:induction false} SplitCons(p: string, c: char, rest: string)
    requires c !in p
    ensures Split(p + [c] + rest, c) == [p] + Split(rest, c)
  {
    var s := p + [c] + rest;
    if |p| == 0 {
      assert s[1..] == rest;
    } else {
      assert s[1..] == p[1..] + [c] + rest;
      SplitCons(p[1..], c, rest);
      assert [p[0]] + p[1..] == p;
    }
  }

  /** A string splits into a single piece exactly when it holds no separator. */
  lemma {:induction false} SplitSingle(s: string, c: char)
    ensures |Split(s, c)| == 1 <==> c !in s
  {
    if c !in s {
      SplitNoSeparator(s, c);
    } else if s[0] != c {
      assert c in s[1..] by {
        var k :| 0 <= k < |s| && s[k] == c;
        assert s[1..][k - 1] == c;
      }
      SplitSingle(s[1..], c);
    }
  }

  /** Joining separator-free pieces and splitting again gives the pieces back. */
  lemma {:induction false} SplitJoin(parts: seq<string>, c: char)
    requires |parts| >= 1
    requires forall i :: 0 <= i < |parts| ==> c !in parts[i]
    ensures Split(Join(parts, c), c) == parts
  {
    if |parts| == 1 {
      SplitNoSeparator(parts[0], c);
    } else {
      SplitJoin(parts[1..], c);
      SplitCons(parts[0], c, Join(parts[1..], c));
      assert [parts[0]] + parts[1..] == parts;
    }
  }

  /** Splitting and joining again gives the original string. */
  lemma {:induction false} JoinSplit(s: string, c: char)
    ensures Join(Split(s, c), c) == s
  {
    if |s| > 0 {
      JoinSplit(s[1..], c);
      var rest := Split(s[1..], c);
      if s[0] == c {
        assert Split(s, c)[1..] == rest;
        assert [c] + s[1..] == s;
      } else {
        var parts := Split(s, c);
        if |rest| == 1 {
          assert parts == [[s[0]] + rest[0]];
        } else {
          assert parts[1..] == rest[1..];
          assert Join(rest, c) == rest[0] + [c] + Join(rest[1..], c);
        }
        assert [s[0]] + s[1..] == s;
      }
    }
  }

  /** Python's `s[i:j]` for non-negative bounds: out-of-range bounds are clamped
      and a reversed range is empty. */
  function Slice<T>(s: seq<T>, i: nat, j: nat): (r: seq<T>)
    ensures i <= j <= |s| ==> r == s[i..j]
    ensures |s| <= i ==> r == []
  {
    var lo := if i <= |s| then i else |s|;
    var hi := if j <= |s| then j else |s|;
    if lo <= hi then s[lo..hi] else []
  }

  /** Python's `s[i:]` for any integer `i`: a negative start counts from the end
      and is clamped at 0, so `s[-0:]` is the whole of `s`. */
  function From<T>(s: seq<T>, i: int): (r: seq<T>)
    ensures 0 <= i <= |s| ==> r == s[i..]
    ensures -|s| <= i < 0 ==> r == s[|s| + i..]
    ensures |r| <= |s| && r == s[|s| - |r|..]
  {
    if i >= 0 then (if i <= |s| then s[i..] else [])
    else if |s| + i >= 0 then s[|s| + i..] else s
  }
}
