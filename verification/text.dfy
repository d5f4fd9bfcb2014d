/** The string operations the chat page relies on: `str.startswith` with a
    tuple of prefixes, the substring test `t in s`, repeated `+=`
    concatenation and `"\n".join`. Strings are sequences of characters. */
module Text {

  /** `s.startswith(p)`. */
  predicate StartsWith(s: string, p: string)
  {
    |p| <= |s| && s[..|p|] == p
  }

  /** `s.startswith(tuple(ps))`: true when `s` starts with some prefix in `ps`. */
  predicate StartsWithAny(s: string, ps: seq<string>)
    decreases |ps|
  {
    |ps| > 0 && (StartsWith(s, ps[0]) || StartsWithAny(s, ps[1..]))
  }

  /** `StartsWithAny` tests exactly the prefixes of the tuple, in any order. */
  lemma {:induction false} StartsWithAnyIff(s: string, ps: seq<string>)
    ensures StartsWithAny(s, ps) <==> exists k :: 0 <= k < |ps| && StartsWith(s, ps[k])
    decreases |ps|
  {
    if |ps| > 0 {
      StartsWithAnyIff(s, ps[1..]);
      if StartsWithAny(s, ps[1..]) {
        var k :| 0 <= k < |ps[1..]| && StartsWith(s, ps[1..][k]);
        assert StartsWith(s, ps[k + 1]);
      }
      if exists k :: 0 <= k < |ps| && StartsWith(s, ps[k]) {
        var k :| 0 <= k < |ps| && StartsWith(s, ps[k]);
        if k > 0 {
          assert StartsWith(s, ps[1..][k - 1]);
        }
      }
    }
  }

  /** The substring test `t in s`: `t` is a prefix of `s` or of one of its suffixes. */
  predicate Contains(s: string, t: string)
    decreases |s|
  {
    |t| <= |s| && (s[..|t|] == t || (|s| > 0 && Contains(s[1..], t)))
  }

  /** `t` occurs in `s` starting at offset `i`. */
  predicate OccursAt(s: string, t: string, i: int)
  {
    0 <= i && i + |t| <= |s| && s[i..i + |t|] == t
  }

  /** `Contains` holds exactly when `t` occurs in `s` at some offset. */
  lemma {:induction false} ContainsIff(s: string, t: string)
    ensures Contains(s, t) <==> exists i :: OccursAt(s, t, i)
    decreases |s|
  {
    if |t| <= |s| {
      if s[..|t|] == t {
        assert OccursAt(s, t, 0);
      } else if |s| > 0 {
        ContainsIff(s[1..], t);
        if Contains(s[1..], t) {
          var i :| OccursAt(s[1..], t, i);
          assert s[1..][i..i + |t|] == s[i + 1..i + 1 + |t|];
          assert OccursAt(s, t, i + 1);
        }
        if exists i :: OccursAt(s, t, i) {
          var i :| OccursAt(s, t, i);
          assert i != 0;
          assert s[1..][i - 1..i - 1 + |t|] == s[i..i + |t|];
          assert OccursAt(s[1..], t, i - 1);
        }
      }
    }
  }

  /** The string built by appending every element of `xs` in order, starting from `""`. */
  function Concat(xs: seq<string>): string
  {
    if xs == [] then "" else xs[0] + Concat(xs[1..])
  }

  /** Concatenation distributes over joining the lists. */
  lemma {:induction false} ConcatAppend(xs: seq<string>, ys: seq<string>)
    ensures Concat(xs + ys) == Concat(xs) + Concat(ys)
  {
    if xs == [] {
      assert xs + ys == ys;
    } else {
      assert (xs + ys)[1..] == xs[1..] + ys;
      ConcatAppend(xs[1..], ys);
    }
  }

  /** `"\n".join(xs)`. The result holds every element in order with one
      newline between neighbours and none at the ends. */
  function JoinLines(xs: seq<string>): (r: string)
    ensures xs == [] ==> r == ""
    ensures |xs| == 1 ==> r == xs[0]
    ensures xs != [] ==> |r| == |Concat(xs)| + |xs| - 1
    ensures xs != [] ==> StartsWith(r, xs[0])
  {
    if xs == [] then ""
    else if |xs| == 1 then xs[0]
    else xs[0] + "\n" + JoinLines(xs[1..])
  }

  /** Joining two non-empty lists puts a single newline between the two joins. */
  lemma {:induction false} JoinLinesAppend(xs: seq<string>, ys: seq<string>)
    requires xs != [] && ys != []
    ensures JoinLines(xs + ys) == JoinLines(xs) + "\n" + JoinLines(ys)
    decreases |xs|
  {
    if |xs| == 1 {
      assert (xs + ys)[1..] == ys;
    } else {
      assert (xs + ys)[1..] == xs[1..] + ys;
      JoinLinesAppend(xs[1..], ys);
    }
  }
}
