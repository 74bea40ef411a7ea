/** Options, and the facts about filters and subsequences that the stream proofs rest on. */
module Sequences {

  datatype Option<+T> = None | Some(value: T)

  /** `Array.prototype.filter`, by the last element so that it follows appends. */
  function Filter<T>(s: seq<T>, p: T -> bool): (r: seq<T>)
    ensures |r| <= |s|
    ensures |r| == |s| ==> r == s
  {
    if s == [] then []
    else Filter(s[..|s| - 1], p) + (if p(s[|s| - 1]) then [s[|s| - 1]] else [])
  }

  lemma FilterAppend<T>(s: seq<T>, x: T, p: T -> bool)
    ensures Filter(s + [x], p) == Filter(s, p) + (if p(x) then [x] else [])
  {
    assert (s + [x])[..|s|] == s;
  }

  lemma {:induction false} FilterConcat<T>(a: seq<T>, b: seq<T>, p: T -> bool)
    ensures Filter(a + b, p) == Filter(a, p) + Filter(b, p)
  {
    if b == [] {
      assert a + b == a;
    } else {
      var c, x := b[..|b| - 1], b[|b| - 1];
      var last := if p(x) then [x] else [];
      FilterConcat(a, c, p);
      FilterAppend(a + c, x, p);
      assert a + b == a + c + [x];
      assert Filter(b, p) == Filter(c, p) + last;
      assert Filter(a, p) + (Filter(c, p) + last) == Filter(a, p) + Filter(c, p) + last;
    }
  }

  lemma {:induction false} FilterMembers<T>(s: seq<T>, p: T -> bool)
    ensures forall x :: x in Filter(s, p) <==> x in s && p(x)
  {
    if s != [] {
      FilterMembers(s[..|s| - 1], p);
      assert s == s[..|s| - 1] + [s[|s| - 1]];
    }
  }

  /** Nothing in `s` satisfies `p`, or everything does: the two ends of a filter. */
  lemma {:induction false} FilterExtremes<T>(s: seq<T>, p: T -> bool)
    ensures (forall x :: x in s ==> !p(x)) ==> Filter(s, p) == []
    ensures (forall x :: x in s ==> p(x)) <==> Filter(s, p) == s
  {
    if s != [] {
      FilterExtremes(s[..|s| - 1], p);
      assert s == s[..|s| - 1] + [s[|s| - 1]];
    }
  }

  /** `a` is obtained from `b` by deleting some of its elements. */
  predicate Subseq<T(==)>(a: seq<T>, b: seq<T>)
  {
    if a == [] then true
    else if b == [] then false
    else
      || (a[|a| - 1] == b[|b| - 1] && Subseq(a[..|a| - 1], b[..|b| - 1]))
      || Subseq(a, b[..|b| - 1])
  }

  lemma SubseqAppend<T>(a: seq<T>, b: seq<T>, x: T)
    requires Subseq(a, b)
    ensures Subseq(a + [x], b + [x])
    ensures Subseq(a, b + [x])
  {
    assert (a + [x])[..|a|] == a && (b + [x])[..|b|] == b;
  }

  lemma {:induction false} SubseqReflexive<T>(a: seq<T>)
    ensures Subseq(a, a)
  {
    if a != [] {
      SubseqReflexive(a[..|a| - 1]);
    }
  }

  lemma {:induction false} SubseqConcat<T>(a: seq<T>, b: seq<T>, c: seq<T>)
    requires Subseq(b, c)
    ensures Subseq(a + b, a + c)
    decreases |c|
  {
    if c == [] {
      SubseqReflexive(a);
      assert a + b == a && a + c == a;
    } else {
      var d, x := c[..|c| - 1], c[|c| - 1];
      assert a + c == a + d + [x];
      if b == [] {
        SubseqConcat(a, b, d);
        SubseqAppend(a + b, a + d, x);
      } else if b[|b| - 1] == x && Subseq(b[..|b| - 1], d) {
        SubseqConcat(a, b[..|b| - 1], d);
        SubseqAppend(a + b[..|b| - 1], a + d, x);
        assert a + b == a + b[..|b| - 1] + [x];
      } else {
        SubseqConcat(a, b, d);
        SubseqAppend(a + b, a + d, x);
      }
    }
  }

  lemma {:induction false} SubseqTransitive<T>(a: seq<T>, b: seq<T>, c: seq<T>)
    requires Subseq(a, b) && Subseq(b, c)
    ensures Subseq(a, c)
    decreases |b| + |c|
  {
    if a != [] {
      var b', c' := b[..|b| - 1], c[..|c| - 1];
      if b[|b| - 1] == c[|c| - 1] && Subseq(b', c') {
        if a[|a| - 1] == b[|b| - 1] && Subseq(a[..|a| - 1], b') {
          SubseqTransitive(a[..|a| - 1], b', c');
        } else {
          SubseqTransitive(a, b', c');
        }
      } else {
        SubseqTransitive(a, b, c');
      }
    }
  }

  lemma {:induction false} FilterSubseq<T>(s: seq<T>, p: T -> bool)
    ensures Subseq(Filter(s, p), s)
  {
    if s != [] {
      var t, x := s[..|s| - 1], s[|s| - 1];
      assert s == t + [x];
      FilterSubseq(t, p);
      FilterAppend(t, x, p);
      SubseqAppend(Filter(t, p), t, x);
      assert Filter(s, p) == Filter(t, p) || Filter(s, p) == Filter(t, p) + [x];
    }
  }

  lemma {:induction false} SuffixSubseq<T>(s: seq<T>, n: nat)
    requires n <= |s|
    ensures Subseq(s[n..], s)
  {
    if n < |s| {
      var t := s[..|s| - 1];
      SuffixSubseq(t, n);
      SubseqAppend(t[n..], t, s[|s| - 1]);
      assert s[n..] == t[n..] + [s[|s| - 1]] && s == t + [s[|s| - 1]];
    }
  }
}
