/** The few JavaScript string operations the application relies on: `includes`, `startsWith`,
    `split` on one character and `join`. */
module Strings {

  /** `s.startsWith(p)`. */
  predicate StartsWith(s: string, p: string) {
    |p| <= |s| && s[..|p|] == p
  }

  /** `s.includes(p)`, computed by scanning from the left. */
  predicate Contains(s: string, p: string)
    decreases |s|
  {
    if |s| < |p| then false
    else s[..|p|] == p || Contains(s[1..], p)
  }

  /** The reference meaning of `includes`: `p` occurs at some offset of `s`. */
  ghost predicate OccursAt(s: string, p: string, i: int) {
    0 <= i && i + |p| <= |s| && s[i..i + |p|] == p
  }

  lemma {:induction false} ContainsIffOccurs(s: string, p: string)
    ensures Contains(s, p) <==> exists i :: OccursAt(s, p, i)
    decreases |s|
  {
    if |s| < |p| {
      // no offset leaves room for p
    } else if s[..|p|] == p {
      assert OccursAt(s, p, 0);
    } else {
      ContainsIffOccurs(s[1..], p);
      if Contains(s[1..], p) {
        var i :| OccursAt(s[1..], p, i);
        assert s[1..][i..i + |p|] == s[i + 1..i + 1 + |p|];
        assert OccursAt(s, p, i + 1);
      }
      if exists i :: OccursAt(s, p, i) {
        var i :| OccursAt(s, p, i);
        assert i != 0;
        assert s[1..][i - 1..i - 1 + |p|] == s[i..i + |p|];
        assert OccursAt(s[1..], p, i - 1);
      }
    }
  }

  /** Every string contains itself. */
  lemma ContainsSelf(p: string)
    ensures Contains(p, p)
  {
    assert p[..|p|] == p;
  }

  /** Appending text on the right keeps what a string contains. */
  lemma ContainsExtendRight(a: string, b: string, p: string)
    requires Contains(a, p)
    ensures Contains(a + b, p)
  {
    ContainsIffOccurs(a, p);
    var i :| OccursAt(a, p, i);
    assert (a + b)[i..i + |p|] == a[i..i + |p|];
    assert OccursAt(a + b, p, i);
    ContainsIffOccurs(a + b, p);
  }

  /** Prepending text on the left keeps what a string contains. */
  lemma ContainsExtendLeft(a: string, b: string, p: string)
    requires Contains(b, p)
    ensures Contains(a + b, p)
  {
    ContainsIffOccurs(b, p);
    var i :| OccursAt(b, p, i);
    assert (a + b)[|a| + i..|a| + i + |p|] == b[i..i + |p|];
    assert OccursAt(a + b, p, |a| + i);
    ContainsIffOccurs(a + b, p);
  }

  /** Every string starts with itself. */
  lemma StartsWithSelf(s: string)
    ensures StartsWith(s, s)
  {
    assert s[..|s|] == s;
  }

  /** A string that starts with `q` still does once text is appended. */
  lemma StartsWithExtend(s: string, q: string, b: string)
    requires StartsWith(s, q)
    ensures StartsWith(s + b, q)
  {
    assert (s + b)[..|q|] == s[..|q|];
  }

  /** A common head keeps a prefix relation. */
  lemma StartsWithPrepend(a: string, s: string, q: string)
    requires StartsWith(s, q)
    ensures StartsWith(a + s, a + q)
  {
    assert (a + s)[..|a + q|] == a + s[..|q|];
  }

  /** A string that starts with `q + t` starts with `q`. */
  lemma StartsWithPrefix(q: string, t: string, s: string)
    requires StartsWith(s, q + t)
    ensures StartsWith(s, q)
  {
    assert s[..|q|] == (s[..|q + t|])[..|q|];
  }

  /** Two prefixes of one string agree where both are defined. */
  lemma PrefixesAgree(s: string, q1: string, q2: string, k: nat)
    requires StartsWith(s, q1) && StartsWith(s, q2) && k < |q1| && k < |q2|
    ensures q1[k] == q2[k]
  {
    assert q1[k] == s[..|q1|][k] == s[k] == s[..|q2|][k];
  }

  /** `s.split(c)` for a one-character separator: the maximal runs between occurrences of `c`. */
  function Split(s: string, c: char): (r: seq<string>)
    ensures |r| >= 1
    decreases |s|
  {
    if s == [] then [""]
    else
      var rest := Split(s[1..], c);
      if s[0] == c then [""] + rest else [[s[0]] + rest[0]] + rest[1..]
  }

  /** `parts.join(sep)`. */
  function Join(parts: seq<string>, sep: string): (r: string)
    decreases |parts|
  {
    if |parts| == 0 then ""
    else if |parts| == 1 then parts[0]
    else parts[0] + sep + Join(parts[1..], sep)
  }

  /** The position of the first occurrence of `c` in `s`. */
  function FirstIndex(s: string, c: char): (i: nat)
    requires c in s
    ensures i < |s| && s[i] == c && c !in s[..i]
  {
    if s[0] == c then 0 else FirstIndex(s[1..], c) + 1
  }

  /** A string with no separator in it splits to itself alone. */
  lemma {:induction false} SplitWithout(s: string, c: char)
    requires c !in s
    ensures Split(s, c) == [s]
    decreases |s|
  {
    if s != [] {
      SplitWithout(s[1..], c);
      assert [s[0]] + s[1..] == s;
    }
  }

  /** Splitting at a first separator: the part before it, then the split of what follows. */
  lemma {:induction false} SplitAtSeparator(p: string, c: char, q: string)
    requires c !in p
    ensures Split(p + [c] + q, c) == [p] + Split(q, c)
    decreases |p|
  {
    var s := p + [c] + q;
    if p == [] {
      assert s[1..] == q;
    } else {
      assert s[1..] == p[1..] + [c] + q;
      SplitAtSeparator(p[1..], c, q);
      assert [p[0]] + p[1..] == p;
    }
  }

  /** A string with a separator in it splits into at least two fields. */
  lemma SeparatorSplitsInTwo(s: string, c: char)
    requires c in s
    ensures |Split(s, c)| >= 2
  {
    var i := FirstIndex(s, c);
    assert s == s[..i] + [c] + s[i + 1..];
    SplitAtSeparator(s[..i], c, s[i + 1..]);
  }

  /** The first field of a split is everything before the first separator. */
  lemma SplitHead(t: string, c: char)
    ensures Split(t, c)[0] == if c in t then t[..FirstIndex(t, c)] else t
  {
    if c in t {
      var i := FirstIndex(t, c);
      assert t == t[..i] + [c] + t[i + 1..];
      SplitAtSeparator(t[..i], c, t[i + 1..]);
    } else {
      SplitWithout(t, c);
    }
  }

  /** No field of a split holds the separator. */
  lemma {:induction false} SplitFieldsAreSeparatorFree(s: string, c: char)
    ensures forall k :: 0 <= k < |Split(s, c)| ==> c !in Split(s, c)[k]
    decreases |s|
  {
    if s != [] {
      SplitFieldsAreSeparatorFree(s[1..], c);
    }
  }

  /** The number of fields is one more than the number of separators. */
  lemma {:induction false} SplitCount(s: string, c: char)
    ensures |Split(s, c)| == multiset(s)[c] + 1
    decreases |s|
  {
    if s != [] {
      SplitCount(s[1..], c);
      assert s == [s[0]] + s[1..];
      assert multiset(s) == multiset([s[0]]) + multiset(s[1..]);
    }
  }

  /** Joining the fields of a split with the separator gives back the string. */
  lemma {:induction false} JoinSplit(s: string, c: char)
    ensures Join(Split(s, c), [c]) == s
    decreases |s|
  {
    if s != [] {
      var rest := Split(s[1..], c);
      JoinSplit(s[1..], c);
      if s[0] == c {
        assert Join([""] + rest, [c]) == "" + [c] + Join(rest, [c]);
      } else {
        var r := [[s[0]] + rest[0]] + rest[1..];
        if |rest| == 1 {
          assert Join(r, [c]) == [s[0]] + rest[0];
        } else {
          assert r[1..] == rest[1..];
          assert Join(rest, [c]) == rest[0] + [c] + Join(rest[1..], [c]);
          assert Join(r, [c]) == [s[0]] + rest[0] + [c] + Join(rest[1..], [c]);
        }
      }
    }
  }

  /** Splitting a join of separator-free fields gives back the fields. */
  lemma {:induction false} SplitJoin(parts: seq<string>, c: char)
    requires |parts| >= 1
    requires forall k :: 0 <= k < |parts| ==> c !in parts[k]
    ensures Split(Join(parts, [c]), c) == parts
    decreases |parts|
  {
    if |parts| == 1 {
      SplitWithout(parts[0], c);
    } else {
      SplitJoin(parts[1..], c);
      SplitAtSeparator(parts[0], c, Join(parts[1..], [c]));
      assert parts == [parts[0]] + parts[1..];
    }
  }
}
