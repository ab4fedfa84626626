/**
  Generic sequence helpers shared by the document model, the templates and
  the two exporters: order-preserving filtering, subsequences, key
  uniqueness and string joining.
 */
module Seqs {

  /** `a` can be obtained from `b` by deleting elements, keeping the order. */
  ghost predicate IsSubseq<T>(a: seq<T>, b: seq<T>)
    decreases |b|
  {
    if a == [] then true
    else if b == [] then false
    else if a[0] == b[0] then IsSubseq(a[1..], b[1..])
    else IsSubseq(a, b[1..])
  }

  /** Every sequence is a subsequence of itself. */
  lemma {:induction false} SubseqRefl<T>(s: seq<T>)
    ensures IsSubseq(s, s)
    decreases |s|
  {
    if s != [] {
      SubseqRefl(s[1..]);
    }
  }

  /** The elements of `s` that `keep` accepts, in their original order
      (JavaScript's `Array.prototype.filter`). */
  function Filter<T(!new)>(s: seq<T>, keep: T -> bool): (r: seq<T>)
    ensures |r| <= |s|
    ensures forall x :: x in r <==> x in s && keep(x)
    ensures forall x :: multiset(r)[x] == if keep(x) then multiset(s)[x] else 0
    ensures (forall x :: x in s ==> keep(x)) ==> r == s
    decreases |s|
  {
    if s == [] then []
    else
      var rest := Filter(s[1..], keep);
      assert s == [s[0]] + s[1..];
      assert multiset(s) == multiset{s[0]} + multiset(s[1..]);
      if keep(s[0]) then [s[0]] + rest else rest
  }

  /** The filtered sequence keeps the survivors in their original order. */
  lemma {:induction false} FilterIsSubseq<T(!new)>(s: seq<T>, keep: T -> bool)
    ensures IsSubseq(Filter(s, keep), s)
    decreases |s|
  {
    if s != [] {
      FilterIsSubseq(s[1..], keep);
      var rest := Filter(s[1..], keep);
      if keep(s[0]) {
        assert Filter(s, keep) == [s[0]] + rest;
        assert ([s[0]] + rest)[1..] == rest;
      } else {
        SubseqDropHead(rest, s);
      }
    }
  }

  /** Skipping the head of the longer sequence preserves a subsequence. */
  lemma {:induction false} SubseqDropHead<T>(a: seq<T>, b: seq<T>)
    requires b != []
    requires IsSubseq(a, b[1..])
    ensures IsSubseq(a, b)
    decreases |b|, 0
  {
    if a != [] && a[0] == b[0] {
      // a[0] matched at the head of b; a[1..] is a subsequence of a's tail
      // within b[1..] and hence within b[1..] itself.
      SubseqTail(a, b[1..]);
    }
  }

  /** Dropping the head of a non-empty subsequence keeps it a subsequence. */
  lemma {:induction false} SubseqTail<T>(a: seq<T>, b: seq<T>)
    requires a != []
    requires IsSubseq(a, b)
    ensures IsSubseq(a[1..], b)
    decreases |b|, 1
  {
    assert b != [];
    if a[0] == b[0] {
      assert IsSubseq(a[1..], b[1..]);
      SubseqDropHead(a[1..], b);
    } else {
      assert IsSubseq(a, b[1..]);
      SubseqTail(a, b[1..]);
      SubseqDropHead(a[1..], b);
    }
  }

  /** Filtering distributes over concatenation. */
  lemma {:induction false} FilterAppend<T(!new)>(a: seq<T>, b: seq<T>, keep: T -> bool)
    ensures Filter(a + b, keep) == Filter(a, keep) + Filter(b, keep)
    decreases |a|
  {
    if a == [] {
      assert a + b == b;
    } else {
      assert (a + b)[1..] == a[1..] + b;
      assert (a + b)[0] == a[0];
      FilterAppend(a[1..], b, keep);
    }
  }

  /** The tail of a sequence with unique keys has unique keys. */
  lemma UniqueKeysTail<T>(s: seq<T>, key: T -> string)
    requires s != [] && UniqueKeys(s, key)
    ensures UniqueKeys(s[1..], key)
  {
    var rest := s[1..];
    forall i, j | 0 <= i < j < |rest| ensures key(rest[i]) != key(rest[j]) {
      assert rest[i] == s[i + 1] && rest[j] == s[j + 1];
    }
  }

  /** Prefixing an element whose key is new keeps keys unique. */
  lemma UniqueKeysCons<T>(x: T, t: seq<T>, key: T -> string)
    requires UniqueKeys(t, key)
    requires forall j :: 0 <= j < |t| ==> key(t[j]) != key(x)
    ensures UniqueKeys([x] + t, key)
  {
    var r := [x] + t;
    forall i, j | 0 <= i < j < |r| ensures key(r[i]) != key(r[j]) {
      assert r[j] == t[j - 1];
      if i != 0 {
        assert r[i] == t[i - 1];
      }
    }
  }

  /** Filtering keeps keys unique. */
  lemma {:induction false} FilterKeepsUniqueKeys<T(!new)>(s: seq<T>, keep: T -> bool, key: T -> string)
    requires UniqueKeys(s, key)
    ensures UniqueKeys(Filter(s, keep), key)
    decreases |s|
  {
    if s != [] {
      var rest := s[1..];
      UniqueKeysTail(s, key);
      FilterKeepsUniqueKeys(rest, keep, key);
      var fr := Filter(rest, keep);
      if keep(s[0]) {
        forall j | 0 <= j < |fr| ensures key(fr[j]) != key(s[0]) {
          assert fr[j] in fr;
          var k :| 0 <= k < |rest| && rest[k] == fr[j];
          assert s[k + 1] == rest[k];
        }
        UniqueKeysCons(s[0], fr, key);
      }
    }
  }

  /** The keys of `s`, one per element, in order. */
  function Keys<T>(s: seq<T>, key: T -> string): (r: seq<string>)
    ensures |r| == |s|
    ensures forall i :: 0 <= i < |s| ==> r[i] == key(s[i])
  {
    seq(|s|, i requires 0 <= i < |s| => key(s[i]))
  }

  /** No two elements of `s` share a key. */
  predicate UniqueKeys<T>(s: seq<T>, key: T -> string)
  {
    forall i, j :: 0 <= i < j < |s| ==> key(s[i]) != key(s[j])
  }

  /** No element of `s` carries key `k`. */
  predicate FreshKey<T>(s: seq<T>, key: T -> string, k: string)
  {
    forall i :: 0 <= i < |s| ==> key(s[i]) != k
  }

  /** `parts` separated by `sep` (JavaScript's `Array.prototype.join`). */
  function Join(parts: seq<string>, sep: string): (r: string)
    decreases |parts|
  {
    if |parts| == 0 then ""
    else if |parts| == 1 then parts[0]
    else parts[0] + sep + Join(parts[1..], sep)
  }

  /** Total length of a joined sequence: every part once, and one separator
      between each pair of neighbours. */
  function TotalLength(parts: seq<string>): nat
  {
    if parts == [] then 0 else |parts[0]| + TotalLength(parts[1..])
  }

  lemma {:induction false} JoinLength(parts: seq<string>, sep: string)
    requires parts != []
    ensures |Join(parts, sep)| == TotalLength(parts) + (|parts| - 1) * |sep|
    decreases |parts|
  {
    if |parts| > 1 {
      JoinLength(parts[1..], sep);
    }
  }

  /** Joining one more part adds exactly one separator before it. */
  lemma {:induction false} JoinSnoc(parts: seq<string>, x: string, sep: string)
    requires parts != []
    ensures Join(parts + [x], sep) == Join(parts, sep) + sep + x
    decreases |parts|
  {
    if |parts| == 1 {
      assert parts + [x] == [parts[0], x];
    } else {
      assert (parts + [x])[1..] == parts[1..] + [x];
      JoinSnoc(parts[1..], x, sep);
    }
  }

  /** Concatenation is associative; stated once so that proofs over long
      concatenations can regroup them in one step. */
  lemma AppendAssoc<T>(a: seq<T>, b: seq<T>, c: seq<T>)
    ensures a + (b + c) == a + b + c
  {
  }

  /** An empty part drops out of a concatenation. */
  lemma EmptyLeft<T>(a: seq<T>, b: seq<T>)
    requires a == []
    ensures a + b == b
  {
  }

  lemma EmptyRight<T>(a: seq<T>, b: seq<T>)
    requires b == []
    ensures a + b == a
  {
  }
}
