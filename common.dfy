/** Small value types and sequence/string helpers shared by every part of the model:
    JavaScript's `split`/`join`, Python's `str.join`, `Array.prototype.filter`. */
module Common {

  datatype Option<+T> = None | Some(value: T)

  datatype Result<+T, +E> = Success(value: T) | Failure(error: E)

  /** `parts.join(sep)` in JavaScript, `sep.join(parts)` in Python. */
  function Join(parts: seq<string>, sep: string): (r: string)
    decreases |parts|
  {
    if |parts| == 0 then ""
    else if |parts| == 1 then parts[0]
    else parts[0] + sep + Join(parts[1..], sep)
  }

  /** `s.split(c)` in JavaScript for a one-character separator: the maximal pieces of `s`
      between occurrences of `c`, so that there is always at least one piece and there are
      more than one exactly when `c` occurs in `s`. */
  function Split(s: string, c: char): (r: seq<string>)
    ensures |r| >= 1
    ensures |r| > 1 <==> c in s
    ensures forall i :: 0 <= i < |r| ==> c !in r[i]
    ensures Join(r, [c]) == s
    decreases |s|
  {
    if |s| == 0 then [""]
    else if s[0] == c then
      var rest := Split(s[1..], c);
      assert s == [c] + s[1..];
      [""] + rest
    else
      var rest := Split(s[1..], c);
      assert s == [s[0]] + s[1..];
      JoinConsHead(s[0], rest, [c]);
      [[s[0]] + rest[0]] + rest[1..]
  }

  /** Prefixing the first piece of a join prefixes the joined string. */
  lemma JoinConsHead(ch: char, parts: seq<string>, sep: string)
    requires |parts| >= 1
    ensures Join([[ch] + parts[0]] + parts[1..], sep) == [ch] + Join(parts, sep)
  {
    var p := [[ch] + parts[0]] + parts[1..];
    assert p[1..] == parts[1..];
  }

  /** A separator-free prefix followed by the separator is split off as the first piece. */
  lemma {:induction false} SplitPrefix(w: string, x: string, c: char)
    requires c !in w
    ensures Split(w + [c] + x, c) == [w] + Split(x, c)
    decreases |w|
  {
    var s := w + [c] + x;
    if |w| == 0 {
      assert s[0] == c && s[1..] == x;
    } else {
      SplitPrefix(w[1..], x, c);
      assert s[0] == w[0] && s[1..] == w[1..] + [c] + x;
      var rest := Split(s[1..], c);
      assert rest == [w[1..]] + Split(x, c);
      assert rest[0] == w[1..] && rest[1..] == Split(x, c);
      assert Split(s, c) == [[s[0]] + rest[0]] + rest[1..];
      assert [s[0]] + rest[0] == w;
    }
  }

  /** Splitting a joined sequence of separator-free pieces gives the pieces back. */
  lemma {:induction false} SplitJoin(parts: seq<string>, c: char)
    requires |parts| >= 1
    requires forall i :: 0 <= i < |parts| ==> c !in parts[i]
    ensures Split(Join(parts, [c]), c) == parts
    decreases |parts|, |parts[0]|
  {
    if |parts[0]| == 0 {
      if |parts| == 1 {
      } else {
        var tail := parts[1..];
        SplitJoin(tail, c);
        var s := Join(parts, [c]);
        assert s == [c] + Join(tail, [c]);
        assert s[1..] == Join(tail, [c]);
      }
    } else {
      var ch := parts[0][0];
      var shorter := [parts[0][1..]] + parts[1..];
      assert shorter[1..] == parts[1..];
      assert forall i :: 0 <= i < |shorter| ==> c !in shorter[i];
      SplitJoin(shorter, c);
      var s := Join(parts, [c]);
      assert parts[0] == [ch] + parts[0][1..];
      assert parts == [[ch] + shorter[0]] + shorter[1..];
      JoinConsHead(ch, shorter, [c]);
      assert s == [ch] + Join(shorter, [c]);
      assert s[1..] == Join(shorter, [c]);
      assert s[0] == ch && ch != c;
    }
  }

  /** `s.filter(p)`: the elements of `s` that satisfy `p`, in their original order. */
  function Filter<T(==,!new)>(s: seq<T>, p: T -> bool): (r: seq<T>)
    ensures |r| <= |s|
    ensures forall x :: x in r <==> x in s && p(x)
    ensures forall i :: 0 <= i < |r| ==> p(r[i])
    decreases |s|
  {
    if |s| == 0 then []
    else if p(s[0]) then [s[0]] + Filter(s[1..], p)
    else Filter(s[1..], p)
  }

  /** `a` is `b` with some elements left out and the rest kept in order. */
  ghost predicate IsSublist<T>(a: seq<T>, b: seq<T>)
    decreases |b|
  {
    if |a| == 0 then true
    else if |b| == 0 then false
    else if a[0] == b[0] then IsSublist(a[1..], b[1..])
    else IsSublist(a, b[1..])
  }

  lemma {:induction false} FilterIsSublist<T(!new)>(s: seq<T>, p: T -> bool)
    ensures IsSublist(Filter(s, p), s)
    decreases |s|
  {
    if |s| > 0 {
      FilterIsSublist(s[1..], p);
      if !p(s[0]) {
        SublistDropHead(Filter(s[1..], p), s);
      }
    }
  }

  /** An element at the head of `b` may be skipped. */
  lemma {:induction false} SublistDropHead<T>(a: seq<T>, b: seq<T>)
    requires |b| > 0
    requires IsSublist(a, b[1..])
    ensures IsSublist(a, b)
    decreases |b|, |a|
  {
    if |a| > 0 && a[0] == b[0] {
      SublistTail(a, b[1..]);
    }
  }

  /** If `a` is a sub-list of `b`, so is the tail of `a`. */
  lemma {:induction false} SublistTail<T>(a: seq<T>, b: seq<T>)
    requires |a| > 0 && IsSublist(a, b)
    ensures IsSublist(a[1..], b)
    decreases |b|, |a|
  {
    if a[0] == b[0] {
      SublistDropHead(a[1..], b);
    } else {
      SublistTail(a, b[1..]);
      SublistDropHead(a[1..], b);
    }
  }

  /** A sub-list is never longer than the list it comes from. */
  lemma {:induction false} SublistLength<T>(a: seq<T>, b: seq<T>)
    requires IsSublist(a, b)
    ensures |a| <= |b|
    decreases |b|
  {
    if |a| > 0 {
      if a[0] == b[0] {
        SublistLength(a[1..], b[1..]);
      } else {
        SublistLength(a, b[1..]);
      }
    }
  }

  /** A filter that every element passes keeps the whole sequence. */
  lemma {:induction false} FilterAll<T(!new)>(s: seq<T>, p: T -> bool)
    requires forall i :: 0 <= i < |s| ==> p(s[i])
    ensures Filter(s, p) == s
    decreases |s|
  {
    if |s| > 0 {
      FilterAll(s[1..], p);
    }
  }

  /** Two filters in a row are one filter by the conjunction. */
  lemma {:induction false} FilterFilter<T(!new)>(s: seq<T>, p: T -> bool, q: T -> bool, both: T -> bool)
    requires forall x :: both(x) == (p(x) && q(x))
    ensures Filter(Filter(s, p), q) == Filter(s, both)
    decreases |s|
  {
    if |s| > 0 {
      FilterFilter(s[1..], p, q, both);
    }
  }

  /** Filters that agree on every element of `s` keep the same elements. */
  lemma {:induction false} FilterCongruent<T(!new)>(s: seq<T>, p: T -> bool, q: T -> bool)
    requires forall i :: 0 <= i < |s| ==> p(s[i]) == q(s[i])
    ensures Filter(s, p) == Filter(s, q)
    decreases |s|
  {
    if |s| > 0 {
      FilterCongruent(s[1..], p, q);
    }
  }
}
