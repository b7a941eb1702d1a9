/** Small value types and sequence helpers shared by the screens of the app. */
module Prelude {

  /** A value that may be absent (the app's `null` / "no result"). */
  datatype Option<+T> = None | Some(value: T)

  /** No element occurs twice. */
  predicate NoDups<T(==)>(s: seq<T>) {
    forall i, j :: 0 <= i < j < |s| ==> s[i] != s[j]
  }

  /** `s.filter(y => y !== x)`: every occurrence of `x` dropped, the rest kept in order. */
  function Remove<T(==,!new)>(s: seq<T>, x: T): (r: seq<T>)
    ensures forall y :: y in r <==> y in s && y != x
    ensures |r| <= |s|
    ensures x !in s ==> r == s
    ensures NoDups(s) ==> NoDups(r)
    ensures SubsequenceOf(r, s)
    ensures multiset(r) == multiset(s)[x := 0]
  {
    if s == [] then []
    else if s[0] == x then
      assert s == [s[0]] + s[1..];
      Remove(s[1..], x)
    else
      var rest := Remove(s[1..], x);
      NoDupsCons(s[0], s[1..]);
      NoDupsCons(s[0], rest);
      assert s == [s[0]] + s[1..];
      assert ([s[0]] + rest)[1..] == rest;
      [s[0]] + rest
  }

  /** Removing an element that occurs exactly once shortens the sequence by one. */
  lemma NoDupsRemove<T(!new)>(s: seq<T>, x: T)
    requires x in s
    ensures NoDups(s) ==> |Remove(s, x)| == |s| - 1
  {
  }

  /** Appending an element not yet present keeps a sequence duplicate-free. */
  lemma NoDupsAppend<T>(s: seq<T>, x: T)
    requires x !in s
    ensures NoDups(s) ==> NoDups(s + [x])
  {
  }

  /** A sequence with a head is duplicate-free iff its tail is and does not hold the head. */
  lemma NoDupsCons<T>(a: T, t: seq<T>)
    ensures NoDups([a] + t) <==> a !in t && NoDups(t)
  {
    if a !in t && NoDups(t) {
      forall i, j | 0 <= i < j < |[a] + t| ensures ([a] + t)[i] != ([a] + t)[j] {
        if i > 0 { assert ([a] + t)[i] == t[i - 1]; }
      }
    }
    if NoDups([a] + t) {
      forall i, j | 0 <= i < j < |t| ensures t[i] != t[j] {
        assert t[i] == ([a] + t)[i + 1] && t[j] == ([a] + t)[j + 1];
      }
      forall k | 0 <= k < |t| ensures t[k] != a {
        assert ([a] + t)[0] == a && ([a] + t)[k + 1] == t[k];
      }
    }
  }

  /** Removing an element that was appended to a sequence not holding it gives the sequence back. */
  lemma {:induction false} RemoveAppended<T(!new)>(s: seq<T>, x: T)
    requires x !in s
    ensures Remove(s + [x], x) == s
  {
    if s != [] {
      assert (s + [x])[1..] == s[1..] + [x];
      RemoveAppended(s[1..], x);
    }
  }

  /** A duplicate-free sequence has as many elements as its set. */
  lemma {:induction false} NoDupsCard<T>(s: seq<T>)
    requires NoDups(s)
    ensures |set x | x in s| == |s|
  {
    if s != [] {
      NoDupsCard(s[1..]);
      assert (set x | x in s) == (set x | x in s[1..]) + {s[0]};
      assert s[0] !in s[1..];
    }
  }

  /** A duplicate-free sequence whose elements all occur in `t` is no longer than `t`. */
  lemma LengthBySubset<T>(s: seq<T>, t: seq<T>)
    requires NoDups(s)
    requires forall x :: x in s ==> x in t
    ensures |s| <= |t|
  {
    NoDupsCard(s);
    var S, T := set x | x in s, set x | x in t;
    assert S <= T;
    SetOfSeqCard(t);
    assert T == S + (T - S);
    assert S !! (T - S);
  }

  /** The set of a sequence's elements is no larger than the sequence. */
  lemma {:induction false} SetOfSeqCard<T>(t: seq<T>)
    ensures |set x | x in t| <= |t|
  {
    if t != [] {
      SetOfSeqCard(t[1..]);
      assert (set x | x in t) == (set x | x in t[1..]) + {t[0]};
    }
  }

  /** `r` is `s` with some elements left out and the rest in their original order. */
  ghost predicate SubsequenceOf<T>(r: seq<T>, s: seq<T>)
    decreases |s|
  {
    if r == [] then true
    else if s == [] then false
    else (r[0] == s[0] && SubsequenceOf(r[1..], s[1..])) || SubsequenceOf(r, s[1..])
  }
}
