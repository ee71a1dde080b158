/** The daemon's bounded memory of message ids already seen (clients/python/aircd/daemon.py, the dedup block). */
module Dedup {
  import opened Prelude

  const MAX_DEDUP_ENTRIES: nat := 10000

  /** `s` without the elements equal to `x`. */
  function Without<T(==)>(s: seq<T>, x: T): seq<T> {
    if s == [] then []
    else Without(Front(s), x) + (if Last(s) == x then [] else [Last(s)])
  }

  /** The ordered map after one id arrives: a known id moves to the end, a new one is added and the oldest evicted. */
  function Touch<T(==)>(seen: seq<T>, id: T, capacity: nat): seq<T>
    requires 1 <= capacity
  {
    if id in seen then Without(seen, id) + [id]
    else
      var grown := seen + [id];
      if |grown| > capacity then grown[|grown| - capacity..] else grown
  }

  function Seen<T(==)>(stream: seq<T>, capacity: nat): seq<T>
    requires 1 <= capacity
  {
    if stream == [] then [] else Touch(Seen(Front(stream), capacity), Last(stream), capacity)
  }

  // ----- The reference: the stream's distinct ids by last occurrence, newest first -----

  function Recent<T(==)>(stream: seq<T>): seq<T> {
    if stream == [] then [] else [Last(stream)] + Without(Recent(Front(stream)), Last(stream))
  }

  /** The ids that arrived after the last occurrence of `id`. */
  function Since<T(==)>(stream: seq<T>, id: T): set<T> {
    if stream == [] || Last(stream) == id then {} else Since(Front(stream), id) + {Last(stream)}
  }

  function Reversed<T>(s: seq<T>): seq<T> {
    if s == [] then [] else [Last(s)] + Reversed(Front(s))
  }

  predicate Distinct<T(==)>(s: seq<T>) {
    forall i, j :: 0 <= i < j < |s| ==> s[i] != s[j]
  }

  // ----- Facts about the pieces -----

  lemma {:induction false} ReversedShape<T>(s: seq<T>)
    ensures |Reversed(s)| == |s|
    ensures forall i :: 0 <= i < |s| ==> Reversed(s)[i] == s[|s| - 1 - i]
    ensures forall x :: x in Reversed(s) <==> x in s
  {
    if s != [] {
      ReversedShape(Front(s));
      assert s == Front(s) + [Last(s)];
    }
  }

  lemma {:induction false} ReversedDrop<T>(s: seq<T>, n: nat)
    requires n <= |s|
    ensures |Reversed(s)| == |s| && Reversed(s[|s| - n..]) == Reversed(s)[..n]
  {
    ReversedShape(s);
    ReversedShape(s[|s| - n..]);
  }

  lemma {:induction false} WithoutMember<T>(s: seq<T>, x: T)
    ensures forall y :: y in Without(s, x) <==> y in s && y != x
    ensures |Without(s, x)| <= |s|
  {
    if s != [] {
      WithoutMember(Front(s), x);
      assert s == Front(s) + [Last(s)];
    }
  }

  lemma {:induction false} WithoutAbsent<T>(s: seq<T>, x: T)
    requires x !in s
    ensures Without(s, x) == s
  {
    if s != [] {
      assert s == Front(s) + [Last(s)];
      WithoutAbsent(Front(s), x);
      assert Without(s, x) == Front(s) + [Last(s)];
    }
  }

  lemma {:induction false} WithoutConcat<T>(a: seq<T>, b: seq<T>, x: T)
    ensures Without(a + b, x) == Without(a, x) + Without(b, x)
  {
    if b == [] {
      assert a + b == a;
    } else {
      assert Front(a + b) == a + Front(b) && Last(a + b) == Last(b);
      WithoutConcat(a, Front(b), x);
    }
  }

  lemma {:induction false} WithoutReversed<T>(s: seq<T>, x: T)
    ensures Without(Reversed(s), x) == Reversed(Without(s, x))
  {
    if s != [] {
      var w, one := Without(Front(s), x), [Last(s)];
      WithoutConcat(one, Reversed(Front(s)), x);
      WithoutReversed(Front(s), x);
      assert Front(one) == [] && Without(Front(one), x) == [];
      if Last(s) != x {
        assert Without(one, x) == one;
        assert Front(w + one) == w && Last(w + one) == Last(s);
      } else {
        assert Without(one, x) == [];
        assert w + [] == w;
      }
    }
  }

  lemma {:induction false} DistinctPush<T>(s: seq<T>, x: T)
    requires Distinct(s) && x !in s
    ensures Distinct(s + [x]) && Distinct([x] + s)
  {
  }

  lemma {:induction false} WithoutDistinct<T>(s: seq<T>, x: T)
    requires Distinct(s)
    ensures Distinct(Without(s, x))
  {
    if s != [] {
      WithoutDistinct(Front(s), x);
      WithoutMember(Front(s), x);
      DistinctPush(Without(Front(s), x), Last(s));
      assert Without(Front(s), x) + [] == Without(Front(s), x);
    }
  }

  /** In a sequence without repeats, removing `x` closes one gap at its position. */
  lemma {:induction false} WithoutAt<T>(s: seq<T>, k: nat)
    requires Distinct(s) && k < |s|
    ensures Without(s, s[k]) == s[..k] + s[k + 1..]
  {
    NotElsewhere(s, k);
    hide Distinct;
    WithoutMiddle(s[..k], s[k], s[k + 1..]);
    SplitAt(s, k);
  }

  lemma {:induction false} NotElsewhere<T>(s: seq<T>, k: nat)
    requires Distinct(s) && k < |s|
    ensures s[k] !in s[..k] && s[k] !in s[k + 1..]
  {
  }

  lemma {:induction false} SplitAt<T>(s: seq<T>, k: nat)
    requires k < |s|
    ensures s == s[..k] + ([s[k]] + s[k + 1..])
  {
  }

  lemma {:induction false} WithoutMiddle<T>(a: seq<T>, x: T, b: seq<T>)
    requires x !in a && x !in b
    ensures Without(a + ([x] + b), x) == a + b
  {
    WithoutConcat(a, [x] + b, x);
    WithoutConcat([x], b, x);
    WithoutAbsent(a, x);
    WithoutAbsent(b, x);
    WithoutSelf(x);
    hide Without;
    assert [] + b == b;
  }

  lemma {:induction false} WithoutSelf<T>(x: T)
    ensures Without([x], x) == []
  {
    assert Front([x]) == [];
  }

  lemma {:induction false} TouchKeeps<T>(seen: seq<T>, id: T, capacity: nat)
    requires 1 <= capacity && |seen| <= capacity && Distinct(seen)
    ensures |Touch(seen, id, capacity)| <= capacity && Distinct(Touch(seen, id, capacity))
    ensures Touch(seen, id, capacity) != [] && Last(Touch(seen, id, capacity)) == id
  {
    if id in seen {
      var k :| 0 <= k < |seen| && seen[k] == id;
      WithoutAt(seen, k);
      WithoutMember(seen, id);
      WithoutDistinct(seen, id);
      hide Without;
      DistinctPush(Without(seen, id), id);
    } else {
      DistinctPush(seen, id);
      hide Without;
    }
  }

  lemma {:induction false} SeenShape<T>(stream: seq<T>, capacity: nat)
    requires 1 <= capacity
    ensures |Seen(stream, capacity)| <= capacity && Distinct(Seen(stream, capacity))
  {
    if stream != [] {
      SeenShape(Front(stream), capacity);
      TouchKeeps(Seen(Front(stream), capacity), Last(stream), capacity);
    }
  }

  lemma {:induction false} RecentShape<T>(stream: seq<T>)
    ensures Distinct(Recent(stream))
    ensures forall x :: x in Recent(stream) <==> x in stream
  {
    if stream != [] {
      var r, x := Recent(Front(stream)), Last(stream);
      RecentShape(Front(stream));
      WithoutDistinct(r, x);
      WithoutMember(r, x);
      assert stream == Front(stream) + [x];
      DistinctPush(Without(r, x), x);
    }
  }

  // ----- Main results -----

  lemma {:induction false} KnownStaysInWindow<T>(r: seq<T>, k: nat, capacity: nat)
    requires 1 <= capacity && Distinct(r) && k < |r| && k < capacity
    ensures [r[k]] + Without(Take(r, capacity), r[k]) == Take([r[k]] + Without(r, r[k]), capacity)
  {
    var t := Take(r, capacity);
    DistinctTake(r, capacity);
    WithoutAt(t, k);
    WithoutAt(r, k);
    hide Distinct, Without;
    assert t[..k] == r[..k];
    if capacity < |r| {
      assert t[k + 1..] == r[k + 1..capacity];
      assert ([r[k]] + (r[..k] + r[k + 1..]))[..capacity] == [r[k]] + (r[..k] + r[k + 1..capacity]);
    }
  }

  lemma {:induction false} DistinctTake<T>(r: seq<T>, n: nat)
    requires Distinct(r)
    ensures Distinct(Take(r, n))
  {
  }

  lemma {:induction false} UnknownEntersWindow<T>(r: seq<T>, id: T, capacity: nat)
    requires 1 <= capacity && Distinct(r) && id !in Take(r, capacity)
    ensures Take([id] + Take(r, capacity), capacity) == Take([id] + Without(r, id), capacity)
  {
    if id in r {
      var k :| 0 <= k < |r| && r[k] == id;
      WithoutAt(r, k);
      hide Distinct, Without;
      var t := Take(r, capacity);
      assert forall m :: 0 <= m < |t| ==> t[m] == r[m] && t[m] in t;
      assert k >= capacity;
    } else {
      WithoutAbsent(r, id);
    }
  }

  /** One arrival commutes with keeping only the `capacity` most recent ids. */
  lemma {:induction false} TouchIsTake<T>(seen: seq<T>, r: seq<T>, id: T, capacity: nat)
    requires 1 <= capacity && Distinct(r) && |seen| <= capacity
    requires Reversed(seen) == Take(r, capacity)
    ensures Reversed(Touch(seen, id, capacity)) == Take([id] + Without(r, id), capacity)
  {
    hide Distinct, Without;
    var t := Take(r, capacity);
    ReversedShape(seen);
    if id in seen {
      var w := Without(seen, id);
      assert Front(w + [id]) == w && Last(w + [id]) == id;
      WithoutReversed(seen, id);
      var k :| 0 <= k < |t| && t[k] == id;
      KnownStaysInWindow(r, k, capacity);
    } else {
      var grown := seen + [id];
      assert Front(grown) == seen && Last(grown) == id;
      assert Reversed(grown) == [id] + t;
      if |grown| > capacity {
        ReversedDrop(grown, capacity);
      }
      UnknownEntersWindow(r, id, capacity);
    }
  }

  /** Read newest first, the bounded map is the first `capacity` of the stream's ids by last occurrence. */
  lemma {:induction false} SeenIsTheRecentWindow<T>(stream: seq<T>, capacity: nat)
    requires 1 <= capacity
    ensures Reversed(Seen(stream, capacity)) == Take(Recent(stream), capacity)
  {
    if stream != [] {
      SeenIsTheRecentWindow(Front(stream), capacity);
      SeenShape(Front(stream), capacity);
      RecentShape(Front(stream));
      TouchIsTake(Seen(Front(stream), capacity), Recent(Front(stream)), Last(stream), capacity);
    }
  }

  ghost predicate Elements<T(!new)>(s: seq<T>, xs: set<T>) {
    forall x :: x in s <==> x in xs
  }

  /** An id stands in the recency order right behind exactly the ids that arrived after it. */
  lemma {:induction false} PositionCountsLaterIds<T(!new)>(stream: seq<T>, id: T)
    requires id in stream
    ensures |Since(stream, id)| < |Recent(stream)| && Recent(stream)[|Since(stream, id)|] == id
    ensures Elements(Recent(stream)[..|Since(stream, id)|], Since(stream, id))
  {
    var x, front := Last(stream), Front(stream);
    assert stream == front + [x];
    if x != id {
      PositionCountsLaterIds(front, id);
      RecentShape(front);
      var r, s := Recent(front), Since(front, id);
      hide Distinct, Recent;
      if x in s {
        var j :| 0 <= j < |s| && r[..|s|][j] == x;
        WithoutAt(r, j);
        assert s + {x} == s;
        MovedToFront(r, j, |s|, x, s);
        assert Recent(stream) == [x] + Without(r, x) by { RecentLast(stream); }
      } else {
        LaterIsAhead(r, |s|, x, s);
        assert Recent(stream) == [x] + Without(r, x) by { RecentLast(stream); }
      }
    }
  }

  lemma {:induction false} RecentLast<T>(stream: seq<T>)
    requires stream != []
    ensures Recent(stream) == [Last(stream)] + Without(Recent(Front(stream)), Last(stream))
  {
  }

  lemma {:induction false} LaterIsAhead<T(!new)>(r: seq<T>, k: nat, x: T, s: set<T>)
    requires Distinct(r) && k < |r| && x !in s && r[k] != x && Elements(r[..k], s) && |s| == k
    ensures |s + {x}| == k + 1
    ensures var w := [x] + Without(r, x);
      k + 1 < |w| && w[k + 1] == r[k] && Elements(w[..k + 1], s + {x})
  {
    var w := [x] + Without(r, x);
    if x in r {
      var j :| 0 <= j < |r| && r[j] == x;
      var ahead := r[..k];
      assert forall m :: 0 <= m < |ahead| ==> ahead[m] == r[m] && ahead[m] in ahead;
      assert j > k;
      WithoutAt(r, j);
    } else {
      WithoutAbsent(r, x);
    }
    hide Distinct, Without;
    assert w[..k + 1] == [x] + r[..k];
  }

  lemma {:induction false} MovedToFront<T(!new)>(r: seq<T>, j: nat, k: nat, x: T, s: set<T>)
    requires j < k < |r| && r[j] == x && Elements(r[..k], s)
    ensures var w := r[..j] + r[j + 1..];
      ([x] + w)[k] == r[k] && Elements(([x] + w)[..k], s)
  {
    var w := r[..j] + r[j + 1..];
    assert ([x] + w)[..k] == [x] + r[..j] + r[j + 1..k];
    assert r[..k] == r[..j] + [x] + r[j + 1..k];
  }

  /**
    An arriving id passes the dedup exactly when it never arrived before, or at least `capacity` other ids
    arrived since it last did.
   */
  lemma {:induction false} AdmittedIffForgotten<T(!new)>(stream: seq<T>, id: T, capacity: nat)
    requires 1 <= capacity
    ensures id !in Seen(stream, capacity) <==> id !in stream || |Since(stream, id)| >= capacity
  {
    SeenIsTheRecentWindow(stream, capacity);
    ReversedShape(Seen(stream, capacity));
    RecentShape(stream);
    var t := Take(Recent(stream), capacity);
    if id in stream {
      PositionCountsLaterIds(stream, id);
      var k := |Since(stream, id)|;
      if k < capacity {
        assert t[k] == id;
      } else {
        assert forall j :: 0 <= j < |t| ==> t[j] == Recent(stream)[j] && t[j] != Recent(stream)[k];
      }
    } else {
      assert forall y :: y in t ==> y in Recent(stream);
    }
  }

  /** The ids different from `stream[j]` at the positions strictly between `i` and `j`. */
  function Between<T(==)>(stream: seq<T>, i: nat, j: nat): set<T>
    requires j < |stream|
  {
    set k | i < k < j && stream[k] != stream[j] :: stream[k]
  }

  /** The ids since the last occurrence all stand between any earlier occurrence and now. */
  lemma {:induction false} SinceIsBetween<T>(stream: seq<T>, id: T, i: nat)
    requires i < |stream| && stream[i] == id
    ensures Since(stream, id) <= set k | i < k < |stream| && stream[k] != id :: stream[k]
  {
    if Last(stream) != id {
      SinceIsBetween(Front(stream), id, i);
      assert Last(stream) == stream[|stream| - 1];
    }
  }

  /** An id admitted at both positions `i` and `j` has at least `capacity` different ids between them. */
  lemma {:induction false} AdmittedTwiceNeedsAFullWindow<T(!new)>(stream: seq<T>, i: nat, j: nat, capacity: nat)
    requires 1 <= capacity && i < j < |stream| && stream[i] == stream[j]
    requires stream[j] !in Seen(stream[..j], capacity)
    ensures |Between(stream, i, j)| >= capacity
  {
    var before := stream[..j];
    assert before[i] == stream[j];
    AdmittedIffForgotten(before, stream[j], capacity);
    SinceIsBetween(before, stream[j], i);
    assert (set k | i < k < |before| && before[k] != stream[j] :: before[k]) == Between(stream, i, j);
    SubsetSize(Since(before, stream[j]), Between(stream, i, j));
  }

  lemma {:induction false} SubsetSize<T>(a: set<T>, b: set<T>)
    requires a <= b
    ensures |a| <= |b|
  {
    assert b == a + (b - a);
  }
}
