/** The order of identity text and the order in which an ordered map is iterated.

    Every identity is compared byte by byte as unsigned characters, and every
    table of the runtime is an ordered map. A Dafny map stands for the table;
    `SortedKeys` is the order in which its iterators visit the keys. */
module Ordering {
  import opened Bytes

  /** Identity text: scopes, subjects, attribute keys, reporters and the rest. */
  type Id = seq<byte>

  predicate Less(a: Id, b: Id) {
    b != [] && (a == [] || a[0] < b[0] || (a[0] == b[0] && Less(a[1..], b[1..])))
  }

  lemma {:induction false} LessIrreflexive(a: Id)
    ensures !Less(a, a)
  {
    if a != [] { LessIrreflexive(a[1..]); }
  }

  lemma {:induction false} LessTransitive(a: Id, b: Id, c: Id)
    requires Less(a, b) && Less(b, c)
    ensures Less(a, c)
  {
    if a != [] && a[0] == b[0] == c[0] { LessTransitive(a[1..], b[1..], c[1..]); }
  }

  lemma {:induction false} LessTotal(a: Id, b: Id)
    ensures a == b || Less(a, b) || Less(b, a)
  {
    if a != [] && b != [] && a[0] == b[0] {
      LessTotal(a[1..], b[1..]);
      assert a == [a[0]] + a[1..] && b == [b[0]] + b[1..];
    }
  }

  lemma LessAsymmetric(a: Id, b: Id)
    requires Less(a, b)
    ensures !Less(b, a) && a != b
  {
    LessIrreflexive(a);
    if Less(b, a) { LessTransitive(a, b, a); }
  }

  /** Strictly ascending: what iterating an ordered map yields. */
  predicate Ascending(s: seq<Id>) {
    forall i, j :: 0 <= i < j < |s| ==> Less(s[i], s[j])
  }

  function Elements(s: seq<Id>): set<Id> {
    set x | x in s
  }

  predicate IsLeast(m: Id, keys: set<Id>) {
    m in keys && forall k :: k in keys && k != m ==> Less(m, k)
  }

  lemma {:induction false} LeastExists(keys: set<Id>)
    requires keys != {}
    ensures exists m :: IsLeast(m, keys)
    decreases |keys|
  {
    var x :| x in keys;
    if keys == {x} {
      assert IsLeast(x, keys);
    } else {
      var rest := keys - {x};
      assert |rest| < |keys|;
      LeastExists(rest);
      var m :| IsLeast(m, rest);
      LessTotal(m, x);
      if Less(m, x) {
        assert IsLeast(m, keys);
      } else {
        forall k | k in keys && k != x ensures Less(x, k) {
          if k != m { LessTransitive(x, m, k); }
        }
        assert IsLeast(x, keys);
      }
    }
  }

  lemma LeastUnique(keys: set<Id>, a: Id, b: Id)
    requires IsLeast(a, keys) && IsLeast(b, keys)
    ensures a == b
  {
    if a != b { LessAsymmetric(a, b); }
  }

  function Least(keys: set<Id>): (m: Id)
    requires keys != {}
    ensures IsLeast(m, keys)
  {
    LeastExists(keys);
    assert forall a, b | IsLeast(a, keys) && IsLeast(b, keys) :: a == b by {
      forall a, b | IsLeast(a, keys) && IsLeast(b, keys) ensures a == b { LeastUnique(keys, a, b); }
    }
    var m :| IsLeast(m, keys); m
  }

  /** The keys in iteration order. */
  function SortedKeys(keys: set<Id>): (s: seq<Id>)
    ensures Ascending(s)
    ensures Elements(s) == keys
    ensures |s| == |keys|
    decreases |keys|
  {
    if keys == {} then [] else
    var m := Least(keys);
    assert |keys - {m}| == |keys| - 1;
    var rest := SortedKeys(keys - {m});
    LeastFirst(m, keys, rest);
    [m] + rest
  }

  lemma LeastFirst(m: Id, keys: set<Id>, rest: seq<Id>)
    requires IsLeast(m, keys) && Ascending(rest) && Elements(rest) == keys - {m}
    ensures Ascending([m] + rest) && Elements([m] + rest) == keys
  {
    hide Less, Ascending;
    assert forall x :: x in rest ==> x in Elements(rest);
    AscendingPrepend(m, rest);
  }

  lemma AscendingPrepend(m: Id, rest: seq<Id>)
    requires Ascending(rest)
    requires forall x :: x in rest ==> Less(m, x)
    ensures Ascending([m] + rest)
    ensures Elements([m] + rest) == {m} + Elements(rest)
  {
    var t := [m] + rest;
    forall i, j | 0 <= i < j < |t| ensures Less(t[i], t[j]) {
      assert t[j] in rest;
    }
    assert forall x :: x in t <==> x == m || x in rest;
  }

  /** An ascending enumeration of a set is the enumeration. */
  lemma {:induction false} SortedKeysUnique(s: seq<Id>, keys: set<Id>)
    requires Ascending(s) && Elements(s) == keys
    ensures s == SortedKeys(keys)
    decreases |s|
  {
    hide Less, IsLeast, Ascending, Elements;
    ElementsOfNone(s);
    if s != [] {
      AscendingHead(s);
      LeastUnique(keys, s[0], Least(keys));
      SortedKeysUnique(s[1..], keys - {s[0]});
      assert s == [s[0]] + s[1..];
    }
  }

  lemma ElementsOfNone(s: seq<Id>)
    ensures s == [] <==> Elements(s) == {}
  {
    if s != [] { assert s[0] in Elements(s); }
  }

  lemma AscendingHead(s: seq<Id>)
    requires Ascending(s) && s != []
    ensures IsLeast(s[0], Elements(s))
    ensures Ascending(s[1..])
    ensures s[0] !in s[1..]
    ensures Elements(s[1..]) == Elements(s) - {s[0]}
  {
    LessIrreflexive(s[0]);
    forall k | k in Elements(s) && k != s[0] ensures Less(s[0], k) && k in s[1..] {
      var i :| 0 <= i < |s| && s[i] == k;
      assert s[1..][i - 1] == k;
    }
  }

  /** Appending a key above everything seen keeps the enumeration. */
  lemma AscendingAppend(s: seq<Id>, k: Id)
    requires Ascending(s)
    requires forall x :: x in s ==> Less(x, k)
    ensures Ascending(s + [k])
    ensures Elements(s + [k]) == Elements(s) + {k}
  {
    var t := s + [k];
    forall i, j | 0 <= i < j < |t| ensures Less(t[i], t[j]) {
      if j == |s| { assert t[i] in s; }
    }
    assert Elements(t) == Elements(s) + {k} by {
      assert forall x :: x in t <==> x in s || x == k;
    }
  }

  // ---------------------------------------------------------------- walking two enumerations side by side

  /** `done` is the merge of everything before the two cursors, and lies below everything after them. */
  ghost predicate Merging(left: seq<Id>, right: seq<Id>, i: int, j: int, done: seq<Id>) {
    && 0 <= i <= |left| && 0 <= j <= |right|
    && Ascending(left) && Ascending(right) && Ascending(done)
    && Elements(done) == Elements(left[..i]) + Elements(right[..j])
    && (i < |left| ==> forall x :: x in done ==> Less(x, left[i]))
    && (j < |right| ==> forall x :: x in done ==> Less(x, right[j]))
  }

  lemma MergeStart(left: seq<Id>, right: seq<Id>)
    requires Ascending(left) && Ascending(right)
    ensures Merging(left, right, 0, 0, [])
  {}

  lemma ElementsStep(s: seq<Id>, i: int)
    requires 0 <= i < |s|
    ensures Elements(s[..i + 1]) == Elements(s[..i]) + {s[i]}
  {
    assert s[..i + 1] == s[..i] + [s[i]];
    assert forall x :: x in s[..i + 1] <==> x in s[..i] || x == s[i];
  }

  /** What comes before a cursor has been visited; what comes after it is above the cursor's key. */
  lemma NotInOther(left: seq<Id>, right: seq<Id>, i: int, j: int, done: seq<Id>)
    requires Merging(left, right, i, j, done) && i < |left|
    requires j < |right| ==> Less(left[i], right[j])
    ensures left[i] !in right
  {
    LessIrreflexive(left[i]);
    forall n | 0 <= n < |right| ensures right[n] != left[i] {
      if n < j {
        assert right[n] in Elements(right[..j]);
        assert right[n] in done by { assert right[n] in Elements(done); }
      } else if n > j {
        LessTransitive(left[i], right[j], right[n]);
      }
    }
  }

  lemma MergeSymmetric(left: seq<Id>, right: seq<Id>, i: int, j: int, done: seq<Id>)
    requires Merging(left, right, i, j, done)
    ensures Merging(right, left, j, i, done)
  {}

  lemma MergeLeft(left: seq<Id>, right: seq<Id>, i: int, j: int, done: seq<Id>)
    requires Merging(left, right, i, j, done) && i < |left|
    requires j < |right| ==> Less(left[i], right[j])
    ensures Merging(left, right, i + 1, j, done + [left[i]])
    ensures left[i] in left && left[i] !in right
  {
    AscendingAppend(done, left[i]);
    ElementsStep(left, i);
    NotInOther(left, right, i, j, done);
    assert Elements(done + [left[i]]) == Elements(left[..i + 1]) + Elements(right[..j]);
    if i + 1 < |left| {
      forall x | x in done ensures Less(x, left[i + 1]) { LessTransitive(x, left[i], left[i + 1]); }
    }
  }

  lemma MergeRight(left: seq<Id>, right: seq<Id>, i: int, j: int, done: seq<Id>)
    requires Merging(left, right, i, j, done) && j < |right|
    requires i < |left| ==> Less(right[j], left[i])
    ensures Merging(left, right, i, j + 1, done + [right[j]])
    ensures right[j] in right && right[j] !in left
  {
    MergeSymmetric(left, right, i, j, done);
    MergeLeft(right, left, j, i, done);
    MergeSymmetric(right, left, j + 1, i, done + [right[j]]);
  }

  lemma MergeBoth(left: seq<Id>, right: seq<Id>, i: int, j: int, done: seq<Id>)
    requires Merging(left, right, i, j, done) && i < |left| && j < |right|
    requires !Less(left[i], right[j]) && !Less(right[j], left[i])
    ensures left[i] == right[j]
    ensures Merging(left, right, i + 1, j + 1, done + [left[i]])
  {
    LessTotal(left[i], right[j]);
    AscendingAppend(done, left[i]);
    ElementsStep(left, i);
    ElementsStep(right, j);
    assert Elements(done + [left[i]]) == Elements(left[..i + 1]) + Elements(right[..j + 1]);
    if i + 1 < |left| {
      forall x | x in done ensures Less(x, left[i + 1]) { LessTransitive(x, left[i], left[i + 1]); }
    }
    if j + 1 < |right| {
      forall x | x in done ensures Less(x, right[j + 1]) { LessTransitive(x, right[j], right[j + 1]); }
    }
  }

  /** A finished walk has visited the union, in order, each key once. */
  lemma MergeComplete(left: seq<Id>, right: seq<Id>, done: seq<Id>)
    requires Merging(left, right, |left|, |right|, done)
    ensures done == SortedKeys(Elements(left) + Elements(right))
  {
    assert left[..|left|] == left && right[..|right|] == right;
    SortedKeysUnique(done, Elements(left) + Elements(right));
  }
}
