/**
 * The list-update rules the provider applies to its collections, written once over
 * any element type with a string key (an entity's `id`, or a donation's `memberId`).
 */
module Lists {

  /** Some element has key `k` (`xs.some(x => key(x) === k)`). */
  predicate HasKey<T>(xs: seq<T>, key: T -> string, k: string) {
    exists i :: 0 <= i < |xs| && key(xs[i]) == k
  }

  ghost function Keys<T>(xs: seq<T>, key: T -> string): set<string> {
    set i | 0 <= i < |xs| :: key(xs[i])
  }

  /** No two positions carry the same key. */
  ghost predicate UniqueKeys<T>(xs: seq<T>, key: T -> string) {
    forall i, j :: 0 <= i < j < |xs| ==> key(xs[i]) != key(xs[j])
  }

  /** `xs.filter(x => key(x) !== k)`: every element whose key is not `k`, in their order. */
  function RemoveKey<T(==)>(xs: seq<T>, key: T -> string, k: string): (r: seq<T>)
    ensures |r| <= |xs|
    ensures forall i :: 0 <= i < |r| ==> r[i] in xs && key(r[i]) != k
    ensures forall i :: 0 <= i < |xs| && key(xs[i]) != k ==> xs[i] in r
  {
    if xs == [] then []
    else if key(xs[0]) == k then RemoveKey(xs[1..], key, k)
    else [xs[0]] + RemoveKey(xs[1..], key, k)
  }

  /** The elements `RemoveKey` drops: those whose key is `k`, in their order. */
  function Matching<T(==)>(xs: seq<T>, key: T -> string, k: string): (r: seq<T>)
    ensures forall i :: 0 <= i < |r| ==> r[i] in xs && key(r[i]) == k
    ensures forall i :: 0 <= i < |xs| && key(xs[i]) == k ==> xs[i] in r
  {
    if xs == [] then []
    else if key(xs[0]) == k then [xs[0]] + Matching(xs[1..], key, k)
    else Matching(xs[1..], key, k)
  }

  /** Filtering distributes over concatenation, so the kept elements keep their relative order. */
  lemma {:induction false} RemoveKeyConcat<T>(a: seq<T>, b: seq<T>, key: T -> string, k: string)
    ensures RemoveKey(a + b, key, k) == RemoveKey(a, key, k) + RemoveKey(b, key, k)
  {
    if a != [] {
      assert (a + b)[1..] == a[1..] + b;
      RemoveKeyConcat(a[1..], b, key, k);
    } else {
      assert a + b == b;
    }
  }

  /** The kept and the dropped elements together are the input, counted with multiplicity. */
  lemma {:induction false} RemoveKeyPartition<T>(xs: seq<T>, key: T -> string, k: string)
    ensures multiset(xs) == multiset(RemoveKey(xs, key, k)) + multiset(Matching(xs, key, k))
    ensures |RemoveKey(xs, key, k)| + |Matching(xs, key, k)| == |xs|
  {
    if xs != [] {
      RemoveKeyPartition(xs[1..], key, k);
      assert xs == [xs[0]] + xs[1..];
      assert multiset(xs) == multiset([xs[0]]) + multiset(xs[1..]);
    }
  }

  /** Removing a key nobody has changes nothing. */
  lemma {:induction false} RemoveKeyAbsent<T>(xs: seq<T>, key: T -> string, k: string)
    requires !HasKey(xs, key, k)
    ensures RemoveKey(xs, key, k) == xs
  {
    if xs != [] {
      assert key(xs[0]) != k;
      assert !HasKey(xs[1..], key, k) by {
        forall i | 0 <= i < |xs| - 1 ensures key(xs[1..][i]) != k {
          assert xs[1..][i] == xs[i + 1];
        }
      }
      RemoveKeyAbsent(xs[1..], key, k);
    }
  }

  /** After removal no element has key `k`, and the length drops by the number of matches. */
  lemma RemoveKeyRemovesAll<T>(xs: seq<T>, key: T -> string, k: string)
    ensures !HasKey(RemoveKey(xs, key, k), key, k)
    ensures |RemoveKey(xs, key, k)| == |xs| <==> !HasKey(xs, key, k)
  {
    RemoveKeyPartition(xs, key, k);
    var m := Matching(xs, key, k);
    if HasKey(xs, key, k) {
      var i :| 0 <= i < |xs| && key(xs[i]) == k;
      assert xs[i] in xs;
      assert xs[i] in m;
    }
  }

  /** Removal keeps keys unique. */
  lemma RemoveKeyKeepsUnique<T>(xs: seq<T>, idKey: T -> string, key: T -> string, k: string)
    requires UniqueKeys(xs, idKey)
    ensures UniqueKeys(RemoveKey(xs, key, k), idKey)
    decreases |xs|
  {
    if xs != [] {
      assert UniqueKeys(xs[1..], idKey);
      RemoveKeyKeepsUnique(xs[1..], idKey, key, k);
      var r := RemoveKey(xs[1..], key, k);
      forall x | x in r ensures idKey(x) != idKey(xs[0]) {
        var j :| 0 < j < |xs| && xs[j] == x;
      }
    }
  }

  /** `xs.map(x => key(x) === k ? v : x)`: every element with key `k` replaced by `v`. */
  function ReplaceKey<T>(xs: seq<T>, key: T -> string, k: string, v: T): seq<T> {
    seq(|xs|, i requires 0 <= i < |xs| => if key(xs[i]) == k then v else xs[i])
  }

  /** Replacement never changes the length, and touches exactly the elements with key `k`. */
  lemma ReplaceKeySpec<T>(xs: seq<T>, key: T -> string, k: string, v: T)
    ensures |ReplaceKey(xs, key, k, v)| == |xs|
    ensures !HasKey(xs, key, k) ==> ReplaceKey(xs, key, k, v) == xs
    ensures forall i :: 0 <= i < |xs| && key(xs[i]) != k ==> ReplaceKey(xs, key, k, v)[i] == xs[i]
    ensures forall i :: 0 <= i < |xs| && key(xs[i]) == k ==> ReplaceKey(xs, key, k, v)[i] == v
  {
  }

  /**
   * The member upsert: replace in place when an element already has `v`'s key,
   * otherwise put `v` first.
   */
  function Upsert<T>(xs: seq<T>, key: T -> string, v: T): (r: seq<T>)
    ensures HasKey(xs, key, key(v)) ==> |r| == |xs|
    ensures HasKey(xs, key, key(v)) ==>
      forall i :: 0 <= i < |xs| ==> r[i] == (if key(xs[i]) == key(v) then v else xs[i])
    ensures !HasKey(xs, key, key(v)) ==> r == [v] + xs
    ensures exists i :: 0 <= i < |r| && r[i] == v
    ensures Keys(r, key) == Keys(xs, key) + {key(v)}
  {
    if HasKey(xs, key, key(v)) then
      var r := ReplaceKey(xs, key, key(v), v);
      assert Keys(r, key) == Keys(xs, key) + {key(v)} by {
        forall s | s in Keys(xs, key) ensures s in Keys(r, key) {
          var i :| 0 <= i < |xs| && key(xs[i]) == s;
          assert key(r[i]) == s;
        }
      }
      r
    else
      var r := [v] + xs;
      assert r[0] == v;
      assert Keys(r, key) == Keys(xs, key) + {key(v)} by {
        forall s | s in Keys(xs, key) ensures s in Keys(r, key) {
          var i :| 0 <= i < |xs| && key(xs[i]) == s;
          assert key(r[i + 1]) == s;
        }
        forall s | s in Keys(r, key) ensures s in Keys(xs, key) + {key(v)} {
          var i :| 0 <= i < |r| && key(r[i]) == s;
          if i > 0 { assert key(xs[i - 1]) == s; }
        }
      }
      r
  }

  /** An upsert keeps keys unique; on a hit, exactly the one matching position changes. */
  lemma UpsertKeepsUnique<T>(xs: seq<T>, key: T -> string, v: T)
    requires UniqueKeys(xs, key)
    ensures UniqueKeys(Upsert(xs, key, v), key)
    ensures forall i :: 0 <= i < |xs| && key(xs[i]) == key(v) ==>
      Upsert(xs, key, v) == xs[i := v]
  {
    var r := Upsert(xs, key, v);
    if HasKey(xs, key, key(v)) {
      forall i | 0 <= i < |xs| && key(xs[i]) == key(v) ensures r == xs[i := v] {
        assert forall j :: 0 <= j < |xs| && j != i ==> key(xs[j]) != key(v);
      }
    } else {
      forall i, j | 0 <= i < j < |r| ensures key(r[i]) != key(r[j]) {
        if i == 0 {
          assert r[j] == xs[j - 1];
        } else {
          assert r[i] == xs[i - 1] && r[j] == xs[j - 1];
        }
      }
    }
  }
}
