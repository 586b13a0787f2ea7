/**
 * The database's `sort(...)` on inventory queries: a sort key, the order it
 * induces on entries, and a sort proved to return a sorted permutation of its
 * input. Strings compare as the database compares them without a collation:
 * character by character, a proper prefix first.
 */
module Listing {
  import opened Ledger

  predicate StrLe(a: string, b: string)
    decreases |a|
  {
    a == [] || (b != [] && (a[0] < b[0] || (a[0] == b[0] && StrLe(a[1..], b[1..]))))
  }

  lemma {:induction false} StrLeTotal(a: string, b: string)
    ensures StrLe(a, b) || StrLe(b, a)
    decreases |a|
  {
    if a != [] && b != [] && a[0] == b[0] {
      StrLeTotal(a[1..], b[1..]);
    }
  }

  lemma {:induction false} StrLeTransitive(a: string, b: string, c: string)
    requires StrLe(a, b) && StrLe(b, c)
    ensures StrLe(a, c)
    decreases |a|
  {
    if a != [] && a[0] == b[0] && b[0] == c[0] {
      StrLeTransitive(a[1..], b[1..], c[1..]);
    }
  }

  lemma {:induction false} StrLeAntisymmetric(a: string, b: string)
    requires StrLe(a, b) && StrLe(b, a)
    ensures a == b
    decreases |a|
  {
    if a != [] {
      StrLeAntisymmetric(a[1..], b[1..]);
      assert a == [a[0]] + a[1..] && b == [b[0]] + b[1..];
    }
  }

  /** `sort('quantity')`, and `sort('size color')`. */
  datatype SortKey = ByQuantity | BySizeColor

  predicate Before(key: SortKey, a: Entry, b: Entry) {
    match key
    case ByQuantity => a.quantity <= b.quantity
    case BySizeColor => if a.size == b.size then StrLe(a.color, b.color) else StrLe(a.size, b.size)
  }

  lemma BeforeTotal(key: SortKey, a: Entry, b: Entry)
    ensures Before(key, a, b) || Before(key, b, a)
  {
    StrLeTotal(a.size, b.size);
    StrLeTotal(a.color, b.color);
  }

  lemma BeforeTransitive(key: SortKey, a: Entry, b: Entry, c: Entry)
    requires Before(key, a, b) && Before(key, b, c)
    ensures Before(key, a, c)
  {
    if key == BySizeColor {
      if a.size == b.size && b.size == c.size {
        StrLeTransitive(a.color, b.color, c.color);
      } else if a.size == b.size {
        assert StrLe(a.size, c.size);
      } else if b.size == c.size {
        assert StrLe(a.size, c.size);
      } else {
        StrLeTransitive(a.size, b.size, c.size);
        if a.size == c.size {
          StrLeAntisymmetric(a.size, b.size);
        }
      }
    }
  }

  ghost predicate SortedBy(key: SortKey, s: seq<Entry>) {
    forall i, j :: 0 <= i < j < |s| ==> Before(key, s[i], s[j])
  }

  /** Puts `x` in front of the first element it may precede. */
  function Insert(key: SortKey, x: Entry, s: seq<Entry>): (r: seq<Entry>)
    ensures multiset(r) == multiset(s) + multiset{x}
  {
    if s == [] then [x]
    else if Before(key, x, s[0]) then [x] + s
    else
      assert s == [s[0]] + s[1..];
      [s[0]] + Insert(key, x, s[1..])
  }

  /** Inserting into a sorted list keeps it sorted. */
  lemma {:induction false} InsertSorted(key: SortKey, x: Entry, s: seq<Entry>)
    requires SortedBy(key, s)
    ensures SortedBy(key, Insert(key, x, s))
  {
    if s == [] {
    } else if Before(key, x, s[0]) {
      InsertAtFront(key, x, s);
    } else {
      InsertSorted(key, x, s[1..]);
      InsertBehindHead(key, x, s);
    }
  }

  /** An element that may precede the head of a sorted list may precede all of it. */
  lemma InsertAtFront(key: SortKey, x: Entry, s: seq<Entry>)
    requires SortedBy(key, s) && s != [] && Before(key, x, s[0])
    ensures SortedBy(key, [x] + s)
  {
    forall j | 0 <= j < |s| ensures Before(key, x, s[j]) {
      if j > 0 { BeforeTransitive(key, x, s[0], s[j]); }
    }
  }

  /** Otherwise the head stays in front of the sorted insertion into the rest. */
  lemma InsertBehindHead(key: SortKey, x: Entry, s: seq<Entry>)
    requires SortedBy(key, s) && s != [] && !Before(key, x, s[0])
    requires SortedBy(key, Insert(key, x, s[1..]))
    ensures SortedBy(key, Insert(key, x, s))
  {
    var tail := Insert(key, x, s[1..]);
    BeforeTotal(key, x, s[0]);
    forall j | 0 <= j < |tail| ensures Before(key, s[0], tail[j]) {
      var k := InsertSource(key, x, s[1..], j);
      if tail[j] != x {
        assert s[k + 1] == tail[j];
      }
    }
    assert Insert(key, x, s) == [s[0]] + tail;
  }

  /** Each element of an insertion is the inserted one or the `k`-th of the list inserted into. */
  lemma {:induction false} InsertSource(key: SortKey, x: Entry, t: seq<Entry>, j: nat) returns (k: nat)
    requires j < |Insert(key, x, t)|
    ensures Insert(key, x, t)[j] == x || (k < |t| && t[k] == Insert(key, x, t)[j])
  {
    if t == [] {
      k := 0;
      assert Insert(key, x, t)[j] == x;
    } else if Before(key, x, t[0]) {
      assert Insert(key, x, t) == [x] + t;
      k := if j == 0 then 0 else j - 1;
      assert j == 0 ==> Insert(key, x, t)[j] == x;
      assert j > 0 ==> Insert(key, x, t)[j] == t[k];
    } else {
      var rest := Insert(key, x, t[1..]);
      assert Insert(key, x, t) == [t[0]] + rest;
      if j == 0 {
        k := 0;
        assert Insert(key, x, t)[j] == t[0];
      } else {
        var k' := InsertSource(key, x, t[1..], j - 1);
        k := k' + 1;
        assert Insert(key, x, t)[j] == rest[j - 1];
        assert k' < |t[1..]| ==> t[1..][k'] == t[k];
      }
    }
  }

  /** A sorted permutation of `s`. */
  function Sort(key: SortKey, s: seq<Entry>): (r: seq<Entry>)
    ensures SortedBy(key, r)
    ensures multiset(r) == multiset(s)
  {
    if s == [] then []
    else
      assert s == [s[0]] + s[1..];
      InsertSorted(key, s[0], Sort(key, s[1..]));
      Insert(key, s[0], Sort(key, s[1..]))
  }
}
