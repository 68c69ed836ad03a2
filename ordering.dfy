/**
 * The orderings the client queries ask the database for (`orderBy`): a
 * lexicographic order on names and a sort of a table by any total preorder.
 * Rows that tie may come back in any order, so the sort is specified only up
 * to ties.
 */
module Ordering {

  ghost predicate TotalPreorder<T(!new)>(le: (T, T) -> bool)
  {
    && (forall a, b :: le(a, b) || le(b, a))
    && (forall a, b, c {:trigger le(a, b), le(b, c), le(a, c)} :: le(a, b) && le(b, c) ==> le(a, c))
  }

  /** Lexicographic order on strings, character by character ("asc" on a text column). */
  predicate StrLe(a: string, b: string)
  {
    |a| == 0 || (|b| > 0 && (a[0] < b[0] || (a[0] == b[0] && StrLe(a[1..], b[1..]))))
  }

  lemma {:induction false} StrLeTotal(a: string, b: string)
    ensures StrLe(a, b) || StrLe(b, a)
  {
    if |a| > 0 && |b| > 0 && a[0] == b[0] {
      StrLeTotal(a[1..], b[1..]);
    }
  }

  lemma {:induction false} StrLeTransitive(a: string, b: string, c: string)
    requires StrLe(a, b) && StrLe(b, c)
    ensures StrLe(a, c)
  {
    if |a| > 0 && a[0] == b[0] && b[0] == c[0] {
      StrLeTransitive(a[1..], b[1..], c[1..]);
    }
  }

  lemma StrLeIsTotalPreorder()
    ensures TotalPreorder(StrLe)
  {
    forall a, b ensures StrLe(a, b) || StrLe(b, a) {
      StrLeTotal(a, b);
    }
    forall a, b, c | StrLe(a, b) && StrLe(b, c) ensures StrLe(a, c) {
      StrLeTransitive(a, b, c);
    }
  }

  lemma NonEmptySetHasMember(ks: set<int>)
    requires ks != {}
    ensures exists k :: k in ks
  {
    if forall k :: k !in ks {
      assert false;
    }
  }

  /** Among any non-empty set of keys of `m`, one has a row `le`-below the others. */
  lemma {:induction false} MinIn<T(!new)>(m: map<int, T>, le: (T, T) -> bool, ks: set<int>)
    requires TotalPreorder(le) && ks != {} && ks <= m.Keys
    ensures exists k :: k in ks && forall j :: j in ks ==> le(m[k], m[j])
    decreases ks
  {
    NonEmptySetHasMember(ks);
    var k0 :| k0 in ks;
    var rest := ks - {k0};
    if rest == {} {
      assert ks == {k0};
      assert le(m[k0], m[k0]);
    } else {
      MinIn(m, le, rest);
      var k1 :| k1 in rest && forall j :: j in rest ==> le(m[k1], m[j]);
      if le(m[k0], m[k1]) {
        forall j | j in ks ensures le(m[k0], m[j]) {
          if j != k0 {
            assert le(m[k1], m[j]);
          } else {
            assert le(m[k0], m[k0]);
          }
        }
      } else {
        assert le(m[k1], m[k0]);
        forall j | j in ks ensures le(m[k1], m[j]) {
          if j != k0 {
            assert j in rest;
          }
        }
      }
    }
  }

  /**
   * The keys of a table listed so that rows come in `le` order: every key
   * exactly once.
   */
  ghost function SortBy<T(!new)>(m: map<int, T>, le: (T, T) -> bool): (ks: seq<int>)
    requires TotalPreorder(le)
    ensures |ks| == |m|
    ensures forall i :: 0 <= i < |ks| ==> ks[i] in m
    ensures forall k :: k in m ==> k in ks
    ensures forall i, j :: 0 <= i < j < |ks| ==> ks[i] != ks[j]
    ensures forall i, j :: 0 <= i < j < |ks| ==> le(m[ks[i]], m[ks[j]])
  {
    SortKeys(m, le, m.Keys)
  }

  /** The keys `keys` of `m` listed in `le` order of their rows, each exactly once. */
  ghost function SortKeys<T(!new)>(m: map<int, T>, le: (T, T) -> bool, keys: set<int>): (ks: seq<int>)
    requires TotalPreorder(le) && keys <= m.Keys
    ensures |ks| == |keys|
    ensures forall i :: 0 <= i < |ks| ==> ks[i] in keys
    ensures forall k :: k in keys ==> k in ks
    ensures forall i, j :: 0 <= i < j < |ks| ==> ks[i] != ks[j]
    ensures forall i, j :: 0 <= i < j < |ks| ==> le(m[ks[i]], m[ks[j]])
    decreases keys
  {
    if keys == {} then []
    else
      MinIn(m, le, keys);
      var k :| k in keys && forall j :: j in keys ==> le(m[k], m[j]);
      var tail := SortKeys(m, le, keys - {k});
      PrependMin(m, le, keys, k, tail);
      [k] + tail
  }

  /** Putting a minimal key in front of a sorted listing of the others sorts them all. */
  lemma PrependMin<T(!new)>(m: map<int, T>, le: (T, T) -> bool, keys: set<int>, k: int, tail: seq<int>)
    requires keys <= m.Keys
    requires k in keys && forall j :: j in keys ==> le(m[k], m[j])
    requires |tail| == |keys - {k}|
    requires forall i :: 0 <= i < |tail| ==> tail[i] in keys - {k}
    requires forall j :: j in keys - {k} ==> j in tail
    requires forall i, j :: 0 <= i < j < |tail| ==> tail[i] != tail[j]
    requires forall i, j :: 0 <= i < j < |tail| ==> le(m[tail[i]], m[tail[j]])
    ensures var ks := [k] + tail;
      && |ks| == |keys|
      && (forall i :: 0 <= i < |ks| ==> ks[i] in keys)
      && (forall j :: j in keys ==> j in ks)
      && (forall i, j :: 0 <= i < j < |ks| ==> ks[i] != ks[j])
      && (forall i, j :: 0 <= i < j < |ks| ==> le(m[ks[i]], m[ks[j]]))
  {
    var ks := [k] + tail;
    assert forall i :: 1 <= i < |ks| ==> ks[i] == tail[i - 1];
    assert forall j :: j in keys ==> j in ks by {
      forall j | j in keys ensures j in ks {
        if j != k {
          assert j in keys - {k};
          var i :| 0 <= i < |tail| && tail[i] == j;
          assert ks[i + 1] == j;
        }
      }
    }
    forall i, j | 0 <= i < j < |ks| ensures le(m[ks[i]], m[ks[j]]) {
      if i == 0 {
        assert ks[j] in keys;
      } else {
        assert ks[i] == tail[i - 1] && ks[j] == tail[j - 1];
      }
    }
  }
}
