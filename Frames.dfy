/**
 * The values the pipeline passes around in place of pandas objects: what a fetcher hands
 * back, the rows of a concatenated frame, and `drop_duplicates(subset=[key])`, which keeps
 * the first row of every key in order.
 */
module Frames {
  import opened Wrappers

  /** The exceptions that leave a fetcher or the combiner. */
  datatype Error =
    | ApiError(message: string)  // an HttpError re-raised by handle_api_error, or a response without 'items'
    | NoneNotIterable            // `for item in None` after get_response_items saw zero items
    | ListHasNoColumns           // `[].columns` on a fetcher's list result

  /**
   * What a fetcher hands back: the column-less `pd.DataFrame()`, a table with a rank column
   * (each row with its rank), a table without one, or the list `[]`.
   */
  datatype Chunk<R> = EmptyFrame | RankedTable(ranked: seq<(R, int)>) | Table(rows: seq<R>) | EmptyList {
    predicate HasColumns() {
      RankedTable? || Table?
    }
  }

  /** A row of a combined frame; `rank` is None where the row's table had no rank column. */
  datatype Entry<R> = Entry(row: R, rank: Option<int>)

  /** A concatenation of fetched tables; `hasColumns` is false for the empty `pd.DataFrame()`. */
  datatype Frame<R> = Frame(hasColumns: bool, entries: seq<Entry<R>>)

  // ===========================================================================
  // drop_duplicates(subset=[key]), keep='first'
  // ===========================================================================

  /** The keys of a run of entries. */
  function Keys<R, K>(s: seq<Entry<R>>, key: R -> K): set<K> {
    set i | 0 <= i < |s| :: key(s[i].row)
  }

  /** No earlier entry has the key of entry `i`: pandas' `duplicated()` is false there. */
  predicate IsFirst<R, K(==)>(s: seq<Entry<R>>, key: R -> K, i: int)
    requires 0 <= i < |s|
  {
    forall j :: 0 <= j < i ==> key(s[j].row) != key(s[i].row)
  }

  /** `d` is `s` with some entries left out and the rest in their order. */
  predicate Subsequence<T(==)>(d: seq<T>, s: seq<T>)
    decreases |s|
  {
    if s == [] then d == []
    else
      var last := |s| - 1;
      || (d != [] && d[|d| - 1] == s[last] && Subsequence(d[..|d| - 1], s[..last]))
      || Subsequence(d, s[..last])
  }

  /** The entries not marked duplicated, in their order: the definition of `drop_duplicates`. */
  function DropDuplicates<R, K(==)>(s: seq<Entry<R>>, key: R -> K): (d: seq<Entry<R>>)
    ensures |d| <= |s| && Subsequence(d, s)
    decreases |s|
  {
    if s == [] then []
    else
      var last := |s| - 1;
      var kept := DropDuplicates(s[..last], key);
      if IsFirst(s, key, last) then
        assert (kept + [s[last]])[..|kept|] == kept;
        kept + [s[last]]
      else kept
  }

  /** Cutting entries off the end does not change which earlier entries are first occurrences. */
  lemma IsFirstPrefix<R, K>(s: seq<Entry<R>>, key: R -> K, n: nat, i: nat)
    requires i < n <= |s|
    ensures IsFirst(s[..n], key, i) <==> IsFirst(s, key, i)
  {
    var p := s[..n];
    assert forall j :: 0 <= j <= i ==> p[j] == s[j];
  }

  /** Every first occurrence of a key survives `drop_duplicates`. */
  lemma {:induction false} DropDuplicatesKeepsFirst<R, K>(s: seq<Entry<R>>, key: R -> K, i: nat)
    requires i < |s| && IsFirst(s, key, i)
    ensures s[i] in DropDuplicates(s, key)
    decreases |s|
  {
    var last := |s| - 1;
    if i < last {
      IsFirstPrefix(s, key, last, i);
      DropDuplicatesKeepsFirst(s[..last], key, i);
      assert s[..last][i] == s[i];
    }
  }

  /** All first occurrences at once. */
  lemma DropDuplicatesKeepsFirsts<R, K>(s: seq<Entry<R>>, key: R -> K)
    ensures forall i :: 0 <= i < |s| && IsFirst(s, key, i) ==> s[i] in DropDuplicates(s, key)
  {
    forall i | 0 <= i < |s| && IsFirst(s, key, i)
      ensures s[i] in DropDuplicates(s, key)
    {
      DropDuplicatesKeepsFirst(s, key, i);
    }
  }

  /** The same rows found by one scan from the front that remembers the keys it has kept. */
  function DropSeen<R, K(==)>(s: seq<Entry<R>>, key: R -> K, seen: set<K>): seq<Entry<R>>
    decreases |s|
  {
    if s == [] then []
    else if key(s[0].row) in seen then DropSeen(s[1..], key, seen)
    else [s[0]] + DropSeen(s[1..], key, seen + {key(s[0].row)})
  }

  /** Extending a run by one entry adds that entry's key. */
  lemma KeysSnoc<R, K>(s: seq<Entry<R>>, e: Entry<R>, key: R -> K)
    ensures Keys(s + [e], key) == Keys(s, key) + {key(e.row)}
  {
    var t := s + [e];
    assert forall i :: 0 <= i < |s| ==> t[i] == s[i];
    assert t[|s|] == e;
  }

  /** The last entry of `s + [e]` is a first occurrence exactly when its key is new. */
  lemma IsFirstSnoc<R, K>(s: seq<Entry<R>>, e: Entry<R>, key: R -> K)
    ensures IsFirst(s + [e], key, |s|) <==> key(e.row) !in Keys(s, key)
  {
    var t := s + [e];
    assert forall j :: 0 <= j < |s| ==> t[j] == s[j];
    if key(e.row) in Keys(s, key) {
      var j :| 0 <= j < |s| && key(s[j].row) == key(e.row);
      assert t[j] == s[j];
    }
  }

  /** The scan from the front continues the mask filter of everything scanned before. */
  lemma {:induction false} DropSeenExtends<R, K>(pre: seq<Entry<R>>, s: seq<Entry<R>>, key: R -> K)
    ensures DropDuplicates(pre + s, key) == DropDuplicates(pre, key) + DropSeen(s, key, Keys(pre, key))
    decreases |s|
  {
    if s == [] {
      assert pre + s == pre;
    } else {
      var e := s[0];
      var pre' := pre + [e];
      assert pre + s == pre' + s[1..];
      DropSeenExtends(pre', s[1..], key);
      assert pre'[..|pre|] == pre;
      IsFirstSnoc(pre, e, key);
      KeysSnoc(pre, e, key);
      if key(e.row) in Keys(pre, key) {
        assert Keys(pre', key) == Keys(pre, key);
      }
    }
  }

  /** Both definitions of `drop_duplicates` agree. */
  lemma DropSeenIsDropDuplicates<R, K>(s: seq<Entry<R>>, key: R -> K)
    ensures DropSeen(s, key, {}) == DropDuplicates(s, key)
  {
    DropSeenExtends([], s, key);
    assert [] + s == s;
    assert Keys([], key) == {};
  }

  /** The kept entries, each an entry of the input, no two of them sharing a key. */
  lemma {:induction false} DropDuplicatesDistinct<R, K>(s: seq<Entry<R>>, key: R -> K)
    ensures var d := DropDuplicates(s, key);
            && (forall i :: 0 <= i < |d| ==> d[i] in s)
            && (forall i, j :: 0 <= i < j < |d| ==> key(d[i].row) != key(d[j].row))
            && Keys(d, key) == Keys(s, key)
    decreases |s|
  {
    if s != [] {
      var last := |s| - 1;
      var p := s[..last];
      assert s == p + [s[last]];
      DropDuplicatesDistinct(p, key);
      var dp := DropDuplicates(p, key);
      KeysSnoc(p, s[last], key);
      IsFirstSnoc(p, s[last], key);
      assert forall x :: x in p ==> x in s;
      if IsFirst(s, key, last) {
        KeysSnoc(dp, s[last], key);
      } else {
        assert DropDuplicates(s, key) == dp;
        assert Keys(s, key) == Keys(p, key);
      }
    }
  }

  /** A run whose keys are all different is left as it is. */
  lemma {:induction false} DropDuplicatesOfDistinct<R, K>(s: seq<Entry<R>>, key: R -> K)
    requires forall i, j :: 0 <= i < j < |s| ==> key(s[i].row) != key(s[j].row)
    ensures DropDuplicates(s, key) == s
    decreases |s|
  {
    if s != [] {
      var last := |s| - 1;
      DropDuplicatesOfDistinct(s[..last], key);
      assert IsFirst(s, key, last);
      assert s[..last] + [s[last]] == s;
    }
  }

  /** Dropping duplicates twice drops nothing more. */
  lemma DropDuplicatesIdempotent<R, K>(s: seq<Entry<R>>, key: R -> K)
    ensures DropDuplicates(DropDuplicates(s, key), key) == DropDuplicates(s, key)
  {
    DropDuplicatesDistinct(s, key);
    DropDuplicatesOfDistinct(DropDuplicates(s, key), key);
  }

  /** The key of the example below: the parity of an integer row. */
  function Parity(n: int): int {
    n % 2
  }

  /** Of three rows with two keys, the third repeats the first's key and is dropped. */
  lemma DropDuplicatesExample()
    ensures DropDuplicates([Entry(1, None), Entry(2, None), Entry(3, Some(7))], Parity)
              == [Entry(1, None), Entry(2, None)]
  {
    var e1, e2, e3 := Entry(1, None), Entry(2, None), Entry(3, Some(7));
    var s1, s2, s3 := [e1], [e1, e2], [e1, e2, e3];
    assert DropDuplicates(s1, Parity) == [e1] by {
      assert s1[..0] == [];
    }
    assert DropDuplicates(s2, Parity) == [e1, e2] by {
      assert s2[..1] == s1;
      assert IsFirst(s2, Parity, 1);
    }
    assert DropDuplicates(s3, Parity) == [e1, e2] by {
      assert s3[..2] == s2;
      assert Parity(e1.row) == Parity(e3.row);
      assert !IsFirst(s3, Parity, 2);
    }
  }
}
