/**
 * The tribute persistence layer of lib/localStorageUtils.ts: the storage
 * key derived from the deceased's name, and loading and saving the list of
 * tributes, always ordered newest first.
 */
module TributeStore {
  import opened Wrappers
  import opened Text
  import opened Browser

  const KeyPrefix := "tributeWall_tributes_"
  const FallbackSuffix := "default"

  // ---------------------------------------------------------------------
  // Key derivation
  // ---------------------------------------------------------------------

  /** `.replace(/\s+/g, "_")`: every maximal run of whitespace becomes one `_`. */
  function CollapseWhitespace(s: string): (r: string)
    ensures forall i :: 0 <= i < |r| ==> !IsWhitespace(r[i])
    decreases |s|
  {
    if s == [] then []
    else if IsWhitespace(s[0]) then "_" + CollapseWhitespace(TrimStart(s[1..]))
    else [s[0]] + CollapseWhitespace(s[1..])
  }

  /** The name as lower-cased, whitespace-collapsed and stripped of `[^\w-]`. */
  function NormalizedName(name: string): (r: string)
    ensures forall i :: 0 <= i < |r| ==> IsKeySuffixChar(r[i])
  {
    var collapsed := CollapseWhitespace(Lower(name));
    var r := Keep(IsWordOrHyphen, collapsed);
    CollapseNoUpperCase(Lower(name));
    KeepNoUpperCase(IsWordOrHyphen, collapsed);
    r
  }

  lemma {:induction false} CollapseNoUpperCase(s: string)
    requires NoUpperCase(s)
    ensures NoUpperCase(CollapseWhitespace(s))
    decreases |s|
  {
    if s != [] {
      var t := TrimStart(s[1..]);
      assert NoUpperCase(t) by {
        TrimStartSplits(s[1..]);
        assert t == s[1..][|s[1..]| - |t|..];
      }
      CollapseNoUpperCase(t);
      CollapseNoUpperCase(s[1..]);
    }
  }

  lemma {:induction false} KeepNoUpperCase(p: char -> bool, s: string)
    requires NoUpperCase(s)
    ensures NoUpperCase(Keep(p, s))
  {
    if s != [] {
      KeepNoUpperCase(p, s[1..]);
    }
  }

  /** The part of the key after the prefix; `default` when the name
      normalises to nothing. */
  function KeySuffix(name: string): (r: string)
    ensures r != []
    ensures forall i :: 0 <= i < |r| ==> IsKeySuffixChar(r[i])
    ensures NormalizedName(name) != [] ==> r == NormalizedName(name)
  {
    var n := NormalizedName(name);
    if n == [] then FallbackSuffix else n
  }

  /** `getStorageKey`. */
  function StorageKey(name: string): (k: string)
    ensures StartsWith(k, KeyPrefix) && |k| > |KeyPrefix|
    ensures forall i :: |KeyPrefix| <= i < |k| ==> IsKeySuffixChar(k[i])
  {
    KeyPrefix + KeySuffix(name)
  }

  lemma {:induction false} CollapseWithoutWhitespace(s: string)
    requires forall i :: 0 <= i < |s| ==> !IsWhitespace(s[i])
    ensures CollapseWhitespace(s) == s
  {
    if s != [] {
      CollapseWithoutWhitespace(s[1..]);
    }
  }

  /** Normalising is idempotent: a suffix, `default` included, is its own
      normal form. */
  lemma KeySuffixIdempotent(name: string)
    ensures KeySuffix(KeySuffix(name)) == KeySuffix(name)
  {
    var r := KeySuffix(name);
    LowerOfLowerCase(r);
    CollapseWithoutWhitespace(r);
    KeepAll(IsWordOrHyphen, r);
  }

  lemma {:induction false} TrimStartConcat(a: string, x: string)
    ensures TrimStart(a + x) == if AllWhitespace(a) then TrimStart(x) else TrimStart(a) + x
  {
    if a != [] {
      assert (a + x)[1..] == a[1..] + x;
      if IsWhitespace(a[0]) {
        TrimStartConcat(a[1..], x);
      }
    } else {
      assert a + x == x;
    }
  }

  /** Two tails that both begin with whitespace and agree after it collapse
      the same way behind any common prefix. */
  lemma {:induction false} CollapseSameRun(a: string, x: string, y: string)
    requires x != [] && IsWhitespace(x[0]) && y != [] && IsWhitespace(y[0])
    requires TrimStart(x) == TrimStart(y)
    ensures CollapseWhitespace(a + x) == CollapseWhitespace(a + y)
    decreases |a|
  {
    if a == [] {
      assert a + x == x && a + y == y;
      assert TrimStart(x[1..]) == TrimStart(x) && TrimStart(y[1..]) == TrimStart(y);
    } else {
      assert (a + x)[0] == a[0] && (a + x)[1..] == a[1..] + x;
      assert (a + y)[0] == a[0] && (a + y)[1..] == a[1..] + y;
      if IsWhitespace(a[0]) {
        TrimStartConcat(a[1..], x);
        TrimStartConcat(a[1..], y);
        if !AllWhitespace(a[1..]) {
          CollapseSameRun(TrimStart(a[1..]), x, y);
        }
      } else {
        CollapseSameRun(a[1..], x, y);
      }
    }
  }

  lemma LowerAround(a: string, m: string, b: string)
    ensures Lower(a + m + b) == Lower(a) + (Lower(m) + Lower(b))
  {
    LowerConcat(a + m, b);
    LowerConcat(a, m);
  }

  lemma TrimStartLongerRun(lb: string, w: char, w2: char)
    requires IsWhitespace(w) && IsWhitespace(w2)
    ensures TrimStart([w] + lb) == TrimStart([w, w2] + lb)
  {
    var x, y := [w] + lb, [w, w2] + lb;
    assert x[1..] == lb;
    assert y[1..] == [w2] + lb && y[1..][1..] == lb;
  }

  /** The length of a whitespace run does not matter: writing one more
      whitespace character after another addresses the same slot. */
  lemma LongerWhitespaceRunSameKey(a: string, w: char, w2: char, b: string)
    requires IsWhitespace(w) && IsWhitespace(w2)
    ensures StorageKey(a + [w] + b) == StorageKey(a + [w, w2] + b)
  {
    var la, lb := Lower(a), Lower(b);
    LowerAround(a, [w], b);
    LowerAround(a, [w, w2], b);
    assert Lower([w]) == [w] && Lower([w, w2]) == [w, w2];
    TrimStartLongerRun(lb, w, w2);
    CollapseSameRun(la, [w] + lb, [w, w2] + lb);
  }

  /** Upper- and lower-case spellings of a name share one slot. */
  lemma CaseInsensitiveKey(name: string)
    ensures StorageKey(Lower(name)) == StorageKey(name)
  {
    LowerOfLowerCase(Lower(name));
  }

  /** `.replace(/\s+/g, "_")` on a word, a whitespace run of any length and a
      rest that does not start with whitespace: the run becomes one `_`. */
  lemma {:induction false} CollapseWordThenRun(p: string, run: string, q: string)
    requires forall i :: 0 <= i < |p| ==> !IsWhitespace(p[i])
    requires run != [] && AllWhitespace(run)
    requires q == [] || !IsWhitespace(q[0])
    ensures CollapseWhitespace(p + run + q) == p + "_" + CollapseWhitespace(q)
  {
    if p == [] {
      assert p + run + q == run + q;
      assert (run + q)[0] == run[0];
      assert (run + q)[1..] == run[1..] + q;
      assert AllWhitespace(run[1..]) by {
        forall i | 0 <= i < |run[1..]| ensures IsWhitespace(run[1..][i]) {
          assert run[1..][i] == run[i + 1];
        }
      }
      TrimStartConcat(run[1..], q);
    } else {
      assert (p + run + q)[1..] == p[1..] + run + q;
      CollapseWordThenRun(p[1..], run, q);
    }
  }

  // ---------------------------------------------------------------------
  // Ordering: `.sort((a, b) => b.timestamp - a.timestamp)`
  // ---------------------------------------------------------------------

  /** Ordered by timestamp, newest first (non-increasing). */
  ghost predicate NewestFirst(s: seq<Tribute>) {
    forall i, j :: 0 <= i < j < |s| ==> s[i].timestamp >= s[j].timestamp
  }

  /** The records of `s` whose timestamp is `t`, in their order in `s`. */
  function WithTimestamp(s: seq<Tribute>, t: int): (r: seq<Tribute>)
    ensures forall i :: 0 <= i < |r| ==> r[i].timestamp == t
  {
    if s == [] then []
    else (if s[0].timestamp == t then [s[0]] else []) + WithTimestamp(s[1..], t)
  }

  /** Puts `x` in front of the first record that is not newer than it, so
      it stays ahead of the records it tied with. */
  function InsertNewestFirst(x: Tribute, s: seq<Tribute>): (r: seq<Tribute>)
    ensures multiset(r) == multiset(s) + multiset{x}
  {
    if s == [] || s[0].timestamp <= x.timestamp then [x] + s
    else
      assert s == [s[0]] + s[1..];
      [s[0]] + InsertNewestFirst(x, s[1..])
  }

  lemma {:induction false} InsertNewestFirstBounded(x: Tribute, s: seq<Tribute>, bound: int)
    requires x.timestamp <= bound
    requires forall k :: 0 <= k < |s| ==> s[k].timestamp <= bound
    ensures forall k :: 0 <= k < |InsertNewestFirst(x, s)| ==> InsertNewestFirst(x, s)[k].timestamp <= bound
  {
    if s != [] && s[0].timestamp > x.timestamp {
      InsertNewestFirstBounded(x, s[1..], bound);
    }
  }

  lemma {:induction false} InsertNewestFirstOrdered(x: Tribute, s: seq<Tribute>)
    requires NewestFirst(s)
    ensures NewestFirst(InsertNewestFirst(x, s))
  {
    if s != [] && s[0].timestamp > x.timestamp {
      var rest := InsertNewestFirst(x, s[1..]);
      InsertNewestFirstOrdered(x, s[1..]);
      InsertNewestFirstBounded(x, s[1..], s[0].timestamp);
      var r := [s[0]] + rest;
      forall i, j | 0 <= i < j < |r| ensures r[i].timestamp >= r[j].timestamp {
        assert r[j] == rest[j - 1];
        if i > 0 {
          assert r[i] == rest[i - 1];
        }
      }
    }
  }

  /** JavaScript's `Array.prototype.sort` with the newest-first comparator.
      That sort is stable, so this is a stable insertion sort. */
  function SortNewestFirst(s: seq<Tribute>): (r: seq<Tribute>)
    ensures NewestFirst(r)
    ensures multiset(r) == multiset(s)
  {
    if s == [] then []
    else
      assert s == [s[0]] + s[1..];
      var rest := SortNewestFirst(s[1..]);
      InsertNewestFirstOrdered(s[0], rest);
      InsertNewestFirst(s[0], rest)
  }

  lemma {:induction false} InsertKeepsTies(x: Tribute, s: seq<Tribute>, t: int)
    ensures WithTimestamp(InsertNewestFirst(x, s), t)
         == (if x.timestamp == t then [x] else []) + WithTimestamp(s, t)
  {
    if s == [] || s[0].timestamp <= x.timestamp {
      assert ([x] + s)[1..] == s;
    } else {
      var rest := InsertNewestFirst(x, s[1..]);
      assert ([s[0]] + rest)[1..] == rest;
      InsertKeepsTies(x, s[1..], t);
    }
  }

  /** Stability: records with equal timestamps keep their relative order. */
  lemma {:induction false} SortKeepsTies(s: seq<Tribute>, t: int)
    ensures WithTimestamp(SortNewestFirst(s), t) == WithTimestamp(s, t)
  {
    if s != [] {
      InsertKeepsTies(s[0], SortNewestFirst(s[1..]), t);
      SortKeepsTies(s[1..], t);
    }
  }

  /** A list already ordered newest first is left exactly as it is. */
  lemma {:induction false} SortOfSorted(s: seq<Tribute>)
    requires NewestFirst(s)
    ensures SortNewestFirst(s) == s
  {
    if s != [] {
      assert NewestFirst(s[1..]);
      SortOfSorted(s[1..]);
      assert s == [s[0]] + s[1..];
    }
  }

  /** Sorting twice is sorting once. */
  lemma SortIdempotent(s: seq<Tribute>)
    ensures SortNewestFirst(SortNewestFirst(s)) == SortNewestFirst(s)
  {
    SortOfSorted(SortNewestFirst(s));
  }

  // ---------------------------------------------------------------------
  // Load and save
  // ---------------------------------------------------------------------

  /** The records stored in the slot for `name`, if the slot holds a JSON
      array; `None` when it is absent, blank, unparsable or not an array
      (where `.map` throws). */
  function StoredRecords(items: map<string, StoredValue>, name: string): Option<seq<Tribute>> {
    var key := StorageKey(name);
    if key in items && items[key].TributeList? then Some(items[key].records) else None
  }

  /**
   * `loadTributesFromLocalStorage`. An absent or blank slot gives `[]`; a
   * slot that fails to parse or to map is caught and gives `[]` as well.
   * Otherwise the stored records come back ordered newest first. With
   * integer timestamps `Number(timestamp)` changes nothing, so the records
   * themselves are the stored ones.
   */
  function LoadTributes(items: map<string, StoredValue>, name: string): (r: seq<Tribute>)
    ensures NewestFirst(r)
    ensures StoredRecords(items, name).None? ==> r == []
    ensures StoredRecords(items, name).Some? ==> multiset(r) == multiset(StoredRecords(items, name).value)
    ensures StoredRecords(items, name).Some? ==>
              forall t :: WithTimestamp(r, t) == WithTimestamp(StoredRecords(items, name).value, t)
  {
    var key := StorageKey(name);
    if key in items then
      match items[key]
      case TributeList(records) =>
        var r := SortNewestFirst(records);
        assert forall t :: WithTimestamp(r, t) == WithTimestamp(records, t) by {
          forall t ensures WithTimestamp(r, t) == WithTimestamp(records, t) {
            SortKeepsTies(records, t);
          }
        }
        r
      case _ => []
    else []
  }

  /**
   * The store after `saveTributesToLocalStorage(name, tributes)`. Only the
   * slot for `name` changes, and it is overwritten with the list ordered
   * newest first; when `setItem` throws (`accepted` false) the error is
   * swallowed and the store is as it was.
   */
  function ItemsAfterSave(items: map<string, StoredValue>, name: string, tributes: seq<Tribute>,
                          accepted: bool): (r: map<string, StoredValue>)
    ensures !accepted ==> r == items
    ensures accepted ==> r.Keys == items.Keys + {StorageKey(name)}
    ensures accepted ==> r[StorageKey(name)].TributeList?
    ensures accepted ==> NewestFirst(r[StorageKey(name)].records)
    ensures accepted ==> multiset(r[StorageKey(name)].records) == multiset(tributes)
    ensures forall k :: k != StorageKey(name) && k in items ==> k in r && r[k] == items[k]
  {
    if accepted then items[StorageKey(name) := TributeList(SortNewestFirst(tributes))] else items
  }

  /** `saveTributesToLocalStorage`. The caller's `tributes` is a value, so
      sorting a copy leaves it as it was by construction. */
  method SaveTributes(storage: LocalStorage, name: string, tributes: seq<Tribute>, accepted: bool)
    modifies storage
    ensures storage.items == ItemsAfterSave(old(storage.items), name, tributes, accepted)
  {
    var tributesToSave := SortNewestFirst(tributes);
    storage.SetItem(StorageKey(name), TributeList(tributesToSave), accepted);
  }

  /** Round trip: loading right after a successful save gives back exactly
      the saved list in stable newest-first order. */
  lemma SaveThenLoad(items: map<string, StoredValue>, name: string, tributes: seq<Tribute>)
    ensures LoadTributes(ItemsAfterSave(items, name, tributes, true), name) == SortNewestFirst(tributes)
  {
    SortIdempotent(tributes);
  }

  /** Saving under one name does not change what another slot loads. */
  lemma SaveLeavesOtherSlots(items: map<string, StoredValue>, name: string, other: string,
                             tributes: seq<Tribute>, accepted: bool)
    requires StorageKey(other) != StorageKey(name)
    ensures LoadTributes(ItemsAfterSave(items, name, tributes, accepted), other) == LoadTributes(items, other)
  {
  }
}
