/**
 * Key-and-label options shown by the web form, and their ordering by key: Java's
 * `String.compareTo` (lexicographic by character, a proper prefix first) and the sort
 * `stream().sorted(Comparator.comparing(KeyWithLabel::getKey))`.
 */
module KeyOrder {

  /** An option of a drop-down list: the submitted key and the displayed label (`text`). */
  datatype KeyWithLabel = KeyWithLabel(key: string, text: string)

  /** `a.compareTo(b) <= 0`: compare at the first differing character, else the shorter first. */
  predicate KeyLe(a: string, b: string)
  {
    if |a| == 0 then true
    else if |b| == 0 then false
    else if a[0] != b[0] then a[0] < b[0]
    else KeyLe(a[1..], b[1..])
  }

  lemma {:induction false} KeyLeTotal(a: string, b: string)
    ensures KeyLe(a, b) || KeyLe(b, a)
  {
    if |a| > 0 && |b| > 0 && a[0] == b[0] {
      KeyLeTotal(a[1..], b[1..]);
    }
  }

  lemma {:induction false} KeyLeTransitive(a: string, b: string, c: string)
    requires KeyLe(a, b) && KeyLe(b, c)
    ensures KeyLe(a, c)
  {
    if |a| > 0 && |b| > 0 && |c| > 0 && a[0] == b[0] && b[0] == c[0] {
      KeyLeTransitive(a[1..], b[1..], c[1..]);
    }
  }

  /** Every option precedes every later one by key. */
  ghost predicate SortedByKey(s: seq<KeyWithLabel>)
  {
    forall i, j :: 0 <= i < j < |s| ==> KeyLe(s[i].key, s[j].key)
  }

  /** `k` is no greater than any key in `s`. */
  ghost predicate KeyBelowAll(k: string, s: seq<KeyWithLabel>)
  {
    forall j :: 0 <= j < |s| ==> KeyLe(k, s[j].key)
  }

  /** Inserts `x` before the first option whose key is not smaller, so it stays ahead of equal keys. */
  function InsertByKey(x: KeyWithLabel, s: seq<KeyWithLabel>): seq<KeyWithLabel>
  {
    if |s| == 0 then [x]
    else if KeyLe(x.key, s[0].key) then [x] + s
    else [s[0]] + InsertByKey(x, s[1..])
  }

  lemma {:induction false} InsertByKeyPermutes(x: KeyWithLabel, s: seq<KeyWithLabel>)
    ensures multiset(InsertByKey(x, s)) == multiset(s) + multiset{x}
  {
    if |s| > 0 && !KeyLe(x.key, s[0].key) {
      InsertByKeyPermutes(x, s[1..]);
      assert s == [s[0]] + s[1..];
    }
  }

  lemma {:induction false} InsertByKeyBelow(k: string, x: KeyWithLabel, s: seq<KeyWithLabel>)
    requires KeyLe(k, x.key) && KeyBelowAll(k, s)
    ensures KeyBelowAll(k, InsertByKey(x, s))
  {
    if |s| > 0 && !KeyLe(x.key, s[0].key) {
      InsertByKeyBelow(k, x, s[1..]);
    }
  }

  /** Inserting into a sorted list keeps it sorted. */
  lemma {:induction false} InsertByKeySorted(x: KeyWithLabel, s: seq<KeyWithLabel>)
    requires SortedByKey(s)
    ensures SortedByKey(InsertByKey(x, s))
  {
    if |s| == 0 {
    } else if KeyLe(x.key, s[0].key) {
      forall j | 0 < j < |s| ensures KeyLe(x.key, s[j].key) {
        KeyLeTransitive(x.key, s[0].key, s[j].key);
      }
    } else {
      KeyLeTotal(x.key, s[0].key);
      InsertByKeySorted(x, s[1..]);
      InsertByKeyBelow(s[0].key, x, s[1..]);
    }
  }

  /** Sorts the options by key; options with equal keys keep their relative order. */
  function SortByKey(s: seq<KeyWithLabel>): seq<KeyWithLabel>
  {
    if |s| == 0 then [] else InsertByKey(s[0], SortByKey(s[1..]))
  }

  /** The sort yields the same options, ordered by key. */
  lemma {:induction false} SortByKeyCorrect(s: seq<KeyWithLabel>)
    ensures multiset(SortByKey(s)) == multiset(s)
    ensures SortedByKey(SortByKey(s))
  {
    if |s| > 0 {
      SortByKeyCorrect(s[1..]);
      InsertByKeyPermutes(s[0], SortByKey(s[1..]));
      InsertByKeySorted(s[0], SortByKey(s[1..]));
      assert s == [s[0]] + s[1..];
    }
  }

  /** The options of `s` whose key is exactly `k`, in their order in `s`. */
  function WithKey(s: seq<KeyWithLabel>, k: string): seq<KeyWithLabel>
  {
    if |s| == 0 then []
    else (if s[0].key == k then [s[0]] else []) + WithKey(s[1..], k)
  }

  lemma {:induction false} KeyLeReflexive(a: string)
    ensures KeyLe(a, a)
  {
    if |a| > 0 {
      KeyLeReflexive(a[1..]);
    }
  }

  lemma {:induction false} InsertByKeyStable(x: KeyWithLabel, s: seq<KeyWithLabel>, k: string)
    ensures WithKey(InsertByKey(x, s), k) == (if x.key == k then [x] else []) + WithKey(s, k)
  {
    if |s| > 0 && !KeyLe(x.key, s[0].key) {
      InsertByKeyStable(x, s[1..], k);
      KeyLeReflexive(x.key);
      assert InsertByKey(x, s)[1..] == InsertByKey(x, s[1..]);
    }
  }

  /** The sort is stable: the options sharing any one key come out in their original order. */
  lemma {:induction false} SortByKeyStable(s: seq<KeyWithLabel>, k: string)
    ensures WithKey(SortByKey(s), k) == WithKey(s, k)
  {
    if |s| > 0 {
      SortByKeyStable(s[1..], k);
      InsertByKeyStable(s[0], SortByKey(s[1..]), k);
    }
  }
}
