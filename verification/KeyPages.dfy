// Paged enumeration of storage keys: what the pages contain when the node is honest, and how many
// calls any node gets.
module KeyPages {
  import opened Definitions

  type Key = bytes

  datatype Json = JsonString(key: Key) | JsonOther

  datatype Answer = Failed | Page(keys: seq<Json>) | NotAnArray

  /**
   * The node as seen through state_getKeysPaged: its answer with this start key, to the call after
   * which so many (itself included) remain; so no two calls need to be answered alike.
   */
  type KeyNode = (nat, Option<Key>) -> Answer

  const MAX_KEY_PAGES: nat := 256
  const COUNT: nat := 10

  /** An answer the loop goes on from: a page that is not empty and ends in a string. */
  predicate Usable(a: Answer) {
    a.Page? && a.keys != [] && a.keys[|a.keys| - 1].JsonString?
  }

  function LastKey(a: Answer): Key
    requires Usable(a)
  {
    a.keys[|a.keys| - 1].key
  }

  /** The pages collected with this many calls left. */
  function Enumerated(node: KeyNode, left: nat, start: Option<Key>): seq<seq<Json>> {
    if left == 0 || !Usable(node(left, start)) then []
    else [node(left, start).keys] + Enumerated(node, left - 1, Some(LastKey(node(left, start))))
  }

  /** The enumeration was ended by an empty page. */
  predicate Exhausted(node: KeyNode, left: nat, start: Option<Key>) {
    left > 0
    && (node(left, start) == Page([])
        || (Usable(node(left, start)) && Exhausted(node, left - 1, Some(LastKey(node(left, start))))))
  }

  /** Any node is called at most 256 times, and every page that counts was a separate call. */
  method GetKeysFromStorage(node: KeyNode) returns (pages: seq<seq<Json>>, calls: nat)
    ensures pages == Enumerated(node, MAX_KEY_PAGES, None)
    ensures |pages| <= calls <= |pages| + 1 && calls <= MAX_KEY_PAGES
  {
    hide Enumerated;
    pages, calls := [], 0;
    var startKey: Option<Key> := None;
    ghost var all := Enumerated(node, MAX_KEY_PAGES, None);
    for i := 0 to MAX_KEY_PAGES
      invariant pages + Enumerated(node, MAX_KEY_PAGES - i, startKey) == all
      invariant |pages| == calls == i
    {
      ghost var left: nat := MAX_KEY_PAGES - i;
      NextPage(node, left, startKey, pages);
      var answer := node(MAX_KEY_PAGES - i, startKey);
      calls := calls + 1;
      match answer {
        case Page(keys) =>
          if |keys| == 0 {
            return;
          }
          match keys[|keys| - 1] {
            case JsonString(key) =>
              startKey := Some(key);
            case JsonOther =>
              return;
          }
          pages := pages + [keys];
        case Failed =>
          return;
        case NotAnArray =>
          return;
      }
    }
    NoCallLeft(node, startKey);
  }

  lemma NoCallLeft(node: KeyNode, start: Option<Key>)
    ensures Enumerated(node, 0, start) == []
  {
  }

  lemma NextPage(node: KeyNode, left: nat, start: Option<Key>, pages: seq<seq<Json>>)
    requires left > 0
    ensures var a := node(left, start);
            pages + Enumerated(node, left, start)
            == if Usable(a) then (pages + [a.keys]) + Enumerated(node, left - 1, Some(LastKey(a))) else pages
  {
    var a := node(left, start);
    if Usable(a) {
      var rest := Enumerated(node, left - 1, Some(LastKey(a)));
      assert pages + ([a.keys] + rest) == (pages + [a.keys]) + rest;
    }
  }

  // --- An honest node ---

  predicate Less(a: Key, b: Key) {
    |b| > 0 && (|a| == 0 || a[0] < b[0] || (a[0] == b[0] && Less(a[1..], b[1..])))
  }

  lemma {:induction false} LessIsAsymmetric(a: Key, b: Key)
    requires Less(a, b)
    ensures !Less(b, a)
  {
    if |a| > 0 && a[0] == b[0] {
      LessIsAsymmetric(a[1..], b[1..]);
    }
  }

  lemma {:induction false} LessIsIrreflexive(a: Key)
    ensures !Less(a, a)
  {
    if |a| > 0 {
      LessIsIrreflexive(a[1..]);
    }
  }

  ghost predicate Sorted(ks: seq<Key>) {
    forall i, j :: 0 <= i < j < |ks| ==> Less(ks[i], ks[j])
  }

  /** The keys strictly after the start key, in order. */
  ghost function After(ks: seq<Key>, start: Option<Key>): seq<Key> {
    if |ks| == 0 then []
    else (if start.None? || Less(start.value, ks[0]) then [ks[0]] else []) + After(ks[1..], start)
  }

  ghost function Strings(ks: seq<Key>): (r: seq<Json>)
    ensures |r| == |ks| && forall i :: 0 <= i < |r| ==> r[i] == JsonString(ks[i])
  {
    seq(|ks|, i requires 0 <= i < |ks| => JsonString(ks[i]))
  }

  /** A page holds the next keys, at most ten of them, and none only if there are none. */
  ghost predicate HonestPage(rest: seq<Key>, keys: seq<Json>) {
    |keys| <= COUNT && |keys| <= |rest| && keys == Strings(rest[..|keys|]) && (keys == [] ==> rest == [])
  }

  /** Any call may fail; an answer is a page of the keys after the start key. */
  ghost predicate Honest(node: KeyNode, ks: seq<Key>) {
    forall left, start :: node(left, start).Failed?
                       || (node(left, start).Page? && HonestPage(After(ks, start), node(left, start).keys))
  }

  ghost predicate FullPages(node: KeyNode, ks: seq<Key>) {
    forall left, start :: node(left, start).Page?
                       && |node(left, start).keys| == if |After(ks, start)| < COUNT then |After(ks, start)| else COUNT
  }

  ghost function Flatten(pages: seq<seq<Json>>): seq<Json> {
    if |pages| == 0 then [] else pages[0] + Flatten(pages[1..])
  }

  lemma {:induction false} AfterNothing(ks: seq<Key>)
    ensures After(ks, None) == ks
  {
    if |ks| > 0 {
      AfterNothing(ks[1..]);
    }
  }

  lemma {:induction false} AllAfter(ks: seq<Key>, k: Key)
    requires forall i :: 0 <= i < |ks| ==> Less(k, ks[i])
    ensures After(ks, Some(k)) == ks
  {
    if |ks| > 0 {
      AllAfter(ks[1..], k);
    }
  }

  lemma {:induction false} AfterKey(ks: seq<Key>, j: nat)
    requires Sorted(ks) && j < |ks|
    ensures After(ks, Some(ks[j])) == ks[j + 1..]
  {
    if j == 0 {
      LessIsIrreflexive(ks[0]);
      AllAfter(ks[1..], ks[0]);
    } else {
      LessIsAsymmetric(ks[0], ks[j]);
      AfterKey(ks[1..], j - 1);
      assert ks[1..][j..] == ks[j + 1..];
    }
  }

  /** The start key the loop has after the first j keys. */
  ghost function StartAt(ks: seq<Key>, j: nat): Option<Key>
    requires j <= |ks|
  {
    if j == 0 then None else Some(ks[j - 1])
  }

  lemma AfterStart(ks: seq<Key>, j: nat)
    requires Sorted(ks) && j <= |ks|
    ensures After(ks, StartAt(ks, j)) == ks[j..]
  {
    if j == 0 {
      AfterNothing(ks);
    } else {
      AfterKey(ks, j - 1);
    }
  }

  /** One honest page moves the start key over its keys. */
  lemma NextStart(node: KeyNode, ks: seq<Key>, left: nat, j: nat) returns (n: nat)
    requires Sorted(ks) && Honest(node, ks) && j <= |ks| && Usable(node(left, StartAt(ks, j)))
    ensures var a := node(left, StartAt(ks, j));
            n == |a.keys| && 0 < n <= COUNT && j + n <= |ks|
            && a.keys == Strings(ks[j..j + n]) && Some(LastKey(a)) == StartAt(ks, j + n)
  {
    AfterStart(ks, j);
    var a := node(left, StartAt(ks, j));
    assert HonestPage(ks[j..], a.keys);
    n := |a.keys|;
    assert ks[j..][..n] == ks[j..j + n];
  }

  lemma EmptyPageIsEnd(node: KeyNode, ks: seq<Key>, left: nat, j: nat)
    requires Sorted(ks) && Honest(node, ks) && j <= |ks| && node(left, StartAt(ks, j)) == Page([])
    ensures j == |ks|
  {
    AfterStart(ks, j);
    assert HonestPage(ks[j..], []);
  }

  lemma FullPage(node: KeyNode, ks: seq<Key>, left: nat, j: nat)
    requires Sorted(ks) && Honest(node, ks) && FullPages(node, ks) && j <= |ks|
    ensures var a := node(left, StartAt(ks, j));
            a.Page? && |a.keys| == if |ks| - j < COUNT then |ks| - j else COUNT
    ensures Usable(node(left, StartAt(ks, j))) <==> j < |ks|
  {
    AfterStart(ks, j);
    assert HonestPage(ks[j..], node(left, StartAt(ks, j)).keys);
  }

  lemma StringsConcat(ks: seq<Key>, j: nat, k: nat, m: nat)
    requires j <= k <= m <= |ks|
    ensures Strings(ks[j..k]) + Strings(ks[k..m]) == Strings(ks[j..m])
  {
  }

  lemma OnePage(node: KeyNode, left: nat, start: Option<Key>)
    requires left > 0 && Usable(node(left, start))
    ensures var a := node(left, start);
            Flatten(Enumerated(node, left, start)) == a.keys + Flatten(Enumerated(node, left - 1, Some(LastKey(a))))
  {
    assert Enumerated(node, left, start)[1..] == Enumerated(node, left - 1, Some(LastKey(node(left, start))));
  }

  lemma NoPage(node: KeyNode, left: nat, start: Option<Key>)
    requires left == 0 || !Usable(node(left, start))
    ensures Flatten(Enumerated(node, left, start)) == []
  {
  }

  /** From any point on, the pages are the following keys, up to some point; all of them if the loop was exhausted. */
  lemma {:induction false} Continues(node: KeyNode, ks: seq<Key>, left: nat, j: nat) returns (m: nat)
    requires Sorted(ks) && Honest(node, ks) && j <= |ks|
    ensures j <= m <= |ks| && Flatten(Enumerated(node, left, StartAt(ks, j))) == Strings(ks[j..m])
    ensures Exhausted(node, left, StartAt(ks, j)) ==> m == |ks|
    decreases left
  {
    hide Honest, Sorted, Less, After;
    m := j;
    if left > 0 {
      var a := node(left, StartAt(ks, j));
      if Usable(a) {
        var n := NextStart(node, ks, left, j);
        m := Continues(node, ks, left - 1, j + n);
        OnePage(node, left, StartAt(ks, j));
        StringsConcat(ks, j, j + n, m);
      } else if a == Page([]) {
        EmptyPageIsEnd(node, ks, left, j);
      }
    }
  }

  /**
   * Whatever calls fail, the collected keys are the first keys in sorted order, each once; all of
   * them when an empty page ended the enumeration.
   */
  lemma PrefixOfKeys(node: KeyNode, ks: seq<Key>) returns (m: nat)
    requires Sorted(ks) && Honest(node, ks)
    ensures m <= |ks| && Flatten(Enumerated(node, MAX_KEY_PAGES, None)) == Strings(ks[..m])
    ensures Exhausted(node, MAX_KEY_PAGES, None) ==> m == |ks|
    ensures forall i, j :: 0 <= i < j < m ==> ks[i] != ks[j]
  {
    m := Continues(node, ks, MAX_KEY_PAGES, 0);
    assert ks[0..m] == ks[..m];
    forall i, j | 0 <= i < j < m ensures ks[i] != ks[j] {
      LessIsIrreflexive(ks[i]);
    }
  }

  /** How far the listing gets from here. */
  ghost function Reach(ks: seq<Key>, left: nat, j: nat): (m: nat)
    requires j <= |ks|
    ensures j <= m <= |ks|
  {
    if j + 10 * left < |ks| then j + 10 * left else |ks|
  }

  lemma {:induction false} ContinuesFully(node: KeyNode, ks: seq<Key>, left: nat, j: nat)
    requires Sorted(ks) && Honest(node, ks) && FullPages(node, ks) && j <= |ks|
    ensures Flatten(Enumerated(node, left, StartAt(ks, j))) == Strings(ks[j..Reach(ks, left, j)])
    decreases left
  {
    hide Honest, Sorted, FullPages, Less, After, Enumerated, Flatten;
    FullPage(node, ks, left, j);
    if left > 0 && j < |ks| {
      var n := NextStart(node, ks, left, j);
      ContinuesFully(node, ks, left - 1, j + n);
      OnePage(node, left, StartAt(ks, j));
      StringsConcat(ks, j, j + n, Reach(ks, left, j));
    } else {
      NoPage(node, left, StartAt(ks, j));
    }
  }

  /**
   * With a node that never fails and fills its pages, the listing is complete exactly when there
   * are at most 2560 keys; the rest is cut off without an error.
   */
  lemma CompleteIff(node: KeyNode, ks: seq<Key>)
    requires Sorted(ks) && Honest(node, ks) && FullPages(node, ks)
    ensures Flatten(Enumerated(node, MAX_KEY_PAGES, None)) == Strings(ks[..if |ks| <= 2560 then |ks| else 2560])
    ensures Flatten(Enumerated(node, MAX_KEY_PAGES, None)) == Strings(ks) <==> |ks| <= 2560
  {
    ContinuesFully(node, ks, MAX_KEY_PAGES, 0);
    hide Honest, Sorted, FullPages, Less, After, Enumerated, Flatten;
    assert |Strings(ks)| == |ks|;
    assert ks[0..Reach(ks, MAX_KEY_PAGES, 0)] == ks[..if |ks| <= 2560 then |ks| else 2560];
    assert |ks| <= 2560 ==> ks[..|ks|] == ks;
  }
}
