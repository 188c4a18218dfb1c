/** The two Redis list commands the queue uses, on values.  Index 0 is the head:
    LPUSH adds there, BRPOPLPUSH takes from the other end. */
module RedisLists {

  /** How often `x` occurs in `list`. */
  function Copies<T(==)>(list: seq<T>, x: T): nat {
    multiset(list)[x]
  }

  function LPush<T>(list: seq<T>, x: T): seq<T> {
    [x] + list
  }

  /** `LREM list 1 x`: drops the occurrence nearest the head, if there is one. */
  function LRem<T(==)>(list: seq<T>, x: T): (rest: seq<T>) {
    if list == [] then []
    else if list[0] == x then list[1..]
    else [list[0]] + LRem(list[1..], x)
  }

  lemma {:induction false} LRemBag<T>(list: seq<T>, x: T)
    ensures multiset(LRem(list, x)) == multiset(list) - multiset{x}
    ensures x !in list ==> LRem(list, x) == list
  {
    if list != [] {
      assert list == [list[0]] + list[1..];
      LRemBag(list[1..], x);
    }
  }

  lemma LPushCopies<T>(list: seq<T>, x: T, y: T)
    ensures Copies(LPush(list, x), y) == Copies(list, y) + (if x == y then 1 else 0)
  {
  }

  lemma LRemCopies<T>(list: seq<T>, x: T, y: T)
    ensures Copies(LRem(list, x), y) ==
            if x == y && Copies(list, y) > 0 then Copies(list, y) - 1 else Copies(list, y)
  {
    LRemBag(list, x);
  }

  /** Of several occurrences the one nearest the head goes, and everything else stays in order. */
  lemma {:induction false} LRemNearestHead<T>(list: seq<T>, x: T) returns (a: seq<T>, b: seq<T>)
    requires x in list
    ensures list == a + [x] + b && LRem(list, x) == a + b && x !in a
  {
    if list[0] == x {
      a, b := [], list[1..];
    } else {
      var rest := list[1..];
      var c, d := LRemNearestHead(rest, x);
      a, b := [list[0]] + c, d;
      assert list == [list[0]] + rest;
      assert LRem(list, x) == [list[0]] + LRem(rest, x);
      hide LRem;
      assert [list[0]] + (c + [x] + d) == a + [x] + b;
    }
  }

  /** The end the consumers take from. */
  lemma LastCopies<T>(list: seq<T>, y: T)
    requires list != []
    ensures Copies(list, y) ==
            Copies(list[..|list| - 1], y) + (if list[|list| - 1] == y then 1 else 0)
  {
    assert list == list[..|list| - 1] + [list[|list| - 1]];
  }
}
