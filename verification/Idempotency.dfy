/** The receive-side duplicate filter (src/core/idempotency.py): a bounded cache
    of message ids, compared here with the full history of calls. */
module Idempotency {
  import opened Basics

  /** `s` without its first occurrence of x. */
  function Without<T(==)>(s: seq<T>, x: T): (r: seq<T>)
    ensures x !in s ==> r == s
    ensures |r| <= |s|
  {
    if s == [] then [] else if s[0] == x then s[1..] else [s[0]] + Without(s[1..], x)
  }

  /** One call of `accept` on the cache, oldest entry first. */
  function Touched<T(==)>(capacity: nat, seen: seq<T>, x: T): seq<T> {
    if x in seen then Without(seen, x) + [x]
    else if |seen| >= capacity && seen != [] then seen[1..] + [x]
    else seen + [x]
  }

  function CacheAfter<T(==)>(capacity: nat, calls: seq<T>): seq<T> {
    if calls == [] then []
    else Touched(capacity, CacheAfter(capacity, calls[..|calls| - 1]), calls[|calls| - 1])
  }

  class IdempotentReceiver {
    const cacheSize: nat
    var seen: seq<string>
    ghost var calls: seq<string>

    ghost predicate Valid()
      reads this
    {
      cacheSize > 0 && seen == CacheAfter(cacheSize, calls)
    }

    constructor (cacheSize: nat)
      requires cacheSize > 0
      ensures Valid() && calls == [] && seen == [] && this.cacheSize == cacheSize
    {
      this.cacheSize := cacheSize;
      seen := [];
      calls := [];
    }

    /** The constructor's check: a non-positive size is an error. */
    static method Make(cacheSize: int) returns (r: Option<IdempotentReceiver>)
      ensures r.Some? <==> cacheSize > 0
      ensures r.Some? ==> fresh(r.value) && r.value.Valid() && r.value.calls == [] && r.value.cacheSize == cacheSize
    {
      if cacheSize <= 0 {
        return None;
      }
      var receiver := new IdempotentReceiver(cacheSize);
      r := Some(receiver);
    }

    method Accept(messageId: string) returns (accepted: bool)
      requires Valid()
      modifies this
      ensures Valid() && calls == old(calls) + [messageId]
      ensures accepted <==> Fresh(cacheSize, old(calls), messageId)
    {
      CacheDecides(cacheSize, calls, messageId);
      assert (calls + [messageId])[..|calls|] == calls;
      calls := calls + [messageId];
      if messageId in seen {
        seen := Without(seen, messageId) + [messageId];
        return false;
      }
      if |seen| >= cacheSize {
        seen := seen[1..];
      }
      seen := seen + [messageId];
      return true;
    }
  }

  // ----- The full history -----

  /** Everything ever called, ordered by last use. */
  function ByLastUse<T(==)>(calls: seq<T>): seq<T> {
    if calls == [] then []
    else
      var x := calls[|calls| - 1];
      Without(ByLastUse(calls[..|calls| - 1]), x) + [x]
  }

  function LastUse<T(==)>(calls: seq<T>, x: T): (k: nat)
    requires x in calls
    ensures k < |calls| && calls[k] == x && x !in calls[k + 1..]
  {
    var n := |calls| - 1;
    if calls[n] == x then n else LastUse(calls[..n], x)
  }

  predicate NoRepeats<T(==)>(s: seq<T>) {
    forall i, j :: 0 <= i < j < |s| ==> s[i] != s[j]
  }

  function Elements<T(==)>(s: seq<T>): set<T> {
    set x | x in s
  }

  /** What the filter means: the id never occurred, or at least `capacity`
      distinct other ids were touched since it last did. */
  predicate Fresh<T(==)>(capacity: nat, calls: seq<T>, x: T) {
    x !in calls || |Elements(calls[LastUse(calls, x) + 1..])| >= capacity
  }

  lemma {:induction false} WithoutElements<T>(s: seq<T>, x: T)
    requires NoRepeats(s)
    ensures NoRepeats(Without(s, x)) && x !in Without(s, x)
    ensures forall y :: y in Without(s, x) <==> y in s && y != x
    ensures x in s ==> |Without(s, x)| == |s| - 1
  {
    if s != [] {
      assert s == [s[0]] + s[1..];
      assert s[0] !in s[1..];
      WithoutElements(s[1..], x);
    }
  }

  lemma DistinctTail<T>(s: seq<T>, k: nat, i: nat)
    requires NoRepeats(s) && k <= |s| && i < |s|
    ensures NoRepeats(s[k..]) && (i != 0 ==> s[0] != s[i])
  {
  }

  lemma {:induction false} WithoutAt<T>(s: seq<T>, i: nat, x: T)
    requires NoRepeats(s) && i < |s| && s[i] == x
    ensures Without(s, x) == s[..i] + s[i + 1..]
  {
    hide NoRepeats;
    DistinctTail(s, 1, i);
    if i > 0 {
      var rest := s[1..];
      WithoutAt(rest, i - 1, x);
      assert [s[0]] + rest[..i - 1] == s[..i];
      assert rest[i..] == s[i + 1..];
    }
  }

  lemma {:induction false} ByLastUseDistinct<T>(calls: seq<T>)
    ensures NoRepeats(ByLastUse(calls))
    ensures forall x :: x in ByLastUse(calls) <==> x in calls
  {
    if calls != [] {
      var n := |calls| - 1;
      ByLastUseDistinct(calls[..n]);
      WithoutElements(ByLastUse(calls[..n]), calls[n]);
      assert calls == calls[..n] + [calls[n]];
    }
  }

  function Newest<T(==)>(s: seq<T>, k: nat): seq<T> {
    if k >= |s| then s else s[|s| - k..]
  }

  /** The cache is exactly the newest entries of the history by last use. */
  lemma {:induction false} CacheIsNewest<T>(capacity: nat, calls: seq<T>)
    requires capacity > 0
    ensures CacheAfter(capacity, calls) == Newest(ByLastUse(calls), capacity)
  {
    if calls != [] {
      var n := |calls| - 1;
      CacheIsNewest(capacity, calls[..n]);
      ByLastUseDistinct(calls[..n]);
      TouchNewest(capacity, ByLastUse(calls[..n]), calls[n]);
    }
  }

  lemma TouchNewest<T>(capacity: nat, all: seq<T>, x: T)
    requires capacity > 0 && NoRepeats(all)
    ensures Touched(capacity, Newest(all, capacity), x) == Newest(Without(all, x) + [x], capacity)
  {
    hide NoRepeats, Without;
    var drop := if capacity >= |all| then 0 else |all| - capacity;
    assert Newest(all, capacity) == all[drop..];
    if i :| 0 <= i < |all| && all[i] == x {
      if drop <= i {
        TouchKept(all, drop, i);
      } else {
        TouchEvicted(all, drop, i);
      }
    } else {
      TouchNew(capacity, all, x);
    }
  }

  lemma TouchNew<T>(capacity: nat, all: seq<T>, x: T)
    requires capacity > 0 && x !in all
    ensures Touched(capacity, Newest(all, capacity), x) == Newest(all + [x], capacity)
    ensures Without(all, x) == all
  {
    hide NoRepeats, Without;
    var newest := Newest(all, capacity);
    assert forall y :: y in newest ==> y in all;
    if |all| >= capacity {
      assert newest == all[|all| - capacity..];
      assert (all + [x])[|all| - capacity + 1..] == newest[1..] + [x];
    }
  }

  lemma TouchKept<T>(all: seq<T>, drop: nat, i: nat)
    requires NoRepeats(all) && drop <= i < |all|
    ensures all[i] in all[drop..]
    ensures |Without(all, all[i])| == |all| - 1
    ensures Without(all[drop..], all[i]) + [all[i]] == (Without(all, all[i]) + [all[i]])[drop..]
  {
    hide NoRepeats, Without;
    var kept, x := all[drop..], all[i];
    assert kept[i - drop] == x;
    DistinctTail(all, drop, i);
    WithoutAt(all, i, x);
    WithoutAt(kept, i - drop, x);
    CutFront(all, drop, i);
    DropFront(all[..i] + all[i + 1..], [x], drop);
  }

  lemma CutFront<T>(all: seq<T>, drop: nat, i: nat)
    requires drop <= i < |all|
    ensures (all[..i] + all[i + 1..])[drop..] == all[drop..][..i - drop] + all[drop..][i - drop + 1..]
  {
    DropFront(all[..i], all[i + 1..], drop);
  }

  lemma DropFront<T>(a: seq<T>, b: seq<T>, drop: nat)
    requires drop <= |a|
    ensures (a + b)[drop..] == a[drop..] + b
  {
  }

  lemma TouchEvicted<T>(all: seq<T>, drop: nat, i: nat)
    requires NoRepeats(all) && i < drop < |all|
    ensures all[i] !in all[drop..]
    ensures |Without(all, all[i])| == |all| - 1
    ensures all[drop..][1..] + [all[i]] == (Without(all, all[i]) + [all[i]])[drop..]
  {
    var x := all[i];
    WithoutAt(all, i, x);
    hide Without;
    assert all[drop..][1..] == all[drop + 1..];
    assert (all[..i] + all[i + 1..] + [x])[drop..] == all[drop + 1..] + [x];
  }

  /** Moving an entry to the end keeps what lies behind another entry, plus the moved one. */
  lemma BehindAfterMove<T>(all: seq<T>, j: nat, last: T) returns (i: nat)
    requires NoRepeats(all) && j < |all| && all[j] != last
    ensures var moved := Without(all, last) + [last];
      i < |moved| && moved[i] == all[j] && Elements(moved[i + 1..]) == Elements(all[j + 1..]) + {last}
  {
    hide NoRepeats, Without;
    var moved := Without(all, last) + [last];
    if m :| 0 <= m < |all| && all[m] == last {
      WithoutAt(all, m, last);
      if m < j {
        i := j - 1;
        assert moved[i + 1..] == all[j + 1..] + [last];
      } else {
        i := j;
        var left, right := all[j + 1..m], all[m + 1..];
        assert moved[i + 1..] == left + right + [last];
        assert all[j + 1..] == left + [last] + right;
      }
    } else {
      i := j;
      assert moved[i + 1..] == all[j + 1..] + [last];
    }
  }

  /** The entries after x in last-use order are exactly the ids touched since. */
  lemma {:induction false} TouchedSince<T>(calls: seq<T>, x: T) returns (i: nat)
    requires x in calls
    ensures i < |ByLastUse(calls)| && ByLastUse(calls)[i] == x
    ensures Elements(ByLastUse(calls)[i + 1..]) == Elements(calls[LastUse(calls, x) + 1..])
    decreases |calls|
  {
    hide Without, NoRepeats;
    var n := |calls| - 1;
    var before, last := calls[..n], calls[n];
    var all := ByLastUse(before);
    assert ByLastUse(calls) == Without(all, last) + [last];
    if last == x {
      i := |Without(all, last)|;
      assert ByLastUse(calls)[i + 1..] == [] == calls[n + 1..];
    } else {
      assert calls == before + [last];
      var k := LastUse(before, x);
      ByLastUseDistinct(before);
      var j := TouchedSince(before, x);
      i := BehindAfterMove(all, j, last);
      ElementsAppend(before[k + 1..], last);
      assert calls[k + 1..] == before[k + 1..] + [last];
    }
  }

  lemma ElementsAppend<T>(s: seq<T>, x: T)
    ensures Elements(s + [x]) == Elements(s) + {x}
  {
  }

  lemma {:induction false} DistinctSize<T>(s: seq<T>)
    requires NoRepeats(s)
    ensures |Elements(s)| == |s|
  {
    if s != [] {
      assert s == [s[0]] + s[1..];
      assert s[0] !in s[1..];
      assert Elements(s) == {s[0]} + Elements(s[1..]);
      DistinctSize(s[1..]);
    }
  }

  lemma NewestKeeps<T>(all: seq<T>, i: nat, capacity: nat)
    requires NoRepeats(all) && i < |all|
    ensures all[i] in Newest(all, capacity) <==> |all| - i <= capacity
  {
    if capacity < |all| {
      var newest := all[|all| - capacity..];
      if |all| - i <= capacity {
        assert newest[i - (|all| - capacity)] == all[i];
      }
    }
  }

  /** The bounded cache gives the answer of the full history. */
  lemma CacheDecides<T>(capacity: nat, calls: seq<T>, x: T)
    requires capacity > 0
    ensures x !in CacheAfter(capacity, calls) <==> Fresh(capacity, calls, x)
  {
    CacheIsNewest(capacity, calls);
    ByLastUseDistinct(calls);
    var all := ByLastUse(calls);
    if x in calls {
      var i := TouchedSince(calls, x);
      DistinctSize(all[i + 1..]);
      NewestKeeps(all, i, capacity);
    } else {
      assert forall y :: y in Newest(all, capacity) ==> y in all;
    }
  }
}
