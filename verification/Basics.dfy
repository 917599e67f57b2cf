/** Values shared by every part of the model: optional values, results that may
    be an error, the JSON contents carried by messages and rows, and sums over
    finite sets. */
module Basics {
  datatype Option<+T> = None | Some(value: T)

  datatype Result<+T, +E> = Ok(value: T) | Err(error: E)

  /** A decoded JSON value: the contents of bus messages and of JSONB columns. */
  datatype Json =
    | JNull
    | JBool(flag: bool)
    | JNum(num: real)
    | JStr(str: string)
    | JList(items: seq<Json>)
    | JObj(fields: Content)

  /** The `content` dictionary of a message. */
  type Content = map<string, Json>

  /** `dict.get(key)`, with None where the key is missing. */
  function Lookup<V>(m: map<string, V>, key: string): Option<V> {
    if key in m then Some(m[key]) else None
  }

  /** No two elements have the same key. */
  predicate DistinctKeys<T, K(==)>(key: T -> K, s: seq<T>) {
    forall i, j :: 0 <= i < j < |s| ==> key(s[i]) != key(s[j])
  }

  /** `dict.get(key)`, with the null value where the key is missing. */
  function ValueAt(c: Content, key: string): Json {
    if key in c then c[key] else JNull
  }

  /** `str(value)`; how numbers, lists and objects are rendered is not modelled. */
  function Str(j: Json): string {
    match j
    case JStr(s) => s
    case JBool(b) => if b then "True" else "False"
    case JNull => "None"
    case _ => "<value>"
  }
}

/** Selections from a list that keep its order. */
module Selections {

  /** The part holds the elements of the whole at these positions, in order. */
  ghost predicate Picks<T>(part: seq<T>, whole: seq<T>, positions: seq<int>) {
    && |part| == |positions|
    && (forall a, b :: 0 <= a < b < |positions| ==> positions[a] < positions[b])
    && (forall k :: 0 <= k < |positions| ==> 0 <= positions[k] < |whole| && part[k] == whole[positions[k]])
  }

  /** The positions are those wanted. */
  ghost predicate Exactly(positions: seq<int>, wanted: set<int>) {
    forall i :: i in positions <==> i in wanted
  }

  /** The part consists of the elements of the whole at the wanted positions, in order. */
  ghost predicate Selects<T>(part: seq<T>, whole: seq<T>, wanted: set<int>) {
    exists positions :: Picks(part, whole, positions) && Exactly(positions, wanted)
  }

  lemma NothingSelected<T>(wanted: set<int>)
    requires wanted == {}
    ensures Selects<T>([], [], wanted)
  {
    assert Picks<T>([], [], []) && Exactly([], wanted);
  }

  /** One element more at the end. */
  lemma SelectsNext<T>(part: seq<T>, whole: seq<T>, wanted: set<int>, x: T, now: set<int>)
    requires Selects(part, whole, wanted)
    requires now == wanted || now == wanted + {|whole|}
    requires |whole| !in wanted
    ensures Selects(if |whole| in now then part + [x] else part, whole + [x], now)
  {
    var positions :| Picks(part, whole, positions) && Exactly(positions, wanted);
    PicksNext(part, whole, positions, x);
    if |whole| in now {
      assert Exactly(positions + [|whole|], now);
    } else {
      assert Exactly(positions, now);
    }
  }

  lemma PicksNext<T>(part: seq<T>, whole: seq<T>, positions: seq<int>, x: T)
    requires Picks(part, whole, positions)
    ensures Picks(part, whole + [x], positions)
    ensures Picks(part + [x], whole + [x], positions + [|whole|])
  {
  }

  /** One element more at the front. */
  lemma SelectsBefore<T>(part: seq<T>, whole: seq<T>, wanted: set<int>, x: T, now: set<int>)
    requires Selects(part, whole, wanted)
    requires forall i :: i in now && i != 0 <==> i - 1 in wanted && i != 0
    requires -1 !in wanted
    ensures Selects(if 0 in now then [x] + part else part, [x] + whole, now)
  {
    var positions :| Picks(part, whole, positions) && Exactly(positions, wanted);
    PicksBefore(part, whole, positions, x);
    ExactlyMoved(positions, wanted, now);
  }

  function Moved(positions: seq<int>): seq<int> {
    seq(|positions|, k requires 0 <= k < |positions| => positions[k] + 1)
  }

  lemma PicksBefore<T>(part: seq<T>, whole: seq<T>, positions: seq<int>, x: T)
    requires Picks(part, whole, positions)
    ensures Picks(part, [x] + whole, Moved(positions))
    ensures Picks([x] + part, [x] + whole, [0] + Moved(positions))
  {
  }

  lemma ExactlyMoved(positions: seq<int>, wanted: set<int>, now: set<int>)
    requires Exactly(positions, wanted) && -1 !in wanted
    requires forall i :: i in now && i != 0 <==> i - 1 in wanted && i != 0
    ensures Exactly(if 0 in now then [0] + Moved(positions) else Moved(positions), now)
  {
    var moved := Moved(positions);
    forall i | true ensures i in moved <==> i - 1 in wanted {
      if i in moved {
        var k :| 0 <= k < |moved| && moved[k] == i;
        assert positions[k] in positions;
      }
      if i - 1 in positions {
        var k :| 0 <= k < |positions| && positions[k] == i - 1;
        assert moved[k] == i;
      }
    }
    assert forall i :: i in [0] + moved <==> i == 0 || i in moved;
  }
}

module Sums {
  /** The sum of f over a finite set. */
  ghost function Sum<T(!new)>(ids: set<T>, f: T -> nat): nat {
    if ids == {} then 0 else
      var x :| x in ids;
      f(x) + Sum(ids - {x}, f)
  }

  /** Any element may be taken out of the sum first. */
  lemma {:induction false} SumTakeOut<T(!new)>(ids: set<T>, f: T -> nat, y: T)
    requires y in ids
    ensures Sum(ids, f) == f(y) + Sum(ids - {y}, f)
    decreases ids
  {
    var x :| x in ids && Sum(ids, f) == f(x) + Sum(ids - {x}, f);
    if x != y {
      SumTakeOut(ids - {x}, f, y);
      SumTakeOut(ids - {y}, f, x);
      assert ids - {x} - {y} == ids - {y} - {x};
    }
  }

  lemma {:induction false} SumSame<T(!new)>(ids: set<T>, f: T -> nat, g: T -> nat)
    requires forall x :: x in ids ==> f(x) == g(x)
    ensures Sum(ids, f) == Sum(ids, g)
    decreases ids
  {
    if ids != {} {
      var x :| x in ids;
      SumTakeOut(ids, f, x);
      SumTakeOut(ids, g, x);
      SumSame(ids - {x}, f, g);
    }
  }

  /** Changing f at one element changes the sum by exactly that much. */
  lemma SumChange<T(!new)>(ids: set<T>, f: T -> nat, g: T -> nat, y: T)
    requires y in ids
    requires forall x :: x in ids && x != y ==> f(x) == g(x)
    ensures Sum(ids, g) + f(y) == Sum(ids, f) + g(y)
  {
    SumTakeOut(ids, f, y);
    SumTakeOut(ids, g, y);
    SumSame(ids - {y}, f, g);
  }

  /** The sum over a disjoint union is the sum of the sums. */
  lemma {:induction false} SumUnion<T(!new)>(a: set<T>, b: set<T>, f: T -> nat)
    requires a !! b
    ensures Sum(a + b, f) == Sum(a, f) + Sum(b, f)
    decreases a
  {
    if a == {} {
      assert a + b == b;
    } else {
      var x :| x in a;
      SumTakeOut(a + b, f, x);
      SumTakeOut(a, f, x);
      assert a + b - {x} == (a - {x}) + b;
      SumUnion(a - {x}, b, f);
    }
  }

  lemma {:induction false} SumBound<T(!new)>(ids: set<T>, f: T -> nat, k: nat)
    requires forall x :: x in ids ==> f(x) <= k
    ensures Sum(ids, f) <= k * |ids|
    decreases ids
  {
    if ids != {} {
      var x :| x in ids;
      SumTakeOut(ids, f, x);
      SumBound(ids - {x}, f, k);
      assert |ids| == |ids - {x}| + 1;
      assert k * (|ids - {x}| + 1) == k * |ids - {x}| + k;
    }
  }
}
