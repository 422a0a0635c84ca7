/** `std::set<Observer*>`: a set of observer addresses, iterated in increasing address order.
    It is represented by the strictly increasing sequence of its elements. */
module AddressSet {
  predicate Ordered(s: seq<nat>)
  {
    forall i, j :: 0 <= i < j < |s| ==> s[i] < s[j]
  }

  /** `insert(x)`: the new set and whether `x` was inserted (it was not already present). */
  function Insert(s: seq<nat>, x: nat): (r: (seq<nat>, bool))
    requires Ordered(s)
    ensures Ordered(r.0)
    ensures r.1 <==> x !in s
    ensures forall y :: y in r.0 <==> y in s || y == x
    ensures |r.0| == if r.1 then |s| + 1 else |s|
    ensures !r.1 ==> r.0 == s
  {
    if s == [] then ([x], true)
    else if x < s[0] then ([x] + s, true)
    else if x == s[0] then (s, false)
    else
      var rest := Insert(s[1..], x);
      ([s[0]] + rest.0, rest.1)
  }

  /** `erase(x)`: the new set and the number of elements removed (0 or 1). */
  function Erase(s: seq<nat>, x: nat): (r: (seq<nat>, nat))
    requires Ordered(s)
    ensures Ordered(r.0)
    ensures r.1 == if x in s then 1 else 0
    ensures forall y :: y in r.0 <==> y in s && y != x
    ensures |r.0| == |s| - r.1
    ensures r.1 == 0 ==> r.0 == s
  {
    if s == [] then ([], 0)
    else if x < s[0] then (s, 0)
    else if x == s[0] then (s[1..], 1)
    else
      var rest := Erase(s[1..], x);
      assert s == [s[0]] + s[1..];
      assert forall i :: 0 <= i < |rest.0| ==> s[0] < rest.0[i] by {
        forall i | 0 <= i < |rest.0| ensures s[0] < rest.0[i] {
          assert rest.0[i] in s[1..];
        }
      }
      ([s[0]] + rest.0, rest.1)
  }

  /** Inserting an address that was absent and erasing it again gives back the original set. */
  lemma {:induction false} EraseUndoesInsert(s: seq<nat>, x: nat)
    requires Ordered(s) && x !in s
    ensures Erase(Insert(s, x).0, x) == (s, 1)
  {
    if s == [] {
      assert [x][1..] == [];
    } else if x < s[0] {
      assert ([x] + s)[1..] == s;
    } else {
      var rest := Insert(s[1..], x).0;
      assert ([s[0]] + rest)[1..] == rest;
      EraseUndoesInsert(s[1..], x);
      assert [s[0]] + s[1..] == s;
    }
  }

  /** Erasing a present address and inserting it again gives back the original set. */
  lemma {:induction false} InsertUndoesErase(s: seq<nat>, x: nat)
    requires Ordered(s) && x in s
    ensures Insert(Erase(s, x).0, x) == (s, true)
  {
    if x == s[0] {
      assert Erase(s, x) == (s[1..], 1);
      if |s| > 1 {
        assert s[1..][0] == s[1] && s[0] < s[1];
      } else {
        assert s[1..] == [] && [x] + [] == [x];
      }
      assert Insert(s[1..], x) == ([x] + s[1..], true);
      assert [x] + s[1..] == s;
    } else {
      var rest := Erase(s[1..], x).0;
      assert ([s[0]] + rest)[1..] == rest;
      InsertUndoesErase(s[1..], x);
      assert [s[0]] + s[1..] == s;
    }
  }
}
