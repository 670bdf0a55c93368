/** What sort.Slice promises: an ascending rearrangement.  Insertion sort stands for the
    library's algorithm; `SortIsTheOnly` shows that the choice does not matter. */
module Sorting {

  ghost predicate Ascending<T>(s: seq<T>, key: T -> int) {
    forall i, j :: 0 <= i < j < |s| ==> key(s[i]) <= key(s[j])
  }

  function Insert<T>(x: T, s: seq<T>, key: T -> int): seq<T> {
    if s == [] || key(x) <= key(s[0]) then [x] + s else [s[0]] + Insert(x, s[1..], key)
  }

  function Sort<T>(s: seq<T>, key: T -> int): seq<T> {
    if s == [] then [] else Insert(s[0], Sort(s[1..], key), key)
  }

  lemma {:induction false} InsertElements<T>(x: T, s: seq<T>, key: T -> int)
    ensures multiset(Insert(x, s, key)) == multiset(s) + multiset{x}
  {
    if s != [] && key(x) > key(s[0]) {
      InsertElements(x, s[1..], key);
      assert s == [s[0]] + s[1..];
    }
  }

  lemma PrependAscending<T>(x: T, s: seq<T>, key: T -> int)
    requires Ascending(s, key) && forall y :: y in s ==> key(x) <= key(y)
    ensures Ascending([x] + s, key)
  {
    var t := [x] + s;
    forall i, j | 0 <= i < j < |t|
      ensures key(t[i]) <= key(t[j])
    {
      assert t[j] == s[j - 1] && s[j - 1] in s;
    }
  }

  lemma FirstIsLeast<T>(s: seq<T>, y: T, key: T -> int)
    requires Ascending(s, key) && y in s
    ensures key(s[0]) <= key(y)
  {
    var i :| 0 <= i < |s| && s[i] == y;
  }

  lemma {:induction false} InsertKeeps<T>(x: T, s: seq<T>, key: T -> int)
    requires Ascending(s, key)
    ensures Ascending(Insert(x, s, key), key)
  {
    if s == [] {
    } else if key(x) <= key(s[0]) {
      forall y | y in s
        ensures key(x) <= key(y)
      {
        FirstIsLeast(s, y, key);
      }
      PrependAscending(x, s, key);
    } else {
      var rest := Insert(x, s[1..], key);
      InsertKeeps(x, s[1..], key);
      InsertElements(x, s[1..], key);
      forall y | y in rest
        ensures key(s[0]) <= key(y)
      {
        assert y in multiset(rest);
        if y in s[1..] {
          FirstIsLeast(s, y, key);
        }
      }
      PrependAscending(s[0], rest, key);
    }
  }

  lemma {:induction false} SortKeeps<T>(s: seq<T>, key: T -> int)
    ensures Ascending(Sort(s, key), key)
    ensures multiset(Sort(s, key)) == multiset(s)
    ensures |Sort(s, key)| == |s|
  {
    if s != [] {
      SortKeeps(s[1..], key);
      InsertKeeps(s[0], Sort(s[1..], key), key);
      InsertElements(s[0], Sort(s[1..], key), key);
      assert s == [s[0]] + s[1..];
    }
    assert |multiset(Sort(s, key))| == |multiset(s)|;
  }

  lemma SameFirst<T>(s: seq<T>, t: seq<T>, key: T -> int)
    requires Ascending(s, key) && Ascending(t, key) && multiset(s) == multiset(t) && s != [] && t != []
    requires forall a, b :: a in t && b in t && key(a) == key(b) ==> a == b
    ensures s[0] == t[0]
  {
    assert s[0] in multiset(t) && t[0] in multiset(s);
    FirstIsLeast(s, t[0], key);
    FirstIsLeast(t, s[0], key);
  }

  lemma SameRest<T>(s: seq<T>, t: seq<T>)
    requires multiset(s) == multiset(t) && s != [] && t != [] && s[0] == t[0]
    ensures multiset(s[1..]) == multiset(t[1..])
  {
    assert s == [s[0]] + s[1..] && t == [t[0]] + t[1..];
    assert multiset(s[1..]) == multiset(s) - multiset{s[0]};
    assert multiset(t[1..]) == multiset(t) - multiset{t[0]};
  }

  lemma {:induction false} AscendingUnique<T>(s: seq<T>, t: seq<T>, key: T -> int)
    requires Ascending(s, key) && Ascending(t, key) && multiset(s) == multiset(t)
    requires forall a, b :: a in t && b in t && key(a) == key(b) ==> a == b
    ensures s == t
  {
    assert |multiset(s)| == |s| && |multiset(t)| == |t|;
    if s != [] {
      SameFirst(s, t, key);
      SameRest(s, t);
      AscendingUnique(s[1..], t[1..], key);
      assert s == [s[0]] + s[1..] && t == [t[0]] + t[1..];
    }
  }

  /** Any ascending rearrangement with distinguishable elements is the sorted sequence. */
  lemma SortIsTheOnly<T>(s: seq<T>, t: seq<T>, key: T -> int)
    requires Ascending(t, key) && multiset(s) == multiset(t)
    requires forall a, b :: a in t && b in t && key(a) == key(b) ==> a == b
    ensures Sort(s, key) == t
  {
    SortKeeps(s, key);
    AscendingUnique(Sort(s, key), t, key);
  }
}
