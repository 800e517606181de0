/**
 * Normalisation of a plugin's dependency list (the tail of GetPluginInfo in
 * Plugins.cs) and the comparison used to detect a real change
 * (CheckDependeniesChanged).
 *
 * Array.Sort orders strings with the default string comparer, which depends
 * on the current culture; the model takes it as a parameter `lt`, an
 * arbitrary strict total order on strings.
 */
module Dependencies {
  import opened Wrappers

  /** `lt` is irreflexive, transitive and relates every two distinct strings. */
  ghost predicate StrictTotalOrder(lt: (string, string) -> bool) {
    && (forall a :: !lt(a, a))
    && (forall a, b, c :: lt(a, b) && lt(b, c) ==> lt(a, c))
    && (forall a, b :: a != b ==> lt(a, b) || lt(b, a))
  }

  predicate NoDuplicates(s: seq<string>) {
    forall i, j :: 0 <= i < j < |s| ==> s[i] != s[j]
  }

  /** Every element is below every later one, so in particular no element repeats. */
  predicate StrictlyAscending(s: seq<string>, lt: (string, string) -> bool) {
    forall i, j :: 0 <= i < j < |s| ==> lt(s[i], s[j])
  }

  /** A missing (null) dependency list counts as the empty one. */
  function Items(deps: Option<seq<string>>): seq<string> {
    deps.GetOr([])
  }

  /** Enumerable.Distinct: the first occurrence of each element, in input order. */
  function Distinct(s: seq<string>): (r: seq<string>)
    ensures NoDuplicates(r)
    ensures forall x :: x in r <==> x in s
    decreases |s|
  {
    if s == [] then []
    else
      var init, last := s[..|s| - 1], s[|s| - 1];
      assert s == init + [last];
      var d := Distinct(init);
      if last in d then d else d + [last]
  }

  /** Places `x` in front of the first element that is not below it. */
  function Insert(x: string, s: seq<string>, lt: (string, string) -> bool): (r: seq<string>)
    ensures multiset(r) == multiset(s) + multiset{x}
  {
    if s == [] || !lt(s[0], x) then [x] + s
    else
      assert s == [s[0]] + s[1..];
      [s[0]] + Insert(x, s[1..], lt)
  }

  /**
   * Array.Sort. For a list without duplicates and a strict total order
   * there is exactly one ascending arrangement (AscendingUnique), so the
   * sorting algorithm does not matter; insertion is used here.
   */
  function Sort(s: seq<string>, lt: (string, string) -> bool): (r: seq<string>)
    ensures multiset(r) == multiset(s)
  {
    if s == [] then []
    else
      assert s == [s[0]] + s[1..];
      Insert(s[0], Sort(s[1..], lt), lt)
  }

  lemma {:induction false} InsertAscending(x: string, s: seq<string>, lt: (string, string) -> bool)
    requires StrictTotalOrder(lt)
    requires StrictlyAscending(s, lt) && x !in s
    ensures StrictlyAscending(Insert(x, s, lt), lt)
  {
    if s == [] || !lt(s[0], x) {
      if s != [] {
        assert x != s[0];
        assert lt(x, s[0]);
      }
    } else {
      InsertAscending(x, s[1..], lt);
      var t := Insert(x, s[1..], lt);
      forall y | y in t
        ensures lt(s[0], y)
      {
        assert y in multiset(t);
        if y != x {
          assert y in multiset(s[1..]);
          var j :| 0 <= j < |s[1..]| && s[1..][j] == y;
          assert s[j + 1] == y;
        }
      }
      assert Insert(x, s, lt) == [s[0]] + t;
    }
  }

  lemma {:induction false} SortAscending(s: seq<string>, lt: (string, string) -> bool)
    requires StrictTotalOrder(lt)
    requires NoDuplicates(s)
    ensures StrictlyAscending(Sort(s, lt), lt)
  {
    if s != [] {
      assert NoDuplicates(s[1..]);
      SortAscending(s[1..], lt);
      var t := Sort(s[1..], lt);
      assert s[0] !in s[1..];
      assert s[0] !in multiset(t);
      InsertAscending(s[0], t, lt);
    }
  }

  /** The head of an ascending list is below every other element of it. */
  lemma HeadIsLeast(s: seq<string>, x: string, lt: (string, string) -> bool)
    requires StrictlyAscending(s, lt) && x in s
    ensures x == s[0] || lt(s[0], x)
  {
    var i :| 0 <= i < |s| && s[i] == x;
    if i > 0 {
      assert lt(s[0], s[i]);
    }
  }

  /** Two ascending lists with the same elements are the same list. */
  lemma {:induction false} AscendingUnique(a: seq<string>, b: seq<string>, lt: (string, string) -> bool)
    requires StrictTotalOrder(lt)
    requires StrictlyAscending(a, lt) && StrictlyAscending(b, lt)
    requires forall x :: x in a <==> x in b
    ensures a == b
  {
    assert |a| > 0 ==> a[0] in b;
    assert |b| > 0 ==> b[0] in a;
    if a != [] && b != [] {
      HeadIsLeast(a, b[0], lt);
      HeadIsLeast(b, a[0], lt);
      assert a[0] == b[0];
      forall x
        ensures x in a[1..] <==> x in b[1..]
      {
        if x in a[1..] {
          var i :| 0 <= i < |a[1..]| && a[1..][i] == x;
          assert lt(a[0], a[i + 1]);
          assert x in a && x in b;
          var k :| 0 <= k < |b| && b[k] == x;
          assert k != 0;
          assert b[1..][k - 1] == x;
        }
        if x in b[1..] {
          var j :| 0 <= j < |b[1..]| && b[1..][j] == x;
          assert lt(b[0], b[j + 1]);
          assert x in b && x in a;
          var k :| 0 <= k < |a| && a[k] == x;
          assert k != 0;
          assert a[1..][k - 1] == x;
        }
      }
      AscendingUnique(a[1..], b[1..], lt);
      assert a == [a[0]] + a[1..] && b == [b[0]] + b[1..];
    }
  }

  /**
   * The normalisation in GetPluginInfo: a null list becomes empty, then
   * duplicates are dropped and the rest sorted ascending.
   */
  function Normalize(deps: Option<seq<string>>, lt: (string, string) -> bool): (r: seq<string>)
    requires StrictTotalOrder(lt)
    ensures StrictlyAscending(r, lt) && NoDuplicates(r)
    ensures forall x :: x in r <==> x in Items(deps)
  {
    var d := Distinct(Items(deps));
    SortAscending(d, lt);
    var r := Sort(d, lt);
    assert forall x :: x in r <==> x in multiset(d);
    r
  }

  /** Only the set of dependencies matters: input order and repetitions do not. */
  lemma NormalizeSetDeterministic(a: Option<seq<string>>, b: Option<seq<string>>, lt: (string, string) -> bool)
    requires StrictTotalOrder(lt)
    requires forall x :: x in Items(a) <==> x in Items(b)
    ensures Normalize(a, lt) == Normalize(b, lt)
  {
    AscendingUnique(Normalize(a, lt), Normalize(b, lt), lt);
  }

  /** An already normalised (ascending, duplicate-free) list is returned unchanged. */
  lemma NormalizeKeepsAscending(s: seq<string>, lt: (string, string) -> bool)
    requires StrictTotalOrder(lt)
    requires StrictlyAscending(s, lt)
    ensures Normalize(Some(s), lt) == s
  {
    AscendingUnique(Normalize(Some(s), lt), s, lt);
  }

  lemma NormalizeIdempotent(deps: Option<seq<string>>, lt: (string, string) -> bool)
    requires StrictTotalOrder(lt)
    ensures Normalize(Some(Normalize(deps, lt)), lt) == Normalize(deps, lt)
  {
    NormalizeKeepsAscending(Normalize(deps, lt), lt);
  }

  /** Enumerable.SequenceEqual: walks both lists together, element by element. */
  function SequenceEqual(a: seq<string>, b: seq<string>): (eq: bool)
    ensures eq <==> a == b
  {
    if a == [] || b == [] then a == [] && b == []
    else
      assert a == [a[0]] + a[1..] && b == [b[0]] + b[1..];
      a[0] == b[0] && SequenceEqual(a[1..], b[1..])
  }

  /**
   * CheckDependeniesChanged (spelled as in the source): the length test is a
   * shortcut, the answer is "not equal element by element".
   */
  function CheckDependeniesChanged(left: seq<string>, right: seq<string>): (changed: bool)
    ensures changed <==> left != right
  {
    if |left| != |right| then true
    else if SequenceEqual(left, right) then false
    else true
  }

  /**
   * Two normalised lists are reported as changed exactly when the dependency
   * sets they came from differ.
   */
  lemma NormalizedChangedIffSetsDiffer(a: Option<seq<string>>, b: Option<seq<string>>, lt: (string, string) -> bool)
    requires StrictTotalOrder(lt)
    ensures CheckDependeniesChanged(Normalize(a, lt), Normalize(b, lt))
            <==> !(forall x :: x in Items(a) <==> x in Items(b))
  {
    if forall x :: x in Items(a) <==> x in Items(b) {
      NormalizeSetDeterministic(a, b, lt);
    }
  }

  /** String.CompareOrdinal: lexicographic on character codes. */
  predicate OrdinalLess(a: string, b: string) {
    if a == [] then b != []
    else if b == [] then false
    else a[0] < b[0] || (a[0] == b[0] && OrdinalLess(a[1..], b[1..]))
  }

  lemma {:induction false} OrdinalIrreflexive(a: string)
    ensures !OrdinalLess(a, a)
  {
    if a != [] {
      OrdinalIrreflexive(a[1..]);
    }
  }

  lemma {:induction false} OrdinalTransitive(a: string, b: string, c: string)
    requires OrdinalLess(a, b) && OrdinalLess(b, c)
    ensures OrdinalLess(a, c)
  {
    if a != [] && a[0] == b[0] && b[0] == c[0] {
      OrdinalTransitive(a[1..], b[1..], c[1..]);
    }
  }

  lemma {:induction false} OrdinalConnected(a: string, b: string)
    requires a != b
    ensures OrdinalLess(a, b) || OrdinalLess(b, a)
  {
    if a != [] && b != [] && a[0] == b[0] {
      assert a == [a[0]] + a[1..] && b == [b[0]] + b[1..];
      OrdinalConnected(a[1..], b[1..]);
    }
  }

  /** The ordinal comparer is one of the orders the normalisation accepts. */
  lemma OrdinalIsStrictTotalOrder()
    ensures StrictTotalOrder(OrdinalLess)
  {
    forall a { OrdinalIrreflexive(a); }
    forall a, b, c | OrdinalLess(a, b) && OrdinalLess(b, c)
      ensures OrdinalLess(a, c)
    {
      OrdinalTransitive(a, b, c);
    }
    forall a, b | a != b
      ensures OrdinalLess(a, b) || OrdinalLess(b, a)
    {
      OrdinalConnected(a, b);
    }
  }

  /** A descriptor listing ["B", "A", "A"] is stored as ["A", "B"]. */
  lemma NormalizeExample()
    ensures StrictTotalOrder(OrdinalLess)
    ensures Normalize(Some(["B", "A", "A"]), OrdinalLess) == ["A", "B"]
  {
    OrdinalIsStrictTotalOrder();
    NormalizeSetDeterministic(Some(["B", "A", "A"]), Some(["A", "B"]), OrdinalLess);
    NormalizeKeepsAscending(["A", "B"], OrdinalLess);
  }
}
