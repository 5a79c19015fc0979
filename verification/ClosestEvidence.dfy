/**
 * When the lookup of exception_evidence (errors.py) returns the closest value, as its documentation
 * promises, whatever objects carry one: for exceptions that are wrapped at most once.
 */
module ClosestEvidence {
  import opened Wrappers
  import opened Reporting

  // ---------------------------------------------------------------- shapes and placements

  /** The same objects and links; only the values they carry may differ. */
  predicate SameShape(store: Store, other: Store) {
    |other| == |store| && forall i :: 0 <= i < |store| ==> other[i] == store[i].(runs := other[i].runs)
  }

  lemma SameNested(store: Store, other: Store)
    requires Linked(store) && SameShape(store, other)
    ensures Linked(other)
    ensures forall e :: 0 <= e < |store| ==> Nested(other, e) == Nested(store, e)
  {
  }

  /** A rank that falls along the links, and the one object that wraps each object. */
  datatype Tree = Tree(rank: nat -> nat, wrapper: nat -> nat)

  ghost predicate Shows(t: Tree, store: Store)
    requires Linked(store)
  {
    forall e, x {:trigger x in Nested(store, e)} ::
      0 <= e < |store| && x in Nested(store, e) ==> t.rank(x) < t.rank(e) && t.wrapper(x) == e
  }

  /** Cancellations wrap each other without cycles, and none is wrapped by two others. */
  ghost predicate TreeShaped(store: Store)
    requires Linked(store)
  {
    exists t: Tree :: Shows(t, store)
  }

  ghost predicate Hop(store: Store, path: seq<nat>, k: int)
    requires Linked(store)
  {
    0 < k < |path| && path[k - 1] < |store| && path[k] in Nested(store, path[k - 1])
  }

  /** A way from one cancellation to another, whatever the objects on it carry. */
  ghost predicate Trail(store: Store, path: seq<nat>)
    requires Linked(store)
  {
    path != [] && path[0] < |store| && forall k :: 0 < k < |path| ==> Hop(store, path, k)
  }

  lemma {:induction false} TrailFalls(store: Store, t: Tree, path: seq<nat>, i: nat, j: nat)
    requires Linked(store) && Shows(t, store) && Trail(store, path) && i <= j < |path|
    ensures path[j] < |store| && t.rank(path[j]) <= t.rank(path[i])
    ensures i < j ==> t.rank(path[j]) < t.rank(path[i])
    decreases j
  {
    assert j > 0 ==> Hop(store, path, j);
    if i < j {
      TrailFalls(store, t, path, i, j - 1);
    }
  }

  lemma TrailFront(store: Store, path: seq<nat>)
    requires Linked(store) && Trail(store, path) && |path| > 1
    ensures var front := path[..|path| - 1];
      Trail(store, front) && Last(front) < |store| && Last(path) in Nested(store, Last(front))
  {
    var front := path[..|path| - 1];
    assert Hop(store, path, |path| - 1);
    forall k | 0 < k < |front| ensures Hop(store, front, k) {
      assert Hop(store, path, k);
    }
  }

  lemma TrailRest(store: Store, path: seq<nat>)
    requires Linked(store) && Trail(store, path) && |path| > 1
    ensures Trail(store, path[1..])
  {
    var rest := path[1..];
    assert Hop(store, path, 1);
    forall k | 0 < k < |rest| ensures Hop(store, rest, k) {
      assert Hop(store, path, k + 1);
    }
  }

  lemma TrailFrom(store: Store, e: nat, path: seq<nat>)
    requires Linked(store) && e < |store| && Trail(store, path) && path[0] in Nested(store, e)
    ensures Trail(store, [e] + path) && ([e] + path)[0] == e && Last([e] + path) == Last(path)
  {
    forall k | 0 < k <= |path| ensures Hop(store, [e] + path, k) {
      assert k > 1 ==> Hop(store, path, k - 1);
    }
  }

  lemma TrailOn(store: Store, path: seq<nat>, x: nat)
    requires Linked(store) && Trail(store, path) && Last(path) < |store| && x in Nested(store, Last(path))
    ensures Trail(store, path + [x])
  {
    forall k | 0 < k <= |path| ensures Hop(store, path + [x], k) {
      assert k < |path| ==> Hop(store, path, k);
    }
  }

  lemma {:induction false} PathIsTrail(store: Store, path: seq<nat>)
    requires Linked(store) && Path(store, path)
    ensures Trail(store, path)
  {
    if |path| > 1 {
      PathIsTrail(store, path[1..]);
      TrailFrom(store, path[0], path[1..]);
      assert [path[0]] + path[1..] == path;
    }
  }

  lemma {:induction false} TrailIsPath(store: Store, path: seq<nat>)
    requires Linked(store) && Trail(store, path)
    requires forall k :: 0 <= k < |path| - 1 ==> path[k] < |store| && store[path[k]].runs.None?
    ensures Path(store, path)
  {
    if |path| > 1 {
      assert Hop(store, path, 1);
      TrailRest(store, path);
      TrailIsPath(store, path[1..]);
    }
  }

  /** In a tree there is one way from an object to another. */
  lemma {:induction false} OneTrail(store: Store, t: Tree, one: seq<nat>, two: seq<nat>)
    requires Linked(store) && Shows(t, store)
    requires Trail(store, one) && Trail(store, two) && one[0] == two[0] && Last(one) == Last(two)
    ensures |one| == |two|
    decreases |one|
  {
    TrailFalls(store, t, one, 0, |one| - 1);
    TrailFalls(store, t, two, 0, |two| - 1);
    if |one| > 1 && |two| > 1 {
      TrailFront(store, one);
      TrailFront(store, two);
      OneTrail(store, t, one[..|one| - 1], two[..|two| - 1]);
    }
  }

  // ---------------------------------------------------------------- the condition

  /** A cancellation that wraps two different ones, whose cause wraps a further one. */
  predicate DeepFork(store: Store, b: nat)
    requires Linked(store) && b < |store|
  {
    var nested := Nested(store, b);
    |nested| == 2 && nested[0] != nested[1] && Nested(store, nested[1]) != []
  }

  ghost predicate LeadsToFork(store: Store, error: nat, path: seq<nat>)
    requires Linked(store)
  {
    Trail(store, path) && path[0] == error && Last(path) < |store| && DeepFork(store, Last(path))
  }

  ghost predicate MeetsDeepFork(store: Store, error: nat)
    requires Linked(store)
  {
    exists path :: LeadsToFork(store, error, path)
  }

  lemma NoDeepForkBelow(store: Store, e: nat, x: nat)
    requires Linked(store) && e < |store| && x in Nested(store, e) && MeetsDeepFork(store, x)
    ensures MeetsDeepFork(store, e)
  {
    var path :| LeadsToFork(store, x, path);
    TrailFrom(store, e, path);
    assert LeadsToFork(store, e, [e] + path);
  }

  /** If any value can be reached, the lookup returns one that no other is closer than. */
  ghost predicate Closest(store: Store, error: nat)
    requires Linked(store) && error < |store|
  {
    forall path, runs :: Carries(store, error, path, Some(runs)) ==> FoundWithin(store, error, |path|)
  }

  ghost predicate FoundWithin(store: Store, error: nat, length: nat)
    requires Linked(store) && error < |store|
  {
    && Evidence(store, error).Some?
    && exists best :: Carries(store, error, best, Evidence(store, error)) && |best| <= length
  }

  // ---------------------------------------------------------------- without deep forks

  /** Nothing that x leads to has been seen. */
  ghost predicate Unseen(store: Store, x: nat, seen: set<nat>)
    requires Linked(store)
  {
    forall path :: Trail(store, path) && path[0] == x ==> Last(path) !in seen
  }

  lemma UnseenBelow(store: Store, t: Tree, e: nat, x: nat, seen: set<nat>)
    requires Linked(store) && Shows(t, store) && e < |store| && x in Nested(store, e) && Unseen(store, e, seen)
    ensures Unseen(store, x, seen + {e})
  {
    forall path | Trail(store, path) && path[0] == x ensures Last(path) !in seen + {e} {
      TrailFalls(store, t, path, 0, |path| - 1);
      TrailFrom(store, e, path);
    }
  }

  lemma NoWayAcross(store: Store, t: Tree, e: nat, c: nat, path: seq<nat>)
    requires Linked(store) && Shows(t, store) && e < |store| && c in Nested(store, e)
    requires Trail(store, path) && path[0] in Nested(store, e) && path[0] != c
    ensures Last(path) != c
  {
    if |path| > 1 {
      TrailFront(store, path);
      TrailFalls(store, t, path[..|path| - 1], 0, |path| - 2);
    }
  }

  /** The two branches of a fork do not meet. */
  lemma UnseenBeside(store: Store, t: Tree, e: nat, x: nat, c: nat, seen: set<nat>)
    requires Linked(store) && Shows(t, store) && e < |store|
    requires x in Nested(store, e) && c in Nested(store, e) && x != c && Unseen(store, x, seen)
    ensures Unseen(store, x, seen + {c})
  {
    forall path | Trail(store, path) && path[0] == x ensures Last(path) !in seen + {c} {
      NoWayAcross(store, t, e, c, path);
    }
  }

  lemma {:induction false} AllSeen(store: Store, pending: seq<nat>, seen: set<nat>)
    requires Linked(store) && Inside(store, pending) && forall k :: 0 <= k < |pending| ==> pending[k] in seen
    ensures Search(store, pending, seen) == None
    decreases |pending|
  {
    if pending != [] {
      AllSeen(store, pending[..|pending| - 1], seen);
    }
  }

  /** Pending holds x and nothing else that is new. */
  predicate OnlyNew(pending: seq<nat>, x: nat, seen: set<nat>) {
    x in pending && x !in seen && forall k :: 0 <= k < |pending| ==> pending[k] == x || pending[k] in seen
  }

  predicate NoLonger(best: seq<nat>, found: Option<seq<nat>>, other: seq<nat>) {
    found.Some? && |best| <= |other|
  }

  ghost predicate Shortest(store: Store, x: nat, best: seq<nat>, found: Option<seq<nat>>)
    requires Linked(store)
  {
    && (found.Some? ==> Carries(store, x, best, found))
    && forall other, runs :: Carries(store, x, other, Some(runs)) ==> NoLonger(best, found, other)
  }

  lemma PathFrom(store: Store, e: nat, path: seq<nat>)
    requires Linked(store) && e < |store| && store[e].runs.None? && Path(store, path) && path[0] in Nested(store, e)
    ensures Path(store, [e] + path)
  {
    assert ([e] + path)[1..] == path;
  }

  lemma CarriesOn(store: Store, e: nat, x: nat, path: seq<nat>, runs: Option<seq<nat>>)
    requires Linked(store) && e < |store| && x in Nested(store, e) && store[e].runs.None?
    requires Carries(store, x, path, runs)
    ensures Carries(store, e, [e] + path, runs)
  {
    PathFrom(store, e, path);
  }

  lemma CarriesBack(store: Store, e: nat, path: seq<nat>, runs: seq<nat>)
    requires Linked(store) && e < |store| && store[e].runs.None? && Carries(store, e, path, Some(runs))
    ensures |path| > 1 && path[1] in Nested(store, e) && Carries(store, path[1], path[1..], Some(runs))
  {
  }

  predicate Leaf(store: Store, e: nat)
    requires Linked(store)
  {
    e < |store| && store[e].runs.None? && Nested(store, e) == []
  }

  lemma LeafCarriesNothing(store: Store, e: nat, path: seq<nat>, runs: seq<nat>)
    requires Linked(store) && Leaf(store, e)
    ensures !Carries(store, e, path, Some(runs))
  {
    if Carries(store, e, path, Some(runs)) {
      CarriesBack(store, e, path, runs);
    }
  }

  /** All values that e leads to lie behind x. */
  lemma ShortestThrough(store: Store, e: nat, x: nat, best: seq<nat>, found: Option<seq<nat>>)
    requires Linked(store) && e < |store| && x in Nested(store, e) && store[e].runs.None?
    requires Shortest(store, x, best, found)
    requires forall y :: y in Nested(store, e) && y != x ==> Leaf(store, y)
    ensures Shortest(store, e, [e] + best, found)
  {
    if found.Some? {
      CarriesOn(store, e, x, best, found);
    }
    forall other, runs | Carries(store, e, other, Some(runs)) ensures NoLonger([e] + best, found, other) {
      CarriesBack(store, e, other, runs);
      if other[1] != x {
        LeafCarriesNothing(store, other[1], other[1..], runs);
      } else {
        assert NoLonger(best, found, other[1..]);
      }
    }
  }

  /** After x, the pending objects that are new are those that x wraps. */
  lemma OnlyNewBelow(rest: seq<nat>, x: nat, more: seq<nat>, y: nat, seen: set<nat>, later: set<nat>)
    requires OnlyNew(rest + [x], x, seen) && seen + {x} <= later && y in more && y !in later
    requires forall k :: 0 <= k < |more| ==> more[k] == y
    ensures OnlyNew(rest + more, y, later)
  {
    forall k | 0 <= k < |rest| ensures rest[k] in later {
      assert (rest + [x])[k] == rest[k];
    }
  }

  /** What the search knows when it takes x from the stack, with rest still pending. */
  ghost predicate AtSpine(store: Store, t: Tree, x: nat, rest: seq<nat>, seen: set<nat>)
    requires Linked(store)
  {
    && Shows(t, store) && !MeetsDeepFork(store, x)
    && x in Below(|store|) - seen && store[x].runs.None?
    && Inside(store, rest) && OnlyNew(rest + [x], x, seen) && Unseen(store, x, seen)
  }

  lemma SpineChild(store: Store, t: Tree, x: nat, rest: seq<nat>, seen: set<nat>, y: nat)
    requires Linked(store) && AtSpine(store, t, x, rest, seen) && y in Nested(store, x)
    ensures y < |store| && y !in seen + {x} && Unseen(store, y, seen + {x}) && !MeetsDeepFork(store, y)
  {
    UnseenBelow(store, t, x, y, seen);
    assert Trail(store, [y]);
    if MeetsDeepFork(store, y) {
      NoDeepForkBelow(store, x, y);
    }
  }

  /** Along contexts whose causes are leaves, the lookup visits the objects by distance. */
  lemma {:induction false} SpineSearch(store: Store, t: Tree, x: nat, pending: seq<nat>, seen: set<nat>)
    returns (best: seq<nat>)
    requires Linked(store) && Shows(t, store) && x < |store| && !MeetsDeepFork(store, x)
    requires Inside(store, pending) && OnlyNew(pending, x, seen) && Unseen(store, x, seen)
    ensures Shortest(store, x, best, Search(store, pending, seen))
    decreases Below(|store|) - seen, |pending| + 1
  {
    var rest, top := pending[..|pending| - 1], pending[|pending| - 1];
    assert pending == rest + [top];
    if top in seen {
      best := SpineSearch(store, t, x, rest, seen);
    } else if store[x].runs.Some? {
      best := [x];
    } else {
      assert x in Below(|store|) - seen;
      var children := Nested(store, x);
      if children == [] {
        AllSeen(store, rest + [], seen + {x});
        LeafShortest(store, x);
        best := [];
      } else if |children| == 1 || children[1] == children[0] {
        best := SpineLink(store, t, x, rest, seen);
      } else {
        best := SpineFork(store, t, x, rest, seen);
      }
    }
  }

  lemma LeafShortest(store: Store, x: nat)
    requires Linked(store) && Leaf(store, x)
    ensures Shortest(store, x, [], None)
  {
    forall other, runs ensures !Carries(store, x, other, Some(runs)) {
      LeafCarriesNothing(store, x, other, runs);
    }
  }

  lemma {:induction false} SpineLink(store: Store, t: Tree, x: nat, rest: seq<nat>, seen: set<nat>)
    returns (best: seq<nat>)
    requires Linked(store) && AtSpine(store, t, x, rest, seen)
    requires var children := Nested(store, x);
      children != [] && forall k :: 0 <= k < |children| ==> children[k] == children[0]
    ensures Shortest(store, x, best, Search(store, rest + Nested(store, x), seen + {x}))
    decreases Below(|store|) - seen, 0
  {
    var y := Nested(store, x)[0];
    SpineChild(store, t, x, rest, seen, y);
    OnlyNewBelow(rest, x, Nested(store, x), y, seen, seen + {x});
    var sub := SpineSearch(store, t, y, rest + Nested(store, x), seen + {x});
    ShortestThrough(store, x, y, sub, Search(store, rest + Nested(store, x), seen + {x}));
    best := [x] + sub;
  }

  /** A leaf on top of the stack is taken off. */
  lemma CauseFirst(store: Store, rest: seq<nat>, y: nat, c: nat, seen: set<nat>)
    requires Linked(store) && Inside(store, rest) && y < |store| && c < |store| && c !in seen && Nested(store, c) == []
    ensures Search(store, rest + [y, c], seen)
      == if store[c].runs.Some? then store[c].runs else Search(store, rest + [y], seen + {c})
  {
    assert (rest + [y, c])[..|rest| + 1] == rest + [y] == rest + [y] + [];
  }

  lemma ShortestAtOnce(store: Store, x: nat, c: nat)
    requires Linked(store) && x < |store| && c in Nested(store, x) && store[x].runs.None? && store[c].runs.Some?
    ensures Shortest(store, x, [x, c], store[c].runs)
  {
    assert Carries(store, c, [c], store[c].runs);
    CarriesOn(store, x, c, [c], store[c].runs);
    assert [x] + [c] == [x, c];
    forall other, runs | Carries(store, x, other, Some(runs)) ensures NoLonger([x, c], store[c].runs, other) {
      CarriesBack(store, x, other, runs);
    }
  }

  /** At a fork the cause is a leaf, and is visited before the context at the same distance. */
  lemma {:induction false} SpineFork(store: Store, t: Tree, x: nat, rest: seq<nat>, seen: set<nat>)
    returns (best: seq<nat>)
    requires Linked(store) && AtSpine(store, t, x, rest, seen)
    requires |Nested(store, x)| == 2 && Nested(store, x)[0] != Nested(store, x)[1]
    ensures Shortest(store, x, best, Search(store, rest + Nested(store, x), seen + {x}))
    decreases Below(|store|) - seen, 1
  {
    var y, c := Nested(store, x)[0], Nested(store, x)[1];
    SpineChild(store, t, x, rest, seen, c);
    NoForkAtOnce(store, x);
    assert Nested(store, x) == [y, c];
    CauseFirst(store, rest, y, c, seen + {x});
    if store[c].runs.Some? {
      ShortestAtOnce(store, x, c);
      best := [x, c];
    } else {
      best := SpineContext(store, t, x, rest, seen, y, c);
    }
  }

  /** The cause of the fork has been taken off the stack. */
  lemma {:induction false} SpineContext(
      store: Store, t: Tree, x: nat, rest: seq<nat>, seen: set<nat>, y: nat, c: nat)
    returns (best: seq<nat>)
    requires Linked(store) && AtSpine(store, t, x, rest, seen)
    requires Nested(store, x) == [y, c] && y != c && Leaf(store, c)
    ensures y < |store| && Shortest(store, x, best, Search(store, rest + [y], seen + {x} + {c}))
    decreases Below(|store|) - seen, 0
  {
    var now := seen + {x};
    assert [y, c][0] == y && [y, c][1] == c;
    SpineChild(store, t, x, rest, seen, y);
    UnseenBeside(store, t, x, y, c, now);
    assert Trail(store, [y]);
    OnlyNewBelow(rest, x, [y], y, seen, now + {c});
    var sub := SpineSearch(store, t, y, rest + [y], now + {c});
    ShortestThrough(store, x, y, sub, Search(store, rest + [y], now + {c}));
    best := [x] + sub;
  }

  lemma NoForkAtOnce(store: Store, x: nat)
    requires Linked(store) && x < |store| && !MeetsDeepFork(store, x)
    ensures !DeepFork(store, x)
  {
    assert Trail(store, [x]) && Last([x]) == x;
    assert DeepFork(store, x) ==> LeadsToFork(store, x, [x]);
  }

  lemma SpineIsClosest(store: Store, error: nat)
    requires Linked(store) && TreeShaped(store) && error < |store| && !MeetsDeepFork(store, error)
    ensures Closest(store, error)
  {
    var t: Tree :| Shows(t, store);
    var best := SpineSearch(store, t, error, [error], {});
    forall path, runs | Carries(store, error, path, Some(runs)) ensures FoundWithin(store, error, |path|) {
      assert NoLonger(best, Evidence(store, error), path);
    }
  }

  // ---------------------------------------------------------------- with a deep fork

  /** One value at the context of the fork, another one behind its cause. */
  function Placed(store: Store, x: nat, d: nat): (other: Store)
    ensures SameShape(store, other)
  {
    seq(|store|, i requires 0 <= i < |store| =>
      store[i].(runs := if i == x then Some([0]) else if i == d then Some([1]) else None))
  }

  lemma PlacedThere(store: Store, x: nat, d: nat)
    requires x < |store| && d < |store| && x != d
    ensures var other := Placed(store, x, d);
      OnlyThere(other, x, d) && other[x].runs == Some([0]) && other[d].runs == Some([1])
  {
  }

  /** The fork b with its context x, its cause c, and the last object d that c wraps. */
  predicate ForkAt(store: Store, b: nat, x: nat, c: nat, d: nat)
    requires Linked(store)
  {
    && b < |store| && c < |store| && d < |store| && Nested(store, b) == [x, c] && x != c
    && Nested(store, c) != [] && d == Last(Nested(store, c))
  }

  lemma ForkLinks(store: Store, b: nat, x: nat, c: nat, d: nat)
    requires Linked(store) && ForkAt(store, b, x, c, d)
    ensures x < |store| && x in Nested(store, b) && c in Nested(store, b) && d in Nested(store, c)
  {
    assert x == Nested(store, b)[0] && c == Nested(store, b)[1];
  }

  /** The objects of a fork in a tree are different. */
  lemma ForkIsProper(store: Store, t: Tree, b: nat, x: nat, c: nat, d: nat)
    requires Linked(store) && Shows(t, store) && ForkAt(store, b, x, c, d)
    ensures t.rank(x) < t.rank(b) && t.rank(d) < t.rank(c) < t.rank(b) && d != x
  {
    ForkLinks(store, b, x, c, d);
  }

  predicate Apart(pending: seq<nat>, x: nat, c: nat, d: nat) {
    forall k :: 0 <= k < |pending| ==> pending[k] != x && pending[k] != c && pending[k] != d
  }

  lemma ElsewhereApart(store: Store, t: Tree, b: nat, x: nat, c: nat, d: nat, rest: seq<nat>, e: nat)
    requires Linked(store) && Shows(t, store) && ForkAt(store, b, x, c, d)
    requires Apart(rest, x, c, d) && e < |store| && e != b && e != c
    ensures Apart(rest + Nested(store, e), x, c, d)
  {
    ForkLinks(store, b, x, c, d);
    forall k | 0 <= k < |Nested(store, e)|
      ensures var i := Nested(store, e)[k]; i != x && i != c && i != d
    {
      assert Nested(store, e)[k] in Nested(store, e);
    }
  }

  /** Only the context of the fork and the deep object carry values. */
  predicate OnlyThere(store: Store, x: nat, d: nat) {
    forall i :: 0 <= i < |store| ==> (store[i].runs.Some? <==> i == x || i == d)
  }

  /** Behind the fork lies its cause, and behind that the deep value. */
  lemma ForkSearch(store: Store, b: nat, x: nat, c: nat, d: nat, rest: seq<nat>, seen: set<nat>)
    requires Linked(store) && ForkAt(store, b, x, c, d) && OnlyThere(store, x, d) && Inside(store, rest)
    requires c !in seen && d !in seen && c != d
    ensures Search(store, rest + Nested(store, b), seen) == store[d].runs
  {
    ForkLinks(store, b, x, c, d);
    var more := Nested(store, c);
    assert (rest + [x, c])[..|rest| + 1] == rest + [x];
    assert (rest + [x] + more)[|rest| + |more|] == d;
    assert Search(store, rest + [x] + more, seen + {c}) == store[d].runs;
  }

  /** Before the fork is visited, the lookup can find nothing; afterwards it finds the deeper value. */
  lemma {:induction false} DeepValueFirst(
      store: Store, t: Tree, b: nat, x: nat, c: nat, d: nat, pending: seq<nat>, seen: set<nat>)
    requires Linked(store) && Shows(t, store) && ForkAt(store, b, x, c, d) && OnlyThere(store, x, d)
    requires b != c && b != d && c != d && c !in seen && d !in seen
    requires Inside(store, pending) && Apart(pending, x, c, d) && Search(store, pending, seen).Some?
    ensures Search(store, pending, seen) == store[d].runs
    decreases Below(|store|) - seen, |pending|
  {
    var rest, e := pending[..|pending| - 1], pending[|pending| - 1];
    if e in seen {
      DeepValueFirst(store, t, b, x, c, d, rest, seen);
    } else {
      assert e in Below(|store|) - seen;
      if e == b {
        ForkSearch(store, b, x, c, d, rest, seen + {b});
      } else {
        ElsewhereApart(store, t, b, x, c, d, rest, e);
        DeepValueFirst(store, t, b, x, c, d, rest + Nested(store, e), seen + {e});
      }
    }
  }

  /** A way to an object ends with the link from the one object that wraps it. */
  lemma OneMore(store: Store, t: Tree, trail: seq<nat>, d: nat, far: seq<nat>)
    requires Linked(store) && Shows(t, store)
    requires Trail(store, trail) && Last(trail) < |store| && d in Nested(store, Last(trail))
    requires Trail(store, far) && far[0] == trail[0] && Last(far) == d
    ensures |far| == |trail| + 1
  {
    TrailOn(store, trail, d);
    OneTrail(store, t, far, trail + [d]);
  }

  /** Every way to the deeper value is longer than the one to the context. */
  lemma DeepIsFar(store: Store, t: Tree, trail: seq<nat>, c: nat, d: nat, far: seq<nat>)
    requires Linked(store) && Shows(t, store) && Trail(store, trail) && Last(trail) < |store|
    requires c in Nested(store, Last(trail)) && d in Nested(store, c)
    requires Trail(store, far) && far[0] == trail[0] && Last(far) == d
    ensures |far| == |trail| + 2
  {
    TrailOn(store, trail, c);
    var longer := trail + [c];
    assert longer[0] == trail[0] && Last(longer) == c;
    OneMore(store, t, longer, d, far);
  }

  /** The value at the context of the fork can be reached on the trail. */
  lemma NearValue(store: Store, t: Tree, trail: seq<nat>, x: nat, c: nat, d: nat)
    requires Linked(store) && Shows(t, store) && OnlyThere(store, x, d)
    requires Trail(store, trail) && Last(trail) < |store| && ForkAt(store, Last(trail), x, c, d)
    ensures x < |store| && Carries(store, trail[0], trail + [x], store[x].runs)
  {
    ForkLinks(store, Last(trail), x, c, d);
    ForkIsProper(store, t, Last(trail), x, c, d);
    TrailOn(store, trail, x);
    forall k | 0 <= k < |trail| ensures trail[k] < |store| && store[trail[k]].runs.None? {
      TrailFalls(store, t, trail, 0, k);
      TrailFalls(store, t, trail, k, |trail| - 1);
    }
    TrailIsPath(store, trail + [x]);
  }

  /** The lookup returns the value that lies deeper. */
  lemma DeepValueWins(store: Store, t: Tree, trail: seq<nat>, x: nat, c: nat, d: nat)
    requires Linked(store) && Shows(t, store) && OnlyThere(store, x, d)
    requires Trail(store, trail) && Last(trail) < |store| && ForkAt(store, Last(trail), x, c, d)
    requires trail[0] < |store| && SomethingCarried(store, trail[0])
    ensures Evidence(store, trail[0]) == store[d].runs
  {
    ForkIsProper(store, t, Last(trail), x, c, d);
    TrailFalls(store, t, trail, 0, |trail| - 1);
    EvidenceExactlyWhen(store, trail[0]);
    DeepValueFirst(store, t, Last(trail), x, c, d, [trail[0]], {});
  }

  lemma Misled(store: Store, t: Tree, trail: seq<nat>, x: nat, c: nat, d: nat)
    requires Linked(store) && Shows(t, store) && OnlyThere(store, x, d)
    requires Trail(store, trail) && Last(trail) < |store| && ForkAt(store, Last(trail), x, c, d)
    requires x < |store| && store[x].runs == Some([0]) && store[d].runs == Some([1])
    ensures trail[0] < |store| && !Closest(store, trail[0])
  {
    var near := trail + [x];
    NearValue(store, t, trail, x, c, d);
    assert SomethingCarried(store, trail[0]) by {
      assert Carries(store, trail[0], near, Some([0]));
    }
    DeepValueWins(store, t, trail, x, c, d);
    forall best | Carries(store, trail[0], best, Some([1])) ensures |best| > |near| {
      PathIsTrail(store, best);
      assert Last(best) == d;
      ForkLinks(store, Last(trail), x, c, d);
      DeepIsFar(store, t, trail, c, d, best);
    }
    assert !FoundWithin(store, trail[0], |near|);
  }

  // ---------------------------------------------------------------- the theorem

  /** The lookup returns a closest value, whichever of the objects carry one. */
  ghost predicate AlwaysClosest(store: Store, error: nat)
    requires Linked(store) && error < |store|
  {
    forall other :: SameShape(store, other) && Linked(other) ==> Closest(other, error)
  }

  lemma SameTree(store: Store, other: Store, t: Tree)
    requires Linked(store) && SameShape(store, other) && Shows(t, store)
    ensures Linked(other) && Shows(t, other)
  {
    SameNested(store, other);
  }

  lemma SameTrail(store: Store, other: Store, path: seq<nat>)
    requires Linked(store) && SameShape(store, other) && Linked(other) && Trail(store, path)
    ensures Trail(other, path)
  {
    SameNested(store, other);
    forall k | 0 < k < |path| ensures Hop(other, path, k) {
      assert Hop(store, path, k);
    }
  }

  lemma SameFork(store: Store, other: Store, b: nat, x: nat, c: nat, d: nat)
    requires Linked(store) && SameShape(store, other) && Linked(other) && ForkAt(store, b, x, c, d)
    ensures ForkAt(other, b, x, c, d)
  {
    SameNested(store, other);
  }

  lemma NoNewFork(store: Store, other: Store, error: nat)
    requires Linked(store) && SameShape(store, other) && Linked(other) && MeetsDeepFork(other, error)
    ensures MeetsDeepFork(store, error)
  {
    var path :| LeadsToFork(other, error, path);
    SameTrail(other, store, path);
    SameNested(store, other);
    assert LeadsToFork(store, error, path);
  }

  lemma DeepForkMisleads(store: Store, t: Tree, trail: seq<nat>, x: nat, c: nat, d: nat)
    requires Linked(store) && Shows(t, store)
    requires Trail(store, trail) && Last(trail) < |store| && ForkAt(store, Last(trail), x, c, d)
    ensures !AlwaysClosest(store, trail[0])
  {
    var other := Placed(store, x, d);
    SameTree(store, other, t);
    SameTrail(store, other, trail);
    SameFork(store, other, Last(trail), x, c, d);
    ForkLinks(store, Last(trail), x, c, d);
    ForkIsProper(store, t, Last(trail), x, c, d);
    PlacedThere(store, x, d);
    Misled(other, t, trail, x, c, d);
  }

  /**
   * On exceptions that are wrapped at most once the promise of the closest value holds, for every
   * placement of values, if and only if the error leads to no cancellation that wraps two different
   * ones and whose cause wraps a further one.
   */
  lemma ClosestExactlyWhen(store: Store, error: nat)
    requires Linked(store) && TreeShaped(store) && error < |store|
    ensures AlwaysClosest(store, error) <==> !MeetsDeepFork(store, error)
  {
    var t: Tree :| Shows(t, store);
    if MeetsDeepFork(store, error) {
      var trail :| LeadsToFork(store, error, trail);
      var nested := Nested(store, Last(trail));
      DeepForkMisleads(store, t, trail, nested[0], nested[1], Last(Nested(store, nested[1])));
    } else {
      forall other | SameShape(store, other) && Linked(other) ensures Closest(other, error) {
        SameTree(store, other, t);
        if MeetsDeepFork(other, error) {
          NoNewFork(store, other, error);
        }
        SpineIsClosest(other, error);
      }
    }
  }
}
