/**
 * The least-recently-used chain of a data group (packages/service-worker/worker/src/data.ts:20-224).
 *
 * The chain is a doubly linked list without object pointers: nodes live in a map keyed by URL,
 * and each node names its neighbours by URL, so the whole state is plain data that can be
 * persisted and reloaded.  This module holds the state as values, one function per mutator that
 * does what the source's statements do (including the TypeError the source raises when it
 * writes through a missing map entry), the invariant that ties a state to the ordered list of
 * URLs it encodes, the lemmas that the mutators keep that invariant, and the class `LruList`
 * whose methods perform the same updates in place.
 */
module Lru {
  import opened Optional

  // ---------------------------------------------------------------------------------------------
  // Sequences of URLs
  // ---------------------------------------------------------------------------------------------

  /** No URL occurs twice. */
  predicate Distinct(c: seq<string>) {
    forall i, j :: 0 <= i < j < |c| ==> c[i] != c[j]
  }

  /** The URL at position `i`, or `None` (the source's `null`) past either end. */
  function At(c: seq<string>, i: int): Option<string> {
    if 0 <= i < |c| then Some(c[i]) else None
  }

  /** `c` with every occurrence of `u` taken out, the order of the rest kept. */
  function Without(c: seq<string>, u: string): (r: seq<string>)
    ensures forall x :: x in r <==> x in c && x != u
    ensures |r| <= |c|
    ensures u !in c ==> r == c
    ensures Distinct(c) ==> Distinct(r)
    ensures Distinct(c) && u in c ==> |r| == |c| - 1
  {
    if c == [] then []
    else
      var rest := Without(c[1..], u);
      assert Distinct(c) ==> c[0] !in c[1..];
      assert u !in c ==> c == [c[0]] + c[1..];
      if c[0] == u then rest else [c[0]] + rest
  }

  /** `u` moved (or added) to the front of `c`: the order after `u` is accessed. */
  function Promote(c: seq<string>, u: string): seq<string> {
    [u] + Without(c, u)
  }

  /** `c` read from its last element back to its first. */
  function Reverse(c: seq<string>): seq<string> {
    if c == [] then [] else [c[|c| - 1]] + Reverse(c[..|c| - 1])
  }

  /** The set of URLs in `c`. */
  function Elems(c: seq<string>): set<string> {
    set x | x in c
  }

  lemma {:induction false} WithoutAt(c: seq<string>, k: int)
    requires Distinct(c) && 0 <= k < |c|
    ensures Without(c, c[k]) == c[..k] + c[k + 1..]
    decreases k
  {
    if k == 0 {
      assert c[0] !in c[1..];
      assert Without(c, c[0]) == Without(c[1..], c[0]);
    } else {
      var t := c[1..];
      assert Distinct(t);
      assert t[k - 1] == c[k];
      WithoutAt(t, k - 1);
      assert c[..k] == [c[0]] + t[..k - 1];
      assert c[k + 1..] == t[k..];
    }
  }

  /** Promoting the URL that is already first changes nothing. */
  lemma PromoteFirst(c: seq<string>)
    requires Distinct(c) && c != []
    ensures Promote(c, c[0]) == c
  {
    WithoutAt(c, 0);
  }

  /** Promoting keeps a list free of repetitions, adds `u` and nothing else. */
  lemma PromoteFacts(c: seq<string>, u: string)
    requires Distinct(c)
    ensures Distinct(Promote(c, u))
    ensures forall x :: x in Promote(c, u) <==> x == u || x in c
    ensures |Promote(c, u)| == if u in c then |c| else |c| + 1
  {
  }

  /** Dropping the last URL of a list without repetitions drops exactly that URL. */
  lemma DropLast(c: seq<string>)
    requires Distinct(c) && c != []
    ensures Distinct(c[..|c| - 1])
    ensures forall x :: x in c[..|c| - 1] <==> x in c && x != c[|c| - 1]
  {
    forall x | x in c && x != c[|c| - 1] ensures x in c[..|c| - 1] {
      var i :| 0 <= i < |c| && c[i] == x;
      assert c[..|c| - 1][i] == x;
    }
  }

  /** A list without repetitions has as many elements as its set. */
  lemma {:induction false} DistinctElems(c: seq<string>)
    requires Distinct(c)
    ensures |Elems(c)| == |c|
  {
    if c != [] {
      var t := c[1..];
      assert Distinct(t);
      DistinctElems(t);
      assert Elems(c) == {c[0]} + Elems(t);
      assert c[0] !in Elems(t);
    }
  }

  // ---------------------------------------------------------------------------------------------
  // State (data.ts:25-67)
  // ---------------------------------------------------------------------------------------------

  /** A node: the URL it tracks and its more recent (`previous`) and less recent (`next`) neighbours. */
  datatype LruNode = LruNode(url: string, previous: Option<string>, next: Option<string>)

  /** The serialisable state of a whole chain. */
  datatype LruState = LruState(head: Option<string>, tail: Option<string>, nodes: map<string, LruNode>, count: int)

  /**
   * What a mutator leaves behind: its return value and the new state, or `Threw` when the
   * source reads or writes a field of an `undefined` map entry and raises a TypeError.  A throw
   * keeps the updates made before it, so `Threw` carries the state as the throw leaves it.
   */
  datatype Step<T> = Done(value: T, state: LruState) | Threw(state: LruState)

  /** The step a method took: `Threw` when it reports a throw, `Done` with its value otherwise. */
  function Outcome<T>(threw: bool, value: T, s: LruState): Step<T> {
    if threw then Threw(s) else Done(value, s)
  }

  /** The state a chain starts in when nothing was persisted (data.ts:76-83). */
  const EmptyState := LruState(None, None, map[], 0)

  /**
   * The node of `c[i]` in `m` is the node of that URL and names the URLs next to `c[i]` in `c`
   * (its `previous` only when it is not the head: nothing reads the head's `previous` while it
   * is the head, and `accessed` leaves whatever it held).
   */
  ghost predicate NodeOk(m: map<string, LruNode>, c: seq<string>, i: int)
    requires 0 <= i < |c|
  {
    && c[i] in m
    && m[c[i]].url == c[i]
    && m[c[i]].next == At(c, i + 1)
    && (i > 0 ==> m[c[i]].previous == At(c, i - 1))
  }

  /**
   * `s` encodes the chain `c`, most recently used first: `head` and `tail` name its ends, every
   * URL of `c` has a node linking it to its neighbours, and `count` is its length.  The map may
   * hold further entries that are not linked into the chain.
   */
  ghost predicate Linked(s: LruState, c: seq<string>) {
    && s.count == |c|
    && Distinct(c)
    && (forall i | 0 <= i < |c| :: NodeOk(s.nodes, c, i))
    && s.head == At(c, 0)
    && s.tail == At(c, |c| - 1)
  }

  /** A node that kept its value and its neighbours at a new position is still in order there. */
  lemma NodeMoved(m: map<string, LruNode>, c: seq<string>, i: int, m': map<string, LruNode>, c': seq<string>, j: int)
    requires 0 <= i < |c| && 0 <= j < |c'| && NodeOk(m, c, i)
    requires c'[j] == c[i] && c[i] in m' && m'[c[i]] == m[c[i]]
    requires At(c', j + 1) == At(c, i + 1)
    requires j > 0 ==> i > 0 && At(c', j - 1) == At(c, i - 1)
    ensures NodeOk(m', c', j)
  {
  }

  /** `s` encodes `c` and has no entry for a URL outside the chain. */
  ghost predicate Tidy(s: LruState, c: seq<string>) {
    Linked(s, c) && forall u :: u in s.nodes ==> u in c
  }

  // ---------------------------------------------------------------------------------------------
  // Traversal
  // ---------------------------------------------------------------------------------------------

  /** The URLs met by following `next` from `start`, for at most `fuel` nodes. */
  function Walk(m: map<string, LruNode>, start: Option<string>, fuel: nat): seq<string>
    decreases fuel
  {
    if fuel == 0 || start.None? || start.value !in m then []
    else [start.value] + Walk(m, m[start.value].next, fuel - 1)
  }

  /** The URLs met by following `previous` from `start`, for at most `fuel` nodes. */
  function WalkBack(m: map<string, LruNode>, start: Option<string>, fuel: nat): seq<string>
    decreases fuel
  {
    if fuel == 0 || start.None? || start.value !in m then []
    else [start.value] + WalkBack(m, m[start.value].previous, fuel - 1)
  }

  /** The URLs met walking forward from `head` for `count` nodes. */
  function Chain(s: LruState): seq<string> {
    if s.count < 0 then [] else Walk(s.nodes, s.head, s.count)
  }

  lemma {:induction false} WalkFrom(s: LruState, c: seq<string>, k: int)
    requires Linked(s, c) && 0 <= k <= |c|
    ensures Walk(s.nodes, At(c, k), |c| - k) == c[k..]
    decreases |c| - k
  {
    if k < |c| {
      WalkFrom(s, c, k + 1);
      assert NodeOk(s.nodes, c, k);
      assert c[k..] == [c[k]] + c[k + 1..];
    }
  }

  /** Following `next` from `head` for `count` nodes reads the chain a state encodes. */
  lemma WalkForward(s: LruState, c: seq<string>)
    requires Linked(s, c)
    ensures s.count >= 0 && Walk(s.nodes, s.head, s.count) == c
    ensures Chain(s) == c
  {
    WalkFrom(s, c, 0);
  }

  /** So a state encodes at most one chain. */
  lemma LinkedUnique(s: LruState, c: seq<string>, d: seq<string>)
    requires Linked(s, c) && Linked(s, d)
    ensures c == d
  {
    WalkForward(s, c);
    WalkForward(s, d);
  }

  lemma {:induction false} WalkBackFrom(s: LruState, c: seq<string>, k: int)
    requires Linked(s, c) && 0 <= k <= |c|
    ensures WalkBack(s.nodes, At(c, k - 1), k) == Reverse(c[..k])
    decreases k
  {
    if k > 0 {
      WalkBackFrom(s, c, k - 1);
      assert c[..k][..k - 1] == c[..k - 1];
      assert NodeOk(s.nodes, c, k - 1);
    }
  }

  /** Following `previous` from `tail` for `count` nodes reads the same chain backwards. */
  lemma WalkBackward(s: LruState, c: seq<string>)
    requires Linked(s, c)
    ensures s.count >= 0 && WalkBack(s.nodes, s.tail, s.count) == Reverse(c)
  {
    WalkBackFrom(s, c, |c|);
    assert c[..|c|] == c;
  }

  /**
   * In a tidy state `count`, the number of nodes in the chain (data.ts:63-66), is also the number
   * of entries in the map.
   */
  lemma TidyCount(s: LruState, c: seq<string>)
    requires Tidy(s, c)
    ensures |s.nodes| == s.count
  {
    DistinctElems(c);
    forall x | x in Elems(c) ensures x in s.nodes {
      var i :| 0 <= i < |c| && c[i] == x;
      assert NodeOk(s.nodes, c, i);
    }
    assert s.nodes.Keys == Elems(c);
  }

  // ---------------------------------------------------------------------------------------------
  // The mutators, on values
  // ---------------------------------------------------------------------------------------------

  /** `pop` (data.ts:95-124): unlink the tail, forget it and return its URL; `None` when empty. */
  function PopState(s: LruState): Step<Option<string>> {
    if s.tail.None? then Done(None, s)
    else
      var url := s.tail.value;
      if s.head == s.tail then
        Done(Some(url), s.(head := None, tail := None, nodes := s.nodes - {url}, count := s.count - 1))
      else if url !in s.nodes || s.nodes[url].previous.None? || s.nodes[url].previous.value !in s.nodes then
        Threw(s)
      else
        var block := s.nodes[url];
        var previous := s.nodes[block.previous.value];
        var relinked := s.nodes[block.previous.value := previous.(next := block.next)];
        Done(Some(url), s.(tail := Some(previous.url), nodes := relinked - {url}, count := s.count - 1))
  }

  /**
   * `remove` (data.ts:126-174): unlink `url`, answering whether it had a map entry.  Only the
   * sole-node case clears the map; otherwise the node's own entry stays behind.
   */
  function RemoveState(s: LruState, url: string): Step<bool> {
    if url !in s.nodes then Done(false, s)
    else
      var node := s.nodes[url];
      if s.head == Some(url) then
        if node.next.None? then Done(true, EmptyState)
        else if node.next.value !in s.nodes then Threw(s)
        else
          var next := s.nodes[node.next.value];
          Done(true, s.(nodes := s.nodes[node.next.value := next.(previous := None)], head := Some(next.url), count := s.count - 1))
      else if node.previous.None? || node.previous.value !in s.nodes then Threw(s)
      else
        var pk := node.previous.value;
        var m1 := s.nodes[pk := s.nodes[pk].(next := node.next)];
        if node.next.Some? then
          if node.next.value !in m1 then Threw(s.(nodes := m1))
          else Done(true, s.(nodes := m1[node.next.value := m1[node.next.value].(previous := node.previous)], count := s.count - 1))
        else Done(true, s.(nodes := m1, tail := node.previous, count := s.count - 1))
  }

  /**
   * Step 2 of `accessed` (data.ts:199-222): link the node of `url` in front of the current head.
   * The node is the map's entry for `url` when the map still has one (the source holds that very
   * object, so the updates step 1 and the old head's `previous` made to it show), and otherwise
   * `node`, the entry `accessed` started with or a fresh one.
   */
  function LinkAsHead(s: LruState, url: string, node: LruNode): Step<()> {
    if s.head.Some? && s.head.value !in s.nodes then Threw(s)
    else
      var m1 := if s.head.Some? then s.nodes[s.head.value := s.nodes[s.head.value].(previous := Some(url))] else s.nodes;
      var placed := (if url in m1 then m1[url] else node).(next := s.head);
      Done((), LruState(Some(url), if s.tail.None? then Some(url) else s.tail, m1[url := placed], s.count + 1))
  }

  /** `accessed` (data.ts:176-223): move `url` to the head, adding a node when the map has none. */
  function AccessedState(s: LruState, url: string): Step<()> {
    if s.head == Some(url) then Done((), s)
    else
      var node := if url in s.nodes then s.nodes[url] else LruNode(url, None, None);
      var removed := if url in s.nodes then RemoveState(s, url) else Done(false, s);
      match removed
      case Threw(s1) => Threw(s1)
      case Done(_, s1) => LinkAsHead(s1, url, node)
  }

  /** `remove` as evidently intended: unlink `url` and also delete its map entry, as `pop` does. */
  function UntrackState(s: LruState, url: string): Step<bool> {
    match RemoveState(s, url)
    case Threw(s1) => Threw(s1)
    case Done(removed, s1) => Done(removed, s1.(nodes := s1.nodes - {url}))
  }

  // ---------------------------------------------------------------------------------------------
  // The mutators keep the chain linked
  // ---------------------------------------------------------------------------------------------

  /** Dropping the last URL of a linked chain, as `pop` does, leaves a linked chain. */
  lemma PopLongLinked(s: LruState, c: seq<string>)
    requires Linked(s, c) && |c| >= 2
    ensures PopState(s).Done? && PopState(s).value == Some(c[|c| - 1])
    ensures Linked(PopState(s).state, c[..|c| - 1])
    ensures PopState(s).state.nodes.Keys == s.nodes.Keys - {c[|c| - 1]}
  {
    var n := |c|;
    var url := c[n - 1];
    assert c[0] != c[n - 1];
    assert NodeOk(s.nodes, c, n - 1);
    assert NodeOk(s.nodes, c, n - 2);
    var block := s.nodes[url];
    var previous := s.nodes[c[n - 2]];
    var m' := s.nodes[c[n - 2] := previous.(next := block.next)] - {url};
    var s' := s.(tail := Some(c[n - 2]), nodes := m', count := s.count - 1);
    assert PopState(s) == Done(Some(url), s');
    var c' := c[..n - 1];
    forall i | 0 <= i < |c'| ensures NodeOk(m', c', i) {
      assert NodeOk(s.nodes, c, i);
      assert c[i] != url;
      if i < n - 2 {
        NodeMoved(s.nodes, c, i, m', c', i);
      }
    }
  }

  /**
   * `pop` of an empty chain returns `None` and changes nothing; otherwise it returns the least
   * recently used URL, drops it from the chain and from the map, and keeps the state linked.
   */
  lemma PopLinked(s: LruState, c: seq<string>)
    requires Linked(s, c)
    ensures PopState(s).Done?
    ensures c == [] ==> PopState(s) == Done(None, s)
    ensures c != [] ==>
      && PopState(s).value == Some(c[|c| - 1])
      && Linked(PopState(s).state, c[..|c| - 1])
      && PopState(s).state.nodes.Keys == s.nodes.Keys - {c[|c| - 1]}
  {
    if |c| == 1 {
      assert PopState(s).state == s.(head := None, tail := None, nodes := s.nodes - {c[0]}, count := 0);
    } else if |c| > 1 {
      PopLongLinked(s, c);
    }
  }

  /** A map whose keys shrank by the URL a chain lost keeps no entry outside the chain. */
  lemma KeysFollowChain(m: map<string, LruNode>, c: seq<string>, m': map<string, LruNode>, c': seq<string>, u: string)
    requires forall x :: x in m ==> x in c
    requires m'.Keys == m.Keys - {u}
    requires forall x :: x in c && x != u ==> x in c'
    ensures forall x :: x in m' ==> x in c'
  {
  }

  /** `pop` keeps a tidy state tidy. */
  lemma PopTidy(s: LruState, c: seq<string>)
    requires Tidy(s, c)
    ensures PopState(s).Done? && Tidy(PopState(s).state, if c == [] then [] else c[..|c| - 1])
  {
    PopLinked(s, c);
    if c != [] {
      var c' := c[..|c| - 1];
      forall x | x in c && x != c[|c| - 1] ensures x in c' {
        var j :| 0 <= j < |c| && c[j] == x;
        assert c'[j] == x;
      }
      KeysFollowChain(s.nodes, c, PopState(s).state.nodes, c', c[|c| - 1]);
    }
  }

  /** Removing the head of a chain of two or more makes its successor the head, with no `previous`. */
  lemma RemoveHeadLinked(s: LruState, c: seq<string>)
    requires Linked(s, c) && |c| >= 2
    ensures RemoveState(s, c[0]).Done? && RemoveState(s, c[0]).value
    ensures Linked(RemoveState(s, c[0]).state, c[1..])
    ensures c[1] in RemoveState(s, c[0]).state.nodes && RemoveState(s, c[0]).state.nodes[c[1]].previous == None
    ensures RemoveState(s, c[0]).state.nodes.Keys == s.nodes.Keys
  {
    assert NodeOk(s.nodes, c, 0);
    assert NodeOk(s.nodes, c, 1);
    var next := s.nodes[c[1]];
    var m' := s.nodes[c[1] := next.(previous := None)];
    var s' := s.(nodes := m', head := Some(c[1]), count := s.count - 1);
    assert RemoveState(s, c[0]) == Done(true, s');
    var c' := c[1..];
    forall i | 0 <= i < |c'| ensures NodeOk(m', c', i) {
      assert NodeOk(s.nodes, c, i + 1);
      if i > 0 {
        assert c[i + 1] != c[1];
        NodeMoved(s.nodes, c, i + 1, m', c', i);
      }
    }
  }

  /** Removing the tail of a chain of two or more moves `tail` back to its predecessor. */
  lemma RemoveTailLinked(s: LruState, c: seq<string>)
    requires Linked(s, c) && |c| >= 2
    ensures RemoveState(s, c[|c| - 1]).Done? && RemoveState(s, c[|c| - 1]).value
    ensures Linked(RemoveState(s, c[|c| - 1]).state, c[..|c| - 1])
    ensures RemoveState(s, c[|c| - 1]).state.nodes.Keys == s.nodes.Keys
  {
    var n := |c|;
    var url := c[n - 1];
    assert c[0] != url;
    assert NodeOk(s.nodes, c, n - 1);
    assert NodeOk(s.nodes, c, n - 2);
    var pk := c[n - 2];
    var m1 := s.nodes[pk := s.nodes[pk].(next := None)];
    var s' := s.(nodes := m1, tail := Some(pk), count := s.count - 1);
    assert RemoveState(s, url) == Done(true, s');
    var c' := c[..n - 1];
    forall i | 0 <= i < |c'| ensures NodeOk(m1, c', i) {
      assert NodeOk(s.nodes, c, i);
      if i < n - 2 {
        assert c[i] != pk;
        NodeMoved(s.nodes, c, i, m1, c', i);
      }
    }
  }

  /** Removing a node strictly inside the chain makes its two neighbours point at each other. */
  lemma RemoveMiddleLinked(s: LruState, c: seq<string>, k: int)
    requires Linked(s, c) && 0 < k < |c| - 1
    ensures RemoveState(s, c[k]).Done? && RemoveState(s, c[k]).value
    ensures Linked(RemoveState(s, c[k]).state, c[..k] + c[k + 1..])
    ensures RemoveState(s, c[k]).state.nodes.Keys == s.nodes.Keys
  {
    var url := c[k];
    assert c[0] != url;
    assert NodeOk(s.nodes, c, k);
    assert NodeOk(s.nodes, c, k - 1);
    assert NodeOk(s.nodes, c, k + 1);
    var pk, nk := c[k - 1], c[k + 1];
    var m1 := s.nodes[pk := s.nodes[pk].(next := Some(nk))];
    var m2 := m1[nk := m1[nk].(previous := Some(pk))];
    var s' := s.(nodes := m2, count := s.count - 1);
    assert RemoveState(s, url) == Done(true, s');
    var c' := c[..k] + c[k + 1..];
    forall i | 0 <= i < |c'| ensures NodeOk(m2, c', i) {
      if i < k - 1 {
        assert NodeOk(s.nodes, c, i);
        assert c[i] != pk && c[i] != nk;
        NodeMoved(s.nodes, c, i, m2, c', i);
      } else if i == k - 1 {
        assert NodeOk(s.nodes, c, i);
        assert c'[i] == pk && c'[i + 1] == nk;
        if i > 0 { assert c'[i - 1] == c[i - 1]; }
      } else if i == k {
        assert NodeOk(s.nodes, c, i + 1);
        assert c'[i] == nk && c'[i - 1] == pk;
        assert At(c', i + 1) == At(c, i + 2);
      } else {
        assert NodeOk(s.nodes, c, i + 1);
        assert c'[i] == c[i + 1];
        assert c[i + 1] != pk && c[i + 1] != nk;
        assert At(c', i + 1) == At(c, i + 2);
        assert At(c', i - 1) == At(c, i);
        NodeMoved(s.nodes, c, i + 1, m2, c', i);
      }
    }
  }

  /**
   * `remove` of a URL that has no entry answers false and changes nothing; of a linked URL it
   * answers true and unlinks it.  Removing the sole node resets the state; from a longer chain
   * the node's map entry stays behind, unlinked.
   */
  lemma RemoveLinked(s: LruState, c: seq<string>, url: string)
    requires Linked(s, c) && (url in c || url !in s.nodes)
    ensures RemoveState(s, url).Done?
    ensures RemoveState(s, url).value == (url in c)
    ensures Linked(RemoveState(s, url).state, Without(c, url))
    ensures url !in c ==> RemoveState(s, url).state == s
    ensures url in c && |c| == 1 ==> RemoveState(s, url).state == EmptyState
    ensures url in c && |c| > 1 ==> RemoveState(s, url).state.nodes.Keys == s.nodes.Keys
  {
    if url !in c {
      assert url !in s.nodes;
    } else {
      var k :| 0 <= k < |c| && c[k] == url;
      WithoutAt(c, k);
      if |c| == 1 {
        assert NodeOk(s.nodes, c, 0);
        assert Without(c, url) == [];
      } else if k == 0 {
        RemoveHeadLinked(s, c);
      } else if k == |c| - 1 {
        RemoveTailLinked(s, c);
        assert c[..k] + c[k + 1..] == c[..k];
      } else {
        RemoveMiddleLinked(s, c, k);
      }
    }
  }

  /** `remove` rewrites only the links of entries: every entry it leaves keeps its URL. */
  lemma RemoveKeepsUrls(s: LruState, url: string)
    ensures forall k | k in RemoveState(s, url).state.nodes ::
      k in s.nodes && RemoveState(s, url).state.nodes[k].url == s.nodes[k].url
  {
  }

  /** Linking a URL that is not in the chain in front of it makes it the new first element. */
  lemma LinkAsHeadLinked(s: LruState, c: seq<string>, url: string, node: LruNode)
    requires Linked(s, c) && url !in c && node.url == url
    requires url in s.nodes ==> s.nodes[url].url == url
    ensures LinkAsHead(s, url, node).Done?
    ensures Linked(LinkAsHead(s, url, node).state, [url] + c)
    ensures LinkAsHead(s, url, node).state.nodes.Keys == s.nodes.Keys + {url}
  {
    if c != [] {
      assert NodeOk(s.nodes, c, 0);
    }
    var m1 := if s.head.Some? then s.nodes[s.head.value := s.nodes[s.head.value].(previous := Some(url))] else s.nodes;
    var placed := (if url in s.nodes then s.nodes[url] else node).(next := s.head);
    assert placed == (if url in m1 then m1[url] else node).(next := s.head);
    var m2 := m1[url := placed];
    var c' := [url] + c;
    var s' := LruState(Some(url), if s.tail.None? then Some(url) else s.tail, m2, s.count + 1);
    assert LinkAsHead(s, url, node) == Done((), s');
    forall i | 0 <= i < |c'| ensures NodeOk(m2, c', i) {
      if i == 1 {
        assert NodeOk(s.nodes, c, 0);
        assert At(c', 2) == At(c, 1);
      } else if i > 1 {
        assert NodeOk(s.nodes, c, i - 1);
        assert c[i - 1] != c[0] && c[i - 1] != url;
        assert At(c', i + 1) == At(c, i);
        assert At(c', i - 1) == At(c, i - 2);
        NodeMoved(s.nodes, c, i - 1, m2, c', i);
      }
    }
    assert Distinct(c') by {
      forall i, j | 0 <= i < j < |c'| ensures c'[i] != c'[j] {
        if i > 0 { assert c'[i] == c[i - 1]; }
        assert c'[j] == c[j - 1];
      }
    }
  }

  /**
   * `accessed` of the current head changes nothing; of any URL that is linked or has no entry it
   * moves that URL to the front, adding it when it was new, and keeps the state linked.
   */
  lemma AccessedLinked(s: LruState, c: seq<string>, url: string)
    requires Linked(s, c) && (url in c || url !in s.nodes)
    ensures AccessedState(s, url).Done?
    ensures Linked(AccessedState(s, url).state, Promote(c, url))
    ensures s.head == Some(url) ==> AccessedState(s, url).state == s
    ensures AccessedState(s, url).state.nodes.Keys == s.nodes.Keys + {url}
  {
    if s.head == Some(url) {
      PromoteFirst(c);
      assert NodeOk(s.nodes, c, 0);
    } else {
      var node := if url in s.nodes then s.nodes[url] else LruNode(url, None, None);
      if url in c {
        var k :| 0 <= k < |c| && c[k] == url;
        assert NodeOk(s.nodes, c, k);
        assert k != 0;
      }
      RemoveLinked(s, c, url);
      RemoveKeepsUrls(s, url);
      LinkAsHeadLinked(RemoveState(s, url).state, Without(c, url), url, node);
    }
  }

  /** `accessed` keeps a tidy state tidy. */
  lemma AccessedTidy(s: LruState, c: seq<string>, url: string)
    requires Tidy(s, c)
    ensures AccessedState(s, url).Done? && Tidy(AccessedState(s, url).state, Promote(c, url))
  {
    AccessedLinked(s, c, url);
  }

  /**
   * The corrected `remove` answers and unlinks as `remove` does wherever `remove` keeps the state
   * linked, and leaves no entry for `url`.
   */
  lemma UntrackLinked(s: LruState, c: seq<string>, url: string)
    requires Linked(s, c) && (url in c || url !in s.nodes)
    ensures UntrackState(s, url).Done?
    ensures UntrackState(s, url).value == (url in c)
    ensures url !in UntrackState(s, url).state.nodes
    ensures Linked(UntrackState(s, url).state, Without(c, url))
  {
    RemoveLinked(s, c, url);
    var s1 := RemoveState(s, url).state;
    var c1 := Without(c, url);
    var m2 := s1.nodes - {url};
    forall i | 0 <= i < |c1| ensures NodeOk(m2, c1, i) {
      assert NodeOk(s1.nodes, c1, i);
      assert c1[i] in c1;
    }
  }

  /** The corrected `remove` keeps a tidy state tidy: it never leaves an entry behind. */
  lemma UntrackTidy(s: LruState, c: seq<string>, url: string)
    requires Tidy(s, c)
    ensures UntrackState(s, url).Done?
    ensures UntrackState(s, url).value == (url in c)
    ensures Tidy(UntrackState(s, url).state, Without(c, url))
  {
    UntrackLinked(s, c, url);
    RemoveKeepsUrls(s, url);
    var m := UntrackState(s, url).state.nodes;
    forall x | x in m ensures x in Without(c, url) {
      assert x in s.nodes && x != url;
    }
  }

  // ---------------------------------------------------------------------------------------------
  // The entry `remove` leaves behind
  // ---------------------------------------------------------------------------------------------

  /** The chain `["/a", "/b"]`: `/a` most recently used. */
  function TwoChain(): (s: LruState)
    ensures Linked(s, ["/a", "/b"])
  {
    var s := LruState(Some("/a"), Some("/b"),
      map["/a" := LruNode("/a", None, Some("/b")), "/b" := LruNode("/b", Some("/a"), None)], 2);
    assert NodeOk(s.nodes, ["/a", "/b"], 0);
    assert NodeOk(s.nodes, ["/a", "/b"], 1);
    s
  }

  /**
   * Removing the head of `["/a", "/b"]` keeps `/a`'s entry, whose `previous` is null.  Accessing
   * `/a` again then takes the not-the-head branch of `remove` and writes through `map[null]`.
   */
  lemma StaleHeadAccessThrows()
    ensures RemoveState(TwoChain(), "/a").Done?
    ensures "/a" in RemoveState(TwoChain(), "/a").state.nodes
    ensures AccessedState(RemoveState(TwoChain(), "/a").state, "/a").Threw?
  {
    RemoveLinked(TwoChain(), ["/a", "/b"], "/a");
    var s1 := RemoveState(TwoChain(), "/a").state;
    assert s1.head == Some("/b");
    assert s1.nodes["/a"] == LruNode("/a", None, Some("/b"));
  }

  /** With the corrected `remove` the same sequence of calls moves `/a` back to the front. */
  lemma UntrackedHeadAccessed()
    ensures UntrackState(TwoChain(), "/a").Done?
    ensures AccessedState(UntrackState(TwoChain(), "/a").state, "/a").Done?
    ensures Linked(AccessedState(UntrackState(TwoChain(), "/a").state, "/a").state, ["/a", "/b"])
  {
    var c := ["/a", "/b"];
    assert Without(c, "/a") == ["/b"];
    assert forall u :: u in TwoChain().nodes ==> u in c;
    UntrackTidy(TwoChain(), c, "/a");
    AccessedLinked(UntrackState(TwoChain(), "/a").state, ["/b"], "/a");
    assert Promote(["/b"], "/a") == c;
  }

  /**
   * The stale head's `previous` is read after all: `accessed` of the tail `/b` of
   * `["/a", "/b"]`, `remove("/b")`, then `accessed("/b")` again finds `/b`'s entry (it still
   * names `/a` as its successor) outside the chain, unlinks it as a middle node and makes `/a`
   * its own successor.  A walk from the head never reaches the end of that chain.
   */
  lemma StaleHeadSelfLoop()
    ensures AccessedState(TwoChain(), "/b").Done?
    ensures RemoveState(AccessedState(TwoChain(), "/b").state, "/b").Done?
    ensures AccessedState(RemoveState(AccessedState(TwoChain(), "/b").state, "/b").state, "/b").Done?
    ensures var s := AccessedState(RemoveState(AccessedState(TwoChain(), "/b").state, "/b").state, "/b").state;
      "/a" in s.nodes && s.nodes["/a"].next == Some("/a")
  {
    var s1 := AccessedState(TwoChain(), "/b").state;
    assert s1 == LruState(Some("/b"), Some("/a"),
      map["/b" := LruNode("/b", Some("/a"), Some("/a")), "/a" := LruNode("/a", Some("/b"), None)], 2);
    var s2 := RemoveState(s1, "/b").state;
    assert s2 == LruState(Some("/a"), Some("/a"),
      map["/b" := LruNode("/b", Some("/a"), Some("/a")), "/a" := LruNode("/a", None, None)], 1);
    var s3 := AccessedState(s2, "/b").state;
    assert s3.nodes["/a"] == LruNode("/a", Some("/b"), Some("/a"));
  }

  /** The chain `["/x", "/a", "/y"]`. */
  function ThreeChain(): (s: LruState)
    ensures Linked(s, ["/x", "/a", "/y"])
  {
    var s := LruState(Some("/x"), Some("/y"),
      map["/x" := LruNode("/x", None, Some("/a")),
          "/a" := LruNode("/a", Some("/x"), Some("/y")),
          "/y" := LruNode("/y", Some("/a"), None)], 3);
    assert NodeOk(s.nodes, ["/x", "/a", "/y"], 0);
    assert NodeOk(s.nodes, ["/x", "/a", "/y"], 1);
    assert NodeOk(s.nodes, ["/x", "/a", "/y"], 2);
    s
  }

  /**
   * Removing `/a` from the middle keeps its entry with its old neighbours.  Accessing `/a` again
   * "removes" it a second time (counting it down although it is no longer linked) and links it in
   * front: a walk from the head reads three URLs while `count` says two.
   */
  lemma StaleMiddleAccessMiscounts()
    ensures RemoveState(ThreeChain(), "/a").Done?
    ensures AccessedState(RemoveState(ThreeChain(), "/a").state, "/a").Done?
    ensures var s := AccessedState(RemoveState(ThreeChain(), "/a").state, "/a").state;
      s.count == 2 && Walk(s.nodes, s.head, 5) == ["/a", "/x", "/y"]
  {
    RemoveLinked(ThreeChain(), ["/x", "/a", "/y"], "/a");
    var s1 := RemoveState(ThreeChain(), "/a").state;
    assert s1.nodes["/a"] == LruNode("/a", Some("/x"), Some("/y"));
    assert s1.nodes["/x"] == LruNode("/x", None, Some("/y"));
    assert s1.nodes["/y"] == LruNode("/y", Some("/x"), None);
    var s2 := AccessedState(s1, "/a").state;
    assert s2.head == Some("/a") && s2.tail == Some("/y") && s2.count == 2;
    assert s2.nodes["/a"].next == Some("/x");
    assert s2.nodes["/x"].next == Some("/y");
  }

  // ---------------------------------------------------------------------------------------------
  // The chain object (data.ts:73-224)
  // ---------------------------------------------------------------------------------------------

  /**
   * Owns one `LruState` and updates it in place.  Every method is defined on every state,
   * including those holding entries an earlier `remove` left behind; `threw` reports the
   * TypeError the source raises, and the state is then as the throw leaves it.
   */
  class LruList {
    var state: LruState

    /** Adopts a persisted state, or starts empty (data.ts:75-85). */
    constructor (init: Option<LruState>)
      ensures state == (if init.Some? then init.value else EmptyState)
    {
      if init.None? {
        state := EmptyState;
      } else {
        state := init.value;
      }
    }

    /** The number of URLs in the chain (data.ts:90). */
    function Size(): (n: int)
      reads this
      ensures forall c :: Linked(state, c) ==> n == |c|
    {
      state.count
    }

    /** Removes the tail (data.ts:95-124). */
    method Pop() returns (url: Option<string>, threw: bool)
      modifies this
      ensures PopState(old(state)) == Outcome(threw, url, state)
    {
      if state.tail.None? {
        return None, false;
      }
      var u := state.tail.value;
      if state.head == state.tail {
        state := state.(head := None);
        state := state.(tail := None);
      } else {
        // `map[url]!` and `map[block.previous!]!` are undefined: reading their fields throws
        if u !in state.nodes || state.nodes[u].previous.None? || state.nodes[u].previous.value !in state.nodes {
          return None, true;
        }
        var block := state.nodes[u];
        var previous := state.nodes[block.previous.value];
        state := state.(tail := Some(previous.url));
        state := state.(nodes := state.nodes[block.previous.value := previous.(next := block.next)]);
      }
      state := state.(nodes := state.nodes - {u});
      state := state.(count := state.count - 1);
      url, threw := Some(u), false;
    }

    /** Unlinks `url`, keeping its map entry (data.ts:126-174). */
    method Remove(url: string) returns (removed: bool, threw: bool)
      modifies this
      ensures RemoveState(old(state), url) == Outcome(threw, removed, state)
    {
      if url !in state.nodes {
        return false, false;
      }
      var node := state.nodes[url];
      if state.head == Some(url) {
        if node.next.None? {
          state := state.(head := None);
          state := state.(tail := None);
          state := state.(nodes := map[]);
          state := state.(count := 0);
          return true, false;
        }
        if node.next.value !in state.nodes {
          return false, true;
        }
        var next := state.nodes[node.next.value];
        state := state.(nodes := state.nodes[node.next.value := next.(previous := None)]);
        state := state.(head := Some(next.url));
        state := state.(count := state.count - 1);
        return true, false;
      }
      if node.previous.None? || node.previous.value !in state.nodes {
        return false, true;
      }
      var pk := node.previous.value;
      var previous := state.nodes[pk];
      state := state.(nodes := state.nodes[pk := previous.(next := node.next)]);
      if node.next.Some? {
        var nk := node.next.value;
        if nk !in state.nodes {
          // thrown after `previous.next` was already rewritten
          return false, true;
        }
        state := state.(nodes := state.nodes[nk := state.nodes[nk].(previous := node.previous)]);
      } else {
        state := state.(tail := node.previous);
      }
      state := state.(count := state.count - 1);
      removed, threw := true, false;
    }

    /** Moves `url` to the head of the chain, adding it when new (data.ts:176-223). */
    method Accessed(url: string) returns (threw: bool)
      modifies this
      ensures AccessedState(old(state), url) == Outcome(threw, (), state)
    {
      if state.head == Some(url) {
        return false;
      }
      var node := if url in state.nodes then state.nodes[url] else LruNode(url, None, None);
      if url in state.nodes {
        var _, t := Remove(url);
        if t {
          return true;
        }
      }
      threw := LinkHead(url, node);
    }

    /**
     * Step 2 of `accessed` (data.ts:199-222): the node of `url` becomes the head, in front of the
     * old head, and the old head's `previous` names it.
     */
    method LinkHead(url: string, node: LruNode) returns (threw: bool)
      modifies this
      ensures LinkAsHead(old(state), url, node) == Outcome(threw, (), state)
    {
      if state.head.Some? {
        var h := state.head.value;
        if h !in state.nodes {
          return true;
        }
        state := state.(nodes := state.nodes[h := state.nodes[h].(previous := Some(url))]);
      }
      // while the map has an entry for `url`, that entry is the very object `node` names
      var linked := (if url in state.nodes then state.nodes[url] else node).(next := state.head);
      state := state.(head := Some(url));
      if state.tail.None? {
        state := state.(tail := Some(url));
      }
      state := state.(nodes := state.nodes[url := linked]);
      state := state.(count := state.count + 1);
      threw := false;
    }

    /**
     * `remove` corrected to forget the node as well: the same unlinking, followed by deleting
     * `map[url]` as `pop` does at data.ts:119.
     */
    method Untrack(url: string) returns (removed: bool, threw: bool)
      modifies this
      ensures UntrackState(old(state), url) == Outcome(threw, removed, state)
    {
      removed, threw := Remove(url);
      if !threw {
        state := state.(nodes := state.nodes - {url});
      }
    }
  }
}
