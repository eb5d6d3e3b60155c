/**
 * The statement-splicing part of the ngtsc visitor (packages/compiler-cli/src/ngtsc/util/src/visitor.ts).
 *
 * While the compiler visits a tree, visiting a class declaration may ask for further statements
 * to be placed before it.  The visitor records each such request in its `_before` map, keyed by
 * the visited declaration; when it then finishes a node that has a list of statements, it
 * rebuilds that list with every recorded list spliced in front of its statement, and deletes the
 * entries it used.  Statements are an abstract type compared by identity (`S`), a node is its
 * list of statements, and the TypeScript API calls that build and copy nodes are left out.
 */
module Visitors {
  import opened Optional

  // ---------------------------------------------------------------------------------------------
  // Visit results and the defaults
  // ---------------------------------------------------------------------------------------------

  /** `VisitListEntryResult`: the visited node and, optionally, statements to place before it. */
  datatype VisitListEntryResult<S> = VisitListEntryResult(node: S, before: Option<seq<S>>)

  /** The default `visitClassDeclaration` (visitor.ts:42-45): the node itself, nothing before it. */
  function VisitClassDeclaration<S>(node: S): (r: VisitListEntryResult<S>)
    ensures r.node == node && r.before == None
  {
    VisitListEntryResult(node, None)
  }

  /** The default `visitOtherNode` (visitor.ts:62): the node is left as it is. */
  function VisitOtherNode<S>(node: S): (r: S)
    ensures r == node
  {
    node
  }

  /** What a node's `statements` property holds: nothing, an array of statements, or any other value. */
  datatype Property<S> = Undefined | ArrayOf(items: seq<S>) | NotArray

  /** `hasStatements` (visitor.ts:115-118): the property is defined and is an array. */
  function HasStatements<S>(statements: Property<S>): (r: bool)
    ensures r <==> statements.ArrayOf?
  {
    match statements
    case Undefined => false
    case ArrayOf(_) => true
    case NotArray => false
  }

  // ---------------------------------------------------------------------------------------------
  // Recording and splicing, as functions
  // ---------------------------------------------------------------------------------------------

  /** The set of statements in a list. */
  function Members<S(==)>(s: seq<S>): set<S> {
    set x | x in s
  }

  /**
   * `_visitClassDeclaration`'s bookkeeping (visitor.ts:47-57): the pending map after visiting a
   * class declaration whose visit gave `result` and whose children's visit gave `visited`.
   */
  function Recorded<S(==)>(pending: map<S, seq<S>>, result: VisitListEntryResult<S>, visited: S): (r: map<S, seq<S>>)
    ensures result.before.Some? ==> visited in r && r[visited] == result.before.value
    ensures r - {visited} == pending - {visited}
    ensures result.before.None? ==> r == pending
  {
    if result.before.Some? then pending[visited := result.before.value] else pending
  }

  /**
   * The statements the splice places before `stmts[i]`: its pending list, the first time the
   * statement occurs in the list (the entry is deleted once used), and nothing otherwise.
   */
  function PendingFor<S(==)>(stmts: seq<S>, pending: map<S, seq<S>>, i: int): seq<S>
    requires 0 <= i < |stmts|
  {
    if stmts[i] in pending && stmts[i] !in stmts[..i] then pending[stmts[i]] else []
  }

  /** The rebuilt list for the first `n` statements (visitor.ts:102-109). */
  function Spliced<S(==)>(stmts: seq<S>, pending: map<S, seq<S>>, n: int): seq<S>
    requires 0 <= n <= |stmts|
    decreases n
  {
    if n == 0 then [] else Spliced(stmts, pending, n - 1) + PendingFor(stmts, pending, n - 1) + [stmts[n - 1]]
  }

  /** Where `stmts[i]` lands in the rebuilt list. */
  function Slot<S(==)>(stmts: seq<S>, pending: map<S, seq<S>>, i: int): int
    requires 0 <= i < |stmts|
  {
    |Spliced(stmts, pending, i)| + |PendingFor(stmts, pending, i)|
  }

  /** The first `n` statements with repeats dropped, each kept where it first occurs. */
  function Firsts<S(==)>(stmts: seq<S>, n: int): seq<S>
    requires 0 <= n <= |stmts|
    decreases n
  {
    if n == 0 then []
    else Firsts(stmts, n - 1) + (if stmts[n - 1] in stmts[..n - 1] then [] else [stmts[n - 1]])
  }

  /** The total length of the pending lists of the statements in `keys`. */
  function TotalPending<S(==)>(keys: seq<S>, pending: map<S, seq<S>>): int
    decreases |keys|
  {
    if keys == [] then 0
    else
      var k := keys[|keys| - 1];
      TotalPending(keys[..|keys| - 1], pending) + (if k in pending then |pending[k]| else 0)
  }

  // ---------------------------------------------------------------------------------------------
  // What the splice promises
  // ---------------------------------------------------------------------------------------------

  /** With no statement pending, the rebuilt list is the original one. */
  lemma {:induction false} SpliceNoPending<S>(stmts: seq<S>, pending: map<S, seq<S>>, n: int)
    requires 0 <= n <= |stmts|
    requires forall i | 0 <= i < n :: stmts[i] !in pending
    ensures Spliced(stmts, pending, n) == stmts[..n]
    decreases n
  {
    if n > 0 {
      SpliceNoPending(stmts, pending, n - 1);
      assert stmts[..n] == stmts[..n - 1] + [stmts[n - 1]];
    }
  }

  /** Splicing more statements only extends the rebuilt list. */
  lemma {:induction false} SplicePrefix<S>(stmts: seq<S>, pending: map<S, seq<S>>, n: int, m: int)
    requires 0 <= n <= m <= |stmts|
    ensures |Spliced(stmts, pending, n)| <= |Spliced(stmts, pending, m)|
    ensures Spliced(stmts, pending, m)[..|Spliced(stmts, pending, n)|] == Spliced(stmts, pending, n)
    decreases m - n
  {
    if n < m {
      SplicePrefix(stmts, pending, n, m - 1);
      var a := Spliced(stmts, pending, m - 1);
      var b := Spliced(stmts, pending, m);
      assert b[..|a|] == a;
    }
  }

  /** `stmts[i]` lands at its slot, right after the list pending for it. */
  lemma SpliceAt<S>(stmts: seq<S>, pending: map<S, seq<S>>, i: int)
    requires 0 <= i < |stmts|
    ensures var out := Spliced(stmts, pending, |stmts|);
      && Slot(stmts, pending, i) < |Spliced(stmts, pending, i + 1)| <= |out|
      && out[Slot(stmts, pending, i)] == stmts[i]
      && out[|Spliced(stmts, pending, i)|..Slot(stmts, pending, i)] == PendingFor(stmts, pending, i)
  {
    var out := Spliced(stmts, pending, |stmts|);
    var before, here := Spliced(stmts, pending, i), PendingFor(stmts, pending, i);
    var a := Spliced(stmts, pending, i + 1);
    var lo, hi := |before|, |before| + |here|;
    assert a == before + here + [stmts[i]];
    assert |a| == hi + 1;
    SplicePrefix(stmts, pending, i + 1, |stmts|);
    assert out[..|a|] == a;
    assert a[hi] == stmts[i];
    assert out[hi] == a[hi];
    assert a[lo..hi] == here;
    assert out[lo..hi] == out[..|a|][lo..hi];
  }

  /**
   * Every original statement is in the rebuilt list, in the original order, with the list
   * pending for it (if used there) immediately before it.
   */
  lemma SplicePlacement<S>(stmts: seq<S>, pending: map<S, seq<S>>, i: int, j: int)
    requires 0 <= i < j < |stmts|
    ensures var out := Spliced(stmts, pending, |stmts|);
      && Slot(stmts, pending, i) < Slot(stmts, pending, j) < |out|
      && out[Slot(stmts, pending, i)] == stmts[i]
      && out[Slot(stmts, pending, j)] == stmts[j]
      && out[|Spliced(stmts, pending, i)|..Slot(stmts, pending, i)] == PendingFor(stmts, pending, i)
  {
    SpliceAt(stmts, pending, i);
    SpliceAt(stmts, pending, j);
    SplicePrefix(stmts, pending, i + 1, j);
  }

  /** `Firsts` holds each statement of the prefix exactly once. */
  lemma {:induction false} FirstsDistinct<S>(stmts: seq<S>, n: int)
    requires 0 <= n <= |stmts|
    ensures forall x :: x in Firsts(stmts, n) <==> x in stmts[..n]
    ensures forall a, b | 0 <= a < b < |Firsts(stmts, n)| :: Firsts(stmts, n)[a] != Firsts(stmts, n)[b]
    decreases n
  {
    if n > 0 {
      FirstsDistinct(stmts, n - 1);
      assert stmts[..n] == stmts[..n - 1] + [stmts[n - 1]];
    }
  }

  /**
   * The rebuilt list is as long as the original plus the pending lists of its statements, each
   * counted once however often its statement occurs.
   */
  lemma {:induction false} SpliceLength<S>(stmts: seq<S>, pending: map<S, seq<S>>, n: int)
    requires 0 <= n <= |stmts|
    ensures |Spliced(stmts, pending, n)| == n + TotalPending(Firsts(stmts, n), pending)
    decreases n
  {
    if n > 0 {
      SpliceLength(stmts, pending, n - 1);
      var f := Firsts(stmts, n - 1);
      if stmts[n - 1] !in stmts[..n - 1] {
        assert (f + [stmts[n - 1]])[..|f|] == f;
      } else {
        assert f + [] == f;
      }
    }
  }

  /**
   * A class declaration visited with statements to place before it, and then found once in a
   * list whose other statements have nothing pending, ends up with exactly those statements
   * before it and nothing else added.
   */
  lemma RecordThenSplice<S>(result: VisitListEntryResult<S>, visited: S, stmts: seq<S>, k: int)
    requires result.before.Some? && 0 <= k < |stmts| && stmts[k] == visited
    requires forall i | 0 <= i < |stmts| && i != k :: stmts[i] != visited
    ensures var out := Spliced(stmts, Recorded(map[], result, visited), |stmts|);
      && out == stmts[..k] + result.before.value + stmts[k..]
  {
    var v := result.before.value;
    var p := Recorded(map[], result, visited);
    assert p == map[visited := v];
    assert forall i | 0 <= i < |stmts| && i != k :: stmts[i] !in p;
    SpliceNoPending(stmts, p, k);
    assert stmts[k] !in stmts[..k];
    assert PendingFor(stmts, p, k) == v;
    var front := Spliced(stmts, p, k + 1);
    assert front == stmts[..k] + v + [stmts[k]];
    AfterNoPending(stmts, p, k + 1, |stmts|);
    var back := stmts[k + 1..|stmts|];
    assert stmts[k..] == [stmts[k]] + back;
    SeqAssoc(stmts[..k] + v, [stmts[k]], back);
  }

  /** Concatenation is associative. */
  lemma SeqAssoc<S>(a: seq<S>, b: seq<S>, c: seq<S>)
    ensures (a + b) + c == a + (b + c)
  {
  }

  /** Statements with nothing pending are copied through unchanged. */
  lemma {:induction false} AfterNoPending<S>(stmts: seq<S>, pending: map<S, seq<S>>, n: int, m: int)
    requires 0 <= n <= m <= |stmts|
    requires forall i | n <= i < m :: stmts[i] !in pending
    ensures Spliced(stmts, pending, m) == Spliced(stmts, pending, n) + stmts[n..m]
    decreases m - n
  {
    if n < m {
      AfterNoPending(stmts, pending, n, m - 1);
      assert stmts[n..m] == stmts[n..m - 1] + [stmts[m - 1]];
    }
  }

  // ---------------------------------------------------------------------------------------------
  // The visitor object (visitor.ts:32-113)
  // ---------------------------------------------------------------------------------------------

  /** The state a visitor keeps between visits: `_before`. */
  class Visitor<S(==)> {
    /** `_before`: statements to insert before each recorded statement. */
    var before: map<S, seq<S>>

    constructor ()
      ensures before == map[]
    {
      before := map[];
    }

    /**
     * `_visitClassDeclaration` (visitor.ts:47-57), given the result of `visitClassDeclaration`
     * and the node its children's visit produced: record the statements to go before it.
     */
    method RecordClassDeclaration(result: VisitListEntryResult<S>, visited: S) returns (r: S)
      modifies this
      ensures r == visited
      ensures before == Recorded(old(before), result, visited)
    {
      if result.before.Some? {
        before := before[visited := result.before.value];
      }
      r := visited;
    }

    /**
     * `_maybeProcessStatements` (visitor.ts:91-112) on a node's statements: the rebuilt list,
     * and whether the node had to be cloned.  The entries used are deleted from `before`.
     */
    method MaybeProcessStatements(stmts: seq<S>) returns (out: seq<S>, cloned: bool)
      modifies this
      ensures cloned <==> exists i | 0 <= i < |stmts| :: stmts[i] in old(before)
      ensures !cloned ==> out == stmts && before == old(before)
      ensures out == Spliced(stmts, old(before), |stmts|)
      ensures before == old(before) - Members(stmts)
    {
      if forall i | 0 <= i < |stmts| :: stmts[i] !in before {
        SpliceNoPending(stmts, before, |stmts|);
        assert stmts[..|stmts|] == stmts;
        assert before - Members(stmts) == before;
        return stmts, false;
      }
      ghost var pending := before;
      out := [];
      var i := 0;
      while i < |stmts|
        invariant 0 <= i <= |stmts|
        invariant out == Spliced(stmts, pending, i)
        invariant before == pending - Members(stmts[..i])
      {
        var stmt := stmts[i];
        assert stmts[..i + 1] == stmts[..i] + [stmt];
        if stmt in before {
          out := out + before[stmt];
          before := before - {stmt};
        }
        out := out + [stmt];
        i := i + 1;
      }
      assert stmts[..|stmts|] == stmts;
      cloned := true;
    }
  }
}
