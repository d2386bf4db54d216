/** Left folds over the blocks of a message, and what they keep apart.
    A hash body is a fold of a step (state, block) -> state.  When the step loses neither the state
    nor the block, two block lists that differ in one place cannot end in the same state. */
module BlockFold {

  /** Absorb the blocks one after another, first block first. */
  function Fold<S, K>(step: (S, K) -> S, init: S, blocks: seq<K>): S
    decreases |blocks|
  {
    if |blocks| == 0 then init
    else step(Fold(step, init, blocks[..|blocks| - 1]), blocks[|blocks| - 1])
  }

  /** For every block, the step is one-to-one in the state. */
  ghost predicate KeepsState<S(!new), K(!new)>(step: (S, K) -> S) {
    forall s, s', k :: step(s, k) == step(s', k) ==> s == s'
  }

  /** For every state, the step is one-to-one in the block. */
  ghost predicate KeepsBlock<S(!new), K(!new)>(step: (S, K) -> S) {
    forall s, k, k' :: step(s, k) == step(s, k') ==> k == k'
  }

  /** The two lists have the same length and differ at `j` and nowhere else. */
  ghost predicate DifferOnlyAt<K>(a: seq<K>, b: seq<K>, j: nat) {
    && |a| == |b|
    && j < |a|
    && a[j] != b[j]
    && forall i | 0 <= i < |a| && i != j :: a[i] == b[i]
  }

  /** A fold over lists that differ in exactly one place ends in different states. */
  lemma {:induction false} FoldSeparates<S(!new), K(!new)>(step: (S, K) -> S, init: S, a: seq<K>, b: seq<K>, j: nat)
    requires KeepsState(step) && KeepsBlock(step)
    requires DifferOnlyAt(a, b, j)
    ensures Fold(step, init, a) != Fold(step, init, b)
    decreases |a|
  {
    var n := |a| - 1;
    if j == n {
      assert a[..n] == b[..n];
    } else {
      assert a[n] == b[n];
      FoldSeparates(step, init, a[..n], b[..n], j);
    }
  }

  /** Steps that can be undone: `back` recovers the state, `solve` finds the block that leads from
      one given state to another. */
  ghost predicate Reversible<S(!new), K(!new)>(step: (S, K) -> S, back: (S, K) -> S, solve: (S, S) -> K) {
    && (forall s, k :: step(back(s, k), k) == s)
    && (forall s, s' :: step(s, solve(s, s')) == s')
  }

  /** With a reversible step, any final state can be reached by choosing one block. */
  lemma {:induction false} FoldReaches<S(!new), K(!new)>(
    step: (S, K) -> S, back: (S, K) -> S, solve: (S, S) -> K, init: S, blocks: seq<K>, j: nat, goal: S)
    returns (k: K)
    requires Reversible(step, back, solve)
    requires j < |blocks|
    ensures Fold(step, init, blocks[j := k]) == goal
    decreases |blocks|
  {
    var n := |blocks| - 1;
    if j == n {
      k := solve(Fold(step, init, blocks[..n]), goal);
      assert blocks[j := k][..n] == blocks[..n];
    } else {
      k := FoldReaches(step, back, solve, init, blocks[..n], j, back(goal, blocks[n]));
      assert blocks[j := k][..n] == blocks[..n][j := k];
    }
  }
}
