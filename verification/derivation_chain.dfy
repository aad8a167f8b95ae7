/** The type-over-type merger applied along a derivation chain: each type's
    declaration of one operation is merged over what its ancestors resolved
    it to. */
module DerivationChain {
  import opened Wrappers
  import opened OperationMerger

  /** Every declaration after index `i` is absent. */
  ghost predicate NoneAfter(chain: seq<Option<Operation>>, i: int) {
    forall j | 0 <= j < |chain| && i < j :: chain[j].None?
  }

  /** Folds `chain`, listed root first, over the operation `inherited` from
      further up. The most specific type that declares the operation decides
      it, NO_OP included; when no type in the chain declares it, the
      inherited operation stands. */
  function ResolveAlongChain(c: Collaborators, chain: seq<Option<Operation>>, inherited: Option<Operation>)
    : (r: Option<Operation>)
    ensures NoneAfter(chain, -1) ==> r == inherited
    ensures forall i | 0 <= i < |chain| && chain[i].Some? && NoneAfter(chain, i) :: r == chain[i]
    decreases |chain|
  {
    if chain == [] then
      inherited
    else
      var rest := chain[1..];
      assert forall i | 1 <= i < |chain| :: chain[i] == rest[i - 1];
      ResolveAlongChain(c, rest, MergeTypeOverType(c, chain[0], inherited))
  }

  /** Resolving a chain equals resolving its ancestors first and then its
      descendants over that result, so a parent type's resolved operation can
      stand in for the parent's whole chain. */
  lemma {:induction false} ResolveInStages(
    c: Collaborators, ancestors: seq<Option<Operation>>, descendants: seq<Option<Operation>>,
    inherited: Option<Operation>)
    ensures ResolveAlongChain(c, ancestors + descendants, inherited)
         == ResolveAlongChain(c, descendants, ResolveAlongChain(c, ancestors, inherited))
    decreases |ancestors|
  {
    if ancestors == [] {
      assert ancestors + descendants == descendants;
    } else {
      assert (ancestors + descendants)[1..] == ancestors[1..] + descendants;
      ResolveInStages(c, ancestors[1..], descendants, MergeTypeOverType(c, ancestors[0], inherited));
    }
  }
}
