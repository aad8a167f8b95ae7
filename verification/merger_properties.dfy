/** Properties of the operation mergers that relate several calls or hold
    for every collaborator. */
module MergerProperties {
  import opened Wrappers
  import opened PyValues
  import opened OperationMerger

  /** A bare string declaration means the same as a mapping that declares
      only the implementation. */
  lemma BareStringIsImplementationOnlyMapping(s: string)
    ensures CreateOperation(VStr(s)) == CreateOperation(VDict(map["implementation" := VStr(s)]))
  {
  }

  /** Normalising the dict `operation_mapping` builds gives the operation
      back, so a merged operation can be fed to a merger again unchanged. */
  lemma MappingRoundTrip(op: Operation)
    ensures CreateOperation(AsMapping(op)) == Some(op)
  {
  }

  /** With no type declaration the template's declaration is returned as it
      is: no schema check runs, so the result does not depend on the schema
      merge and never fails. */
  lemma TypeAbsentSkipsSchemaMerge(c1: Collaborators, c2: Collaborators, overriding: Value)
    ensures NodeTemplateNodeTypeMerge(c1, overriding, VNone) == Success(CreateOperation(overriding))
    ensures NodeTemplateNodeTypeMerge(c1, overriding, VNone) == NodeTemplateNodeTypeMerge(c2, overriding, VNone)
  {
  }

  /** A NO_OP template yields NO_OP whatever the type declares, including
      nothing at all (then through the first case). */
  lemma NoOpTemplateWins(c: Collaborators, nodeType: Option<Operation>)
    ensures MergeTemplateOverType(c, Some(c.noOp), nodeType) == Success(Some(c.noOp))
  {
  }

  /** Any template operation declared over a NO_OP type operation is the
      result, unchecked against the type's schema. */
  lemma TemplateOverridesNoOpType(c: Collaborators, template: Operation)
    ensures MergeTemplateOverType(c, Some(template), Some(c.noOp)) == Success(Some(template))
  {
  }

  /** The absent-template case runs before the NO_OP checks: an undeclared
      template over a NO_OP type still re-merges NO_OP's inputs against no
      instance inputs, and fails if that merge fails. */
  lemma NoTemplateOverNoOpTypeIsSchemaChecked(c: Collaborators)
    ensures MergeTemplateOverType(c, None, Some(c.noOp)).Success? <==>
      c.mergeInputs(c.noOp.inputs, EmptyDict).Success?
  {
  }

  /** A template that switches the implementation keeps its own inputs: no
      schema merge is made, so the result is the same whatever that merge
      does, and the merge cannot fail. */
  lemma NewImplementationSkipsSchemaMerge(c1: Collaborators, c2: Collaborators, template: Operation, nodeType: Operation)
    requires c1.noOp == c2.noOp
    requires ImplementationOverridden(template, nodeType)
    ensures MergeTemplateOverType(c1, Some(template), Some(nodeType)).Success?
    ensures MergeTemplateOverType(c1, Some(template), Some(nodeType))
         == MergeTemplateOverType(c2, Some(template), Some(nodeType))
  {
  }

  /** The two strategies agree when the template replaces everything: a new
      implementation and truthy retries and retry interval make the
      template-over-type result the template operation itself, as the
      type-over-type merger would give, over any type operation, NO_OP
      included. */
  lemma FullOverrideAgreesWithTypeOverType(c: Collaborators, template: Operation, nodeType: Operation)
    requires ImplementationOverridden(template, nodeType)
    requires Truthy(template.retries) && Truthy(template.retryInterval)
    ensures MergeTemplateOverType(c, Some(template), Some(nodeType))
         == Success(MergeTypeOverType(c, Some(template), Some(nodeType)))
  {
  }

  /** Merging an operation over itself gives it back, provided the schema
      merge accepts the operation's inputs against themselves unchanged. */
  lemma TemplateOverSameTypeIsIdentity(c: Collaborators, op: Operation)
    requires c.mergeInputs(op.inputs, op.inputs) == Success(op.inputs)
    ensures MergeTemplateOverType(c, Some(op), Some(op)) == Success(Some(op))
  {
  }

  /** Type over type is idempotent: a declaration merged over itself is that
      declaration, normalised. */
  lemma TypeOverTypeIdempotent(c: Collaborators, raw: Value)
    ensures NodeTypeNodeTypeMerge(c, raw, raw) == CreateOperation(raw)
  {
  }

  /** Type over type is associative, so a derivation chain may be folded in
      either grouping. */
  lemma TypeOverTypeAssociative(c: Collaborators, a: Option<Operation>, b: Option<Operation>, d: Option<Operation>)
    ensures MergeTypeOverType(c, a, MergeTypeOverType(c, b, d))
         == MergeTypeOverType(c, MergeTypeOverType(c, a, b), d)
  {
  }
}
