/** The two strategies that resolve a lifecycle operation declared at two
    levels into one operation record: a node template (or relationship
    instance) over its type, and a derived type over its parent type. */
module OperationMerger {
  import opened Wrappers
  import opened PyValues

  /** The record `operation_mapping` builds. Every field holds whatever the
      blueprint declared, so each is a Python value. */
  datatype Operation = Operation(
    implementation: Value,
    inputs: Value,
    executor: Value,
    retries: Value,
    retryInterval: Value)

  /** The error `merge_schema_and_instance_inputs` raises; its contents are
      decided by that function, which is not part of this model. */
  datatype InputError = InputError(detail: string)

  /** What the merger imports from modules that are not part of this model:
      the `NO_OP` constant and `merge_schema_and_instance_inputs`, whose first
      argument is the schema inputs and second the instance inputs. */
  datatype Collaborators = Collaborators(
    noOp: Operation,
    mergeInputs: (Value, Value) -> Result<Value, InputError>)

  /** The keys of an operation mapping. */
  const OperationKeys: set<string> :=
    {"implementation", "inputs", "executor", "retries", "retry_interval"}

  /** The value a mapping declaration gets for a key it leaves out. */
  function Default(key: string): Value {
    if key == "implementation" then VStr("")
    else if key == "inputs" then EmptyDict
    else VNone
  }

  /** The field of an operation stored under a mapping key. */
  function Field(op: Operation, key: string): Value
    requires key in OperationKeys
  {
    if key == "implementation" then op.implementation
    else if key == "inputs" then op.inputs
    else if key == "executor" then op.executor
    else if key == "retries" then op.retries
    else op.retryInterval
  }

  /** The dict `operation_mapping` returns for an operation. */
  function AsMapping(op: Operation): (d: Value)
    ensures d.VDict? && d.entries.Keys == OperationKeys
    ensures forall k | k in OperationKeys :: d.entries[k] == Field(op, k)
  {
    VDict(map[
      "implementation" := op.implementation,
      "inputs" := op.inputs,
      "executor" := op.executor,
      "retries" := op.retries,
      "retry_interval" := op.retryInterval])
  }

  /** `OperationMerger._create_operation`: normalises a raw declaration.
      `None` and any shape other than a string or a dict yield no operation;
      a bare string names the implementation; a dict is read key by key, each
      missing key taking its default. */
  function CreateOperation(raw: Value): (op: Option<Operation>)
    ensures op.Some? <==> raw.VStr? || raw.VDict?
    ensures raw.VStr? ==>
      forall k | k in OperationKeys ::
        Field(op.value, k) == if k == "implementation" then raw else Default(k)
    ensures raw.VDict? ==>
      forall k | k in OperationKeys :: Field(op.value, k) == Get(raw.entries, k, Default(k))
  {
    match raw
    case VStr(_) =>
      Some(Operation(
        implementation := raw,
        inputs := EmptyDict,
        executor := VNone,
        retries := VNone,
        retryInterval := VNone))
    case VDict(entries) =>
      Some(Operation(
        implementation := Get(entries, "implementation", VStr("")),
        inputs := Get(entries, "inputs", EmptyDict),
        executor := Get(entries, "executor", VNone),
        retries := Get(entries, "retries", VNone),
        retryInterval := Get(entries, "retry_interval", VNone)))
    case _ => None
  }

  // ---------------------------------------------------------------------
  // Node template over node type
  // ---------------------------------------------------------------------

  /** The fallback shared by `_derive_implementation`, `_derive_retries` and
      `_derive_retry_interval`: the template's value wins only when it is
      truthy, so an empty string, `0` or `None` never overrides. */
  function FalsyFallback(templateValue: Value, typeValue: Value): (v: Value)
    ensures Truthy(v) <==> Truthy(templateValue) || Truthy(typeValue)
    ensures Truthy(templateValue) ==> v == templateValue
    ensures !Truthy(templateValue) ==> v == typeValue
  {
    if Truthy(templateValue) then templateValue else typeValue
  }

  function DeriveImplementation(template: Operation, nodeType: Operation): Value {
    FalsyFallback(template.implementation, nodeType.implementation)
  }

  function DeriveRetries(template: Operation, nodeType: Operation): Value {
    FalsyFallback(template.retries, nodeType.retries)
  }

  function DeriveRetryInterval(template: Operation, nodeType: Operation): Value {
    FalsyFallback(template.retryInterval, nodeType.retryInterval)
  }

  /** Whether the merged implementation differs from the type's: exactly when
      the template declares a truthy implementation of its own that is not the
      type's. */
  function ImplementationOverridden(template: Operation, nodeType: Operation): (b: bool)
    ensures b <==> Truthy(template.implementation) && template.implementation != nodeType.implementation
  {
    DeriveImplementation(template, nodeType) != nodeType.implementation
  }

  /** `_derive_inputs`: with the type's implementation kept, the template's
      inputs are instance inputs checked against the type's schema; with a new
      implementation they are taken as they are. */
  function DeriveInputs(c: Collaborators, template: Operation, nodeType: Operation, implementation: Value)
    : (r: Result<Value, InputError>)
    ensures implementation != nodeType.implementation ==> r == Success(template.inputs)
    ensures implementation == nodeType.implementation ==>
      r == c.mergeInputs(nodeType.inputs, template.inputs)
  {
    if implementation == nodeType.implementation then
      c.mergeInputs(nodeType.inputs, template.inputs)
    else
      Success(template.inputs)
  }

  /** `_derive_executor`: a template executor other than `None` always wins;
      a `None` one wins only when the implementation changed, and otherwise
      the type's executor is kept. */
  function DeriveExecutor(template: Operation, nodeType: Operation, implementation: Value): (e: Value)
    ensures template.executor != VNone ==> e == template.executor
    ensures template.executor == VNone && implementation != nodeType.implementation ==> e == VNone
    ensures implementation == nodeType.implementation ==>
      e == (if template.executor == VNone then nodeType.executor else template.executor)
  {
    if implementation != nodeType.implementation then template.executor
    else if template.executor != VNone then template.executor
    else nodeType.executor
  }

  /** The field-by-field derivation when both levels declare a concrete
      operation. It fails exactly when the implementation is kept and the
      template's inputs do not fit the type's schema. */
  function DeriveOperation(c: Collaborators, template: Operation, nodeType: Operation)
    : (r: Result<Operation, InputError>)
    ensures r.Failure? <==>
      !ImplementationOverridden(template, nodeType)
      && c.mergeInputs(nodeType.inputs, template.inputs).Failure?
    ensures r.Failure? ==> r == c.mergeInputs(nodeType.inputs, template.inputs).PropagateFailure()
    ensures r.Success? ==>
      && r.value.implementation == FalsyFallback(template.implementation, nodeType.implementation)
      && r.value.inputs == (if ImplementationOverridden(template, nodeType) then template.inputs
                            else c.mergeInputs(nodeType.inputs, template.inputs).value)
      && r.value.executor == DeriveExecutor(template, nodeType, r.value.implementation)
      && r.value.retries == FalsyFallback(template.retries, nodeType.retries)
      && r.value.retryInterval == FalsyFallback(template.retryInterval, nodeType.retryInterval)
  {
    var implementation := DeriveImplementation(template, nodeType);
    var inputs :- DeriveInputs(c, template, nodeType, implementation);
    var executor := DeriveExecutor(template, nodeType, implementation);
    Success(Operation(
      implementation := implementation,
      inputs := inputs,
      executor := executor,
      retries := DeriveRetries(template, nodeType),
      retryInterval := DeriveRetryInterval(template, nodeType)))
  }

  /** `NodeTemplateNodeTypeOperationMerger.merge` on normalised operations.
      The cases are tried in order: type absent, template absent, template is
      NO_OP, type is NO_OP, and the field-by-field derivation. */
  function MergeTemplateOverType(c: Collaborators, template: Option<Operation>, nodeType: Option<Operation>)
    : (r: Result<Option<Operation>, InputError>)
    // No type declaration: the template's declaration as it is, unchecked.
    ensures nodeType.None? ==> r == Success(template)
    // Only the type declares it: the type's operation, its inputs re-merged
    // against no instance inputs; fails when that merge fails.
    ensures nodeType.Some? && template.None? ==>
      && (r.Success? <==> c.mergeInputs(nodeType.value.inputs, EmptyDict).Success?)
      && (r.Failure? ==> r == c.mergeInputs(nodeType.value.inputs, EmptyDict).PropagateFailure())
      && (r.Success? ==>
            r.value == Some(nodeType.value.(inputs := c.mergeInputs(nodeType.value.inputs, EmptyDict).value)))
    // A NO_OP template wins over any declared type operation.
    ensures nodeType.Some? && template == Some(c.noOp) ==> r == Success(Some(c.noOp))
    // Any other template declaration wins over a NO_OP type operation.
    ensures nodeType == Some(c.noOp) && template.Some? ==> r == Success(template)
    // Otherwise the derivation decides, and a merged operation is always produced.
    ensures nodeType.Some? && template.Some? && template.value != c.noOp && nodeType.value != c.noOp ==>
      && (r.Success? <==> DeriveOperation(c, template.value, nodeType.value).Success?)
      && (r.Failure? ==> r == DeriveOperation(c, template.value, nodeType.value).PropagateFailure())
      && (r.Success? ==> r.value == Some(DeriveOperation(c, template.value, nodeType.value).value))
  {
    if nodeType.None? then
      Success(template)
    else if template.None? then
      var typeOp := nodeType.value;
      var inputs :- c.mergeInputs(typeOp.inputs, EmptyDict);
      Success(Some(Operation(
        implementation := typeOp.implementation,
        inputs := inputs,
        executor := typeOp.executor,
        retries := typeOp.retries,
        retryInterval := typeOp.retryInterval)))
    else if template.value == c.noOp then
      Success(Some(c.noOp))
    else if nodeType.value == c.noOp then
      Success(template)
    else
      var merged :- DeriveOperation(c, template.value, nodeType.value);
      Success(Some(merged))
  }

  /** `NodeTemplateNodeTypeOperationMerger(overriding, overridden).merge()` on
      raw declarations: `overriding` is the node template's declaration and
      `overridden` the node type's. */
  function NodeTemplateNodeTypeMerge(c: Collaborators, overriding: Value, overridden: Value)
    : (r: Result<Option<Operation>, InputError>)
    // No type declaration: the template's, normalised and unchecked.
    ensures CreateOperation(overridden).None? ==> r == Success(CreateOperation(overriding))
    // Only the type declares it: the type's operation, inputs re-merged against `{}`.
    ensures var y := CreateOperation(overridden);
      y.Some? && CreateOperation(overriding).None? ==>
        && (r.Success? <==> c.mergeInputs(y.value.inputs, EmptyDict).Success?)
        && (r.Failure? ==> r == c.mergeInputs(y.value.inputs, EmptyDict).PropagateFailure())
        && (r.Success? ==> r.value == Some(y.value.(inputs := c.mergeInputs(y.value.inputs, EmptyDict).value)))
    // NO_OP precedence: a NO_OP template wins, and any template wins over a NO_OP type.
    ensures CreateOperation(overridden).Some? && CreateOperation(overriding) == Some(c.noOp) ==>
      r == Success(Some(c.noOp))
    ensures CreateOperation(overridden) == Some(c.noOp) && CreateOperation(overriding).Some? ==>
      r == Success(CreateOperation(overriding))
    // Otherwise the field-by-field derivation decides.
    ensures var t := CreateOperation(overriding); var y := CreateOperation(overridden);
      t.Some? && y.Some? && t.value != c.noOp && y.value != c.noOp ==>
        && (r.Success? <==> DeriveOperation(c, t.value, y.value).Success?)
        && (r.Failure? ==> r == DeriveOperation(c, t.value, y.value).PropagateFailure())
        && (r.Success? ==> r.value == Some(DeriveOperation(c, t.value, y.value).value))
    // The merge yields no operation exactly when neither level declares one.
    ensures r.Success? && r.value.None? <==>
      CreateOperation(overriding).None? && CreateOperation(overridden).None?
    // Only a declared type operation can make the merge fail, and never
    // under a NO_OP template.
    ensures r.Failure? ==>
      CreateOperation(overridden).Some? && CreateOperation(overriding) != Some(c.noOp)
  {
    MergeTemplateOverType(c, CreateOperation(overriding), CreateOperation(overridden))
  }

  // ---------------------------------------------------------------------
  // Node type over node type
  // ---------------------------------------------------------------------

  /** `NodeTypeNodeTypeOperationMerger.merge` on normalised operations. The
      source tests for NO_OP separately, but every declared child operation,
      NO_OP included, replaces the parent's whole: the merge is "the child's
      declaration if there is one, else the parent's". */
  function MergeTypeOverType(c: Collaborators, overriding: Option<Operation>, overridden: Option<Operation>)
    : (r: Option<Operation>)
    ensures r == if overriding.Some? then overriding else overridden
  {
    if overriding.None? then
      overridden
    else if overriding.value == c.noOp then
      Some(c.noOp)
    else
      var child := overriding.value;
      Some(Operation(
        implementation := child.implementation,
        inputs := child.inputs,
        executor := child.executor,
        retries := child.retries,
        retryInterval := child.retryInterval))
  }

  /** `NodeTypeNodeTypeOperationMerger(overriding, overridden).merge()` on raw
      declarations. It cannot fail. */
  function NodeTypeNodeTypeMerge(c: Collaborators, overriding: Value, overridden: Value)
    : (r: Option<Operation>)
    ensures r.None? <==> CreateOperation(overriding).None? && CreateOperation(overridden).None?
    ensures CreateOperation(overriding).Some? ==> r == CreateOperation(overriding)
    ensures CreateOperation(overriding).None? ==> r == CreateOperation(overridden)
  {
    MergeTypeOverType(c, CreateOperation(overriding), CreateOperation(overridden))
  }

  // ---------------------------------------------------------------------
  // Relationship mergers: the same two strategies under other names
  // ---------------------------------------------------------------------

  /** Relationship type over relationship type is the type-over-type merger:
      the child's declaration if it has one, else the parent's. */
  function RelationshipTypeRelationshipTypeMerge(c: Collaborators, overriding: Value, overridden: Value)
    : (r: Option<Operation>)
    ensures CreateOperation(overriding).Some? ==> r == CreateOperation(overriding)
    ensures CreateOperation(overriding).None? ==> r == CreateOperation(overridden)
  {
    NodeTypeNodeTypeMerge(c, overriding, overridden)
  }

  /** Relationship instance over relationship type is the template-over-type
      merger, with the instance's declaration in the template's place. */
  function RelationshipTypeRelationshipInstanceMerge(c: Collaborators, overriding: Value, overridden: Value)
    : (r: Result<Option<Operation>, InputError>)
    // No relationship type declaration: the instance's, normalised and unchecked.
    ensures CreateOperation(overridden).None? ==> r == Success(CreateOperation(overriding))
    // Only the type declares it: the type's operation, inputs re-merged against `{}`.
    ensures var y := CreateOperation(overridden);
      y.Some? && CreateOperation(overriding).None? ==>
        && (r.Success? <==> c.mergeInputs(y.value.inputs, EmptyDict).Success?)
        && (r.Failure? ==> r == c.mergeInputs(y.value.inputs, EmptyDict).PropagateFailure())
        && (r.Success? ==> r.value == Some(y.value.(inputs := c.mergeInputs(y.value.inputs, EmptyDict).value)))
    // NO_OP precedence: a NO_OP instance wins, and any instance wins over a NO_OP type.
    ensures CreateOperation(overridden).Some? && CreateOperation(overriding) == Some(c.noOp) ==>
      r == Success(Some(c.noOp))
    ensures CreateOperation(overridden) == Some(c.noOp) && CreateOperation(overriding).Some? ==>
      r == Success(CreateOperation(overriding))
    // Otherwise the field-by-field derivation decides.
    ensures var t := CreateOperation(overriding); var y := CreateOperation(overridden);
      t.Some? && y.Some? && t.value != c.noOp && y.value != c.noOp ==>
        && (r.Success? <==> DeriveOperation(c, t.value, y.value).Success?)
        && (r.Failure? ==> r == DeriveOperation(c, t.value, y.value).PropagateFailure())
        && (r.Success? ==> r.value == Some(DeriveOperation(c, t.value, y.value).value))
  {
    NodeTemplateNodeTypeMerge(c, overriding, overridden)
  }
}
