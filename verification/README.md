# Operation merger of the Cloudify DSL parser, in Dafny

A blueprint can declare a lifecycle operation at two levels: on a node type and on a node template,
or on a parent type and on a type derived from it. The operation merger resolves the two
declarations into one operation record. The record has five fields: `implementation`, `inputs`,
`executor`, `retries` and `retry_interval`. This project models the merger and proves what it promises.

- `PyValues` (`values.dfy`) holds the Python values a declaration is made of. `Truthy` is Python's
  truthiness and `Get` is `dict.get`. Fields hold these values, so `not x` and `is not None` are
  modelled as the source writes them. The `isinstance` shape tests are modelled as "is a string" and
  "is a dict"; the Python 2 `unicode` case is listed under "Left out".
- `OperationMerger` (`operation_merger.dfy`) holds:
  - the `Operation` record, which is what `operation_mapping` builds;
  - normalisation of a raw declaration (`CreateOperation`);
  - the template-over-type strategy with its `_derive_*` helpers;
  - the type-over-type strategy;
  - the two relationship aliases.
- `NO_OP` and `merge_schema_and_instance_inputs` are defined outside the merger's file. They come
  in as the fields of a `Collaborators` value. The merge may fail only through that function, so
  the template-over-type result is a `Result`.
- `MergerProperties` (`merger_properties.dfy`) relates calls. It covers precedence, independence
  from the schema merge, idempotence, associativity, and agreement between the strategies.
- `DerivationChain` (`derivation_chain.dfy`) folds the type-over-type merger along a derivation
  chain, root first. It proves that the most specific declaring type decides.
- `Wrappers` (`wrappers.dfy`) holds `Option` and `Result`.

## Model

| member | source | states |
|---|---|---|
| OperationMerger.CreateOperation | dsl_parser/interfaces/operation_merger.py:23-42 | an operation exists exactly for a string or dict declaration; a string is the implementation and every other field takes its default; a dict gives every one of the five keys its value, or that key's default (`''`, `{}`, `None`) when absent |
| OperationMerger.AsMapping | dsl_parser/interfaces/operation_merger.py:36-42 | the dict of a merged operation has exactly the five operation keys, each holding its field |
| OperationMerger.FalsyFallback | dsl_parser/interfaces/operation_merger.py:58-89 | the fallback that `DeriveImplementation`, `DeriveRetries` and `DeriveRetryInterval` apply: implementation, retries and retry interval take the template's value only when it is truthy, else the type's; the result is truthy iff either side is |
| OperationMerger.ImplementationOverridden | dsl_parser/interfaces/operation_merger.py:92-93 | the merged implementation differs from the type's iff the template's is truthy and differs from the type's |
| OperationMerger.DeriveInputs | dsl_parser/interfaces/operation_merger.py:91-107 | a kept implementation gives the schema merge of the type's inputs (schema) with the template's inputs (instance); a changed implementation takes the template inputs untouched; only a kept implementation can fail |
| OperationMerger.DeriveExecutor | dsl_parser/interfaces/operation_merger.py:109-127 | a template executor that is not `None` always wins; a `None` one wins only when the implementation changed; otherwise the type's executor stays |
| OperationMerger.DeriveOperation | dsl_parser/interfaces/operation_merger.py:163-177 | the general case fails iff the implementation is kept and the schema merge of type inputs with template inputs fails, with that error; otherwise it gives each field's derivation |
| OperationMerger.MergeTemplateOverType | dsl_parser/interfaces/operation_merger.py:129-177 | cases in order: no type operation gives the template's verbatim; no template operation gives the type's, with inputs re-merged against `{}` and failing with that merge's error; a NO_OP template gives NO_OP; a NO_OP type gives the template's; else the derivation, failing with its error |
| OperationMerger.NodeTemplateNodeTypeMerge | dsl_parser/interfaces/operation_merger.py:50-56 | on raw declarations, with `overriding` the template's and `overridden` the type's: no type declaration gives the template's unchecked; no template declaration gives the type's re-merged against `{}`, failing with that merge's error; a NO_OP template gives NO_OP; a NO_OP type gives the template's; else the derivation, failing with its error; no operation results iff neither level declares one |
| OperationMerger.MergeTypeOverType | dsl_parser/interfaces/operation_merger.py:190-219 | the child's declaration, NO_OP included, replaces the parent's whole, and the parent's stands only when the child declares nothing |
| OperationMerger.NodeTypeNodeTypeMerge | dsl_parser/interfaces/operation_merger.py:182-188 | on raw declarations: the child's normalised declaration if it has one, else the parent's; never fails |
| OperationMerger.RelationshipTypeRelationshipTypeMerge | dsl_parser/interfaces/operation_merger.py:222-223 | the type-over-type strategy on relationship types: the child's normalised declaration if it has one, else the parent's |
| OperationMerger.RelationshipTypeRelationshipInstanceMerge | dsl_parser/interfaces/operation_merger.py:224-225 | the template-over-type strategy on a relationship instance over its type: no type declaration gives the instance's unchecked; no instance declaration gives the type's re-merged against `{}`; NO_OP precedence both ways; else the derivation, with the schema merge's error on failure |
| MergerProperties.BareStringIsImplementationOnlyMapping | dsl_parser/interfaces/operation_merger.py:27-42 | a bare string declaration equals a mapping declaring only that implementation |
| MergerProperties.MappingRoundTrip | dsl_parser/interfaces/operation_merger.py:35-42 | normalising an operation's dict gives the operation back |
| MergerProperties.TypeAbsentSkipsSchemaMerge | dsl_parser/interfaces/operation_merger.py:131-136 | with no type declaration the result is the normalised template declaration (possibly none), never fails, and does not depend on the collaborators |
| MergerProperties.NoOpTemplateWins | dsl_parser/interfaces/operation_merger.py:156-158 | a NO_OP template yields NO_OP over any type operation, absent included |
| MergerProperties.TemplateOverridesNoOpType | dsl_parser/interfaces/operation_merger.py:159-161 | any template operation over a NO_OP type operation is returned unchanged |
| MergerProperties.NoTemplateOverNoOpTypeIsSchemaChecked | dsl_parser/interfaces/operation_merger.py:138-154 | an absent template over a NO_OP type succeeds iff NO_OP's inputs merge against `{}`, because the absent check comes first |
| MergerProperties.NewImplementationSkipsSchemaMerge | dsl_parser/interfaces/operation_merger.py:91-107 | when the template changes the implementation the merge succeeds and its result does not depend on the schema merge |
| MergerProperties.FullOverrideAgreesWithTypeOverType | dsl_parser/interfaces/operation_merger.py:156-177 | a template with a new implementation and truthy retries and retry interval gives the same result as the type-over-type merger, over any type operation, NO_OP included |
| MergerProperties.TemplateOverSameTypeIsIdentity | dsl_parser/interfaces/operation_merger.py:163-177 | an operation merged over itself is unchanged when the schema merge leaves its inputs as they are |
| MergerProperties.TypeOverTypeIdempotent | dsl_parser/interfaces/operation_merger.py:190-219 | a declaration merged over itself is that declaration, normalised |
| MergerProperties.TypeOverTypeAssociative | dsl_parser/interfaces/operation_merger.py:190-219 | type-over-type merging is associative |
| DerivationChain.ResolveAlongChain | dsl_parser/interfaces/operation_merger.py:190-219 | folding type-over-type root first gives the declaration of the most specific type that declares the operation, or the inherited one if none does |
| DerivationChain.ResolveInStages | dsl_parser/interfaces/operation_merger.py:190-219 | resolving a chain equals resolving its ancestors and then its descendants over that result |

## Left out

- OperationMerger.AsMapping: claims the dict holds exactly the five operation keys. `operation_mapping` is defined outside the merger's file; the merger only shows that these five keys are present, so "no other keys" is assumed.
- `NO_OP`'s field values and the rules of `merge_schema_and_instance_inputs` are not visible. Both are parameters (`Collaborators`), and no property assumes anything about them beyond the `requires` it states.
- The hierarchy walk that applies the type-over-type merger to real types is not part of this model. `DerivationChain` shows only how the merger behaves when folded along a chain.
- Equality is Dafny's structural equality. Python's cross-type numeric equality (`True == 1 == 1.0`) is not modelled. It could matter only if an implementation or a NO_OP field held or contained a number or a boolean, since NO_OP is compared with whole operations.
- Python floats are modelled as `real`, without rounding. Only the truthiness of `retry_interval` matters to the merger.
- Python 2 `str` versus `unicode` is not modelled. A `unicode` declaration is treated like a `str` one; the source's `isinstance(raw_operation, str)` test would reject it.
- Dict keys are strings. Blueprint mappings have string keys.
- Multi-instance plan building, type property derivation, import loading and document-format validation are not modelled. They live in code outside the merger.
