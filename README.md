# CosmWasm schema: query/response integrity check and `#[cw_serde]`

A Dafny model of two build-time pieces of the CosmWasm schema packages.

- **`QueryResponses::response_schemas`** (`packages/schema/src/query_response.rs`).
  The contract's query message enum is reflected into a JSON schema. Separately, the implementer
  supplies a map from query name to response schema. The check derives one query name per `oneOf`
  alternative of the enum's schema:
  - an object alternative gives the first (least) element of its `required` set;
  - a string alternative gives its single enumerated string value;
  - any other shape is `InvalidQueryMsgSchema`.

  The check then accepts the map, unchanged, only when its key set equals the derived set.
  Otherwise it reports `InconsistentQueries` with both sets.
- **`cw_serde_impl`** (`packages/schema-derive/src/cw_serde.rs`). It puts a fixed derive list,
  a clippy allow and `serde(deny_unknown_fields)` in front of a struct or enum. An enum also gets
  `rename_all = "snake_case"`. A union panics. The definition itself is reproduced unchanged.

Both source files are pure, so the model is made of datatypes, functions and lemmas:

- `wrappers.dfy`: `Option` and `Result`, standing in for Rust's.
- `string_order.dfy`: the order of Rust `String`s, which is lexicographic on Unicode scalar values.
  It is proved irreflexive, asymmetric and total. The iteration order of a `BTreeSet<String>` is
  ascending in it.
- `query_response.dfy`: the schema tree as far as the check reads it, and the check itself.
  - `Names` is a declarative reference definition of what an alternative names.
    `QueryName` is proved to agree with it, and `NamesIsFunctional` proves an alternative names at
    most one query.
  - `required` is a strictly sorted `seq<string>` (the set's iteration order). `.into_iter().next()`
    is its element 0.
- `query_response_properties.dfy`: the properties of the check and the unit tests of
  query_response.rs.
- `cw_serde.dfy`, `cw_serde_properties.dfy`: the attribute rewrite, its properties and its unit tests.

Two behaviours of the code worth noting:

- An object alternative with more than one required field is not rejected. The code takes the
  smallest field name (`TwoRequiredFieldsTakesTheSmaller`). A tuple variant with several fields
  passes for a different reason: the schema generator lays it out as an object whose single
  required key is the variant name.
- A schema with no subschemas gives the empty name set. Subschemas present but without `oneOf` is
  `InvalidQueryMsgSchema` (`MissingOneOfIsInvalid`). An empty `oneOf` list also gives the empty set
  (`EmptyOneOfGivesEmptySet`).

## Model

| member | source | states |
|---|---|---|
| `QueryResponse.IntoObject` | packages/schema/src/query_response.rs:62 | a boolean schema becomes an object without an instance type; an object schema is kept as it is |
| `QueryResponse.NamesIsFunctional` | packages/schema/src/query_response.rs:64-87 | an alternative names at most one query (the least required field is unique; a string alternative enumerates one value) |
| `QueryResponse.QueryName` | packages/schema/src/query_response.rs:61-93 | success returns a name the alternative names by the reference definition; failure is always `InvalidQueryMsgSchema` and happens only when the alternative names nothing |
| `QueryResponse.CollectNames` | packages/schema/src/query_response.rs:60-94 | collecting succeeds exactly when every alternative succeeds; the result is exactly the set of names the alternatives yield; failure is `InvalidQueryMsgSchema` |
| `QueryResponse.SchemaQueries` | packages/schema/src/query_response.rs:56-96 | succeeds exactly when there are no subschemas, or `oneOf` is present and every alternative names something; the derived name set is then exactly the names of the `oneOf` alternatives (empty without subschemas); failure is `InvalidQueryMsgSchema` |
| `QueryResponse.CheckApiIntegrity` | packages/schema/src/query_response.rs:49-106 | succeeds exactly when the derived set equals the declared set; structural errors come first; a mismatch carries the derived set and the declared set |
| `QueryResponse.ResponseSchemas` | packages/schema/src/query_response.rs:35-43 | succeeds exactly when the derived names equal the map's key set, and then returns the map unchanged; any failure is the integrity check's failure |
| `StringOrder.LessIrreflexive` | packages/schema/src/query_response.rs:70-72 | no string sorts before itself under the `String` ordering that orders a `BTreeSet<String>` |
| `StringOrder.LessAsymmetric` | packages/schema/src/query_response.rs:70-72 | if one string sorts before another, the other does not sort before it |
| `StringOrder.LessTotal` | packages/schema/src/query_response.rs:70-72 | of two different strings, one sorts before the other |
| `StringOrder.FirstIsLeast` | packages/schema/src/query_response.rs:70-72 | the first element of a `BTreeSet<String>` in iteration order is its least element |
| `StringOrder.SortedHasNoDuplicates` | packages/schema/src/query_response.rs:70 | a set kept in strictly ascending order holds no element twice |
| `StringOrder.LeastIsUnique` | packages/schema/src/query_response.rs:70-72 | a set of strings has at most one least element |
| `QueryResponseProperties.NoSubschemasAcceptsOnlyEmptyMap` | packages/schema/src/query_response.rs:95-105 | without subschemas the check succeeds exactly for the empty map, and otherwise reports `{}` against the map's keys |
| `QueryResponseProperties.EmptyOneOfGivesEmptySet` | packages/schema/src/query_response.rs:57-94 | an empty `oneOf` list collects to the empty name set, so exactly the empty map is accepted |
| `QueryResponseProperties.MissingOneOfIsInvalid` | packages/schema/src/query_response.rs:57-59 | subschemas without `oneOf` give `InvalidQueryMsgSchema` whatever the map holds |
| `QueryResponseProperties.ObjectAlternativeName` | packages/schema/src/query_response.rs:64-73 | an object alternative succeeds exactly when `object` is present with a non-empty `required`, and then yields its first element, strictly below every other required field and occurring there once |
| `QueryResponseProperties.StringAlternativeName` | packages/schema/src/query_response.rs:75-87 | a string alternative succeeds exactly when `enum` is present, has exactly one value and that value is a JSON string, and then yields that string |
| `QueryResponseProperties.OtherAlternativeRejected` | packages/schema/src/query_response.rs:88-92 | any other single type, a list of types or no type gives `InvalidQueryMsgSchema` |
| `QueryResponseProperties.BadAlternativeFailsWholeCheck` | packages/schema/src/query_response.rs:61-94 | one failing alternative makes the whole check `InvalidQueryMsgSchema`, whatever the map holds |
| `QueryResponseProperties.CollectNamesIgnoresOrderAndDuplicates` | packages/schema/src/query_response.rs:60-94 | two alternative lists with the same elements collect to the same result |
| `QueryResponseProperties.ReorderingAlternativesKeepsVerdict` | packages/schema/src/query_response.rs:56-105 | reordering or duplicating `oneOf` alternatives does not change the verdict |
| `QueryResponseProperties.SuccessKeysAreNamed` | packages/schema/src/query_response.rs:98-105 | on success every key of the returned map is named by some alternative of the enum's schema |
| `QueryResponseProperties.SuccessAlternativesAreDeclared` | packages/schema/src/query_response.rs:98-105 | on success every alternative of the enum's schema names a key of the returned map |
| `QueryResponseProperties.MismatchReportsBothSets` | packages/schema/src/query_response.rs:98-102 | when the derived set differs from the keys, the error is `InconsistentQueries(derived, keys)` |
| `QueryResponseProperties.CollectKnownNames` | packages/schema/src/query_response.rs:60-94 | alternatives with known names collect to exactly the set of those names |
| `QueryResponseProperties.KnownNamesAccepted` | packages/schema/src/query_response.rs:98-105 | alternatives with known names are accepted against a map whose keys are exactly those names, and the map is returned |
| `QueryResponseProperties.GoodMsgShapeAccepted` | packages/schema/src/query_response.rs:130-148 | an enum shaped like `GoodMsg` (one unit variant, four object variants) is accepted with a map holding its five names |
| `QueryResponseProperties.GoodMsgWorks` | packages/schema/src/query_response.rs:150-163 | `GoodMsg` with its snake-case keys succeeds and returns the map unchanged |
| `QueryResponseProperties.EmptyMsgWorks` | packages/schema/src/query_response.rs:176-180 | an enum without variants and an empty map succeed with the empty map |
| `QueryResponseProperties.RenamedVariantRejected` | packages/schema/src/query_response.rs:98-102 | a one-variant enum whose name differs from the map's single key fails with both singletons |
| `QueryResponseProperties.BadMsgFails` | packages/schema/src/query_response.rs:195-205 | `balance-for` against `balance_for` gives `InconsistentQueries({"balance-for"}, {"balance_for"})` |
| `QueryResponseProperties.TwoRequiredFieldsTakesTheSmaller` | packages/schema/src/query_response.rs:67-73 | an object alternative with required fields `amount` and `owner` yields `amount` |
| `CwSerde.AddedAttributes` | packages/schema-derive/src/cw_serde.rs:5-30 | the bundle is the derive list, the clippy allow and a serde attribute with `deny_unknown_fields`; it contains `rename_all = "snake_case"` exactly for an enum |
| `CwSerde.CwSerdeImpl` | packages/schema-derive/src/cw_serde.rs:3-33 | fails exactly for a union, with "unions are not supported"; otherwise the bundle of the input's kind comes first and removing it gives back the input |
| `CwSerdeProperties.StructGetsStrictBundle` | packages/schema-derive/src/cw_serde.rs:5-17 | a struct gets the derive list, the allow and `serde(deny_unknown_fields)` in front of its own attributes, and no `rename_all` |
| `CwSerdeProperties.EnumGetsSnakeCaseBundle` | packages/schema-derive/src/cw_serde.rs:18-30 | an enum gets the same bundle with `serde(deny_unknown_fields, rename_all = "snake_case")` |
| `CwSerdeProperties.BundlesDifferOnlyInRenameAll` | packages/schema-derive/src/cw_serde.rs:6-28 | the struct and enum bundles share the derive list and the allow; the enum's serde options are the struct's plus `rename_all` |
| `CwSerdeProperties.DefinitionPassedThrough` | packages/schema-derive/src/cw_serde.rs:16-29 | visibility, name, generics, fields or variants and the existing attributes come out unchanged |
| `CwSerdeProperties.UnionIsRejected` | packages/schema-derive/src/cw_serde.rs:31 | a union never yields a definition and fails with "unions are not supported" |
| `CwSerdeProperties.StructsTest` | packages/schema-derive/src/cw_serde.rs:39-66 | `InstantiateMsg` with two fields gets exactly the struct bundle |
| `CwSerdeProperties.EmptyStructTest` | packages/schema-derive/src/cw_serde.rs:68-89 | an empty struct gets exactly the struct bundle |
| `CwSerdeProperties.EnumsTest` | packages/schema-derive/src/cw_serde.rs:91-122 | `SudoMsg` gets exactly the enum bundle with its variant unchanged |
| `CwSerdeProperties.UnionsTest` | packages/schema-derive/src/cw_serde.rs:124-133 | a union fails with "unions are not supported" |

## Left out

- `schema_for!` and the schemars schema generator are external. The enum's generated schema is an input (`RootSchema`).
- `response_schemas_impl` is the implementer's code. Its map is an input of `ResponseSchemas`.
- Response schemas are never inspected. They are an opaque type parameter `R`.
- JSON values are modelled only as far as `Value::as_str` distinguishes them: a string or anything else.
- Schema keywords the check never reads are not modelled. That covers `allOf`, `anyOf`, `not`, properties, definitions and metadata. So the `not` subschema that a `false` boolean schema turns into is absent; `into_object` still yields no instance type, so such an alternative is rejected as in the code.
- The `thiserror` display strings of `IntegrityError` are formatting only.
- `syn`/`quote` token handling is not modelled. Attributes the macro adds are structured values; fields, variants and generics are opaque type parameters. The comment on the allow attribute is not part of the token stream.
- How serde's `rename_all` converts names to snake or kebab case happens inside the schema generator. The check only sees the resulting strings.
- The panic on a union is modelled as a `Failure` carrying the panic message.
- The tests build schemas the way the generator lays out an externally tagged enum. In `GoodMsg` the one unit variant is a string alternative and the others are object alternatives keyed by the variant name. The generator's grouping itself is not modelled.
