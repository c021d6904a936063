/**
 * Properties of `#[cw_serde]`, and the behaviour pinned by the unit tests
 * of cw_serde.rs, stated over the model.
 */
module CwSerdeProperties {
  import opened Wrappers
  import opened CwSerde

  /** A struct gets the derive list, the clippy allow and `deny_unknown_fields`, with no renaming. */
  lemma StructGetsStrictBundle<G, F>(input: TypeDef<G, F>)
    requires input.data.Struct?
    ensures CwSerdeImpl(input) ==
              Success(input.(attrs := [Derive(StandardDerives), ClippyAllow, Serde([DenyUnknownFields])] + input.attrs))
    ensures forall rule :: RenameAll(rule) !in CwSerdeImpl(input).value.attrs[2].options
  {
  }

  /** An enum gets the same bundle, with `rename_all = "snake_case"` added to the serde options. */
  lemma EnumGetsSnakeCaseBundle<G, F>(input: TypeDef<G, F>)
    requires input.data.Enum?
    ensures CwSerdeImpl(input) ==
              Success(input.(attrs :=
                [Derive(StandardDerives), ClippyAllow, Serde([DenyUnknownFields, RenameAll("snake_case")])] + input.attrs))
  {
  }

  /** The struct and enum bundles agree on the derive list and the allow; they differ only by `rename_all`. */
  lemma BundlesDifferOnlyInRenameAll<F>(fields: F, variants: F)
    ensures AddedAttributes(Struct(fields))[..2] == AddedAttributes(Enum(variants))[..2]
    ensures AddedAttributes(Enum(variants))[2].options ==
              AddedAttributes(Struct(fields))[2].options + [RenameAll("snake_case")]
  {
  }

  /** Name, visibility, generics, body and existing attributes are passed through unchanged. */
  lemma DefinitionPassedThrough<G, F>(input: TypeDef<G, F>)
    requires CwSerdeImpl(input).Success?
    ensures
      var out := CwSerdeImpl(input).value;
      && out.vis == input.vis && out.ident == input.ident
      && out.generics == input.generics && out.data == input.data
      && out.attrs[3..] == input.attrs
  {
    assert Original(CwSerdeImpl(input).value) == input;
  }

  /** A union never produces a definition. */
  lemma UnionIsRejected<G, F>(input: TypeDef<G, F>)
    requires input.data.Union?
    ensures CwSerdeImpl(input) == Failure("unions are not supported")
  {
  }

  // ---- The unit tests of cw_serde.rs ----

  /** A named field: its name and its type, as written. */
  datatype Field = Field(name: string, ty: string)

  /** `structs`: a struct with two fields. */
  lemma StructsTest()
    ensures
      var input: TypeDef<seq<string>, seq<Field>> := TypeDef([], Public, "InstantiateMsg", [],
                           Struct([Field("verifier", "String"), Field("beneficiary", "String")]));
      CwSerdeImpl(input) == Success(TypeDef(
        [Derive(["serde::Serialize", "serde::Deserialize", "Clone", "Debug", "PartialEq", "schemars::JsonSchema"]),
         Allow(["clippy::derive_partial_eq_without_eq"]),
         Serde([DenyUnknownFields])],
        Public, "InstantiateMsg", [], Struct([Field("verifier", "String"), Field("beneficiary", "String")])))
  {
    var bundle := [Derive(StandardDerives), ClippyAllow, Serde([DenyUnknownFields])];
    assert bundle + [] == bundle;
  }

  /** `empty_struct`: a struct with no fields. */
  lemma EmptyStructTest()
    ensures
      var input: TypeDef<seq<string>, seq<Field>> := TypeDef([], Public, "InstantiateMsg", [], Struct([]));
      CwSerdeImpl(input) == Success(TypeDef(
        [Derive(StandardDerives), ClippyAllow, Serde([DenyUnknownFields])],
        Public, "InstantiateMsg", [], Struct([])))
  {
    var bundle := [Derive(StandardDerives), ClippyAllow, Serde([DenyUnknownFields])];
    assert bundle + [] == bundle;
  }

  /** A variant: its name and its named fields. */
  datatype Variant = Variant(name: string, fields: seq<Field>)

  /** `enums`: an enum with one struct-like variant. */
  lemma EnumsTest()
    ensures
      var variants := [Variant("StealFunds", [Field("recipient", "String"), Field("amount", "Vec<Coin>")])];
      var input: TypeDef<seq<string>, seq<Variant>> := TypeDef([], Public, "SudoMsg", [], Enum(variants));
      CwSerdeImpl(input) == Success(TypeDef(
        [Derive(StandardDerives), ClippyAllow, Serde([DenyUnknownFields, RenameAll("snake_case")])],
        Public, "SudoMsg", [], Enum(variants)))
  {
    var bundle := [Derive(StandardDerives), ClippyAllow, Serde([DenyUnknownFields, RenameAll("snake_case")])];
    assert bundle + [] == bundle;
  }

  /** `unions`: a union panics with the fixed message. */
  lemma UnionsTest()
    ensures
      var input: TypeDef<seq<string>, seq<Field>> :=
        TypeDef([], Public, "SudoMsg", [], Union([Field("x", "u32"), Field("y", "u32")]));
      CwSerdeImpl(input) == Failure("unions are not supported")
  {
  }
}
