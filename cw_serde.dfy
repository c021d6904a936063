/**
 * The `#[cw_serde]` attribute macro: it prepends a fixed bundle of
 * attributes to a struct or enum definition and otherwise reproduces the
 * definition unchanged. Rust syntax trees are modelled abstractly: the
 * attributes the macro adds are structured values, everything it only
 * passes through is kept opaque.
 */
module CwSerde {
  import opened Wrappers

  /** The body of a type definition; `F` stands for its fields or variants. */
  datatype Data<F> = Struct(fields: F) | Enum(variants: F) | Union(unionFields: F)

  datatype SerdeOption = DenyUnknownFields | RenameAll(rule: string)

  /** An outer attribute. `Other` is any attribute the macro does not produce, kept as text. */
  datatype Attribute =
    | Derive(traits: seq<string>)
    | Allow(lints: seq<string>)
    | Serde(options: seq<SerdeOption>)
    | Other(text: string)

  datatype Visibility = Public | Crate | Restricted(path: string) | Inherited

  /** A parsed `struct`, `enum` or `union` definition; `G` stands for its generics. */
  datatype TypeDef<G, F> = TypeDef(attrs: seq<Attribute>, vis: Visibility, ident: string, generics: G, data: Data<F>)

  /** The traits derived on every `#[cw_serde]` type. */
  const StandardDerives: seq<string> :=
    ["serde::Serialize", "serde::Deserialize", "Clone", "Debug", "PartialEq", "schemars::JsonSchema"]

  /** Lets users skip `Eq` without a clippy warning. */
  const ClippyAllow: Attribute := Allow(["clippy::derive_partial_eq_without_eq"])

  const UnionsUnsupported: string := "unions are not supported"

  /** The attributes the macro puts in front of a definition of the given kind. */
  function AddedAttributes<F>(data: Data<F>): (r: seq<Attribute>)
    requires !data.Union?
    ensures |r| == 3 && r[0] == Derive(StandardDerives) && r[1] == ClippyAllow && r[2].Serde?
    ensures DenyUnknownFields in r[2].options
    ensures RenameAll("snake_case") in r[2].options <==> data.Enum?
  {
    match data
    case Struct(_) => [Derive(StandardDerives), ClippyAllow, Serde([DenyUnknownFields])]
    case Enum(_) => [Derive(StandardDerives), ClippyAllow, Serde([DenyUnknownFields, RenameAll("snake_case")])]
  }

  /** The definition a rewritten definition was made from: the added attributes removed again. */
  function Original<G, F>(rewritten: TypeDef<G, F>): TypeDef<G, F>
    requires |rewritten.attrs| >= 3
  {
    rewritten.(attrs := rewritten.attrs[3..])
  }

  /**
   * `cw_serde_impl`. A union panics, modelled as `Failure` carrying the
   * panic message; a struct or enum gets the attribute bundle of its kind
   * in front of its own attributes and is otherwise reproduced unchanged,
   * so removing the bundle again gives back the input.
   */
  function CwSerdeImpl<G, F>(input: TypeDef<G, F>): (r: Result<TypeDef<G, F>, string>)
    ensures r.Failure? <==> input.data.Union?
    ensures r.Failure? ==> r.error == UnionsUnsupported
    ensures r.Success? ==> |r.value.attrs| == |input.attrs| + 3 && Original(r.value) == input
    ensures r.Success? ==> r.value.attrs[..3] == AddedAttributes(input.data)
  {
    match input.data
    case Struct(_) => Success(input.(attrs := AddedAttributes(input.data) + input.attrs))
    case Enum(_) => Success(input.(attrs := AddedAttributes(input.data) + input.attrs))
    case Union(_) => Failure(UnionsUnsupported)
  }
}
