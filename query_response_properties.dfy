/**
 * Properties of the `QueryResponses` integrity check, and the behaviour
 * pinned by the unit tests of query_response.rs, stated over the model.
 */
module QueryResponseProperties {
  import opened Wrappers
  import StringOrder
  import opened QueryResponse

  function RootWithoutSubschemas(): RootSchema {
    RootSchema(EmptySchemaObject)
  }

  function RootWithOneOf(alts: seq<Schema>): RootSchema {
    RootSchema(EmptySchemaObject.(subschemas := Some(SubschemaValidation(Some(alts)))))
  }

  /** An enum schema without subschemas (an enum with no variants) accepts exactly the empty map. */
  lemma NoSubschemasAcceptsOnlyEmptyMap<R>(root: RootSchema, responses: map<string, R>)
    requires root.schema.subschemas.None?
    ensures ResponseSchemas(root, responses).Success? <==> responses == map[]
    ensures ResponseSchemas(root, responses).Failure? ==>
              ResponseSchemas(root, responses).error == InconsistentQueries({}, responses.Keys)
  {
    if responses != map[] {
      var k :| k in responses;
      assert k in responses.Keys;
    }
  }

  /** An empty `oneOf` list derives no names, so only the empty map is accepted. */
  lemma EmptyOneOfGivesEmptySet<R>(root: RootSchema, responses: map<string, R>)
    requires root.schema.subschemas == Some(SubschemaValidation(Some([])))
    ensures SchemaQueries(root) == Success({})
    ensures ResponseSchemas(root, responses).Success? <==> responses == map[]
  {
    if responses != map[] {
      var k :| k in responses;
      assert k in responses.Keys;
    }
  }

  /** Subschemas without a `oneOf` list are invalid, whatever the implementer declared. */
  lemma MissingOneOfIsInvalid<R>(root: RootSchema, responses: map<string, R>)
    requires root.schema.subschemas.Some? && root.schema.subschemas.value.oneOf.None?
    ensures ResponseSchemas(root, responses) == Failure(InvalidQueryMsgSchema)
  {
  }

  /**
   * An object alternative names the first, that is the least, of its
   * required fields; more than one required field is not rejected. A
   * missing object keyword or an empty `required` set is invalid.
   */
  lemma ObjectAlternativeName(s: Schema)
    requires IntoObject(s).instanceType == Some(Single(Object))
    ensures QueryName(s).Success? <==>
              IntoObject(s).objectValidation.Some? && |IntoObject(s).objectValidation.value.required| > 0
    ensures QueryName(s).Success? ==>
              var required := IntoObject(s).objectValidation.value.required;
              && QueryName(s).value == required[0]
              && (forall x :: x in required && x != required[0] ==> StringOrder.Less(required[0], x))
              && forall j :: 0 < j < |required| ==> required[j] != required[0]
  {
    var o := IntoObject(s);
    if QueryName(s).Success? {
      var required := o.objectValidation.value.required;
      forall j | 0 < j < |required|
        ensures required[j] != required[0]
      {
        StringOrder.SortedHasNoDuplicates(required, 0, j);
      }
      forall x | x in required && x != required[0]
        ensures StringOrder.Less(required[0], x)
      {
        StringOrder.LessTotal(x, required[0]);
      }
    }
  }

  /**
   * A string alternative names its enumerated value exactly when it
   * enumerates one value and that value is a JSON string.
   */
  lemma StringAlternativeName(s: Schema)
    requires IntoObject(s).instanceType == Some(Single(String))
    ensures QueryName(s).Success? <==>
              && IntoObject(s).enumValues.Some?
              && |IntoObject(s).enumValues.value| == 1
              && IntoObject(s).enumValues.value[0].JStr?
    ensures QueryName(s).Success? ==> QueryName(s).value == IntoObject(s).enumValues.value[0].str
  {
  }

  /** Every other shape (no type, a list of types, any other single type) is invalid. */
  lemma OtherAlternativeRejected(s: Schema)
    requires IntoObject(s).instanceType != Some(Single(Object))
    requires IntoObject(s).instanceType != Some(Single(String))
    ensures QueryName(s) == Failure(InvalidQueryMsgSchema)
  {
  }

  /** One alternative that names nothing fails the whole check before the sets are compared. */
  lemma BadAlternativeFailsWholeCheck<R>(root: RootSchema, responses: map<string, R>, i: nat)
    requires root.schema.subschemas.Some? && root.schema.subschemas.value.oneOf.Some?
    requires i < |root.schema.subschemas.value.oneOf.value|
    requires QueryName(root.schema.subschemas.value.oneOf.value[i]).Failure?
    ensures ResponseSchemas(root, responses) == Failure(InvalidQueryMsgSchema)
  {
    var alts := root.schema.subschemas.value.oneOf.value;
    assert alts[i] in alts;
  }

  /** The collected names depend only on which alternatives occur, not on their order or repetition. */
  lemma CollectNamesIgnoresOrderAndDuplicates(alts: seq<Schema>, alts': seq<Schema>)
    requires forall a :: a in alts <==> a in alts'
    ensures CollectNames(alts) == CollectNames(alts')
  {
    var r, r' := CollectNames(alts), CollectNames(alts');
    if r.Success? {
      assert r.value == r'.value;
    }
  }

  /** Hence reordering or duplicating `oneOf` alternatives does not change the verdict. */
  lemma ReorderingAlternativesKeepsVerdict<R>(root: RootSchema, alts: seq<Schema>, alts': seq<Schema>,
                                              responses: map<string, R>)
    requires root.schema.subschemas == Some(SubschemaValidation(Some(alts)))
    requires forall a :: a in alts <==> a in alts'
    ensures ResponseSchemas(root, responses) ==
              ResponseSchemas(root.(schema := root.schema.(subschemas := Some(SubschemaValidation(Some(alts'))))), responses)
  {
    CollectNamesIgnoresOrderAndDuplicates(alts, alts');
  }

  /** On success every declared key is the name of some alternative of the enum's schema. */
  lemma SuccessKeysAreNamed<R>(root: RootSchema, responses: map<string, R>)
    requires ResponseSchemas(root, responses).Success?
    ensures forall k :: k in ResponseSchemas(root, responses).value ==>
              exists a :: a in Alternatives(root) && Names(IntoObject(a), k)
  {
    var names := SchemaQueries(root).value;
    assert names == responses.Keys;
    forall k | k in responses
      ensures exists a :: a in Alternatives(root) && Names(IntoObject(a), k)
    {
      assert k in names;
      var a :| a in Alternatives(root) && QueryName(a) == Success(k);
      assert Names(IntoObject(a), k);
    }
  }

  /** On success every alternative of the enum's schema names a declared key. */
  lemma SuccessAlternativesAreDeclared<R>(root: RootSchema, responses: map<string, R>)
    requires ResponseSchemas(root, responses).Success?
    ensures forall a :: a in Alternatives(root) ==>
              exists k :: k in ResponseSchemas(root, responses).value && Names(IntoObject(a), k)
  {
    var names := SchemaQueries(root).value;
    assert names == responses.Keys;
    forall a | a in Alternatives(root)
      ensures exists k :: k in responses && Names(IntoObject(a), k)
    {
      assert QueryName(a).Success?;
      assert QueryName(a).value in names;
    }
  }

  /** A mismatch is reported with the schema's names and the declared names, in that order. */
  lemma MismatchReportsBothSets<R>(root: RootSchema, responses: map<string, R>)
    requires SchemaQueries(root).Success?
    requires SchemaQueries(root).value != responses.Keys
    ensures ResponseSchemas(root, responses) ==
              Failure(InconsistentQueries(SchemaQueries(root).value, responses.Keys))
  {
  }

  // ---- The unit tests of query_response.rs, on the schemas the generator produces for them ----

  /** Response schemas are never inspected; any value stands for one. */
  datatype ResponseSchema = U128Schema

  function ObjectVariant(name: string): Schema {
    ObjectSchema(EmptySchemaObject.(
      instanceType := Some(Single(Object)),
      objectValidation := Some(ObjectValidation([name]))))
  }

  function UnitVariant(name: string): Schema {
    ObjectSchema(EmptySchemaObject.(
      instanceType := Some(Single(String)),
      enumValues := Some([JStr(name)])))
  }

  lemma ObjectVariantNamesItself(name: string)
    ensures QueryName(ObjectVariant(name)) == Success(name)
  {
  }

  lemma UnitVariantNamesItself(name: string)
    ensures QueryName(UnitVariant(name)) == Success(name)
  {
  }

  /** Alternatives whose names are known collect to the set of those names. */
  lemma {:induction false} CollectKnownNames(alts: seq<Schema>, names: seq<string>)
    requires |alts| == |names|
    requires forall i :: 0 <= i < |alts| ==> QueryName(alts[i]) == Success(names[i])
    ensures CollectNames(alts) == Success(set n | n in names)
  {
    if alts != [] {
      assert QueryName(alts[0]) == Success(names[0]);
      assert forall i :: 0 <= i < |alts[1..]| ==> QueryName(alts[1..][i]) == Success(names[1..][i]) by {
        forall i | 0 <= i < |alts[1..]|
          ensures QueryName(alts[1..][i]) == Success(names[1..][i])
        {
          assert alts[1..][i] == alts[i + 1] && names[1..][i] == names[i + 1];
        }
      }
      CollectKnownNames(alts[1..], names[1..]);
      assert (set n | n in names) == {names[0]} + (set n | n in names[1..]);
      assert CollectNames(alts) == Success({names[0]} + (set n | n in names[1..]));
    } else {
      assert (set n | n in names) == {};
    }
  }

  /** Alternatives with known names are accepted against a map whose keys are exactly those names. */
  lemma KnownNamesAccepted<R>(alts: seq<Schema>, names: seq<string>, responses: map<string, R>)
    requires |alts| == |names|
    requires forall i :: 0 <= i < |alts| ==> QueryName(alts[i]) == Success(names[i])
    requires responses.Keys == set n | n in names
    ensures ResponseSchemas(RootWithOneOf(alts), responses) == Success(responses)
  {
    CollectKnownNames(alts, names);
  }

  /** The shape of `GoodMsg`, for any names the variants are renamed to. */
  lemma GoodMsgShapeAccepted<R>(liquidity: string, balanceFor: string, accountIdFor: string,
                                supply: string, accountCount: string, response: R)
    ensures
      var responses := map[
        balanceFor := response, accountIdFor := response, supply := response,
        liquidity := response, accountCount := response];
      var root := RootWithOneOf([
        UnitVariant(liquidity), ObjectVariant(balanceFor), ObjectVariant(accountIdFor),
        ObjectVariant(supply), ObjectVariant(accountCount)]);
      ResponseSchemas(root, responses) == Success(responses)
  {
    var alts := [
      UnitVariant(liquidity), ObjectVariant(balanceFor), ObjectVariant(accountIdFor),
      ObjectVariant(supply), ObjectVariant(accountCount)];
    var names := [liquidity, balanceFor, accountIdFor, supply, accountCount];
    UnitVariantNamesItself(liquidity);
    ObjectVariantNamesItself(balanceFor);
    ObjectVariantNamesItself(accountIdFor);
    ObjectVariantNamesItself(supply);
    ObjectVariantNamesItself(accountCount);
    assert QueryName(alts[0]) == Success(names[0]);
    assert QueryName(alts[1]) == Success(names[1]);
    assert QueryName(alts[2]) == Success(names[2]);
    assert QueryName(alts[3]) == Success(names[3]);
    assert QueryName(alts[4]) == Success(names[4]);
    var responses := map[
      balanceFor := response, accountIdFor := response, supply := response,
      liquidity := response, accountCount := response];
    assert (set n | n in names) == {liquidity, balanceFor, accountIdFor, supply, accountCount};
    KnownNamesAccepted(alts, names, responses);
  }

  /** `GoodMsg`: struct-like, tuple-like, empty struct-like, unit and empty tuple-like variants. */
  lemma GoodMsgWorks()
    ensures
      var responses := map[
        "balance_for" := U128Schema, "account_id_for" := U128Schema, "supply" := U128Schema,
        "liquidity" := U128Schema, "account_count" := U128Schema];
      var root := RootWithOneOf([
        UnitVariant("liquidity"), ObjectVariant("balance_for"), ObjectVariant("account_id_for"),
        ObjectVariant("supply"), ObjectVariant("account_count")]);
      ResponseSchemas(root, responses) == Success(responses)
  {
    GoodMsgShapeAccepted("liquidity", "balance_for", "account_id_for", "supply", "account_count", U128Schema);
  }

  /** `EmptyMsg`: an enum without variants and an empty map. */
  lemma EmptyMsgWorks()
    ensures ResponseSchemas<ResponseSchema>(RootWithoutSubschemas(), map[]) == Success(map[])
  {
  }

  /** A single variant whose name differs from the single key is reported with both names. */
  lemma RenamedVariantRejected<R>(variant: string, key: string, response: R)
    requires variant != key
    ensures ResponseSchemas(RootWithOneOf([ObjectVariant(variant)]), map[key := response]) ==
              Failure(InconsistentQueries({variant}, {key}))
  {
    ObjectVariantNamesItself(variant);
    CollectKnownNames([ObjectVariant(variant)], [variant]);
    assert (set n | n in [variant]) == {variant};
    assert map[key := response].Keys == {key};
  }

  /** `BadMsg`: a kebab-case variant name against a snake-case key. */
  lemma BadMsgFails()
    ensures ResponseSchemas(RootWithOneOf([ObjectVariant("balance-for")]), map["balance_for" := U128Schema]) ==
              Failure(InconsistentQueries({"balance-for"}, {"balance_for"}))
  {
    assert "balance-for" != "balance_for" by {
      assert "balance-for"[7] != "balance_for"[7];
    }
    RenamedVariantRejected("balance-for", "balance_for", U128Schema);
  }

  /**
   * An object alternative with two required fields is not rejected: the
   * smaller one is taken as the query name.
   */
  lemma TwoRequiredFieldsTakesTheSmaller()
    ensures
      var alt := ObjectSchema(EmptySchemaObject.(
        instanceType := Some(Single(Object)),
        objectValidation := Some(ObjectValidation(["amount", "owner"]))));
      QueryName(alt) == Success("amount")
  {
    assert StringOrder.StrictlySorted(["amount", "owner"]) by {
      assert StringOrder.Less("amount", "owner");
    }
  }
}
