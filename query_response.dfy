/**
 * The `QueryResponses` integrity check of the CosmWasm schema package.
 *
 * A contract's query message enum is reflected into a JSON schema by the
 * external schema generator; the implementer separately supplies a map from
 * query name to response schema. `ResponseSchemas` recovers one query name
 * per `oneOf` alternative of the enum's schema and accepts the map only when
 * its key set is exactly the set of recovered names.
 *
 * Only the parts of the JSON schema tree that the check reads are modelled.
 */
module QueryResponse {
  import opened Wrappers
  import StringOrder

  /** A JSON value, as far as `Value::as_str` can tell: a string or anything else. */
  datatype JsonValue = JStr(str: string) | JOther

  /** The JSON schema `type` keywords. */
  datatype InstanceType = Null | Boolean | Object | Array | Number | String | Integer

  /** The `type` keyword holds either one instance type or a list of them. */
  datatype SingleOrVec = Single(ty: InstanceType) | Vec(tys: seq<InstanceType>)

  /** The `required` keyword of an object schema: a `BTreeSet<String>`, kept in its iteration order. */
  type RequiredFields = s: seq<string> | StringOrder.StrictlySorted(s)

  datatype ObjectValidation = ObjectValidation(required: RequiredFields)

  /** Subschema combinators; of these only `oneOf` is read by the check. */
  datatype SubschemaValidation = SubschemaValidation(oneOf: Option<seq<Schema>>)

  /** The keywords of a schema object that the check reads. */
  datatype SchemaObject = SchemaObject(
    instanceType: Option<SingleOrVec>,
    objectValidation: Option<ObjectValidation>,
    enumValues: Option<seq<JsonValue>>,
    subschemas: Option<SubschemaValidation>)

  /** A schema is either a boolean schema (`true`/`false`) or a schema object. */
  datatype Schema = BoolSchema(b: bool) | ObjectSchema(obj: SchemaObject)

  /** The generated schema of the query message enum; only its top-level schema object is read. */
  datatype RootSchema = RootSchema(schema: SchemaObject)

  datatype IntegrityError =
    | InvalidQueryMsgSchema
    | InconsistentQueries(queryMsg: set<string>, responses: set<string>)

  const EmptySchemaObject := SchemaObject(None, None, None, None)

  /** `Schema::into_object`: a boolean schema becomes an object with no keywords the check reads. */
  function IntoObject(s: Schema): (o: SchemaObject)
    ensures s.BoolSchema? ==> o.instanceType.None?
    ensures s.ObjectSchema? ==> o == s.obj
  {
    match s
    case BoolSchema(_) => EmptySchemaObject
    case ObjectSchema(obj) => obj
  }

  /**
   * Reference definition of what a `oneOf` alternative names, independent of
   * how the check computes it: an object alternative names the least of its
   * required fields; a string alternative names the one string it enumerates.
   */
  ghost predicate Names(o: SchemaObject, name: string) {
    || (&& o.instanceType == Some(Single(Object))
        && o.objectValidation.Some?
        && name in o.objectValidation.value.required
        && forall x :: x in o.objectValidation.value.required ==> !StringOrder.Less(x, name))
    || (&& o.instanceType == Some(Single(String))
        && o.enumValues == Some([JStr(name)]))
  }

  /** An alternative names at most one query. */
  lemma NamesIsFunctional(o: SchemaObject, n1: string, n2: string)
    requires Names(o, n1) && Names(o, n2)
    ensures n1 == n2
  {
    if o.instanceType == Some(Single(Object)) {
      StringOrder.LeastIsUnique(o.objectValidation.value.required, n1, n2);
    }
  }

  /**
   * The query name of one `oneOf` alternative (the closure mapped over the
   * alternatives). It succeeds exactly when the alternative names something,
   * and then returns that name.
   */
  function QueryName(s: Schema): (r: Result<string, IntegrityError>)
    ensures r.Success? ==> Names(IntoObject(s), r.value)
    ensures r.Failure? ==> r.error == InvalidQueryMsgSchema && forall n :: !Names(IntoObject(s), n)
  {
    var o := IntoObject(s);
    match o.instanceType
    case Some(Single(Object)) =>
      (match o.objectValidation
       case None => Failure(InvalidQueryMsgSchema)
       case Some(v) =>
         if |v.required| == 0 then Failure(InvalidQueryMsgSchema)
         else
           StringOrder.FirstIsLeast(v.required);
           Success(v.required[0]))
    case Some(Single(String)) =>
      (match o.enumValues
       case None => Failure(InvalidQueryMsgSchema)
       case Some(values) =>
         if |values| != 1 then Failure(InvalidQueryMsgSchema)
         else
           assert values == [values[0]];
           match values[0]
           case JStr(name) => Success(name)
           case JOther => Failure(InvalidQueryMsgSchema))
    case _ => Failure(InvalidQueryMsgSchema)
  }

  /**
   * `collect::<Result<BTreeSet<_>, _>>()` over the alternatives: the first
   * failing alternative fails the whole collection, otherwise the result is
   * the set of all names.
   */
  function CollectNames(alts: seq<Schema>): (r: Result<set<string>, IntegrityError>)
    ensures r.Failure? ==> r.error == InvalidQueryMsgSchema
    ensures r.Success? <==> forall a :: a in alts ==> QueryName(a).Success?
    ensures r.Success? ==> forall n :: n in r.value <==> exists a :: a in alts && QueryName(a) == Success(n)
    decreases |alts|
  {
    if alts == [] then Success({})
    else
      match QueryName(alts[0])
      case Failure(e) => Failure(e)
      case Success(name) =>
        match CollectNames(alts[1..])
        case Failure(e) => Failure(e)
        case Success(rest) =>
          assert forall a :: a in alts <==> a == alts[0] || a in alts[1..];
          Success({name} + rest)
  }

  /** The `oneOf` alternatives of the enum's schema, or none when it has no subschemas. */
  function Alternatives(root: RootSchema): seq<Schema> {
    match root.schema.subschemas
    case None => []
    case Some(sub) => if sub.oneOf.Some? then sub.oneOf.value else []
  }

  /**
   * The set of query names derived from the enum's schema: empty when there
   * are no subschemas (an enum without variants), invalid when there are
   * subschemas but no `oneOf`, otherwise the collected names.
   */
  function SchemaQueries(root: RootSchema): (r: Result<set<string>, IntegrityError>)
    ensures r.Success? <==>
              || root.schema.subschemas.None?
              || (&& root.schema.subschemas.value.oneOf.Some?
                  && forall a :: a in root.schema.subschemas.value.oneOf.value ==> QueryName(a).Success?)
    ensures r.Failure? ==> r.error == InvalidQueryMsgSchema
    ensures r.Success? ==> forall n :: n in r.value <==> exists a :: a in Alternatives(root) && QueryName(a) == Success(n)
  {
    match root.schema.subschemas
    case None => Success({})
    case Some(sub) =>
      match sub.oneOf
      case None => Failure(InvalidQueryMsgSchema)
      case Some(alts) => CollectNames(alts)
  }

  /**
   * `check_api_integrity`: compare the names derived from the schema with
   * the names the implementer declared. Structural errors are reported
   * before any comparison; a mismatch reports both sets.
   */
  function CheckApiIntegrity(root: RootSchema, generatedQueries: set<string>): (r: Result<(), IntegrityError>)
    ensures r.Success? <==> SchemaQueries(root) == Success(generatedQueries)
    ensures SchemaQueries(root).Failure? ==> r == Failure(InvalidQueryMsgSchema)
    ensures SchemaQueries(root).Success? && r.Failure? ==>
              r.error == InconsistentQueries(SchemaQueries(root).value, generatedQueries)
  {
    match SchemaQueries(root)
    case Failure(e) => Failure(e)
    case Success(schemaQueries) =>
      if schemaQueries != generatedQueries then
        Failure(InconsistentQueries(schemaQueries, generatedQueries))
      else
        Success(())
  }

  /**
   * `QueryResponses::response_schemas`: `root` is the schema generated for
   * the query message enum and `responses` is what the implementer's
   * `response_schemas_impl` returns. The map is returned unchanged exactly
   * when its key set is the set of names derived from the schema.
   */
  function ResponseSchemas<R>(root: RootSchema, responses: map<string, R>): (r: Result<map<string, R>, IntegrityError>)
    ensures r.Success? <==> SchemaQueries(root) == Success(responses.Keys)
    ensures r.Success? ==> r.value == responses
    ensures r.Failure? ==> CheckApiIntegrity(root, responses.Keys) == Failure(r.error)
  {
    var queries := responses.Keys;
    match CheckApiIntegrity(root, queries)
    case Failure(e) => Failure(e)
    case Success(_) => Success(responses)
  }
}
