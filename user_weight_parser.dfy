/** The user-weight overlay: a GeoJSON Feature or FeatureCollection whose features
    carry a weight in their properties becomes the list of (geometry, weight)
    pairs, in document order; the list can be extended in place afterwards.
    Geometries are of a type G that only the geometry reader (GeometryJSON.parse,
    a parameter here) builds. */
module UserWeights {
  import opened Results
  import opened JsonValues

  /** One region with its weight. Equality is structural: same geometry, same weight. */
  datatype AugmentedWeight<G> = AugmentedWeight(geometry: G, weight: real)

  /** Why a document was refused. */
  datatype ParseError =
    | UnsupportedDocument(docType: Option<string>)  // not a Feature or a FeatureCollection
    | NotFound(key: string)                         // a member the parser reads is missing
    | WrongType(key: string, expected: string)      // a member has the wrong kind of value
    | ElementNotObject(index: nat)                  // an entry of "features" is not an object
    | MalformedGeometry                             // the geometry reader refused the geometry

  /** The message of the ParameterValueException for the user_weights parameter. */
  const IncorrectFormatMessage := "Parameter 'user_weights' " + "has incorrect value or format."
  // (Two literals only so that the verifier can index the text; it is one sentence.)

  /** The message that goes with each error: the incorrect-format message of the
      user_weights parameter for an unsupported document or a malformed geometry,
      and org.json's wording of its exception for every other kind. */
  function Message(e: ParseError): (m: string)
    ensures m == IncorrectFormatMessage <==> e.UnsupportedDocument? || e.MalformedGeometry?
    ensures e.NotFound? || e.WrongType? ==>
      |m| >= 12 + |e.key| && m[..12] == "JSONObject[\"" && m[12..12 + |e.key|] == e.key
  {
    match e
    case UnsupportedDocument(_) => IncorrectFormatMessage
    case NotFound(key) => MemberMessage(key, "\"] not found.")
    case WrongType(key, expected) => MemberMessage(key, "\"] is not a " + expected + ".")
    case ElementNotObject(index) =>
      var m := "JSONArray[" + FormatNat(index) + "] is not a JSONObject.";
      assert m[0] != IncorrectFormatMessage[0];
      m
    case MalformedGeometry => IncorrectFormatMessage
  }

  /** The class of the exception a refused document raises. */
  datatype ExceptionKind = ParameterValueException | JSONException

  /** ORS raises its ParameterValueException for the documents it refuses itself;
      a member that org.json cannot read raises org.json's JSONException. The
      ParameterValueException is the one that carries the incorrect-format message. */
  function Raises(e: ParseError): (kind: ExceptionKind)
    ensures kind == ParameterValueException <==> Message(e) == IncorrectFormatMessage
  {
    match e
    case UnsupportedDocument(_) => ParameterValueException
    case MalformedGeometry => ParameterValueException
    case _ => JSONException
  }

  /** org.json's message about the member `key`: its quoted name after
      "JSONObject[", then `rest`. */
  function MemberMessage(key: string, rest: string): (m: string)
    ensures |m| >= 12 + |key| && m[..12] == "JSONObject[\"" && m[12..12 + |key|] == key
    ensures m != IncorrectFormatMessage
  {
    var m := "JSONObject[\"" + key + rest;
    assert m[0] != IncorrectFormatMessage[0];
    assert m[..12] == "JSONObject[\"" && m[12..12 + |key|] == key;
    m
  }

  /** The "type" member of a document, when it is present and a string. */
  function DocumentType(doc: Json): (docType: Option<string>) {
    if doc.JObject? && "type" in doc.fields && doc.fields["type"].JString? then
      Some(doc.fields["type"].text)
    else
      None
  }

  /** JSONObject.getJSONObject. */
  function ObjectMember(fields: map<string, Json>, key: string): (r: Result<map<string, Json>, ParseError>)
    ensures r.Success? <==> key in fields && fields[key].JObject?
    ensures r.Success? ==> r.value == fields[key].fields
    ensures key !in fields ==> r == Failure(NotFound(key))
  {
    if key !in fields then Failure(NotFound(key))
    else if fields[key].JObject? then Success(fields[key].fields)
    else Failure(WrongType(key, "JSONObject"))
  }

  /** JSONObject.getJSONArray. */
  function ArrayMember(fields: map<string, Json>, key: string): (r: Result<seq<Json>, ParseError>)
    ensures r.Success? <==> key in fields && fields[key].JArray?
    ensures r.Success? ==> r.value == fields[key].items
    ensures key !in fields ==> r == Failure(NotFound(key))
  {
    if key !in fields then Failure(NotFound(key))
    else if fields[key].JArray? then Success(fields[key].items)
    else Failure(WrongType(key, "JSONArray"))
  }

  /** JSONObject.getDouble: a number, or a string holding a decimal number. */
  function NumberMember(fields: map<string, Json>, key: string): (r: Result<real, ParseError>)
    ensures r.Success? <==> key in fields && AsDouble(fields[key]).Some?
    ensures r.Success? ==> r.value == AsDouble(fields[key]).value
    ensures key !in fields ==> r == Failure(NotFound(key))
  {
    if key !in fields then Failure(NotFound(key))
    else match AsDouble(fields[key])
      case Some(v) => Success(v)
      case None => Failure(WrongType(key, "number"))
  }

  /** The weight of a feature: the number under properties.weight. */
  function FeatureWeight(feature: map<string, Json>): (r: Result<real, ParseError>)
    ensures r.Success? <==>
      && "properties" in feature && feature["properties"].JObject?
      && NumberMember(feature["properties"].fields, "weight").Success?
    ensures r.Success? ==> r.value == AsDouble(feature["properties"].fields["weight"]).value
    ensures "properties" !in feature ==> r == Failure(NotFound("properties"))
    ensures "properties" in feature && feature["properties"].JObject? && "weight" !in feature["properties"].fields
      ==> r == Failure(NotFound("weight"))
  {
    var properties :- ObjectMember(feature, "properties");
    NumberMember(properties, "weight")
  }

  /** One feature: its geometry, read by the geometry reader, and its weight;
      the geometry is read first. */
  function ParseFeature<G>(feature: map<string, Json>, readGeometry: Json -> Option<G>)
    : (r: Result<AugmentedWeight<G>, ParseError>)
    ensures r.Success? <==>
      && "geometry" in feature && feature["geometry"].JObject?
      && readGeometry(feature["geometry"]).Some?
      && FeatureWeight(feature).Success?
    ensures r.Success? ==>
      r.value == AugmentedWeight(readGeometry(feature["geometry"]).value, FeatureWeight(feature).value)
  {
    var geometryJson :- ObjectMember(feature, "geometry");
    match readGeometry(JObject(geometryJson))
    case None => Failure(MalformedGeometry)
    case Some(geometry) =>
      var weight :- FeatureWeight(feature);
      Success(AugmentedWeight(geometry, weight))
  }

  /** The entry at `index` of a features array, which must be an object. */
  function ParseElement<G>(features: seq<Json>, index: nat, readGeometry: Json -> Option<G>)
    : (r: Result<AugmentedWeight<G>, ParseError>)
    requires index < |features|
  {
    match features[index]
    case JObject(feature) => ParseFeature(feature, readGeometry)
    case _ => Failure(ElementNotObject(index))
  }

  /** The entries of a features array from `from` on, in array order; the first
      entry that fails fails the whole, and nothing of the others is kept. */
  function ParseFeaturesFrom<G>(features: seq<Json>, from: nat, readGeometry: Json -> Option<G>)
    : (r: Result<seq<AugmentedWeight<G>>, ParseError>)
    requires from <= |features|
    decreases |features| - from
    ensures r.Success? <==> forall k :: from <= k < |features| ==> ParseElement(features, k, readGeometry).Success?
    ensures r.Success? ==> |r.value| == |features| - from
    ensures r.Success? ==>
      forall k :: from <= k < |features| ==> ParseElement(features, k, readGeometry) == Success(r.value[k - from])
    ensures r.Failure? ==>
      exists k :: from <= k < |features|
        && (forall j :: from <= j < k ==> ParseElement(features, j, readGeometry).Success?)
        && ParseElement(features, k, readGeometry) == Failure(r.error)
  {
    if from == |features| then
      Success([])
    else
      var head :- ParseElement(features, from, readGeometry);
      var tail :- ParseFeaturesFrom(features, from + 1, readGeometry);
      Success([head] + tail)
  }

  /** UserWeightParser.parse on a document that has already been read as JSON. */
  function Parse<G>(doc: Json, readGeometry: Json -> Option<G>): (r: Result<seq<AugmentedWeight<G>>, ParseError>)
    ensures r.Success? ==> DocumentType(doc) == Some("Feature") || DocumentType(doc) == Some("FeatureCollection")
    ensures r.Success? && DocumentType(doc) == Some("Feature") ==> |r.value| == 1
  {
    match DocumentType(doc)
    case Some("FeatureCollection") =>
      var features :- ArrayMember(doc.fields, "features");
      ParseFeaturesFrom(features, 0, readGeometry)
    case Some("Feature") =>
      var weighted :- ParseFeature(doc.fields, readGeometry);
      Success([weighted])
    case _ =>
      Failure(UnsupportedDocument(DocumentType(doc)))
  }

  /** `doc` is a FeatureCollection whose "features" member is the array
      `features`; it may carry further members ("bbox", "crs", ...). */
  predicate CollectionOf(doc: Json, features: seq<Json>) {
    && doc.JObject?
    && DocumentType(doc) == Some("FeatureCollection")
    && "features" in doc.fields
    && doc.fields["features"] == JArray(features)
  }

  /** The FeatureCollection document with the given features and no other member. */
  function Collection(features: seq<Json>): (doc: Json)
    ensures CollectionOf(doc, features)
  {
    var doc := JObject(map["type" := JString("FeatureCollection"), "features" := JArray(features)]);
    assert doc.fields["features"] == JArray(features);
    doc
  }

  /** A feature whose properties member is an object holding a weight. */
  predicate HasWeight(feature: map<string, Json>) {
    "properties" in feature && feature["properties"].JObject? && "weight" in feature["properties"].fields
  }

  /** A Feature document parses to the one pair its geometry and weight make, or
      fails as the feature does. */
  lemma FeatureParsesToSingleton<G>(doc: Json, readGeometry: Json -> Option<G>)
    requires DocumentType(doc) == Some("Feature")
    ensures ParseFeature(doc.fields, readGeometry).Success? ==>
      Parse(doc, readGeometry) == Success([ParseFeature(doc.fields, readGeometry).value])
    ensures ParseFeature(doc.fields, readGeometry).Failure? ==>
      Parse(doc, readGeometry) == Failure(ParseFeature(doc.fields, readGeometry).error)
  {
  }

  /** A FeatureCollection parses to one pair per feature, in array order, or to
      no list at all. */
  lemma CollectionKeepsOrder<G>(doc: Json, features: seq<Json>, readGeometry: Json -> Option<G>)
    requires CollectionOf(doc, features)
    ensures var r := Parse(doc, readGeometry);
      && (r.Success? <==> forall k :: 0 <= k < |features| ==> ParseElement(features, k, readGeometry).Success?)
      && (r.Success? ==> (|r.value| == |features|
          && forall k :: 0 <= k < |features| ==> ParseElement(features, k, readGeometry) == Success(r.value[k])))
  {
  }

  /** A FeatureCollection parses as its features array does. */
  lemma CollectionParsesFeatures<G>(doc: Json, features: seq<Json>, readGeometry: Json -> Option<G>)
    requires CollectionOf(doc, features)
    ensures Parse(doc, readGeometry) == ParseFeaturesFrom(features, 0, readGeometry)
  {
  }

  /** An entry of a + b parses as it does in a, or, when it parses there, as it
      does in b (only the index in an error differs). */
  lemma ElementOfConcat<G>(a: seq<Json>, b: seq<Json>, k: nat, readGeometry: Json -> Option<G>)
    requires k < |a + b|
    ensures k < |a| ==> ParseElement(a + b, k, readGeometry) == ParseElement(a, k, readGeometry)
    ensures k >= |a| && ParseElement(b, k - |a|, readGeometry).Success? ==>
      ParseElement(a + b, k, readGeometry) == ParseElement(b, k - |a|, readGeometry)
  {
    if k < |a| {
      assert (a + b)[k] == a[k];
    } else {
      assert (a + b)[k] == b[k - |a|];
    }
  }

  /** A features array whose every entry parses to the matching pair of `pairs`
      parses to `pairs`. */
  lemma FeaturesFromElements<G>(features: seq<Json>, pairs: seq<AugmentedWeight<G>>, readGeometry: Json -> Option<G>)
    requires |pairs| == |features|
    requires forall k :: 0 <= k < |features| ==> ParseElement(features, k, readGeometry) == Success(pairs[k])
    ensures ParseFeaturesFrom(features, 0, readGeometry) == Success(pairs)
  {
    var z := ParseFeaturesFrom(features, 0, readGeometry);
    assert z.Success?;
    assert forall k :: 0 <= k < |features| ==> z.value[k] == pairs[k];
    assert z.value == pairs;
  }

  /** Parsing a features array is parsing its parts and concatenating the results. */
  lemma FeaturesConcatenate<G>(a: seq<Json>, b: seq<Json>, readGeometry: Json -> Option<G>)
    requires ParseFeaturesFrom(a, 0, readGeometry).Success?
    requires ParseFeaturesFrom(b, 0, readGeometry).Success?
    ensures ParseFeaturesFrom(a + b, 0, readGeometry)
      == Success(ParseFeaturesFrom(a, 0, readGeometry).value + ParseFeaturesFrom(b, 0, readGeometry).value)
  {
    var x := ParseFeaturesFrom(a, 0, readGeometry).value;
    var y := ParseFeaturesFrom(b, 0, readGeometry).value;
    forall k | 0 <= k < |a + b|
      ensures ParseElement(a + b, k, readGeometry) == Success((x + y)[k])
    {
      ElementOfConcat(a, b, k, readGeometry);
      if k < |a| {
        assert ParseElement(a, k, readGeometry) == Success(x[k]);
      } else {
        assert ParseElement(b, k - |a|, readGeometry) == Success(y[k - |a|]);
      }
    }
    FeaturesFromElements(a + b, x + y, readGeometry);
  }

  /** Parsing a collection is parsing its parts and concatenating the results. */
  lemma CollectionConcatenates<G>(da: Json, a: seq<Json>, db: Json, b: seq<Json>, dab: Json,
                                  readGeometry: Json -> Option<G>)
    requires CollectionOf(da, a) && CollectionOf(db, b) && CollectionOf(dab, a + b)
    requires Parse(da, readGeometry).Success?
    requires Parse(db, readGeometry).Success?
    ensures Parse(dab, readGeometry) == Success(Parse(da, readGeometry).value + Parse(db, readGeometry).value)
  {
    CollectionParsesFeatures(da, a, readGeometry);
    CollectionParsesFeatures(db, b, readGeometry);
    CollectionParsesFeatures(dab, a + b, readGeometry);
    FeaturesConcatenate(a, b, readGeometry);
  }

  /** A collection with a single Feature parses to what that Feature parses to
      on its own. */
  lemma CollectionOfOneIsFeature<G>(doc: Json, feature: Json, readGeometry: Json -> Option<G>)
    requires CollectionOf(doc, [feature])
    requires DocumentType(feature) == Some("Feature")
    ensures Parse(doc, readGeometry) == Parse(feature, readGeometry)
  {
    assert ParseElement([feature], 0, readGeometry) == ParseFeature(feature.fields, readGeometry);
    var fe := ParseFeature(feature.fields, readGeometry);
    if fe.Success? {
      assert [fe.value] + [] == [fe.value];
    }
  }

  /** A feature without properties.weight fails the parse of the whole
      collection, whether its properties lack the weight or are missing
      altogether; when the features before it parse and its geometry is read,
      the error names the missing member. */
  lemma MissingWeightFailsCollection<G>(doc: Json, features: seq<Json>, k: nat, readGeometry: Json -> Option<G>)
    requires CollectionOf(doc, features)
    requires k < |features| && features[k].JObject? && !HasWeight(features[k].fields)
    ensures Parse(doc, readGeometry).Failure?
    ensures (forall j :: 0 <= j < k ==> ParseElement(features, j, readGeometry).Success?)
        && "geometry" in features[k].fields && features[k].fields["geometry"].JObject?
        && readGeometry(features[k].fields["geometry"]).Some?
      ==> (&& ("properties" in features[k].fields && features[k].fields["properties"].JObject? ==>
                Parse(doc, readGeometry) == Failure(NotFound("weight")))
           && ("properties" !in features[k].fields ==>
                Parse(doc, readGeometry) == Failure(NotFound("properties"))))
  {
    CollectionKeepsOrder(doc, features, readGeometry);
    assert !ParseElement(features, k, readGeometry).Success?;
    var r := Parse(doc, readGeometry);
    assert r == ParseFeaturesFrom(features, 0, readGeometry);
    if (forall j :: 0 <= j < k ==> ParseElement(features, j, readGeometry).Success?)
        && "geometry" in features[k].fields && features[k].fields["geometry"].JObject?
        && readGeometry(features[k].fields["geometry"]).Some? {
      var i :| 0 <= i < |features|
        && (forall j :: 0 <= j < i ==> ParseElement(features, j, readGeometry).Success?)
        && ParseElement(features, i, readGeometry) == Failure(r.error);
      if "properties" in features[k].fields && features[k].fields["properties"].JObject? {
        assert ParseElement(features, k, readGeometry) == Failure(NotFound("weight"));
      } else if "properties" !in features[k].fields {
        assert ParseElement(features, k, readGeometry) == Failure(NotFound("properties"));
      }
    }
  }

  /** A document that is neither a Feature nor a FeatureCollection, a bare
      geometry among them, is refused with the incorrect-format message. */
  lemma OtherDocumentsRejected<G>(doc: Json, readGeometry: Json -> Option<G>)
    requires DocumentType(doc) != Some("Feature") && DocumentType(doc) != Some("FeatureCollection")
    ensures Parse(doc, readGeometry) == Failure(UnsupportedDocument(DocumentType(doc)))
    ensures Message(Parse(doc, readGeometry).error) == IncorrectFormatMessage
  {
  }

  /** Two augmentations are equal exactly when geometry and weight are. */
  lemma AugmentedWeightEquality<G>(a: AugmentedWeight<G>, b: AugmentedWeight<G>)
    ensures a == b <==> a.geometry == b.geometry && a.weight == b.weight
  {
  }

  /** A list of augmentations that callers hold and extend. */
  class AugmentationList<G> {
    var items: seq<AugmentedWeight<G>>

    constructor (initial: seq<AugmentedWeight<G>>)
      ensures items == initial
    {
      items := initial;
    }
  }

  /** UserWeightParser.addWeightAugmentations: appends (geometry, weight) to the
      caller's list. */
  method AddWeightAugmentations<G>(list: AugmentationList<G>, geometry: G, weight: real)
    modifies list
    ensures list.items == old(list.items) + [AugmentedWeight(geometry, weight)]
    ensures |list.items| == |old(list.items)| + 1
    ensures list.items[|list.items| - 1] == AugmentedWeight(geometry, weight)
  {
    list.items := list.items + [AugmentedWeight(geometry, weight)];
  }
}
