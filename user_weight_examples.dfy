/** The documents of the parser's unit tests, and what parsing them gives: the
    two-feature collection with a string and a numeric weight, a bare polygon, a
    single feature, features without a weight, and an append after a parse. */
module UserWeightExamples {
  import opened Results
  import opened JsonValues
  import opened UserWeights

  function Point(x: real, y: real): (point: Json) {
    JArray([JNumber(x), JNumber(y)])
  }

  /** A GeoJSON Polygon with the given rings. */
  function Polygon(rings: seq<seq<Json>>): (polygon: Json) {
    JObject(map["type" := JString("Polygon"), "coordinates" := JArray(seq(|rings|, i requires 0 <= i < |rings| => JArray(rings[i])))])
  }

  /** A GeoJSON Feature whose properties hold only the given weight. */
  function Feature(weight: Json, geometry: Json): (feature: Json) {
    JObject(map["type" := JString("Feature"), "properties" := JObject(map["weight" := weight]), "geometry" := geometry])
  }

  /** A GeoJSON Feature with empty properties. */
  function FeatureWithoutWeight(geometry: Json): (feature: Json) {
    JObject(map["type" := JString("Feature"), "properties" := JObject(map[]), "geometry" := geometry])
  }

  /** The first polygon of the two-feature collection. */
  const FirstPolygon: Json :=
    Polygon([[Point(8.691, 49.415), Point(8.691, 49.413), Point(8.699, 49.413), Point(8.691, 49.415)]])

  /** The second polygon of the two-feature collection, with a hole. */
  const SecondPolygon: Json :=
    Polygon([[Point(8.682, 49.413), Point(8.689, 49.413), Point(8.689, 49.419), Point(8.682, 49.419), Point(8.682, 49.413)],
             [Point(8.684, 49.418), Point(8.684, 49.414), Point(8.687, 49.414), Point(8.687, 49.418), Point(8.684, 49.418)]])

  /** The polygon of the single-feature documents. */
  const SinglePolygon: Json :=
    Polygon([[Point(8.680, 49.416), Point(8.664, 49.399), Point(8.692, 49.401), Point(8.680, 49.416)]])

  /** The collection whose first weight is the string "5.0" and whose second is the number 0.1. */
  const TwoFeatures: Json :=
    Collection([Feature(JString("5.0"), FirstPolygon), Feature(JNumber(0.1), SecondPolygon)])

  /** The string "5.0" is read as the number 5. */
  lemma FivePointZero()
    ensures ParseDecimal("5.0") == Some(5.0)
  {
  }

  /** A feature whose geometry the reader accepts and whose weight reads as a
      number parses to the pair of the two. */
  lemma WeightedFeature<G>(weight: Json, value: real, g: Json, readGeometry: Json -> Option<G>, geometry: G)
    requires AsDouble(weight) == Some(value)
    requires g.JObject? && readGeometry(g) == Some(geometry)
    ensures ParseFeature(Feature(weight, g).fields, readGeometry) == Success(AugmentedWeight(geometry, value))
  {
  }

  /** A collection of two features, the first with the weight string "5.0" and
      the second with the number 0.1, gives their two pairs in document order,
      whatever the two geometries are. */
  lemma TwoWeightedFeatures<G>(g1: Json, g2: Json, readGeometry: Json -> Option<G>, first: G, second: G)
    requires g1.JObject? && g2.JObject?
    requires readGeometry(g1) == Some(first) && readGeometry(g2) == Some(second)
    ensures Parse(Collection([Feature(JString("5.0"), g1), Feature(JNumber(0.1), g2)]), readGeometry)
      == Success([AugmentedWeight(first, 5.0), AugmentedWeight(second, 0.1)])
  {
    var features := [Feature(JString("5.0"), g1), Feature(JNumber(0.1), g2)];
    var doc := Collection(features);
    FivePointZero();
    WeightedFeature(JString("5.0"), 5.0, g1, readGeometry, first);
    WeightedFeature(JNumber(0.1), 0.1, g2, readGeometry, second);
    CollectionKeepsOrder(doc, features, readGeometry);
    assert ParseElement(features, 0, readGeometry) == Success(AugmentedWeight(first, 5.0));
    assert ParseElement(features, 1, readGeometry) == Success(AugmentedWeight(second, 0.1));
    var r := Parse(doc, readGeometry);
    assert r.value[0] == AugmentedWeight(first, 5.0) && r.value[1] == AugmentedWeight(second, 0.1);
    assert r.value == [AugmentedWeight(first, 5.0), AugmentedWeight(second, 0.1)];
  }

  /** The two-feature collection gives its two pairs in document order; the
      weight is accepted both as a numeric string and as a number. */
  lemma TwoFeaturesInOrder<G>(readGeometry: Json -> Option<G>, first: G, second: G)
    requires readGeometry(FirstPolygon) == Some(first) && readGeometry(SecondPolygon) == Some(second)
    ensures Parse(TwoFeatures, readGeometry) == Success([AugmentedWeight(first, 5.0), AugmentedWeight(second, 0.1)])
  {
    TwoWeightedFeatures(FirstPolygon, SecondPolygon, readGeometry, first, second);
  }

  /** A bare polygon, whatever its rings (the single-feature polygon among
      them), is not a document the parser accepts. */
  lemma BarePolygonRejected<G>(rings: seq<seq<Json>>, readGeometry: Json -> Option<G>)
    ensures Parse(Polygon(rings), readGeometry) == Failure(UnsupportedDocument(Some("Polygon")))
    ensures Raises(Parse(Polygon(rings), readGeometry).error) == ParameterValueException
    ensures Message(Parse(Polygon(rings), readGeometry).error)
      == "Parameter 'user_weights' has incorrect value or format."
  {
    assert DocumentType(Polygon(rings)) == Some("Polygon");
    OtherDocumentsRejected(Polygon(rings), readGeometry);
    IncorrectFormatText();
  }

  /** The incorrect-format message, written out. */
  lemma IncorrectFormatText()
    ensures IncorrectFormatMessage == "Parameter 'user_weights' has incorrect value or format."
  {
  }

  /** A single feature gives the one pair of its geometry and weight. */
  lemma SingleFeature<G>(readGeometry: Json -> Option<G>, geometry: G)
    requires readGeometry(SinglePolygon) == Some(geometry)
    ensures Parse(Feature(JNumber(2.3), SinglePolygon), readGeometry) == Success([AugmentedWeight(geometry, 2.3)])
  {
  }

  /** A single feature without a weight fails with the missing-member error. */
  lemma SingleFeatureWithoutWeight<G>(readGeometry: Json -> Option<G>, geometry: G)
    requires readGeometry(SinglePolygon) == Some(geometry)
    ensures Parse(FeatureWithoutWeight(SinglePolygon), readGeometry) == Failure(NotFound("weight"))
    ensures Raises(NotFound("weight")) == JSONException
    ensures Message(NotFound("weight")) == "JSONObject[\"weight\"] not found."
  {
    FeatureMissingWeight(SinglePolygon, readGeometry, geometry);
    MissingWeightReported();
  }

  /** The missing weight raises org.json's JSONException, with its not-found message. */
  lemma MissingWeightReported()
    ensures Raises(NotFound("weight")) == JSONException
    ensures Message(NotFound("weight")) == "JSONObject[\"weight\"] not found."
  {
  }

  /** A feature with a readable geometry and empty properties fails with the
      missing-weight error. */
  lemma FeatureMissingWeight<G>(g: Json, readGeometry: Json -> Option<G>, geometry: G)
    requires g.JObject? && readGeometry(g) == Some(geometry)
    ensures Parse(FeatureWithoutWeight(g), readGeometry) == Failure(NotFound("weight"))
  {
    assert DocumentType(FeatureWithoutWeight(g)) == Some("Feature");
  }

  /** A collection of that one feature gives the same one pair. */
  lemma CollectionOfSingleFeature<G>(readGeometry: Json -> Option<G>, geometry: G)
    requires readGeometry(SinglePolygon) == Some(geometry)
    ensures Parse(Collection([Feature(JNumber(2.3), SinglePolygon)]), readGeometry)
      == Success([AugmentedWeight(geometry, 2.3)])
  {
    CollectionOfOneIsFeature(Collection([Feature(JNumber(2.3), SinglePolygon)]), Feature(JNumber(2.3), SinglePolygon), readGeometry);
  }

  /** A collection whose feature has no weight fails as a whole. */
  lemma CollectionWithoutWeight<G>(readGeometry: Json -> Option<G>, geometry: G)
    requires readGeometry(SinglePolygon) == Some(geometry)
    ensures Parse(Collection([FeatureWithoutWeight(SinglePolygon)]), readGeometry) == Failure(NotFound("weight"))
    ensures Raises(NotFound("weight")) == JSONException
  {
    MissingWeightReported();
    MissingWeightFailsCollection(Collection([FeatureWithoutWeight(SinglePolygon)]), [FeatureWithoutWeight(SinglePolygon)], 0, readGeometry);
  }

  /** Parses the two-feature collection, then appends one more pair to the list
      it gave: the list grows by one and ends with the new pair. */
  method AppendAfterParse<G>(readGeometry: Json -> Option<G>, first: G, second: G, added: G)
    returns (list: AugmentationList<G>)
    requires readGeometry(FirstPolygon) == Some(first) && readGeometry(SecondPolygon) == Some(second)
    ensures fresh(list)
    ensures list.items == [AugmentedWeight(first, 5.0), AugmentedWeight(second, 0.1), AugmentedWeight(added, 1.3)]
  {
    TwoFeaturesInOrder(readGeometry, first, second);
    var parsed := Parse(TwoFeatures, readGeometry);
    list := new AugmentationList(parsed.value);
    var sizeBefore := |list.items|;
    AddWeightAugmentations(list, added, 1.3);
    assert list.items[|list.items| - 1] == AugmentedWeight(added, 1.3);
    assert |list.items| == sizeBefore + 1;
  }
}
