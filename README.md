# Hiking encoder and user-weight overlay, modelled in Dafny

This project models two parts of openrouteservice's routing cost model.

**The hiking profile's way-attribute encoder** (`HikingFlagEncoder`, module
`HikingEncoder` in `hiking_flag_encoder.dfy`):

- The constructor fills the encoder's tables. The SAC-scale speed table has six
  entries (hiking 5.0, mountain_hiking 4.5, demanding_mountain_hiking 1.8,
  alpine_hiking 1.4, demanding_alpine_hiking 1.2, difficult_alpine_hiking 1.2),
  and the default speed is 5.0. It puts the four hiking networks into the network
  table: iwn and nwn map to BEST, rwn and lwn to VERY_NICE. It also adds to the
  suitable SAC scales and to the preferred way tags (track, path, footway).
  `Valid()` is the state the constructor leaves; nothing changes it later.
- `GetSpeed` looks up the way's `sac_scale` tag. When the tag is missing, empty
  or unknown, it returns the default speed.
- `HandleWayTags` writes into an `EdgeRecord` (speed, forward access, backward
  access, priority):
  - the speed is the table speed, or the ferry speed on a ferry;
  - both access directions are set to true;
  - the priority factor comes from the relation-derived priority and the
    preferred way tags, through the pedestrian encoder's `handlePriority`.
- `ApplyWayTags` is the slope correction. It returns early, leaving the edge as it
  is, in five cases:
  - the geometry is 2D;
  - the way is a tunnel, a bridge or steps;
  - the edge is shorter than 2;
  - neither direction is accessible;
  - the slope is at most 0.005.

  Otherwise it overwrites the speed with `sqrt(1+slope²)/(slope+1/baseSpeed)`,
  clamped to [0.3, default speed]. Its result is specified by the function
  `SlopeCorrection`, and the lemmas next to that function state the guards, the
  bounds, that intermediate elevations do not matter, and that a second
  application changes nothing.

**The user-weight overlay parser** (module `UserWeights` in
`user_weight_parser.dfy`, with the unit tests' documents in module
`UserWeightExamples` in `user_weight_examples.dfy`):

- `Parse` works on a JSON tree that has already been read from text:
  - a `Feature` gives one (geometry, weight) pair;
  - a `FeatureCollection` gives one pair per feature, in array order;
  - any other document, a bare geometry included, is refused with the message
    "Parameter 'user_weights' has incorrect value or format.".
- A missing `properties.weight` fails the whole parse. No partial list is
  returned. A Feature without a weight fails with org.json's message
  `JSONObject["weight"] not found.`, which the test pins.
- The weight may be a JSON number or a string holding a decimal number. The
  string is read by `ParseDecimal` in module `JsonValues` (`json.dfy`).
- `AddWeightAugmentations` appends one pair in place to a caller's
  `AugmentationList`.
- Geometries have an opaque type `G`. The geometry reader is a parameter of type
  `Json -> Option<G>`.

`results.dfy` holds the `Option` and `Result` types.

The model follows the code: `handleWayTags` sets both access directions to
true unconditionally, and ford blocking is not handled there.

## Model

| member | source | states |
|---|---|---|
| `HikingEncoder.HikingFlagEncoder.constructor` | openrouteservice/src/main/java/org/heigit/ors/routing/graphhopper/extensions/flagencoders/HikingFlagEncoder.java:43-75 | after construction the tables are the six SAC-scale speeds with default 5.0; iwn and nwn map to BEST and rwn and lwn to VERY_NICE, overwriting what the inherited network table held; the inherited scale and way-tag sets gain the six scales and track, path, footway |
| `HikingEncoder.HikingFlagEncoder.GetVersion` | openrouteservice/src/main/java/org/heigit/ors/routing/graphhopper/extensions/flagencoders/HikingFlagEncoder.java:77-80 | the encoding-scheme version is always 3 |
| `HikingEncoder.HikingFlagEncoder.GetSpeed` | openrouteservice/src/main/java/org/heigit/ors/routing/graphhopper/extensions/flagencoders/HikingFlagEncoder.java:107-114 | each of the six SAC scales gives its table speed (5.0, 4.5, 1.8, 1.4, 1.2, 1.2); a missing, empty or unknown tag gives the default speed; every result lies in [1.2, default] |
| `HikingEncoder.HikingFlagEncoder.SpeedTableWithinDefault` | openrouteservice/src/main/java/org/heigit/ors/routing/graphhopper/extensions/flagencoders/HikingFlagEncoder.java:66-73 | the table's keys are exactly the six scales, the default equals the "hiking" speed, and every table speed is in (0, default] |
| `HikingEncoder.PriorityFromRelation` | openrouteservice/src/main/java/org/heigit/ors/routing/graphhopper/extensions/flagencoders/HikingFlagEncoder.java:98-101 | the relation-derived priority is 0 when the relation flags are 0, and the decoded relation code otherwise |
| `HikingEncoder.HikingFlagEncoder.HandleWayTags` | openrouteservice/src/main/java/org/heigit/ors/routing/graphhopper/extensions/flagencoders/HikingFlagEncoder.java:87-105 | the stored speed is exactly GetSpeed(way) for a non-ferry way and the ferry speed for a ferry; both access bits are true whatever the tags; the priority is the factor of handlePriority applied to the way, the relation-derived priority and the preferred way tags the constructor filled |
| `HikingEncoder.KeepIn` | openrouteservice/src/main/java/org/heigit/ors/routing/graphhopper/extensions/flagencoders/HikingFlagEncoder.java:147 | the clamp lies in [min, max], leaves values inside the interval alone, and maps values below or above to the nearer bound |
| `HikingEncoder.Slope` | openrouteservice/src/main/java/org/heigit/ors/routing/graphhopper/extensions/flagencoders/HikingFlagEncoder.java:135-136 | the slope (absolute difference of last and first elevation over the distance) is never negative |
| `HikingEncoder.SlopeSpeed` | openrouteservice/src/main/java/org/heigit/ors/routing/graphhopper/extensions/flagencoders/HikingFlagEncoder.java:146 | the line-146 formula sqrt(1 + slope²) / (slope + 1 / base speed), with `Math.sqrt` uninterpreted: on a flat edge it is sqrt(1) times the base speed, and it is never negative when sqrt's value is not; nothing else is proved about its value |
| `HikingEncoder.SlopeExempt` | openrouteservice/src/main/java/org/heigit/ors/routing/graphhopper/extensions/flagencoders/HikingFlagEncoder.java:122 | the tunnel, bridge and steps guard: only a way carrying a tunnel, bridge or highway tag can be exempt, and every highway=steps way is |
| `HikingEncoder.HikingFlagEncoder.SlopeCorrection` | openrouteservice/src/main/java/org/heigit/ors/routing/graphhopper/extensions/flagencoders/HikingFlagEncoder.java:117-149 | a new speed is produced only if the geometry is 3D, the way is not a tunnel, bridge or steps, the distance is at least 2, some direction is accessible and the slope exceeds 0.005; any new speed lies in [0.3, default] |
| `HikingEncoder.HikingFlagEncoder.CorrectedSpeed` | openrouteservice/src/main/java/org/heigit/ors/routing/graphhopper/extensions/flagencoders/HikingFlagEncoder.java:139-148 | after the correction the speed either is the old speed or lies in [0.3, default] |
| `HikingEncoder.HikingFlagEncoder.ApplyWayTags` | openrouteservice/src/main/java/org/heigit/ors/routing/graphhopper/extensions/flagencoders/HikingFlagEncoder.java:117-149 | access bits and priority are untouched; the speed becomes the corrected speed of the old speed, computed from the access bits as they were before the call |
| `HikingEncoder.HikingFlagEncoder.NoCorrectionWhenGuarded` | openrouteservice/src/main/java/org/heigit/ors/routing/graphhopper/extensions/flagencoders/HikingFlagEncoder.java:118-140 | any one guard leaves the speed unchanged: 2D geometry, tunnel=yes, bridge=yes, highway=steps, distance below 2, no accessible direction, or slope at most 0.005 |
| `HikingEncoder.HikingFlagEncoder.CorrectionWhenUnguarded` | openrouteservice/src/main/java/org/heigit/ors/routing/graphhopper/extensions/flagencoders/HikingFlagEncoder.java:139-147 | when every guard passes, the speed becomes the slope formula on the way's table speed, clamped to [0.3, default] |
| `HikingEncoder.HikingFlagEncoder.IntermediateElevationsIgnored` | openrouteservice/src/main/java/org/heigit/ors/routing/graphhopper/extensions/flagencoders/HikingFlagEncoder.java:128-136 | two geometries with the same first and last elevation get the same correction, whatever lies between |
| `HikingEncoder.HikingFlagEncoder.CorrectionIdempotent` | openrouteservice/src/main/java/org/heigit/ors/routing/graphhopper/extensions/flagencoders/HikingFlagEncoder.java:146-147 | the correction takes its base speed from the tags, not from the stored speed, so applying it twice is applying it once |
| `JsonValues.ParseDecimal` | openrouteservice/src/test/java/org/heigit/ors/weightaugmentation/UserWeightParserTest.java:35 | a weight string read as a number is not empty, and it reads as a negative number only when it starts with a minus sign |
| `JsonValues.FractionValue` | openrouteservice/src/test/java/org/heigit/ors/weightaugmentation/UserWeightParserTest.java:35 | the digits after the decimal point contribute a value that is never negative |
| `JsonValues.ParseUnsignedOfParts` | openrouteservice/src/test/java/org/heigit/ors/weightaugmentation/UserWeightParserTest.java:35 | digits, a point and digits read as the whole part's value plus the fraction's value |
| `JsonValues.ParseDecimalOfFraction` | openrouteservice/src/test/java/org/heigit/ors/weightaugmentation/UserWeightParserTest.java:35 | a weight string "w.f" in decimal notation, such as "0.1", is read as w + f / 10^(number of digits of f) |
| `JsonValues.ParseDecimalOfFormatNat` | openrouteservice/src/test/java/org/heigit/ors/weightaugmentation/UserWeightParserTest.java:35 | a weight string that is a natural number in decimal notation is read back as that number |
| `JsonValues.ParseDecimalNegative` | openrouteservice/src/test/java/org/heigit/ors/weightaugmentation/UserWeightParserTest.java:35 | a leading minus sign on a weight string negates the value read |
| `JsonValues.ParseDecimalNeedsDigit` | openrouteservice/src/test/java/org/heigit/ors/weightaugmentation/UserWeightParserTest.java:35 | a weight string without a digit is not a number in the modelled decimal notation |
| `UserWeights.Raises` | openrouteservice/src/test/java/org/heigit/ors/weightaugmentation/UserWeightParserTest.java:68-108 | the parser throws ParameterValueException exactly for the errors carrying the incorrect-format message, and org.json's JSONException for the others |
| `UserWeights.Message` | openrouteservice/src/test/java/org/heigit/ors/weightaugmentation/UserWeightParserTest.java:68-108 | the incorrect-format message of the user_weights parameter is given exactly for unsupported documents and malformed geometries; a missing or mistyped member gives org.json's message, which starts with JSONObject[" followed by the member's name |
| `UserWeights.NumberMember` | openrouteservice/src/test/java/org/heigit/ors/weightaugmentation/UserWeightParserTest.java:46-53 | a member is read as a number exactly when it is present and is a JSON number or a string in decimal notation; a missing member is the not-found error |
| `UserWeights.FeatureWeight` | openrouteservice/src/test/java/org/heigit/ors/weightaugmentation/UserWeightParserTest.java:85-108 | properties.weight is read exactly when properties is an object whose weight member is a number or a decimal string, and then as that number; a missing properties member gives NotFound("properties"), and properties without a weight give NotFound("weight"), the error the tests expect at lines 88-89 and 105-106 |
| `UserWeights.ParseFeature` | openrouteservice/src/test/java/org/heigit/ors/weightaugmentation/UserWeightParserTest.java:76-91 | a feature parses exactly when its geometry is an object the reader accepts and its properties hold a numeric weight, and then to the pair of that geometry and weight |
| `UserWeights.ParseFeaturesFrom` | openrouteservice/src/test/java/org/heigit/ors/weightaugmentation/UserWeightParserTest.java:93-108 | the feature array parses exactly when every entry does, to one pair per entry in array order; otherwise it fails with the error of the first failing entry, and no list is returned |
| `UserWeights.Parse` | openrouteservice/src/test/java/org/heigit/ors/weightaugmentation/UserWeightParserTest.java:68-83 | only Feature and FeatureCollection documents parse, and a Feature parses to exactly one pair |
| `UserWeights.FeatureParsesToSingleton` | openrouteservice/src/test/java/org/heigit/ors/weightaugmentation/UserWeightParserTest.java:76-83 | a Feature document gives the one-element list of its pair, or fails with its feature's error |
| `UserWeights.Collection` | openrouteservice/src/test/java/org/heigit/ors/weightaugmentation/UserWeightParserTest.java:46-53 | the document built from a features array is a FeatureCollection whose "features" member is that array |
| `UserWeights.CollectionParsesFeatures` | openrouteservice/src/test/java/org/heigit/ors/weightaugmentation/UserWeightParserTest.java:46-53 | a FeatureCollection document parses as its features array does |
| `UserWeights.CollectionKeepsOrder` | openrouteservice/src/test/java/org/heigit/ors/weightaugmentation/UserWeightParserTest.java:46-53 | every FeatureCollection document whose features array has N entries, whatever other members it carries, parses exactly when each entry does, to N pairs, the k-th from the k-th entry |
| `UserWeights.FeaturesConcatenate` | openrouteservice/src/test/java/org/heigit/ors/weightaugmentation/UserWeightParserTest.java:46-53 | the features array a followed by b parses to the pairs of a followed by the pairs of b |
| `UserWeights.CollectionConcatenates` | openrouteservice/src/test/java/org/heigit/ors/weightaugmentation/UserWeightParserTest.java:46-53 | for FeatureCollection documents with features a, b and a followed by b, the last parses to the pairs of the first followed by the pairs of the second |
| `UserWeights.CollectionOfOneIsFeature` | openrouteservice/src/test/java/org/heigit/ors/weightaugmentation/UserWeightParserTest.java:76-100 | any FeatureCollection whose features array holds one Feature parses to the same result as that Feature alone |
| `UserWeights.MissingWeightFailsCollection` | openrouteservice/src/test/java/org/heigit/ors/weightaugmentation/UserWeightParserTest.java:102-108 | in any FeatureCollection, a feature without properties.weight (properties without a weight, not an object, or missing altogether) fails the whole parse; when the features before it parse and its geometry is read, the error is the not-found error for "weight", or for "properties" when that member is missing |
| `UserWeights.OtherDocumentsRejected` | openrouteservice/src/test/java/org/heigit/ors/weightaugmentation/UserWeightParserTest.java:68-74 | any document that is neither a Feature nor a FeatureCollection is refused, with the message "Parameter 'user_weights' has incorrect value or format." |
| `UserWeights.AugmentedWeightEquality` | openrouteservice/src/test/java/org/heigit/ors/weightaugmentation/UserWeightParserTest.java:50-52 | two augmentations are equal exactly when their geometries and weights are |
| `UserWeights.AddWeightAugmentations` | openrouteservice/src/test/java/org/heigit/ors/weightaugmentation/UserWeightParserTest.java:55-66 | the list becomes the old list followed by the new pair: it grows by exactly one and its last element equals AugmentedWeight(geometry, weight) |
| `UserWeightExamples.FivePointZero` | openrouteservice/src/test/java/org/heigit/ors/weightaugmentation/UserWeightParserTest.java:35 | the weight string "5.0" is read as 5.0 |
| `UserWeightExamples.WeightedFeature` | openrouteservice/src/test/java/org/heigit/ors/weightaugmentation/UserWeightParserTest.java:35 | a feature whose geometry the reader accepts and whose weight reads as a number parses to the pair of the two |
| `UserWeightExamples.TwoWeightedFeatures` | openrouteservice/src/test/java/org/heigit/ors/weightaugmentation/UserWeightParserTest.java:46-53 | a collection of a feature with weight string "5.0" and one with weight 0.1 parses to their two pairs in order, whatever the two geometries |
| `UserWeightExamples.TwoFeaturesInOrder` | openrouteservice/src/test/java/org/heigit/ors/weightaugmentation/UserWeightParserTest.java:46-53 | the two-feature collection parses to exactly [(P1, 5.0), (P2, 0.1)], with the first weight given as a string and the second as a number |
| `UserWeightExamples.BarePolygonRejected` | openrouteservice/src/test/java/org/heigit/ors/weightaugmentation/UserWeightParserTest.java:68-74 | a bare Polygon document, whatever its rings, is refused with the incorrect-format message, as a ParameterValueException |
| `UserWeightExamples.IncorrectFormatText` | openrouteservice/src/test/java/org/heigit/ors/weightaugmentation/UserWeightParserTest.java:72 | the incorrect-format message is exactly "Parameter 'user_weights' has incorrect value or format." |
| `UserWeightExamples.SingleFeature` | openrouteservice/src/test/java/org/heigit/ors/weightaugmentation/UserWeightParserTest.java:76-83 | the single Feature with weight 2.3 parses to [(P, 2.3)] |
| `UserWeightExamples.SingleFeatureWithoutWeight` | openrouteservice/src/test/java/org/heigit/ors/weightaugmentation/UserWeightParserTest.java:85-91 | the Feature with empty properties fails with the missing-weight error, a JSONException whose message is JSONObject["weight"] not found. |
| `UserWeightExamples.FeatureMissingWeight` | openrouteservice/src/test/java/org/heigit/ors/weightaugmentation/UserWeightParserTest.java:85-91 | every Feature whose geometry the reader accepts and whose properties are empty fails with the missing-weight error, a JSONException |
| `UserWeightExamples.MissingWeightReported` | openrouteservice/src/test/java/org/heigit/ors/weightaugmentation/UserWeightParserTest.java:85-108 | the missing-weight error is raised as a JSONException with the message JSONObject["weight"] not found. |
| `UserWeightExamples.CollectionOfSingleFeature` | openrouteservice/src/test/java/org/heigit/ors/weightaugmentation/UserWeightParserTest.java:93-100 | the collection holding that Feature parses to [(P, 2.3)] |
| `UserWeightExamples.CollectionWithoutWeight` | openrouteservice/src/test/java/org/heigit/ors/weightaugmentation/UserWeightParserTest.java:102-108 | the collection whose feature has empty properties fails with the missing-weight error, a JSONException |
| `UserWeightExamples.AppendAfterParse` | openrouteservice/src/test/java/org/heigit/ors/weightaugmentation/UserWeightParserTest.java:55-66 | appending (g, 1.3) to the parsed two-feature list gives [(P1, 5.0), (P2, 0.1), (g, 1.3)] |

## Left out

- The public constructor's reading of `speedBits`, `speedFactor` and
  `block_fords` from a PMap, `toString`, and ford blocking. Ford blocking is
  applied outside this class.
- The work of the pedestrian superclass, the GraphHopper library and
  java.lang.Math is not part of this model. Each routine `handleWayTags` calls is
  a field of `Collaborators`, an uninterpreted total function: `getFerrySpeed`,
  `relationCodeEncoder.getValue`, `handlePriority` and `PriorityCode.getFactor`.
  `Math.sqrt`, which `applyWayTags` calls, is an uninterpreted parameter `sqrt`
  of `ApplyWayTags`, `SlopeCorrection`, `CorrectedSpeed` and `SlopeSpeed`. The
  model proves nothing about the values of any of them.
- The superclass constructor's own entries in the network table and the two tag
  sets are not modelled. They are constructor parameters, and `init()` is not
  modelled.
- Bit-width quantisation by `speedEncoder.setDecimal`, `edge.set` and
  `priorityWayEncoder.setDecimal` is not modelled. Every write is an exact
  assignment of a `real`.
- The checks inside the superclass's `setSpeed` are not modelled. The ferry speed
  is stored as it is.
- The exact floating-point value of the slope formula is not modelled. Only the
  guards and the clamp bounds are proved, on `real`. IEEE doubles and NaN are
  not modelled.
- `edge.fetchWayGeometry` and `edge.getDistance` are not modelled. Their results
  are parameters of `ApplyWayTags`: the 3D flag, the elevations in order, and
  the distance.
- The `sac_scale` key stands for `OSMTags.Keys.SAC_SCALE`. OSMTags.java is not
  part of this model.
- The integer values of GraphHopper's PriorityCode are not modelled. The network
  table stores the named levels.
- UserWeightParser.java and AugmentedWeight.java are not part of this model. The
  parser's behaviour comes from its unit tests. Where they do not decide, the
  model makes these choices:
  - the geometry is read before properties.weight;
  - a document with a missing or non-string `type` counts as an unsupported
    document;
  - a JSON value that is not an object, which org.json would already refuse
    with its own JSONException, also counts as an unsupported document
    (`UnsupportedDocument(None)`, with the incorrect-format message);
  - the `type` of each entry of a collection is not checked;
  - the weight's sign and size are not checked;
  - the messages for malformed geometries and for the other JSON errors follow
    the ORS and org.json message patterns, and no test pins them.
- JSON text parsing, `GeometryJSON.parse` and JTS geometries are not modelled.
  The parser starts from a JSON tree. Geometries are an opaque type parameter,
  and the geometry reader is a parameter.
- Double.parseDouble is modelled only for plain decimal notation with an
  optional sign. Exponents, surrounding whitespace, NaN, Infinity, hexadecimal
  forms and type suffixes are not modelled.
- Weights are exact `real`s, where Java rounds each parsed weight to the nearest
  double. So "0.10000000000000000001" and 0.1 are the same weight in the
  program, and two different weights in the model.
- `JsonValues.ParseDecimalNeedsDigit`: holds of the modelled decimal notation
  only. Double.parseDouble reads the digit-free strings "NaN", "Infinity" and
  "-Infinity" as doubles, so a weight given as such a string parses in the
  program and is refused by the model.
- `AugmentedWeightEquality`: the model's equality is datatype equality. It is
  structural, and geometries are compared by `==` on `G`. Whether
  AugmentedWeight.equals compares JTS geometries exactly or topologically is not
  modelled.
- The non-null check on the geometry in `addWeightAugmentations` is not modelled.
  Dafny values and references are never null.
