/** The hiking profile's way-attribute encoder: the speed table indexed by SAC
    scale, the hiking-network priority table, the edge write (speed, access in both
    directions, priority) and the slope correction of the speed from the edge's
    elevation profile. */
module HikingEncoder {
  import opened Results

  /** The OSM tags of one way, key to value; a missing key is a missing tag. */
  type Way = map<string, string>

  /** The levels of GraphHopper's PriorityCode enumeration, by name. */
  datatype PriorityCode =
    | Worst
    | AvoidAtAllCosts
    | ReachDest
    | AvoidIfPossible
    | Unchanged
    | Prefer
    | VeryNice
    | Best

  /** What the encoder reads from the edge geometry fetched with both tower nodes
      and all pillar nodes: whether it carries elevations, and the elevation of
      each of its points in order. */
  datatype PointList = PointList(is3D: bool, elevations: seq<real>)

  /** Routines of the superclass and of GraphHopper that handleWayTags calls
      and whose code is not part of this model. (Math.sqrt, which applyWayTags
      calls, is a parameter of ApplyWayTags and of the functions specifying it.) */
  datatype Collaborators = Collaborators(
    ferrySpeed: Way -> real,                         // getFerrySpeed
    relationCode: int -> int,                        // relationCodeEncoder.getValue, cast to int
    handlePriority: (Way, int, set<string>) -> int,  // handlePriority of the pedestrian encoder,
                                                     // which also reads the preferred way tags
    priorityFactor: int -> real)                     // PriorityCode.getFactor

  /** The tag key of the SAC difficulty scale. */
  const SacScaleKey := "sac_scale"

  /** The six SAC scales the hiking profile knows. */
  const HikingSacScales: set<string> := {
    "hiking", "mountain_hiking", "demanding_mountain_hiking",
    "alpine_hiking", "demanding_alpine_hiking", "difficult_alpine_hiking"
  }

  /** The highway values the hiking profile prefers. */
  const HikingPreferredWayTags: set<string> := {"track", "path", "footway"}

  /** The lower bound of a slope-corrected speed, in km/h. */
  const MinSlopeSpeed: real := 0.3

  /** Below this edge distance (in metres) no slope is computed. */
  const MinSlopeDistance: real := 2.0

  /** A slope at most this steep counts as flat. */
  const FlatSlope: real := 0.005

  predicate HasTag(way: Way, key: string, value: string) {
    key in way && way[key] == value
  }

  /** The ways whose elevation samples the slope correction does not trust:
      tunnels, bridges and steps. */
  predicate SlopeExempt(way: Way): (exempt: bool)
    ensures exempt ==> "tunnel" in way || "bridge" in way || "highway" in way
    ensures HasTag(way, "highway", "steps") ==> exempt
  {
    HasTag(way, "tunnel", "yes") || HasTag(way, "bridge", "yes") || HasTag(way, "highway", "steps")
  }

  function Abs(x: real): (r: real)
    ensures r >= 0.0 && (r == x || r == -x)
  {
    if x < 0.0 then -x else x
  }

  /** GraphHopper's Helper.keepIn: Math.max(min, Math.min(value, max)). */
  function KeepIn(value: real, min: real, max: real): (r: real)
    requires min <= max
    ensures min <= r <= max
    ensures min <= value <= max ==> r == value
    ensures value < min ==> r == min
    ensures value > max ==> r == max
  {
    var upper := if value < max then value else max;
    if min > upper then min else upper
  }

  /** The slope of an edge: the difference between the elevations of its last
      and first points over its distance; the points between do not enter. */
  function Slope(geometry: PointList, distance: real): (slope: real)
    requires |geometry.elevations| >= 1 && distance > 0.0
    ensures slope >= 0.0
  {
    Abs(geometry.elevations[|geometry.elevations| - 1] - geometry.elevations[0]) / distance
  }

  /** The speed on a slope: horizontal and vertical motion as serial parts of the
      travel time, sqrt(1 + slope^2) / (slope + 1 / baseSpeed) km/h. */
  function SlopeSpeed(slope: real, baseSpeed: real, sqrt: real -> real): (speed: real)
    requires slope >= 0.0 && baseSpeed > 0.0
    ensures slope == 0.0 ==> speed == sqrt(1.0) * baseSpeed
    ensures sqrt(1.0 + slope * slope) >= 0.0 ==> speed >= 0.0
  {
    sqrt(1.0 + slope * slope) / (slope + 1.0 / baseSpeed)
  }

  /** The relation-derived priority handed to handlePriority: none (0) when the
      way belongs to no relation, otherwise the code stored in the relation flags. */
  function PriorityFromRelation(relationFlags: int, relationCode: int -> int): (p: int)
    ensures relationFlags == 0 ==> p == 0
    ensures relationFlags != 0 ==> p == relationCode(relationFlags)
  {
    if relationFlags != 0 then relationCode(relationFlags) else 0
  }

  /** The encoded attributes of one edge: its speed in km/h, access in the
      forward and backward direction, and its priority factor. */
  class EdgeRecord {
    var speed: real
    var fwd: bool
    var bwd: bool
    var priority: real

    /** A record with every bit cleared, as a fresh set of edge flags is. */
    constructor ()
      ensures speed == 0.0 && !fwd && !bwd && priority == 0.0
    {
      speed, fwd, bwd, priority := 0.0, false, false, 0.0;
    }
  }

  class HikingFlagEncoder {
    var sacScaleSpeeds: map<string, real>
    var hikingNetworkToCode: map<string, PriorityCode>
    var suitableSacScales: set<string>
    var preferredWayTags: set<string>
    var speedDefault: real

    /** The tables as the constructor leaves them; nothing changes them later. */
    ghost predicate Valid()
      reads this
    {
      && speedDefault == 5.0
      && sacScaleSpeeds == map[
           "hiking" := 5.0, "mountain_hiking" := 4.5, "demanding_mountain_hiking" := 1.8,
           "alpine_hiking" := 1.4, "demanding_alpine_hiking" := 1.2, "difficult_alpine_hiking" := 1.2]
      && {"iwn", "nwn", "rwn", "lwn"} <= hikingNetworkToCode.Keys
      && hikingNetworkToCode["iwn"] == Best && hikingNetworkToCode["nwn"] == Best
      && hikingNetworkToCode["rwn"] == VeryNice && hikingNetworkToCode["lwn"] == VeryNice
      && HikingSacScales <= suitableSacScales
      && HikingPreferredWayTags <= preferredWayTags
    }

    /** Fills the tables. The network table and the two tag sets come from the
        pedestrian encoder's constructor, which runs first; this one puts the four
        hiking networks into the former and adds to the latter. */
    constructor (inheritedNetworkToCode: map<string, PriorityCode>,
                 inheritedSacScales: set<string>, inheritedPreferredWayTags: set<string>)
      ensures Valid()
      ensures hikingNetworkToCode ==
        inheritedNetworkToCode["iwn" := Best]["nwn" := Best]["rwn" := VeryNice]["lwn" := VeryNice]
      ensures suitableSacScales == inheritedSacScales + HikingSacScales
      ensures preferredWayTags == inheritedPreferredWayTags + HikingPreferredWayTags
    {
      var networks := inheritedNetworkToCode;
      networks := networks["iwn" := Best];
      networks := networks["nwn" := Best];
      networks := networks["rwn" := VeryNice];
      networks := networks["lwn" := VeryNice];
      var speeds: map<string, real> := map[];
      speeds := speeds["hiking" := 5.0];
      speeds := speeds["mountain_hiking" := 4.5];
      speeds := speeds["demanding_mountain_hiking" := 1.8];
      speeds := speeds["alpine_hiking" := 1.4];
      speeds := speeds["demanding_alpine_hiking" := 1.2];
      speeds := speeds["difficult_alpine_hiking" := 1.2];
      hikingNetworkToCode := networks;
      suitableSacScales := inheritedSacScales + HikingSacScales;
      preferredWayTags := inheritedPreferredWayTags + HikingPreferredWayTags;
      sacScaleSpeeds := speeds;
      speedDefault := 5.0;
    }

    /** The version of the encoding scheme a stored graph must have been built with. */
    function GetVersion(): (version: int)
      ensures version == 3
    {
      3
    }

    /** The base speed of a way: the table speed of its SAC scale, or the default
        when the tag is missing, empty or not in the table. */
    function GetSpeed(way: Way): (speed: real)
      reads this
      requires Valid()
      ensures HasTag(way, SacScaleKey, "hiking") ==> speed == 5.0
      ensures HasTag(way, SacScaleKey, "mountain_hiking") ==> speed == 4.5
      ensures HasTag(way, SacScaleKey, "demanding_mountain_hiking") ==> speed == 1.8
      ensures HasTag(way, SacScaleKey, "alpine_hiking") ==> speed == 1.4
      ensures HasTag(way, SacScaleKey, "demanding_alpine_hiking") ==> speed == 1.2
      ensures HasTag(way, SacScaleKey, "difficult_alpine_hiking") ==> speed == 1.2
      ensures SacScaleKey !in way || way[SacScaleKey] !in HikingSacScales ==> speed == speedDefault
      ensures 1.2 <= speed <= speedDefault
    {
      if SacScaleKey in way && way[SacScaleKey] != "" && way[SacScaleKey] in sacScaleSpeeds then
        sacScaleSpeeds[way[SacScaleKey]]
      else
        speedDefault
    }

    /** The default speed is the speed of the easiest scale, and every table
        speed is positive and at most the default. */
    lemma SpeedTableWithinDefault()
      requires Valid()
      ensures sacScaleSpeeds.Keys == HikingSacScales
      ensures speedDefault == sacScaleSpeeds["hiking"]
      ensures forall scale :: scale in sacScaleSpeeds ==> 0.0 < sacScaleSpeeds[scale] <= speedDefault
    {
    }

    /** Writes the edge's speed, both access directions and its priority, in that
        order. */
    method HandleWayTags(edge: EdgeRecord, way: Way, isFerry: bool, relationFlags: int, ext: Collaborators)
      requires Valid()
      modifies edge
      ensures edge.speed == if isFerry then ext.ferrySpeed(way) else GetSpeed(way)
      ensures edge.fwd && edge.bwd
      ensures edge.priority ==
        ext.priorityFactor(ext.handlePriority(way, PriorityFromRelation(relationFlags, ext.relationCode), preferredWayTags))
    {
      if !isFerry {
        edge.speed := GetSpeed(way);
      } else {
        edge.speed := ext.ferrySpeed(way);
      }

      edge.fwd := true;
      edge.bwd := true;

      var priorityFromRelation := PriorityFromRelation(relationFlags, ext.relationCode);

      edge.priority := ext.priorityFactor(ext.handlePriority(way, priorityFromRelation, preferredWayTags));
    }

    /** The slope-corrected speed of an edge, or None when one of the guards
        leaves the speed as it is: no elevation data; a tunnel, bridge or steps;
        an edge shorter than 2; neither direction accessible or a flat slope. */
    function SlopeCorrection(way: Way, geometry: PointList, distance: real, fwd: bool, bwd: bool,
                             sqrt: real -> real): (r: Option<real>)
      reads this
      requires Valid()
      requires geometry.is3D ==> |geometry.elevations| >= 1
      ensures r.Some? ==> geometry.is3D && !SlopeExempt(way) && distance >= MinSlopeDistance
      ensures r.Some? ==> (fwd || bwd) && Slope(geometry, distance) > FlatSlope
      ensures r.Some? ==> MinSlopeSpeed <= r.value <= speedDefault
    {
      if !geometry.is3D then None
      else if SlopeExempt(way) then None
      else if distance < MinSlopeDistance then None
      else
        var slope := Slope(geometry, distance);
        if (fwd || bwd) && slope > FlatSlope then
          var newSpeed := SlopeSpeed(slope, GetSpeed(way), sqrt);
          Some(KeepIn(newSpeed, MinSlopeSpeed, speedDefault))
        else
          None
    }

    /** The edge speed after the slope correction of an edge with speed `speed`. */
    function CorrectedSpeed(speed: real, way: Way, geometry: PointList, distance: real, fwd: bool, bwd: bool,
                            sqrt: real -> real): (corrected: real)
      reads this
      requires Valid()
      requires geometry.is3D ==> |geometry.elevations| >= 1
      ensures corrected == speed || MinSlopeSpeed <= corrected <= speedDefault
    {
      match SlopeCorrection(way, geometry, distance, fwd, bwd, sqrt)
      case None => speed
      case Some(v) => v
    }

    /** Overwrites the edge's speed with its slope-corrected value when every
        guard passes; access and priority stay as they are. */
    method ApplyWayTags(way: Way, edge: EdgeRecord, geometry: PointList, distance: real, sqrt: real -> real)
      requires Valid()
      requires geometry.is3D ==> |geometry.elevations| >= 1
      modifies edge
      ensures edge.fwd == old(edge.fwd) && edge.bwd == old(edge.bwd) && edge.priority == old(edge.priority)
      ensures edge.speed == CorrectedSpeed(old(edge.speed), way, geometry, distance, old(edge.fwd), old(edge.bwd), sqrt)
    {
      if !geometry.is3D {
        return;
      }

      if HasTag(way, "tunnel", "yes") || HasTag(way, "bridge", "yes") || HasTag(way, "highway", "steps") {
        return;
      }

      var prevEle := geometry.elevations[0];
      var fullDistance := distance;

      if fullDistance < MinSlopeDistance {
        return;
      }

      var eleDelta := Abs(geometry.elevations[|geometry.elevations| - 1] - prevEle);
      var slope := eleDelta / fullDistance;

      if (edge.fwd || edge.bwd) && slope > FlatSlope {
        var newSpeed := SlopeSpeed(slope, GetSpeed(way), sqrt);
        edge.speed := KeepIn(newSpeed, MinSlopeSpeed, speedDefault);
      }
    }

    /** Each guard on its own leaves the speed unchanged. */
    lemma NoCorrectionWhenGuarded(speed: real, way: Way, geometry: PointList, distance: real, fwd: bool, bwd: bool,
                                  sqrt: real -> real)
      requires Valid()
      requires geometry.is3D ==> |geometry.elevations| >= 1
      requires || !geometry.is3D
               || SlopeExempt(way)
               || distance < MinSlopeDistance
               || (!fwd && !bwd)
               || Slope(geometry, distance) <= FlatSlope
      ensures CorrectedSpeed(speed, way, geometry, distance, fwd, bwd, sqrt) == speed
    {
    }

    /** When every guard passes, the speed is replaced by the clamped value of the
        slope formula. */
    lemma CorrectionWhenUnguarded(speed: real, way: Way, geometry: PointList, distance: real, fwd: bool, bwd: bool,
                                  sqrt: real -> real)
      requires Valid()
      requires geometry.is3D && |geometry.elevations| >= 1
      requires !SlopeExempt(way) && distance >= MinSlopeDistance
      requires (fwd || bwd) && Slope(geometry, distance) > FlatSlope
      ensures CorrectedSpeed(speed, way, geometry, distance, fwd, bwd, sqrt)
              == KeepIn(SlopeSpeed(Slope(geometry, distance), GetSpeed(way), sqrt), MinSlopeSpeed, speedDefault)
    {
    }

    /** Only the first and the last elevation of an edge enter the correction. */
    lemma IntermediateElevationsIgnored(way: Way, g1: PointList, g2: PointList, distance: real, fwd: bool, bwd: bool,
                                        sqrt: real -> real)
      requires Valid()
      requires g1.is3D == g2.is3D && |g1.elevations| >= 1 && |g2.elevations| >= 1
      requires g1.elevations[0] == g2.elevations[0]
      requires g1.elevations[|g1.elevations| - 1] == g2.elevations[|g2.elevations| - 1]
      ensures SlopeCorrection(way, g1, distance, fwd, bwd, sqrt) == SlopeCorrection(way, g2, distance, fwd, bwd, sqrt)
    {
    }

    /** The correction reads the base speed from the tags, never the stored one,
        so applying it a second time changes nothing more. */
    lemma CorrectionIdempotent(speed: real, way: Way, geometry: PointList, distance: real, fwd: bool, bwd: bool,
                               sqrt: real -> real)
      requires Valid()
      requires geometry.is3D ==> |geometry.elevations| >= 1
      ensures var once := CorrectedSpeed(speed, way, geometry, distance, fwd, bwd, sqrt);
              CorrectedSpeed(once, way, geometry, distance, fwd, bwd, sqrt) == once
    {
    }
  }
}
