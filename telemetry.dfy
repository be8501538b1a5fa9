/**
 * The telemetry the interface streams back and `parse_returned_data`, which copies
 * seven fields out of a decoded message.
 */
module TelemetryFields {
  import opened Wrappers
  import opened JsonValues

  /**
   * The seven telemetry fields. Python stores whatever JSON value the message holds,
   * so every field but the distance (which goes through `float()`) is a `Json`.
   */
  datatype Telemetry = Telemetry(
    club: Json, distanceToFlag: real, surface: Json, hand: Json,
    playerName: Json, courseName: Json, tourName: Json)

  /** The values the constructor gives the fields before any data arrives. */
  const Initial := Telemetry(JStr("DR"), 0.0, JStr("Tee"), JStr("right"), JStr(""), JStr(""), JStr(""))

  /** `ret_json['data']`, when it is a dict: the only case in which the `.get` calls succeed. */
  function DataObject(message: Json): Option<map<string, Json>> {
    if message.JObj? && "data" in message.fields && message.fields["data"].JObj?
    then Some(message.fields["data"].fields)
    else None
  }

  /**
   * The result of `parse_returned_data`: the fields afterwards and whether it raised.
   * It raises (KeyError, TypeError or AttributeError) when the message has no dict under
   * "data", and raises a ValueError or TypeError when the distance cannot be converted;
   * in that case the club was already assigned.
   */
  datatype ParseOutcome = Parsed(t: Telemetry) | Aborted(t: Telemetry)

  /** `parse_returned_data` on the fields `prev` and a decoded message. */
  function ParseMessage(prev: Telemetry, message: Json, parseFloat: string -> Option<real>): ParseOutcome {
    match DataObject(message)
    case None => Aborted(prev)
    case Some(data) =>
      var club := Get(data, "club_small", JStr("DR"));
      match ToFloat(Get(data, "distance_to_flag", JNum(0.0)), parseFloat)
      case None => Aborted(prev.(club := club))
      case Some(distance) =>
        Parsed(Telemetry(club, distance, Get(data, "surface", JStr("Tee")),
                         Get(data, "handed_player", JStr("right")), Get(data, "playerName", JStr("")),
                         Get(data, "courseName", JStr("")), Get(data, "tourName", JStr(""))))
  }

  /** Whether a message parses without raising; this does not depend on the fields before. */
  predicate Accepted(message: Json, parseFloat: string -> Option<real>) {
    DataObject(message).Some? &&
    ToFloat(Get(DataObject(message).value, "distance_to_flag", JNum(0.0)), parseFloat).Some?
  }

  /**
   * A message is a full replacement: when it parses, the result does not depend on the
   * previous fields; when it raises, at most the club has changed.
   */
  lemma FullReplacement(prev: Telemetry, prev': Telemetry, message: Json, parseFloat: string -> Option<real>)
    ensures ParseMessage(prev, message, parseFloat).Parsed? <==> Accepted(message, parseFloat)
    ensures Accepted(message, parseFloat) ==>
              ParseMessage(prev, message, parseFloat) == ParseMessage(prev', message, parseFloat)
    ensures !Accepted(message, parseFloat) ==>
              ParseMessage(prev, message, parseFloat).t.(club := prev.club) == prev
    ensures DataObject(message).None? ==> ParseMessage(prev, message, parseFloat) == Aborted(prev)
  {
  }

  /**
   * Defaulting: each field takes the message's value for its key, and the value the
   * constructor starts with when the key is absent.
   */
  lemma FieldDefaults(prev: Telemetry, message: Json, parseFloat: string -> Option<real>)
    requires Accepted(message, parseFloat)
    ensures var data, t := DataObject(message).value, ParseMessage(prev, message, parseFloat).t;
      && t.club == (if "club_small" in data then data["club_small"] else Initial.club)
      && ("distance_to_flag" !in data ==> t.distanceToFlag == Initial.distanceToFlag)
      && ("distance_to_flag" in data ==> Some(t.distanceToFlag) == ToFloat(data["distance_to_flag"], parseFloat))
      && t.surface == (if "surface" in data then data["surface"] else Initial.surface)
      && t.hand == (if "handed_player" in data then data["handed_player"] else Initial.hand)
      && t.playerName == (if "playerName" in data then data["playerName"] else Initial.playerName)
      && t.courseName == (if "courseName" in data then data["courseName"] else Initial.courseName)
      && t.tourName == (if "tourName" in data then data["tourName"] else Initial.tourName)
  {
  }

  /** A message whose data object is empty puts every field back to its initial value. */
  lemma EmptyDataResets(prev: Telemetry, parseFloat: string -> Option<real>)
    ensures ParseMessage(prev, JObj(map["data" := JObj(map[])]), parseFloat) == Parsed(Initial)
  {
  }

  /**
   * A message naming only the club and the distance (as a string the float parser reads)
   * sets those two and defaults the rest.
   */
  lemma ClubAndDistanceOnly(prev: Telemetry, parseFloat: string -> Option<real>)
    requires parseFloat("142.5") == Some(142.5)
    ensures ParseMessage(prev, JObj(map["data" := JObj(map["club_small" := JStr("7I"),
                                                               "distance_to_flag" := JStr("142.5")])]), parseFloat)
            == Parsed(Initial.(club := JStr("7I"), distanceToFlag := 142.5))
  {
  }
}
