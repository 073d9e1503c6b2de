/**
 * What the collector does with a decoded routing-API response: `parse_json`
 * keeps `resourceSets[0].resources[0]`, and `get_packet` pairs a timestamp
 * with either the traffic duration read from that resource or the whole
 * response.
 */
module Response {
  import opened Wrappers
  import opened Json

  /** One collected data point: `(timestamp, value)`. */
  datatype Sample = Sample(timestamp: int, value: Json)

  /** The subscripts `parse_json` applies: `["resourceSets"][0]["resources"][0]`. */
  const ResourcePath: seq<Selector> := [Key("resourceSets"), Index(0), Key("resources"), Index(0)]

  /** The field `get_packet` reads from the extracted resource. */
  const DurationField: string := "travelDurationTraffic"

  /** `parse_json`: the first resource of the first resource set. */
  function ParseJson(response: Json): (r: Result<Json, Fault>)
    ensures !response.JObject? ==> r == Failure(TypeError)
    ensures (response.JObject? && "resourceSets" !in response.fields) ==>
      r == Failure(KeyError(Key("resourceSets")))
    ensures r.Success? ==> response.JObject? && "resourceSets" in response.fields
  {
    Walk(response, ResourcePath)
  }

  /** `get_packet` once the response has been received and the clock read. */
  function GetPacket(response: Json, timestamp: int, returnJson: bool): (r: Result<Sample, Fault>)
    ensures r.Success? ==> ParseJson(response).Success? && r.value.timestamp == timestamp
    ensures r.Success? && returnJson ==> r.value.value == response
    ensures ParseJson(response).Failure? ==> r == Failure(ParseJson(response).error)
  {
    match ParseJson(response)
    case Failure(f) => Failure(f)
    case Success(resource) =>
      match Step(resource, Key(DurationField))
      case Failure(f) => Failure(f)
      case Success(duration) => Success(Sample(timestamp, if returnJson then response else duration))
  }

  /** A JSON list or string with at least one element, so that `[0]` succeeds. */
  predicate HasFirst(v: Json) {
    (v.JArray? && |v.items| > 0) || (v.JString? && |v.s| > 0)
  }

  /** What `[0]` yields on such a value. */
  function First(v: Json): Json
    requires HasFirst(v)
  {
    if v.JArray? then v.items[0] else JString([v.s[0]])
  }

  /**
   * `parse_json` succeeds exactly when the response is an object with a
   * non-empty `resourceSets`, whose first entry is an object with a non-empty
   * `resources`; it then returns the first of those resources.
   */
  lemma ParseJsonSucceeds(response: Json)
    ensures ParseJson(response).Success? <==>
      response.JObject? && "resourceSets" in response.fields &&
      HasFirst(response.fields["resourceSets"]) &&
      First(response.fields["resourceSets"]).JObject? &&
      "resources" in First(response.fields["resourceSets"]).fields &&
      HasFirst(First(response.fields["resourceSets"]).fields["resources"])
    ensures ParseJson(response).Success? ==>
      ParseJson(response).value == First(First(response.fields["resourceSets"]).fields["resources"])
  {
  }

  /**
   * Each way the fixed path can be missing raises the exception Python
   * raises there: no `resourceSets` key, an empty list of resource sets, a
   * first set without `resources`, an empty list of resources.
   */
  lemma ParseJsonErrors(response: Json)
    ensures !response.JObject? ==> ParseJson(response) == Failure(TypeError)
    ensures (response.JObject? && "resourceSets" !in response.fields) ==>
      ParseJson(response) == Failure(KeyError(Key("resourceSets")))
    ensures (response.JObject? && "resourceSets" in response.fields &&
             response.fields["resourceSets"] == JArray([])) ==>
      ParseJson(response) == Failure(IndexError(0))
    ensures (response.JObject? && "resourceSets" in response.fields &&
             HasFirst(response.fields["resourceSets"]) &&
             First(response.fields["resourceSets"]).JObject? &&
             "resources" !in First(response.fields["resourceSets"]).fields) ==>
      ParseJson(response) == Failure(KeyError(Key("resources")))
    ensures (response.JObject? && "resourceSets" in response.fields &&
             HasFirst(response.fields["resourceSets"]) &&
             First(response.fields["resourceSets"]).JObject? &&
             "resources" in First(response.fields["resourceSets"]).fields &&
             First(response.fields["resourceSets"]).fields["resources"] == JArray([])) ==>
      ParseJson(response) == Failure(IndexError(0))
  {
  }

  /** The full chain of subscripts behind the duration: `parse_json(...)["travelDurationTraffic"]`. */
  const DurationPath: seq<Selector> := ResourcePath + [Key(DurationField)]

  /**
   * `get_packet` fails exactly when the duration path is missing, with the
   * exception of the first missing step. Otherwise its value is the duration
   * found there, or the whole response when `return_json` is set; in both
   * cases the timestamp is the one read from the clock.
   */
  lemma GetPacketSelects(response: Json, timestamp: int, returnJson: bool)
    ensures GetPacket(response, timestamp, returnJson).Success? <==> Walk(response, DurationPath).Success?
    ensures GetPacket(response, timestamp, returnJson).Failure? ==>
      GetPacket(response, timestamp, returnJson).error == Walk(response, DurationPath).error
    ensures GetPacket(response, timestamp, returnJson).Success? ==>
      GetPacket(response, timestamp, returnJson).value ==
        Sample(timestamp, if returnJson then response else Walk(response, DurationPath).value)
  {
    WalkAppend(response, ResourcePath, [Key(DurationField)]);
  }

  /** Whether `get_packet` succeeds does not depend on the clock or on `return_json`. */
  lemma GetPacketOutcomeFixed(response: Json, t1: int, t2: int, rj1: bool, rj2: bool)
    ensures GetPacket(response, t1, rj1).Success? == GetPacket(response, t2, rj2).Success?
    ensures GetPacket(response, t1, rj1).Failure? ==>
      GetPacket(response, t1, rj1).error == GetPacket(response, t2, rj2).error
  {
    GetPacketSelects(response, t1, rj1);
    GetPacketSelects(response, t2, rj2);
  }

  /** The response body `{"resourceSets":[{"resources":[{"travelDurationTraffic":42}]}]}`. */
  const SampleResponse: Json :=
    JObject(map["resourceSets" := JArray([
      JObject(map["resources" := JArray([
        JObject(map["travelDurationTraffic" := JNumber(42)])])])])])

  /** On that response, the packet holds 42, or the whole response when `return_json` is set. */
  lemma SampleResponsePacket(t: int)
    ensures GetPacket(SampleResponse, t, false) == Success(Sample(t, JNumber(42)))
    ensures GetPacket(SampleResponse, t, true) == Success(Sample(t, SampleResponse))
  {
    ParseJsonSucceeds(SampleResponse);
  }

  /** A response without `resourceSets` yields no packet. */
  lemma MissingResourceSetsFails(response: Json, t: int, returnJson: bool)
    requires response.JObject? && "resourceSets" !in response.fields
    ensures GetPacket(response, t, returnJson) == Failure(KeyError(Key("resourceSets")))
  {
    ParseJsonErrors(response);
  }
}
