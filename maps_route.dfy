/**
 * The `MapsRoute` collector: its configuration, the list of collected
 * samples it appends to, and the pickle file that mirrors that list.
 * HTTP, JSON text decoding and the pickle format are outside the model:
 * the decoded response and the clock readings come in as parameters, and
 * the file is a ghost copy of the list.
 */
module MapsRoute {
  import opened Wrappers
  import opened Json
  import opened Response
  import opened Clock
  import Url

  /** How a collection window ended. */
  datatype Window =
    | Done              // the loop finished normally
    | Stopped           // the process was stopped from outside (the clock readings ran out)
    | Failed(fault: Fault)  // `get_packet` raised; the exception leaves `collect_data`

  class MapsRoute {
    const fileName: string
    const baseUrl: string
    const parameters: seq<Url.Param>
    const apiKey: string
    /** `self.all_data`: the collected `(timestamp, value)` samples, oldest first. */
    var allData: seq<Sample>
    /** The contents of the pickle file at `fileName`. */
    ghost var persisted: seq<Sample>

    /** The file holds exactly the in-memory list. */
    ghost predicate Synced()
      reads this
    {
      persisted == allData
    }

    /**
     * `__init__`: `stored` is the list in the pickle file, or `None` when no
     * file exists, in which case an empty list is written out.
     */
    constructor (fileName: string, baseUrl: string, parameters: seq<Url.Param>, apiKey: string,
                 stored: Option<seq<Sample>>)
      ensures this.fileName == fileName && this.baseUrl == baseUrl
      ensures this.parameters == parameters && this.apiKey == apiKey
      ensures allData == if stored.Some? then stored.value else []
      ensures Synced()
    {
      this.fileName := fileName;
      this.baseUrl := baseUrl;
      this.parameters := parameters;
      this.apiKey := apiKey;
      if stored.None? {
        allData := [];
        persisted := allData;
      } else {
        allData := stored.value;
        persisted := stored.value;
      }
    }

    /** `build_url`: the base URL, `name=value&` per entry that is not `None`, then `key=<api key>`. */
    method BuildUrl(params: seq<Url.Param>) returns (url: string)
      ensures url == Url.Build(baseUrl, params, apiKey)
    {
      url := baseUrl;
      for i := 0 to |params|
        invariant url == baseUrl + Url.Fields(params[..i])
      {
        if params[i].1.Some? {
          url := url + (params[i].0 + "=" + params[i].1.value + "&");
        }
        Url.FieldsAppend(params[..i], [params[i]]);
        assert params[..i + 1] == params[..i] + [params[i]];
        assert [params[i]][1..] == [];
      }
      url := url + ("key=" + apiKey);
      assert params[..|params|] == params;
    }

    /**
     * `collect_data` as written. The loop test (maps_route.py:107) and the test
     * after each sleep (maps_route.py:109) each read the clock; when the second one sees the
     * interval elapsed, the URL is built, the request sent, the clock read for
     * the timestamp, and the packet appended to the list and written out.
     * The readings are assumed never to go backwards, so the next loop test
     * ends the loop.
     */
    method CollectData(interval: int, storeJson: bool, clock: seq<int>, response: Json)
      returns (outcome: Window, requested: Option<string>, sample: Option<Sample>)
      requires Synced()
      requires NonDecreasing(clock)
      modifies this
      ensures Synced()
      ensures allData == old(allData) + OptionToSeq(sample)
      ensures sample.Some? ==> 0 < |clock| && sample.value.timestamp - clock[0] >= interval
      ensures |clock| == 0 ==> outcome == Stopped && requested == None && sample == None
      ensures 0 < |clock| ==>
        match AsWritten(clock, interval, 1)
        case Exhausted => outcome == Stopped && requested == None && sample == None
        case Elapsed(_) => outcome == Done && requested == None && sample == None
        case Fire(k) =>
          requested == Some(Url.Build(baseUrl, parameters, apiKey)) &&
          (k + 1 == |clock| ==> outcome == Stopped && sample == None) &&
          (k + 1 < |clock| ==>
            match GetPacket(response, clock[k + 1], storeJson)
            case Failure(f) => outcome == Failed(f) && sample == None
            case Success(s) => sample == Some(s) && outcome == (if k + 2 < |clock| then Done else Stopped))
    {
      outcome, requested, sample := Stopped, None, None;
      if |clock| == 0 {
        return;
      }
      var start := clock[0];
      var next := 1;
      while next < |clock| && clock[next] - start < interval
        invariant 1 <= next <= |clock|
        invariant Synced() && allData == old(allData) + OptionToSeq(sample)
        invariant outcome == Stopped
        invariant sample.None? ==> requested.None? && AsWritten(clock, interval, next) == AsWritten(clock, interval, 1)
        invariant sample.Some? ==>
          3 <= next && AsWritten(clock, interval, 1) == Fire(next - 2) &&
          HasElapsed(clock, interval, next - 2) &&
          requested == Some(Url.Build(baseUrl, parameters, apiKey)) &&
          GetPacket(response, clock[next - 1], storeJson) == Success(sample.value) &&
          sample.value.timestamp == clock[next - 1] &&
          (next < |clock| ==> clock[next] - start >= interval)
        decreases |clock| - next
      {
        next := next + 1;
        // sleep(10)
        if next == |clock| {
          return;
        }
        var now := clock[next];
        next := next + 1;
        if now - start >= interval {
          var url := BuildUrl(parameters);
          requested := Some(url);
          if next == |clock| {
            return;
          }
          var timestamp := clock[next];
          next := next + 1;
          var packet := GetPacket(response, timestamp, storeJson);
          GetPacketSelects(response, timestamp, storeJson);
          if packet.Failure? {
            outcome := Failed(packet.error);
            return;
          }
          allData := allData + [packet.value];
          persisted := allData;
          sample := Some(packet.value);
          if next < |clock| {
            assert clock[next - 2] <= clock[next];
          }
        }
      }
      if sample.Some? {
        assert clock[next - 2] <= clock[next - 1];
      }
      outcome := if next < |clock| then Done else Stopped;
    }

    /**
     * `collect_data` as intended: sleep, read the clock, and once the
     * interval has elapsed take exactly one sample and return. It ends at the
     * same first elapsed reading as the loop as written, but samples there
     * whichever test that reading belongs to.
     */
    method CollectWindow(interval: int, storeJson: bool, clock: seq<int>, response: Json)
      returns (outcome: Window, requested: Option<string>, sample: Option<Sample>)
      requires Synced()
      requires NonDecreasing(clock)
      modifies this
      ensures Synced()
      ensures allData == old(allData) + OptionToSeq(sample)
      ensures sample.Some? ==> 0 < |clock| && sample.value.timestamp - clock[0] >= interval
      ensures |clock| == 0 ==> outcome == Stopped && requested == None && sample == None
      ensures 0 < |clock| ==>
        match FirstElapsed(clock, interval, 1)
        case None => outcome == Stopped && requested == None && sample == None
        case Some(k) =>
          requested == Some(Url.Build(baseUrl, parameters, apiKey)) &&
          (k + 1 == |clock| ==> outcome == Stopped && sample == None) &&
          (k + 1 < |clock| ==>
            match GetPacket(response, clock[k + 1], storeJson)
            case Failure(f) => outcome == Failed(f) && sample == None
            case Success(s) => sample == Some(s) && outcome == Done)
      ensures (exists k :: 1 <= k < |clock| - 1 && HasElapsed(clock, interval, k)) &&
              Walk(response, DurationPath).Success? ==>
        sample.Some? && outcome == Done && |allData| == |old(allData)| + 1
    {
      outcome, requested, sample := Stopped, None, None;
      if |clock| == 0 {
        return;
      }
      var start := clock[0];
      var next := 1;
      // sleep(10), then read the clock
      while next < |clock| && clock[next] - start < interval
        invariant 1 <= next <= |clock|
        invariant FirstElapsed(clock, interval, next) == FirstElapsed(clock, interval, 1)
        invariant forall j :: 1 <= j < next ==> !HasElapsed(clock, interval, j)
        decreases |clock| - next
      {
        next := next + 1;
      }
      if next == |clock| {
        FirstElapsedNone(clock, interval, 1);
        return;
      }
      FirstElapsedIs(clock, interval, 1, next);
      var url := BuildUrl(parameters);
      requested := Some(url);
      if next + 1 == |clock| {
        return;
      }
      var timestamp := clock[next + 1];
      assert clock[next] <= timestamp;
      var packet := GetPacket(response, timestamp, storeJson);
      GetPacketSelects(response, timestamp, storeJson);
      if packet.Failure? {
        outcome := Failed(packet.error);
        return;
      }
      allData := allData + [packet.value];
      persisted := allData;
      sample := Some(packet.value);
      outcome := Done;
    }
  }
}
