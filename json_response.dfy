/** The record list the JSON converter serialises (default_json.go). The
    serialisation itself, `json.Marshal`, is not part of this model. */
module JsonResponse {
  import opened Listing

  /** `jsonData`: the fields written as "key" and "date_time". */
  datatype JsonData = JsonData(key: string, dateTime: int)

  /** `transformToJsonData`: one record per listed pair, in the same order,
      with the pair's key and instant. An empty listing gives no records. */
  method TransformToJsonData(responses: seq<ResponseScheduler>) returns (data: seq<JsonData>)
    ensures |data| == |responses|
    ensures forall i :: 0 <= i < |responses| ==>
              data[i].key == responses[i].key && data[i].dateTime == responses[i].time
  {
    data := [];
    var i := 0;
    while i < |responses|
      invariant 0 <= i <= |responses|
      invariant |data| == i
      invariant forall j :: 0 <= j < i ==> data[j] == JsonData(responses[j].key, responses[j].time)
    {
      data := data + [JsonData(responses[i].key, responses[i].time)];
      i := i + 1;
    }
  }
}
