/** The topic records of `TOPICS`. Their list (src/data/topics) is not part of this model: every page
    that reads it takes it as a parameter. */
module Topics {
  import opened Common

  datatype Topic = Topic(id: string, title: string, description: string, difficulty: string)

  /** `topics.find((t) => t.id === id)`: the first topic with that id, or `undefined`. */
  function FindTopic(topics: seq<Topic>, id: string): (r: Option<Topic>)
    ensures r.None? <==> (forall i :: 0 <= i < |topics| ==> topics[i].id != id)
    ensures r.Some? ==> r.value.id == id && r.value in topics
    ensures r.Some? ==> exists k :: 0 <= k < |topics| && topics[k] == r.value
                                    && forall j :: 0 <= j < k ==> topics[j].id != id
  {
    if topics == [] then None
    else if topics[0].id == id then Some(topics[0])
    else
      var r := FindTopic(topics[1..], id);
      assert r.Some? ==> exists k :: 0 <= k < |topics| && topics[k] == r.value
                                     && forall j :: 0 <= j < k ==> topics[j].id != id by {
        if r.Some? {
          var k :| 0 <= k < |topics[1..]| && topics[1..][k] == r.value
                   && forall j :: 0 <= j < k ==> topics[1..][j].id != id;
          assert topics[k + 1] == r.value;
          forall j | 0 <= j < k + 1 ensures topics[j].id != id {
            if j > 0 { assert topics[j] == topics[1..][j - 1]; }
          }
        }
      }
      assert r.None? ==> forall i :: 0 <= i < |topics| ==> topics[i].id != id by {
        if r.None? {
          forall i | 0 <= i < |topics| ensures topics[i].id != id {
            if i > 0 { assert topics[i] == topics[1..][i - 1]; }
          }
        }
      }
      r
  }
}
