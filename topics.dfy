/**
 * The `Topic` enum of the settings provider: which pipeline a sender's submissions follow,
 * the JSON spelling of each topic, and the reverse lookup from that spelling.
 */
module Topics {
  import opened Wrappers

  datatype Topic = FullElr | EtorTi | Covid19 | Monkeypox | CsvTests | Test {

    /** The string the topic is written as in JSON settings. */
    function JsonVal(): string {
      match this
      case FullElr => "full-elr"
      case EtorTi => "etor-ti"
      case Covid19 => "covid-19"
      case Monkeypox => "monkeypox"
      case CsvTests => "CsvFileTests-topic"
      case Test => "test"
    }

    /** Whether submissions on this topic go through the universal (FHIR) pipeline. */
    function IsUniversalPipeline(): bool {
      match this
      case FullElr => true
      case EtorTi => true
      case Covid19 => false
      case Monkeypox => false
      case CsvTests => false
      case Test => false
    }
  }

  /** `Topic.values()`, in declaration order. */
  const AllTopics: seq<Topic> := [FullElr, EtorTi, Covid19, Monkeypox, CsvTests, Test]

  lemma AllTopicsComplete(t: Topic)
    ensures t in AllTopics
  {
  }

  /**
   * `associateBy(Topic::jsonVal)`: a map from each element's key to the element;
   * when two elements share a key the later one wins.
   */
  function AssociateBy(ts: seq<Topic>): (m: map<string, Topic>)
    ensures m.Keys == set t | t in ts :: t.JsonVal()
    ensures forall k :: k in m ==> m[k].JsonVal() == k && m[k] in ts
  {
    if ts == [] then map[]
    else
      var last := ts[|ts| - 1];
      AssociateBy(ts[..|ts| - 1])[last.JsonVal() := last]
  }

  /** The companion object's `jsonMap`. */
  const JsonMap: map<string, Topic> := AssociateBy(AllTopics)

  /** `fromJsonValue`: the topic spelled `jsonVal`, or null for null and for unknown spellings. */
  function FromJsonValue(jsonVal: Option<string>): (r: Option<Topic>)
    ensures r.Some? ==> jsonVal == Some(r.value.JsonVal())
    ensures r.None? <==> jsonVal.None? || forall t: Topic :: t.JsonVal() != jsonVal.value
  {
    if jsonVal.Some? && jsonVal.value in JsonMap then Some(JsonMap[jsonVal.value]) else None
  }

  /** No two topics share a JSON spelling, so the reverse map loses nothing. */
  lemma JsonValInjective(t: Topic, u: Topic)
    ensures t.JsonVal() == u.JsonVal() ==> t == u
  {
  }

  /** Every topic survives the trip to JSON and back. */
  lemma FromJsonValueRoundTrip(t: Topic)
    ensures FromJsonValue(Some(t.JsonVal())) == Some(t)
  {
    JsonValInjective(t, FromJsonValue(Some(t.JsonVal())).value);
  }

  /** The reverse map, written out: six entries, one per topic. */
  lemma JsonMapContents()
    ensures JsonMap == map["full-elr" := FullElr, "etor-ti" := EtorTi, "covid-19" := Covid19,
                           "monkeypox" := Monkeypox, "CsvFileTests-topic" := CsvTests, "test" := Test]
  {
    AssociatePrefix(1);
    AssociatePrefix(2);
    AssociatePrefix(3);
    AssociatePrefix(4);
    AssociatePrefix(5);
    AssociatePrefix(6);
  }

  lemma AssociatePrefix(n: nat)
    requires 0 < n <= |AllTopics|
    ensures AssociateBy(AllTopics[..n]) == AssociateBy(AllTopics[..n - 1])[AllTopics[n - 1].JsonVal() := AllTopics[n - 1]]
  {
    assert AllTopics[..n][..n - 1] == AllTopics[..n - 1];
  }

  lemma JsonMapSize()
    ensures |JsonMap| == |AllTopics|
  {
    JsonMapContents();
  }

  lemma FromJsonValueNull()
    ensures FromJsonValue(None) == None
  {
  }

  /** The universal pipeline serves exactly the FULL_ELR and ETOR_TI topics. */
  lemma UniversalPipelineTopics(t: Topic)
    ensures t.IsUniversalPipeline() <==> t == FullElr || t == EtorTi
  {
  }
}
