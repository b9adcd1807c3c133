/**
  The keyword threat classifier and the batch endpoint of the NLP service
  (services/llm-nlp-service/main.py). The BERT threat score is not modelled: the batch endpoint
  takes the score as a function of the text.
*/
module ThreatClassifier {
  import opened Optional
  import opened Text
  import opened Sequences

  /** The categories and their keywords, in the order they are tried. */
  const ThreatKeywords: seq<(string, seq<string>)> := [
    ("injection", ["sql", "injection", "exploit", "payload"]),
    ("xss", ["script", "alert", "<>", "javascript"]),
    ("privilege_escalation", ["sudo", "admin", "privilege", "root"]),
    ("path_traversal", ["../", "..\\", "etc/passwd"]),
    ("malware", ["malware", "trojan", "virus", "ransomware"]),
    ("other", [])
  ]

  /** The six labels the classifier can return. */
  const Labels: set<string> := {"injection", "xss", "privilege_escalation", "path_traversal", "malware", "other"}

  /** Some keyword of the category occurs in `text`. */
  predicate Matches(text: string, category: (string, seq<string>)) {
    exists keyword | keyword in category.1 :: Contains(text, keyword)
  }

  /** The test "the category matches `text`", as a function value. */
  function MatchesIn(text: string): ((string, seq<string>)) -> bool {
    (category: (string, seq<string>)) => Matches(text, category)
  }

  /**
    `classify_threat`: the first category, in table order, with a keyword occurring in the
    lower-cased text; "other" when none of the five keyword categories matches.
  */
  function ClassifyThreat(text: string): (kind: string)
    ensures kind in Labels
    ensures kind == "other" <==> forall k :: 0 <= k < 5 ==> !Matches(Lower(text), ThreatKeywords[k])
    ensures kind != "other" ==>
      exists k :: 0 <= k < 5
        && ThreatKeywords[k].0 == kind
        && Matches(Lower(text), ThreatKeywords[k])
        && forall j :: 0 <= j < k ==> !Matches(Lower(text), ThreatKeywords[j])
  {
    var textLower := Lower(text);
    assert !Matches(textLower, ThreatKeywords[5]);
    match FirstIndex(ThreatKeywords, MatchesIn(textLower))
    case Some(k) => ThreatKeywords[k].0
    case None => "other"
  }

  /** Matching ignores case: the text and its lower-case or upper-case form get the same label. */
  lemma ClassifyIgnoresCase(text: string)
    ensures ClassifyThreat(Lower(text)) == ClassifyThreat(text)
    ensures ClassifyThreat(Upper(text)) == ClassifyThreat(text)
  {
    LowerIdempotent(text);
    LowerOfUpper(text);
  }

  /** A text naming a trojan before SQL is an injection: the category order decides, not the text order. */
  lemma InjectionBeforeMalware()
    ensures Matches(Lower("Trojan SQL"), ThreatKeywords[4])
    ensures ClassifyThreat("Trojan SQL") == "injection"
  {
    var t := Lower("Trojan SQL");
    assert t[0..6] == "trojan" && OccursAt(t, "trojan", 0);
    assert "trojan" in ThreatKeywords[4].1;
    assert t[7..10] == "sql";
    assert OccursAt(t, "sql", 7);
    assert "sql" in ThreatKeywords[0].1;
    assert Matches(t, ThreatKeywords[0]);
  }

  /** One response of the detection endpoint. */
  datatype ThreatResponse = ThreatResponse(text: string, isThreat: bool, confidence: real, threatType: string)

  /** The batch response. */
  datatype BatchResponse = BatchResponse(results: seq<ThreatResponse>, totalProcessed: nat, threatsDetected: nat)

  /** `request.text[:100]` */
  function Prefix100(text: string): string {
    if |text| <= 100 then text else text[..100]
  }

  /** `detect_threat`, with the model's threat probability `score` given. */
  function DetectThreat(text: string, threshold: real, score: real): (r: ThreatResponse)
    ensures r.isThreat <==> score >= threshold
    ensures r.threatType == ClassifyThreat(text) && r.confidence == score
    ensures |r.text| <= 100 && |r.text| <= |text| && r.text == text[..|r.text|]
    ensures |text| >= 100 ==> |r.text| == 100
    ensures |text| <= 100 ==> r.text == text
  {
    ThreatResponse(Prefix100(text), score >= threshold, score, ClassifyThreat(text))
  }

  /** The number of responses flagged as threats. */
  function CountThreats(rs: seq<ThreatResponse>): (n: nat)
    ensures n <= |rs|
  {
    if rs == [] then 0 else CountThreats(rs[..|rs| - 1]) + (if rs[|rs| - 1].isThreat then 1 else 0)
  }

  /** The responses to `texts`, in order. */
  function Responses(texts: seq<string>, threshold: real, score: string -> real): (rs: seq<ThreatResponse>)
    ensures |rs| == |texts|
  {
    if texts == [] then []
    else
      var last := texts[|texts| - 1];
      Responses(texts[..|texts| - 1], threshold, score) + [DetectThreat(last, threshold, score(last))]
  }

  lemma {:induction false} ResponsesAt(texts: seq<string>, threshold: real, score: string -> real, k: int)
    requires 0 <= k < |texts|
    ensures Responses(texts, threshold, score)[k] == DetectThreat(texts[k], threshold, score(texts[k]))
  {
    if k < |texts| - 1 {
      ResponsesAt(texts[..|texts| - 1], threshold, score, k);
    }
  }

  lemma ResponsesSnoc(texts: seq<string>, threshold: real, score: string -> real, i: nat)
    requires i < |texts|
    ensures Responses(texts[..i + 1], threshold, score)
         == Responses(texts[..i], threshold, score) + [DetectThreat(texts[i], threshold, score(texts[i]))]
  {
    assert texts[..i + 1][..i] == texts[..i];
  }

  /** The responses are the detections of the texts, position by position. */
  lemma ResponsesMeaning(texts: seq<string>, threshold: real, score: string -> real)
    ensures forall k :: 0 <= k < |texts| ==>
      Responses(texts, threshold, score)[k] == DetectThreat(texts[k], threshold, score(texts[k]))
  {
    forall k | 0 <= k < |texts|
      ensures Responses(texts, threshold, score)[k] == DetectThreat(texts[k], threshold, score(texts[k]))
    {
      ResponsesAt(texts, threshold, score, k);
    }
  }

  lemma CountThreatsSnoc(rs: seq<ThreatResponse>, r: ThreatResponse)
    ensures CountThreats(rs + [r]) == CountThreats(rs) + if r.isThreat then 1 else 0
  {
    assert (rs + [r])[..|rs|] == rs;
  }

  /**
    `detect_threats_batch`: one response per text, in order, and the number of threats among
    them, which cannot exceed the number of texts processed.
  */
  method DetectThreatsBatch(texts: seq<string>, threshold: real, score: string -> real) returns (r: BatchResponse)
    ensures |r.results| == r.totalProcessed == |texts|
    ensures forall i :: 0 <= i < |texts| ==> r.results[i] == DetectThreat(texts[i], threshold, score(texts[i]))
    ensures r.threatsDetected == CountThreats(r.results)
    ensures r.threatsDetected <= r.totalProcessed
  {
    var results: seq<ThreatResponse> := [];
    var threatsCount := 0;
    var i := 0;
    while i < |texts|
      invariant 0 <= i <= |texts|
      invariant results == Responses(texts[..i], threshold, score)
      invariant threatsCount == CountThreats(results)
    {
      var result := DetectThreat(texts[i], threshold, score(texts[i]));
      ResponsesSnoc(texts, threshold, score, i);
      CountThreatsSnoc(results, result);
      results := results + [result];
      if result.isThreat {
        threatsCount := threatsCount + 1;
      }
      i := i + 1;
    }
    assert texts[..i] == texts;
    ResponsesMeaning(texts, threshold, score);
    r := BatchResponse(results, |texts|, threatsCount);
  }
}
