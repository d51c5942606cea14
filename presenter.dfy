/** How server.py's POST handler presents a result: the whole dictionary
    as JSON, or a two-section text summary when the request path asks for
    text. JSON serialisation is not modelled; the JSON response carries
    the dictionary itself. */
module Presenter {
  import opened Common
  import opened Candidates
  import opened Aggregation
  import opened GoogleEnvelope

  /** What the summary shows for backend b: its error message, else the
      text of its first candidate. None when that list is empty, where the
      subscript in server.py raises IndexError. */
  function Summary(m: map<string, Value>, b: Backend): (r: Option<string>)
    requires IsAggregate(m)
    ensures ErrorKey(b) in m ==> r == Some(m[ErrorKey(b)].s)
    ensures ErrorKey(b) !in m ==> TranscriptKey(b) in m
    ensures ErrorKey(b) !in m ==> (r.None? <==> m[TranscriptKey(b)].candidates == [])
    ensures r.Some? && ErrorKey(b) !in m ==> r.value == m[TranscriptKey(b)].candidates[0].text
  {
    assert Resolved(m, b);
    if ErrorKey(b) in m then Some(m[ErrorKey(b)].s)
    else
      var candidates := m[TranscriptKey(b)].candidates;
      if candidates == [] then None else Some(candidates[0].text)
  }

  /** The text response built from the two summaries. */
  function TextLayout(google: string, deepspeech: string): string
  {
    "Google:\n" + google + "\n" + "\n" + "DeepSpeech:\n" + deepspeech + "\n"
  }

  /** Each summary stands whole at a fixed place in the text: it starts
      with the Google label, the Google summary follows it, and the
      DeepSpeech summary follows the blank line and its own label. */
  lemma TextLayoutShowsBoth(google: string, deepspeech: string)
    ensures var t := TextLayout(google, deepspeech);
            && |t| == |google| + |deepspeech| + 23
            && t[..8] == "Google:\n"
            && t[8..8 + |google|] == google
            && t[8 + |google|..22 + |google|] == "\n\nDeepSpeech:\n"
            && t[22 + |google|..22 + |google| + |deepspeech|] == deepspeech
            && t[|t| - 1] == '\n'
  {
  }

  /** The text response, or the IndexError that stops it. */
  function SummaryText(m: map<string, Value>): (r: Result<string, Exception>)
    requires IsAggregate(m)
    ensures r.Failure? <==> Summary(m, Google).None? || Summary(m, Ds).None?
    ensures r.Failure? ==> r.error == IndexError
    ensures r.Success? ==> r.value == TextLayout(Summary(m, Google).value, Summary(m, Ds).value)
  {
    match (Summary(m, Google), Summary(m, Ds))
    case (Some(g), Some(d)) => Success(TextLayout(g, d))
    case _ => Failure(IndexError)
  }

  /** The text branch of do_POST, which grows the response piece by piece. */
  method RenderText(result: map<string, Value>) returns (r: Result<string, Exception>)
    requires IsAggregate(result)
    ensures r == SummaryText(result)
  {
    var txt := "";
    txt := txt + "Google:\n";
    if ErrorKey(Google) in result {
      txt := txt + result[ErrorKey(Google)].s + "\n";
    } else {
      var transcript := result[TranscriptKey(Google)].candidates;
      if |transcript| == 0 {
        return Failure(IndexError);
      }
      txt := txt + transcript[0].text + "\n";
    }
    ghost var google := Summary(result, Google).value;
    assert txt == "Google:\n" + google + "\n";
    txt := txt + "\n";
    txt := txt + "DeepSpeech:\n";
    if ErrorKey(Ds) in result {
      txt := txt + result[ErrorKey(Ds)].s + "\n";
    } else {
      var transcript := result[TranscriptKey(Ds)].candidates;
      if |transcript| == 0 {
        return Failure(IndexError);
      }
      txt := txt + transcript[0].text + "\n";
    }
    assert txt == TextLayout(google, Summary(result, Ds).value);
    return Success(txt);
  }

  /** The response body do_POST writes. */
  datatype Response =
    | TextBody(text: Result<string, Exception>)
    | JsonBody(document: map<string, Value>)

  /** 'text' in path. */
  predicate AsksForText(path: string)
  {
    exists i | 0 <= i <= |path| - 4 ::
      path[i] == 't' && path[i + 1] == 'e' && path[i + 2] == 'x' && path[i + 3] == 't'
  }

  /** do_POST's choice of rendering: text exactly when the path contains
      "text", otherwise the result dictionary as it is. */
  method DoPost(path: string, result: map<string, Value>) returns (resp: Response)
    requires IsAggregate(result)
    ensures resp.TextBody? <==> AsksForText(path)
    ensures resp.TextBody? ==> resp.text == SummaryText(result)
    ensures resp.JsonBody? ==> resp.document == result
  {
    if AsksForText(path) {
      var txt := RenderText(result);
      resp := TextBody(txt);
    } else {
      resp := JsonBody(result);
    }
  }

  /** In a summary each backend shows its error message if it failed, else
      its first candidate's text, whatever the other backend did. */
  lemma SummaryOfAggregate(size: nat, header: WavHeader, ds: Outcome, google: Outcome)
    requires header.framerate != 0
    ensures var m := Aggregate(size, header, ds, google).value;
            && Summary(m, Ds) == (if ds.Raised? then Some(DsMessage(ds.error))
                                  else if ds.candidates == [] then None
                                  else Some(ds.candidates[0].text))
            && Summary(m, Google) == (if google.Raised? then Some(GoogleMessage(google.error))
                                      else if google.candidates == [] then None
                                      else Some(google.candidates[0].text))
  {
  }

  /** A Google result that parsed always has a line in the summary, and
      that line is the text of a most confident alternative. */
  lemma TopGoogleCandidateShown(size: nat, header: WavHeader, ds: Outcome, lines: seq<Line>, runtime: real)
    requires header.framerate != 0
    requires ParseEnvelope(lines).Success?
    ensures var m := Aggregate(size, header, ds, Recognized(ParseEnvelope(lines).value, runtime)).value;
            exists c :: c in Unranked(lines).value && Summary(m, Google) == Some(c.text)
                        && forall d :: d in Unranked(lines).value ==> c.confidence >= d.confidence
  {
    var ranked := ParseEnvelope(lines).value;
    SummaryOfAggregate(size, header, ds, Recognized(ranked, runtime));
    var c := ranked[0];
    assert c in multiset(ranked);
    forall d | d in Unranked(lines).value ensures c.confidence >= d.confidence {
      assert d in multiset(ranked);
      var k :| 0 <= k < |ranked| && ranked[k] == d;
      assert k == 0 || c.confidence >= ranked[k].confidence;
    }
  }
}
