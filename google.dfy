/** The Google Speech API backend (server.py, google_tts): the choice of
    the result in a newline-delimited response, the mapping of its
    alternatives to candidates and their ranking. JSON decoding itself is
    not modelled: each line of the body is given in its decoded form. */
module GoogleEnvelope {
  import opened Common
  import opened Candidates

  /** One element of a result's "alternative" list; a key the object lacks
      is None. */
  datatype Alternative = Alternative(transcript: Option<string>, confidence: Option<real>)

  /** One element of a line's "result" list: a JSON object, whose
      "alternative" key may be missing, or any other JSON value. */
  datatype Hypothesis =
    | Record(alternative: Option<seq<Alternative>>)
    | NotARecord

  /** One piece of the body split at "\n": empty, text json.loads rejects
      (with the decoder's message), or a decoded object whose "result" key
      may be missing. */
  datatype Line =
    | Blank
    | Unparsable(message: string)
    | Envelope(result: Option<seq<Hypothesis>>)

  /** How far the request got before a body was read. */
  datatype Transport =
    | FlacFailed(text: string)          // convert_flac raised; str() of its exception
    | HttpFailed(reason: string)        // urlopen raised HTTPError
    | ConnectionFailed(reason: string)  // urlopen raised URLError
    | ReplyFailed(text: string)         // waiting for or reading the reply raised (socket.timeout); str() of it
    | Delivered(lines: seq<Line>)

  /** The loop passes over this line without choosing anything. */
  predicate Skipped(l: Line)
  {
    l.Blank? || l == Envelope(Some([]))
  }

  /** json.loads(line)["result"] for a non-blank line. */
  function ResultList(l: Line): Result<seq<Hypothesis>, Exception>
    requires !l.Blank?
  {
    match l
    case Unparsable(m) => Failure(Other(m))
    case Envelope(None) => Failure(KeyError("result"))
    case Envelope(Some(hs)) => Success(hs)
  }

  /** What the first line that is not skipped decides on its own: its first
      result, or the exception reading it raised. */
  function Decided(l: Line): Result<Option<Hypothesis>, Exception>
    requires !Skipped(l)
  {
    match ResultList(l)
    case Failure(e) => Failure(e)
    case Success(hs) => Success(Some(hs[0]))
  }

  /** Reference definition of the loop: the head of the first non-empty
      result list, None when every line is skipped. */
  function FirstResult(lines: seq<Line>): Result<Option<Hypothesis>, Exception>
  {
    if lines == [] then Success(None)
    else if Skipped(lines[0]) then FirstResult(lines[1..])
    else Decided(lines[0])
  }

  /** The first line that is not skipped alone decides the result: what
      precedes it is blank or empty, and nothing after it is read. */
  lemma {:induction false} FirstResultAt(lines: seq<Line>, i: nat)
    requires i < |lines| && !Skipped(lines[i])
    requires forall j :: 0 <= j < i ==> Skipped(lines[j])
    ensures FirstResult(lines) == Decided(lines[i])
  {
    if i > 0 {
      FirstResultAt(lines[1..], i - 1);
    }
  }

  /** Nothing is chosen exactly when every line is skipped. */
  lemma {:induction false} NothingChosen(lines: seq<Line>)
    ensures FirstResult(lines) == Success(None)
        <==> forall j :: 0 <= j < |lines| ==> Skipped(lines[j])
  {
    if lines != [] {
      NothingChosen(lines[1..]);
      assert forall j :: 1 <= j < |lines| ==> lines[j] == lines[1..][j - 1];
    }
  }

  /** Lines after the deciding one may be anything. */
  lemma FirstResultIgnoresRest(lines: seq<Line>, i: nat, rest: seq<Line>)
    requires i < |lines| && !Skipped(lines[i])
    requires forall j :: 0 <= j < i ==> Skipped(lines[j])
    ensures FirstResult(lines[..i + 1] + rest) == FirstResult(lines)
  {
    var other := lines[..i + 1] + rest;
    assert other[i] == lines[i];
    FirstResultAt(lines, i);
    FirstResultAt(other, i);
  }

  /** The loop of google_tts over the lines of the body, with its early
      exit at the first non-empty result list. */
  method ChooseResult(lines: seq<Line>) returns (r: Result<Option<Hypothesis>, Exception>)
    ensures r == FirstResult(lines)
  {
    var actual: Option<Hypothesis> := None;
    var i := 0;
    while i < |lines|
      invariant 0 <= i <= |lines|
      invariant actual == None
      invariant FirstResult(lines) == FirstResult(lines[i..])
    {
      var line := lines[i];
      assert lines[i..][1..] == lines[i + 1..];
      if line.Blank? {
        i := i + 1;
        continue;
      }
      var result := ResultList(line);
      if result.Failure? {
        return Failure(result.error);
      }
      if |result.value| != 0 {
        actual := Some(result.value[0]);
        break;
      }
      i := i + 1;
    }
    return Success(actual);
  }

  /** The alternatives of the chosen result. UnknownValueError when nothing
      was chosen, the choice is not an object, or its "alternative" list is
      missing or empty. */
  function Alternatives(chosen: Option<Hypothesis>): (r: Result<seq<Alternative>, Exception>)
    ensures r.Success? <==> chosen.Some? && chosen.value.Record?
                            && chosen.value.alternative.Some? && |chosen.value.alternative.value| > 0
    ensures r.Success? ==> r.value == chosen.value.alternative.value
    ensures r.Failure? ==> r.error == UnknownValueError
  {
    match chosen
    case Some(Record(Some(alts))) => if |alts| == 0 then Failure(UnknownValueError) else Success(alts)
    case _ => Failure(UnknownValueError)
  }

  /** The confidence an alternative contributes: its own, or Absent. */
  function ConfidenceOf(a: Alternative): real
  {
    match a.confidence
    case Some(c) => c
    case None => Absent
  }

  /** The list comprehension over the alternatives: one candidate each,
      failing on the first alternative without a "transcript" key. */
  function ToCandidates(alts: seq<Alternative>): (r: Result<seq<Candidate>, Exception>)
    ensures r.Failure? <==> exists i :: 0 <= i < |alts| && alts[i].transcript.None?
    ensures r.Failure? ==> r.error == KeyError("transcript")
    ensures r.Success? ==> |r.value| == |alts|
    ensures r.Success? ==> forall i :: 0 <= i < |alts| ==>
              r.value[i] == Candidate(ConfidenceOf(alts[i]), alts[i].transcript.value)
  {
    if alts == [] then Success([])
    else match alts[0].transcript
      case None => Failure(KeyError("transcript"))
      case Some(t) =>
        match ToCandidates(alts[1..])
        case Failure(e) =>
          assert exists i :: 0 <= i < |alts[1..]| && alts[1..][i].transcript.None?;
          Failure(e)
        case Success(rest) => Success([Candidate(ConfidenceOf(alts[0]), t)] + rest)
  }

  /** The candidates before ranking, or the exception that stops parsing. */
  function Unranked(lines: seq<Line>): Result<seq<Candidate>, Exception>
  {
    match FirstResult(lines)
    case Failure(e) => Failure(e)
    case Success(chosen) =>
      match Alternatives(chosen)
      case Failure(e) => Failure(e)
      case Success(alts) => ToCandidates(alts)
  }

  /** The parsed body: the unranked candidates sorted stably by descending
      confidence. A successful parse is never an empty list. */
  function ParseEnvelope(lines: seq<Line>): (r: Result<seq<Candidate>, Exception>)
    ensures r.Success? <==> Unranked(lines).Success?
    ensures r.Failure? ==> r == Unranked(lines)
    ensures r.Success? ==> |r.value| > 0
    ensures r.Success? ==> StableDescending(Unranked(lines).value, r.value)
    ensures r.Success? ==> multiset(r.value) == multiset(Unranked(lines).value)
  {
    match Unranked(lines)
    case Failure(e) => Failure(e)
    case Success(cs) => Success(SortByConfidence(cs))
  }

  /** google_tts after the audio is sent: the transport failures become
      exceptions with server.py's messages, and a delivered body is
      parsed. The runtime is the measured time, given. */
  method GoogleTts(t: Transport, runtime: real) returns (o: Outcome)
    ensures t.FlacFailed? ==> o == Raised(Other(t.text))
    ensures t.HttpFailed? ==> o == Raised(RequestError("recognition request failed: " + t.reason))
    ensures t.ConnectionFailed? ==> o == Raised(RequestError("recognition connection failed: " + t.reason))
    ensures t.ReplyFailed? ==> o == Raised(Other(t.text))
    ensures t.Delivered? ==> (o.Recognized? <==> ParseEnvelope(t.lines).Success?)
    ensures t.Delivered? && o.Recognized? ==>
              o.candidates == ParseEnvelope(t.lines).value && o.runtime == runtime
    ensures t.Delivered? && o.Raised? ==> o.error == ParseEnvelope(t.lines).error
  {
    match t {
      case FlacFailed(text) =>
        return Raised(Other(text));
      case HttpFailed(reason) =>
        return Raised(RequestError("recognition request failed: " + reason));
      case ConnectionFailed(reason) =>
        return Raised(RequestError("recognition connection failed: " + reason));
      case ReplyFailed(text) =>
        return Raised(Other(text));
      case Delivered(lines) =>
        var chosen := ChooseResult(lines);
        if chosen.Failure? {
          return Raised(chosen.error);
        }
        var alts := Alternatives(chosen.value);
        if alts.Failure? {
          return Raised(alts.error);
        }
        var candidates := ToCandidates(alts.value);
        if candidates.Failure? {
          return Raised(candidates.error);
        }
        return Recognized(SortByConfidence(candidates.value), runtime);
    }
  }
}
