/** The per-request result of server.py's transcribe: the clip's metadata
    and, for each backend, either its transcript and runtime or an error
    message. The two backend calls run concurrently in server.py; here
    their outcomes are given. */
module Aggregation {
  import opened Common
  import opened Candidates

  /** The values the result dictionary holds. */
  datatype Value =
    | Int(i: int)
    | Real(x: real)
    | Text(s: string)
    | Transcripts(candidates: seq<Candidate>)

  /** The two fields transcribe reads from the WAV header. */
  datatype WavHeader = WavHeader(nframes: nat, framerate: nat)

  /** The two backends of the server, named by their key prefix. */
  datatype Backend = Ds | Google

  function ErrorKey(b: Backend): string
  {
    match b
    case Ds => "ds_error"
    case Google => "google_error"
  }

  function TranscriptKey(b: Backend): string
  {
    match b
    case Ds => "ds_transcript"
    case Google => "google_transcript"
  }

  function RuntimeKey(b: Backend): string
  {
    match b
    case Ds => "ds_runtime"
    case Google => "google_runtime"
  }

  /** The eight keys of a result are distinct strings. */
  lemma KeysDistinct()
    ensures forall b :: |{"origsize", "audiolen", ErrorKey(b), TranscriptKey(b), RuntimeKey(b)}| == 5
    ensures forall b :: ErrorKey(b)[0] == TranscriptKey(b)[0] == RuntimeKey(b)[0] == (if b.Ds? then 'd' else 'g')
  {
  }

  /** The message recorded when DeepSpeech raised e: a fixed prefix of
      34 characters, then the exception's text. */
  function DsMessage(e: Exception): (m: string)
    ensures |m| == 34 + |Str(e)|
    ensures m[..34] == "DeepSpeech failed to parse audio: " && m[34..] == Str(e)
  {
    "DeepSpeech failed to parse audio: " + Str(e)
  }

  /** The message recorded when the Google call raised e. */
  function GoogleMessage(e: Exception): (m: string)
    ensures e.UnknownValueError? ==> m == "Google Speech Recognition could not understand audio"
    ensures !e.UnknownValueError? ==> m == "Google Speech Recognition failed to parse audio: " + Str(e)
  {
    match e
    case UnknownValueError => "Google Speech Recognition could not understand audio"
    case _ => "Google Speech Recognition failed to parse audio: " + Str(e)
  }

  /** For the backend b, m holds exactly one of
      an error message or a transcript with its runtime. */
  predicate Resolved(m: map<string, Value>, b: Backend)
  {
    var error, transcript, runtime := ErrorKey(b), TranscriptKey(b), RuntimeKey(b);
    || (error in m && m[error].Text? && transcript !in m && runtime !in m)
    || (error !in m && transcript in m && m[transcript].Transcripts? && runtime in m && m[runtime].Real?)
  }

  /** The shape every result of transcribe has. */
  predicate IsAggregate(m: map<string, Value>)
  {
    && "origsize" in m && m["origsize"].Int?
    && "audiolen" in m && m["audiolen"].Real?
    && Resolved(m, Ds) && Resolved(m, Google)
  }

  /** Backend b is recorded in m as outcome o says:
      transcript and runtime on success, an error key on failure. */
  predicate Reports(m: map<string, Value>, b: Backend, o: Outcome)
  {
    match o
    case Recognized(cs, rt) =>
      && TranscriptKey(b) in m && m[TranscriptKey(b)] == Transcripts(cs)
      && RuntimeKey(b) in m && m[RuntimeKey(b)] == Real(rt)
      && ErrorKey(b) !in m
    case Raised(_) =>
      && ErrorKey(b) in m
      && TranscriptKey(b) !in m && RuntimeKey(b) !in m
  }

  /** The keys one backend's outcome contributes. */
  function EntryKeys(b: Backend, o: Outcome): set<string>
  {
    if o.Recognized? then {TranscriptKey(b), RuntimeKey(b)} else {ErrorKey(b)}
  }

  /** m with backend b's outcome recorded in it, as transcribe records it:
      runtime and transcript on success, otherwise the given message. */
  function WithOutcome(m: map<string, Value>, b: Backend, o: Outcome, message: string)
    : (r: map<string, Value>)
    requires ErrorKey(b) !in m && TranscriptKey(b) !in m && RuntimeKey(b) !in m
    ensures r.Keys == m.Keys + EntryKeys(b, o)
    ensures forall k :: k in m ==> r[k] == m[k]
    ensures Reports(r, b, o) && Resolved(r, b)
    ensures o.Raised? ==> r[ErrorKey(b)] == Text(message)
  {
    match o
    case Recognized(cs, rt) => m[RuntimeKey(b) := Real(rt)][TranscriptKey(b) := Transcripts(cs)]
    case Raised(_) => m[ErrorKey(b) := Text(message)]
  }

  /** The result of transcribe for a body of `size` bytes. Computing the
      clip's length divides by its frame rate, so a rate of 0 raises
      before any backend runs. */
  function Aggregate(size: nat, header: WavHeader, ds: Outcome, google: Outcome)
    : (r: Result<map<string, Value>, Exception>)
    ensures r.Failure? <==> header.framerate == 0
    ensures r.Failure? ==> r.error == Other("division by zero")
    ensures r.Success? ==> IsAggregate(r.value)
    ensures r.Success? ==> r.value["origsize"] == Int(size)
    ensures r.Success? ==> r.value["audiolen"] == Real(header.nframes as real / header.framerate as real)
    ensures r.Success? ==> Reports(r.value, Ds, ds) && Reports(r.value, Google, google)
    ensures r.Success? && ds.Raised? ==> r.value[ErrorKey(Ds)] == Text(DsMessage(ds.error))
    ensures r.Success? && google.Raised? ==> r.value[ErrorKey(Google)] == Text(GoogleMessage(google.error))
    ensures r.Success? ==> r.value.Keys == {"origsize", "audiolen"}
                                         + EntryKeys(Ds, ds) + EntryKeys(Google, google)
  {
    if header.framerate == 0 then Failure(Other("division by zero"))
    else
      var base := map["origsize" := Int(size),
                       "audiolen" := Real(header.nframes as real / header.framerate as real)];
      var dsMessage := if ds.Raised? then DsMessage(ds.error) else "";
      var googleMessage := if google.Raised? then GoogleMessage(google.error) else "";
      KeysDistinct();
      var withDs := WithOutcome(base, Ds, ds, dsMessage);
      Success(WithOutcome(withDs, Google, google, googleMessage))
  }

  /** A failing backend never removes or changes the other one's entries:
      what the result says about DeepSpeech depends on its outcome alone,
      whatever the Google call did, and the other way round. */
  lemma BackendsIndependent(size: nat, header: WavHeader, ds1: Outcome, ds2: Outcome,
                            g1: Outcome, g2: Outcome)
    requires header.framerate != 0
    ensures var m1, m2 := Aggregate(size, header, ds1, g1).value, Aggregate(size, header, ds1, g2).value;
            forall k | k in EntryKeys(Ds, ds1) :: k in m1 && k in m2 && m1[k] == m2[k]
    ensures var m1, m2 := Aggregate(size, header, ds1, g1).value, Aggregate(size, header, ds2, g1).value;
            forall k | k in EntryKeys(Google, g1) :: k in m1 && k in m2 && m1[k] == m2[k]
  {
  }

  /** transcribe: the result dictionary is built up in place, first the
      clip's metadata, then one backend's entries after the other. */
  method Transcribe(size: nat, header: WavHeader, ds: Outcome, google: Outcome)
    returns (r: Result<map<string, Value>, Exception>)
    ensures r == Aggregate(size, header, ds, google)
  {
    if header.framerate == 0 {
      return Failure(Other("division by zero"));
    }
    var audioLength := header.nframes as real / header.framerate as real;
    var result := map["origsize" := Int(size), "audiolen" := Real(audioLength)];
    match ds {
      case Recognized(trans, runtime) =>
        result := result[RuntimeKey(Ds) := Real(runtime)][TranscriptKey(Ds) := Transcripts(trans)];
      case Raised(e) =>
        result := result[ErrorKey(Ds) := Text(DsMessage(e))];
    }
    match google {
      case Recognized(trans, runtime) =>
        result := result[RuntimeKey(Google) := Real(runtime)][TranscriptKey(Google) := Transcripts(trans)];
      case Raised(UnknownValueError) =>
        result := result[ErrorKey(Google) := Text("Google Speech Recognition could not understand audio")];
      case Raised(e) =>
        result := result[ErrorKey(Google) := Text("Google Speech Recognition failed to parse audio: " + Str(e))];
    }
    return Success(result);
  }
}
