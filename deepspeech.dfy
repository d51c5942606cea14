/** The local DeepSpeech backend (server.py, load_ds_audio and
    deepspeech_tts): the choice between resampling and the native frames,
    and the mapping of the model's transcripts to candidates. The model
    and SoX are not modelled; what they return is given. */
module DeepSpeech {
  import opened Common
  import opened Candidates

  datatype Token = Token(text: string)

  /** One entry of the model's metadata.transcripts. */
  datatype Transcript = Transcript(confidence: real, tokens: seq<Token>)

  /** ''.join of the token texts. */
  function JoinTexts(tokens: seq<Token>): string
  {
    if tokens == [] then "" else tokens[0].text + JoinTexts(tokens[1..])
  }

  /** The join is empty exactly when every token's text is. */
  lemma {:induction false} JoinTextsEmpty(tokens: seq<Token>)
    ensures JoinTexts(tokens) == "" <==> forall k :: 0 <= k < |tokens| ==> tokens[k].text == ""
  {
    if tokens != [] {
      JoinTextsEmpty(tokens[1..]);
      assert forall k :: 1 <= k < |tokens| ==> tokens[k] == tokens[1..][k - 1];
    }
  }

  lemma {:induction false} JoinTextsAppend(a: seq<Token>, b: seq<Token>)
    ensures JoinTexts(a + b) == JoinTexts(a) + JoinTexts(b)
  {
    if a == [] {
      assert a + b == b;
    } else {
      JoinTextsAppend(a[1..], b);
      assert (a + b)[1..] == a[1..] + b;
    }
  }

  /** Token k's text stands in the joined text right after the texts of
      the tokens before it: the join keeps every token, in order. */
  lemma JoinTextsAt(tokens: seq<Token>, k: nat)
    requires k < |tokens|
    ensures var start := |JoinTexts(tokens[..k])|;
            var joined := JoinTexts(tokens);
            start + |tokens[k].text| <= |joined|
            && joined[start..start + |tokens[k].text|] == tokens[k].text
  {
    assert tokens == tokens[..k] + ([tokens[k]] + tokens[k + 1..]);
    JoinTextsAppend(tokens[..k], [tokens[k]] + tokens[k + 1..]);
  }

  /** The list comprehension of deepspeech_tts: one candidate per
      transcript, with its confidence and its tokens' joined text. */
  function DsCandidates(ts: seq<Transcript>): (r: seq<Candidate>)
    ensures |r| == |ts|
    ensures forall i :: 0 <= i < |ts| ==>
              r[i].confidence == ts[i].confidence && r[i].text == JoinTexts(ts[i].tokens)
  {
    if ts == [] then []
    else [Candidate(ts[0].confidence, JoinTexts(ts[0].tokens))] + DsCandidates(ts[1..])
  }

  /** The audio load_ds_audio hands to the model, and the sample rates SoX
      was asked to convert to along the way. */
  datatype AudioLoad = AudioLoad(audio: Result<seq<int>, Exception>, conversions: seq<nat>)

  /** load_ds_audio: SoX runs, once and at the model's rate, exactly when
      the clip's rate differs from it; otherwise the clip's own frames are
      used as numpy.frombuffer reads them. `sox` is what the conversion
      would return and `frames` what numpy.frombuffer would return (it
      raises when the frame bytes are not a whole number of 16-bit
      samples). */
  function LoadDsAudio(framerate: nat, desired: nat, frames: Result<seq<int>, Exception>,
                       sox: Result<seq<int>, Exception>): (r: AudioLoad)
    ensures r.conversions != [] <==> framerate != desired
    ensures r.conversions != [] ==> r.conversions == [desired] && r.audio == sox
    ensures r.conversions == [] ==> r.audio == frames
  {
    if framerate != desired then AudioLoad(sox, [desired])
    else AudioLoad(frames, [])
  }

  /** deepspeech_tts: a failed load of the audio is the backend's
      exception; otherwise the model call `stt` decides: its exception, or
      its transcripts as candidates, in the model's order. */
  function DeepSpeechTts(framerate: nat, desired: nat, frames: Result<seq<int>, Exception>,
                         sox: Result<seq<int>, Exception>,
                         stt: Result<seq<Transcript>, Exception>, runtime: real): (o: Outcome)
    ensures o.Raised? <==> || (framerate != desired && sox.Failure?)
                           || (framerate == desired && frames.Failure?)
                           || stt.Failure?
    ensures o.Raised? && framerate != desired && sox.Failure? ==> o.error == sox.error
    ensures o.Raised? && framerate == desired && frames.Failure? ==> o.error == frames.error
    ensures o.Raised? && LoadDsAudio(framerate, desired, frames, sox).audio.Success? ==> o.error == stt.error
    ensures o.Recognized? ==> o.runtime == runtime && |o.candidates| == |stt.value|
    ensures o.Recognized? ==> forall i :: 0 <= i < |stt.value| ==>
              && o.candidates[i].confidence == stt.value[i].confidence
              && o.candidates[i].text == JoinTexts(stt.value[i].tokens)
  {
    match LoadDsAudio(framerate, desired, frames, sox).audio
    case Failure(e) => Raised(e)
    case Success(_) =>
      match stt
      case Failure(e) => Raised(e)
      case Success(transcripts) => Recognized(DsCandidates(transcripts), runtime)
  }
}
