# Speech transcription fan-out: a Dafny model

This project models the sequential logic of a small transcription service
and its companion command-line script.

The HTTP server (`server.py`) takes an uploaded WAV clip and asks two
backends for a transcript: a local DeepSpeech model and the Google Speech
API. It stores both outcomes in one result dictionary and answers either
with that dictionary as JSON or with a short text summary.

The script (`wav_transcribe.py`) sends one file to Google, Bing and IBM
Watson. Each recogniser writes a labelled text into its own slot of a
three-element list, and the filled slots are printed between separator
lines.

The model covers the parts of this that are plain logic:

- **Candidates** (`candidates.dfy`): the transcript candidate, a backend's
  outcome, and the stable sort by descending confidence. The sort is proved
  to be a permutation, to be non-increasing and to keep ties in order. It is
  also proved to be the *only* ordering with those properties.
- **GoogleEnvelope** (`google.dfy`): the loop over the lines of the response
  body, written as a method with an early exit and proved against a
  reference function. Also the rejection of a missing or empty
  `alternative` list, the mapping of alternatives to candidates (a missing
  confidence becomes -1), the ranking, and the transport failures raised
  before a body is read.
- **DeepSpeech** (`deepspeech.dfy`): the choice between resampling with SoX
  and the clip's own frames, and the mapping of the model's transcripts to
  candidates whose text is the in-order join of their tokens.
- **Aggregation** (`aggregate.dfy`): `transcribe`'s result dictionary,
  built in place. It always holds `origsize` and `audiolen`. For each
  backend it holds exactly one of a transcript/runtime pair or an error
  message. Each backend's entries depend on its own outcome only.
- **Presenter** (`presenter.dfy`): `do_POST`'s choice between JSON and text,
  and the text summary. The summary shows each backend's error message, or
  else its first candidate's text.
- **Report** (`report.dfy`): the script's formatters writing into an
  `array<string>` of three slots, and the assembly of the printed report.

Exceptions are modelled as values (`Common.Exception`). An exception is
carried by the text Python's `str()` gives it, because that text is all the
handlers use. Confidence is a `real`, with -1 meaning "absent". Every
backend call, SoX run and network exchange is an input to the model.

### Behaviour worth noting

- `server.py` checks only that a Google result is non-empty; DeepSpeech's
  candidate list is passed through unchecked. If that list is empty, the
  text summary's `[0]` subscript raises `IndexError`; `Presenter.SummaryText`
  models this as a failure.
- Neither backend has an overall deadline. SoX and the DeepSpeech model
  run without a limit, and `urlopen`'s 90-second timeout bounds each socket
  operation, not the whole call. Only `HTTPError` and `URLError` are
  translated into "recognition request failed" and "recognition connection
  failed". A timeout while waiting for or reading the reply escapes as
  `socket.timeout` and is recorded as "Google Speech Recognition failed to
  parse audio: timed out" (`GoogleEnvelope.Transport.ReplyFailed`).
- `convert_samplerate` raises `RuntimeError` or `OSError`; either one
  reaches `ds_error` as its text, like every other DeepSpeech exception
  (`numpy.frombuffer` on a frame buffer of odd length, a failing model
  call).
- A frame rate of 0 makes `transcribe` itself raise (division by zero)
  before any entry is built. `Aggregation.Aggregate` returns that failure.

## Model

| member | source | states |
|---|---|---|
| `Candidates.SortByConfidence` | server.py:94 | the ranked list has the input's length and multiset, is non-increasing in confidence, and keeps every run of equal confidences in input order (stability) |
| `Candidates.StableOrderUnique` | server.py:94 | two lists that are both non-increasing and agree on every run of ties are equal |
| `Candidates.SortCharacterized` | server.py:94 | a list is the sort of the input if and only if it is non-increasing and keeps the input's order among ties |
| `GoogleEnvelope.ChooseResult` | server.py:80-87 | the loop (blank lines skipped, first non-empty `result` list taken, break) returns exactly the reference `FirstResult`; decode and missing-key errors of lines before the choice propagate |
| `GoogleEnvelope.FirstResultAt` | server.py:81-87 | when every line before line i is blank or has an empty result list, line i alone decides the outcome: its `result[0]` or its error |
| `GoogleEnvelope.NothingChosen` | server.py:81-87 | nothing is chosen if and only if every line is blank or has an empty result list |
| `GoogleEnvelope.FirstResultIgnoresRest` | server.py:85-87 | replacing everything after the deciding line leaves the outcome unchanged |
| `GoogleEnvelope.Alternatives` | server.py:90 | succeeds exactly when a result was chosen, is an object, and has a non-empty `alternative` list; otherwise raises UnknownValueError |
| `GoogleEnvelope.ToCandidates` | server.py:93 | one candidate per alternative, in order, with text = transcript and confidence = the given value or -1; fails with KeyError('transcript') exactly when some alternative lacks a transcript |
| `GoogleEnvelope.ParseEnvelope` | server.py:79-94 | a successful parse is never empty, is a permutation of the mapped alternatives, is sorted non-increasing with ties in original order; any failure is that of the unranked mapping |
| `GoogleEnvelope.GoogleTts` | server.py:62-94 | a FLAC conversion failure, an HTTP error and a connection error become exceptions with server.py's messages; a failure while waiting for or reading the reply is that exception; a delivered body yields exactly the parsed candidates and the runtime, or the parse's exception |
| `DeepSpeech.JoinTextsEmpty` | server.py:102 | the `''.join` of the token texts is empty exactly when every token's text is |
| `DeepSpeech.JoinTextsAppend` | server.py:102 | the join of two token lists is the join of the first followed by the join of the second |
| `DeepSpeech.JoinTextsAt` | server.py:102 | every token's text appears in the joined text, right after the texts of the tokens before it |
| `DeepSpeech.DsCandidates` | server.py:100-103 | one candidate per transcript, in order, with the transcript's confidence and the join of its token texts |
| `DeepSpeech.LoadDsAudio` | server.py:51-60 | SoX is invoked (once, at the desired rate, its result used) if and only if the clip's rate differs from the model's; otherwise the audio is what `numpy.frombuffer` gives for the clip's frames, its exception included |
| `DeepSpeech.DeepSpeechTts` | server.py:96-103 | the backend raises exactly when the audio could not be loaded (SoX failed after a rate mismatch, or `frombuffer` failed at the model's rate) or the model call failed, with that exception; otherwise one candidate per transcript with its confidence and joined text, and the given runtime |
| `Aggregation.DsMessage` | server.py:119 | the DeepSpeech error is the fixed 34-character prefix "DeepSpeech failed to parse audio: " followed by the exception's text |
| `Aggregation.GoogleMessage` | server.py:123-126 | UnknownValueError gives the fixed "could not understand audio" message; any other exception gives the "failed to parse audio: " prefix plus its text |
| `Aggregation.WithOutcome` | server.py:116-126 | recording one backend adds exactly its transcript and runtime, or its error, and keeps every earlier entry |
| `Aggregation.Aggregate` | server.py:105-128 | fails exactly on a zero frame rate; otherwise holds origsize = body length and audiolen = nframes/framerate, records each backend exactly as its outcome says (one of transcript+runtime or error), with the DeepSpeech and Google messages, and no other keys |
| `Aggregation.BackendsIndependent` | server.py:115-126 | one backend's entries are the same whatever the other backend's outcome |
| `Aggregation.Transcribe` | server.py:105-128 | the dictionary built one update at a time equals `Aggregate` |
| `Presenter.Summary` | server.py:147-156 | a backend's summary line is its error message when it has one; otherwise it exists exactly when its transcript list is non-empty and is the first candidate's text |
| `Presenter.SummaryText` | server.py:145-156 | the text fails with IndexError exactly when one of the two summary lines is missing; otherwise it is the two-section layout of the two summaries |
| `Presenter.RenderText` | server.py:145-157 | the incrementally built text is the two-section layout of the Google and DeepSpeech summaries, or IndexError when a shown transcript list is empty |
| `Presenter.DoPost` | server.py:144-159 | text is rendered exactly when the path contains "text"; otherwise the response is the result dictionary unchanged |
| `Presenter.TextLayoutShowsBoth` | server.py:145-156 | the text is "Google:\n", the Google summary, a blank line, "DeepSpeech:\n", the DeepSpeech summary and a final newline, each at its fixed offset |
| `Presenter.SummaryOfAggregate` | server.py:147-156 | each backend's summary line is its error message if it failed, else its first candidate's text |
| `Presenter.TopGoogleCandidateShown` | server.py:147-150 | when the Google body parsed, its summary line exists and is the text of an alternative with the highest confidence |
| `Report.Recognize` | wav_transcribe.py:29-64 | a formatter that completes writes its labelled text into its own slot only; one whose thread dies leaves every slot as it was |
| `Report.Written` | wav_transcribe.py:40-64 | the slot list after a formatter: its own slot holds its text, all others are unchanged |
| `Report.WritesCommute` | wav_transcribe.py:40-64 | formatters of different providers write different slots, so their order does not change the result |
| `Report.Body` | wav_transcribe.py:29-63 | the text after the label: the recognised text itself; "<service> could not understand audio" when nothing was understood; "Could not request results from <service> service; " followed by the error when the request failed, where <service> is Google Speech Recognition, Microsoft Bing Voice Recognition or IBM Speech to Text |
| `Report.SlotTextLayout` | wav_transcribe.py:29-63 | a stored text is the provider's label line, ending in a newline, followed by the body |
| `Report.SlotTextIdentifies` | wav_transcribe.py:33-63 | a slot text is non-empty and determines the provider that wrote it and what it says (label, then the recognised text or the provider's error message) |
| `Report.SlotEmptyOnlyIfCrashed` | wav_transcribe.py:71-92 | a slot is empty if and only if its formatter did not complete |
| `Report.SectionsKeepFilledSlots` | wav_transcribe.py:87-92 | the non-empty lines between the separators are exactly the filled slots in slot order, with three lines per filled slot |
| `Report.JoinEnds` | wav_transcribe.py:94 | `"\r\n".join` of no lines is empty; otherwise the joined text starts with the first line and ends with the last, with the separator right after the first of two or more lines |
| `Report.JoinAppend` | wav_transcribe.py:94 | joining two line lists is joining each and putting the separator between them |
| `Report.JoinedFramed` | wav_transcribe.py:72-94 | the joined report starts with the dashed line and "\r\n" and ends with "\r\n" and the dashed line |
| `Report.ReportFramed` | wav_transcribe.py:72-94 | the printed text (the joined report and the "\n" print adds) starts with the dashed line and "\r\n" and ends with "\r\n", the dashed line and "\n" |
| `Report.RunReport` | wav_transcribe.py:71-94 | the printed text is the separator, the ["", slot, ""] lines of each filled slot in order 0, 1, 2, and the separator, joined with "\r\n", followed by the "\n" print adds |

## Left out

- Concurrency: the thread pool in `transcribe` and the three threads of the script. Backend outcomes are inputs, and the formatters run one after the other. `Report.WritesCommute` shows that their order does not matter.
- Network: building the request URL and headers, and `urlopen` itself. Only the outcome is modelled: an HTTP error, a connection error, a failure while waiting for or reading the reply, or a delivered body.
- SoX: `convert_samplerate` and `convert_flac`. Their output or exception is an input, and the text of their error messages is carried as given.
- JSON: `json.loads` and `json.dumps`. Each line arrives already decoded (blank, undecodable with the decoder's message, or an object). A `result` or `alternative` value that is not a list, and an alternative that is not an object, are not modelled. The JSON response carries the dictionary itself.
- UTF-8 decoding of the response and its split at "\n": the body arrives as its sequence of pieces.
- The DeepSpeech model (construction, `sampleRate`, `sttWithMetadata`) and `numpy.frombuffer`. What each returns or raises is an input.
- WAV parsing (`wave.open`): the frame count and frame rate are inputs, and a malformed container is not modelled.
- Floating point: runtimes are given, `audiolen` is the exact rational quotient, and confidences are reals compared exactly.
- Process plumbing: the HTTP server, response headers, logging, argument parsing, `run`, and the hard-coded credentials.
- The script's `speech_recognition` recognisers and audio loading (`Recognizer`, `WavFile`, `record`). Each recognition outcome is an input.
- The script's `except: print("Translation Failed")` around thread start and join. It only catches failures to start or join a thread, which are not modelled.
- `results[i] is not ""` is modelled as string inequality.
