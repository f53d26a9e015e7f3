# A verified model of the whisper-server transcriber core

whisper-server captures microphone audio, transcribes it with a Whisper speech
model, and streams the text to HTTP clients. This project models its sequential
bookkeeping in Dafny and proves properties of that model. The parts modelled are:

- **Configuration** (`schemas.dfy`, module `Schemas`). This is the
  `TranscriberConfig` record with its per-field constraints, its two validators
  and its defaults. Constructing a configuration from a request either gives a
  valid configuration or lists every field that was rejected.
- **Frame buffering on values** (`buffering.dfy`, module `Buffering`). This covers:
  - normalisation of int16 samples;
  - the RMS-above-threshold test, stated without a square root;
  - the queue capacity and the deque bound, both derived from the configuration;
  - the drop-oldest deque;
  - the concatenation and truncation of buffered audio.
- **Text clean-up** (`transcript_text.dfy`, module `TranscriptText`). This is
  Python's `str.strip()` with the whitespace set of `str.isspace()`, the
  newline-to-space replacement, and the discarding of empty results.
- **The transcriber object** (`transcriber.dfy`, module `Transcriber`). An
  `AudioTranscriber` class carries the fields the Python object updates in place:
  - the configuration;
  - the bounded frame queue and the bounded deque;
  - the voice clock and `has_transcribed`;
  - the running and stop flags;
  - the loaded model name;
  - the subscriber list.

  A `Mailbox` class stands for each subscriber's `Queue(maxsize=1)`. The methods
  model `__init__` (as `NewTranscriber`), `apply_config`, `audio_callback`, `update_voice_activity`,
  `process_audio_buffer`, one pass of `transcribe_loop`, `start`, and the state
  part of `stop`.
- **The HTTP handlers** (`server.dfy`, module `Server`). These cover:
  - the `/stream` subscription;
  - the output of the `generate` generator, with its filter of consecutive
    duplicates and its final newline;
  - the generator's clean-up of the subscriber list;
  - `/control`;
  - POST `/config`.

The model follows the code as written, which runs in a rolling-window mode. Every
processing cycle drains the queue into the deque, and the deque is re-read and
re-transcribed each time. Only `start` and `apply_config` (POST `/config`) empty the deque.

Foreign and timed effects are parameters:

- A capture delivers its raw samples and the current time.
- The calibration of an "auto" threshold arrives as its outcome (`None`: it raised).
- A model load arrives as whether it succeeds.
- The speech model is a function from audio to `Option<string>`, where `None`
  stands for an exception.
- A stream is a sequence of one-second waits on the mailbox, each of which
  delivered a text or timed out: the successive results of `Mailbox.Get`, which
  empties the mailbox so that the next publication can fill it again.
- The throttle of `transcribe_loop` is a boolean.

The loudness test `Loud(f, t)` holds exactly when `sqrt(mean(f^2)) > t`:

- for a negative `t`, it holds for every non-empty frame;
- for `t >= 0`, it holds when `mean(f^2) > t^2`;
- an empty frame has a NaN mean and is never loud.

The lemma `LoudIsRmsAbove` proves this equivalence against any non-negative root
of the mean square.

`AudioTranscriber.Valid()` is the object invariant. It requires:

- a valid configuration;
- a non-negative silence threshold (a fixed one is checked to be at least 0.0, and a
  calibrated one lies in [0, 0.3]);
- both buffers within their bounds;
- every buffered frame as long as the configured chunk.

`Configured()` says that the bounds are the ones derived from the current
configuration. Both are established by `ApplyConfig` and preserved by every method.

## Model

| member | source | states |
|---|---|---|
| Schemas.RateOk | schemas.py:4 | the sample rate lies strictly between 8000 and 48000 |
| Schemas.ChunkOk | schemas.py:5 | the block size lies strictly between 256 and 4096 |
| Schemas.BufferOk | schemas.py:6 | the buffer length in seconds lies strictly between 1 and 60 |
| Schemas.ThresholdOk | schemas.py:8 | a fixed silence threshold is at least 0.0; "auto" has no bound |
| Schemas.TimeoutOk | schemas.py:9 | the silence timeout is at least 0.5 seconds |
| Schemas.ValidConfig | schemas.py:3-10 | what a constructed TranscriberConfig guarantees: every bound above and a whitelisted model name (verbose is unconstrained) |
| Schemas.Rejects | schemas.py:3-23 | a field is rejected exactly when the request supplies it with a value that breaks its bound or its validator; an absent field is never rejected |
| Schemas.Supplies | schemas.py:3-10 | each field of the configuration is the supplied value, or the default when the field is absent; a number threshold becomes a fixed level and a text one "auto" |
| Schemas.ValidateModel | schemas.py:12-17 | a model name passes exactly when it is "tiny", "base", "small" or "medium"; it passes unchanged, and a failure names the model field |
| Schemas.ValidateThreshold | schemas.py:19-23 | a threshold passes exactly when it is the string "auto" or a number >= 0; "auto" means calibrate, a number is kept as the fixed level, and a failure names the threshold field |
| Schemas.RejectedAmong | schemas.py:3-10 | the rejected fields listed are exactly those of the given fields whose supplied value breaks that field's constraint |
| Schemas.Validate | schemas.py:3-23 | a request succeeds exactly when no field is rejected; the result then satisfies every constraint and holds each supplied value, or the default for an absent field; a failure lists exactly the rejected fields and is never empty |
| Schemas.DefaultsAreValid | schemas.py:4-10 | the defaults (16000, 1024, 5, "tiny", auto, 3.0, false) satisfy every constraint, and an empty request yields exactly them |
| Schemas.BoundsAreStrict | schemas.py:4-6 | the integer bounds are strict: 8000, 48000, 256, 4096, 1 and 60 are rejected, and the values just inside them are accepted |
| Buffering.SumSquares | transcriber.py:144 | the sum of the squared samples, which is never negative (proved from its recursive calls' contracts) |
| Buffering.MeanSquare | transcriber.py:144 | np.mean(data**2): the sum of squares divided by the number of samples, defined for non-empty frames |
| Buffering.Clip | transcriber.py:131 | the result lies in [-1, 1], equals the input inside that range, and is the nearer bound outside it |
| Buffering.Normalize | transcriber.py:131 | the frame has one sample per raw sample and every sample in [-1, 1]; clipping leaves genuine int16 samples at exactly x / 32768 |
| Buffering.LoudIsRmsAbove | transcriber.py:144-145 | the loudness test agrees with comparing the actual RMS, the non-negative root of the mean square, against the threshold |
| Buffering.LoudMonotone | transcriber.py:145 | a frame loud against a threshold is loud against every lower one |
| Buffering.SilenceIsNotLoud | transcriber.py:143-147 | an all-zero frame never moves the voice clock when the threshold is non-negative |
| Buffering.QueueCapacity | transcriber.py:70 | the queue's maxsize is int() of 1.5 * rate * buffer / chunk: the greatest integer not above that (positive) quotient |
| Buffering.DequeBound | transcriber.py:71 | the deque's maxlen is the floor quotient (rate * buffer) // chunk: r chunks fit in rate * buffer samples and r + 1 do not |
| Buffering.QueueFull | transcriber.py:138 | put_nowait raises Full exactly when maxsize > 0 and the queue holds maxsize items; defined here and used by AudioCallback's contract |
| Buffering.Loud | transcriber.py:144-145 | the RMS test without a square root: true for a negative threshold on a non-empty frame, otherwise mean(f^2) > threshold^2; an empty frame is never loud; its meaning is proved by LoudIsRmsAbove |
| Buffering.QueueCapacityFormula | transcriber.py:70 | int(1.5 * (rate * buffer / chunk)) equals floor(3 * rate * buffer / (2 * chunk)) |
| Buffering.CapacityCoversDeque | transcriber.py:70-71 | for every valid configuration, the queue capacity >= the deque bound >= 3; in particular the queue is bounded |
| Buffering.Bounded | transcriber.py:71 | what a deque with this maxlen holds after receiving a sequence: all of it when unbounded, else its last maxlen elements; DrainStep and DequeAppendBounded prove that appending one by one yields it |
| Buffering.LastN | transcriber.py:71 | the result is the suffix of length min(len, n) |
| Buffering.DequeAppend | transcriber.py:153 | a bounded deque stays within maxlen; the new element is rightmost whenever maxlen > 0; nothing else enters |
| Buffering.DequeAppendBounded | transcriber.py:153 | appending to the deque that holds the last maxlen of s gives the last maxlen of s + [x] |
| Buffering.DrainStep | transcriber.py:151-153 | one get-then-append step keeps the deque equal to the last maxlen frames of everything received so far |
| Buffering.Flatten | transcriber.py:160 | np.concatenate of the deque: the frames joined in order; FlattenLength states its length |
| Buffering.FlattenLength | transcriber.py:160 | concatenating n frames of k samples gives n * k samples |
| Buffering.Truncate | transcriber.py:160 | the slice [:n] is the prefix of length min(len, n) |
| Buffering.TruncationKeepsAll | transcriber.py:160 | at most rate * buffer // chunk frames of chunk samples never exceed rate * buffer samples, so the cut removes nothing |
| TranscriptText.IsSpace | transcriber.py:199 | the characters str.isspace() accepts and str.strip() removes: \t to \r, \x1c to \x1f, space, \x85, \xa0, \u1680, \u2000 to \u200a, \u2028, \u2029, \u202f, \u205f and \u3000 |
| TranscriptText.LeadingSpace | transcriber.py:199 | counts the whitespace at the start: every counted character is whitespace, and the next one is not |
| TranscriptText.TrailingSpace | transcriber.py:199 | counts the whitespace at the end: every counted character is whitespace, and the one before them is not |
| TranscriptText.Strip | transcriber.py:199 | str.strip(): the text between the leading and the trailing whitespace, or "" for whitespace only; StripSlice, StripTrimmed, StripEmptyIffAllSpace, StripKeepsTrimmed and StripIdempotent state its meaning |
| TranscriptText.StripSlice | transcriber.py:199 | strip returns a slice s[i:j] with whitespace-only ends cut, and a non-empty result starts and ends with a non-space character |
| TranscriptText.StripTrimmed | transcriber.py:199 | non-empty stripped text starts and ends with a non-whitespace character |
| TranscriptText.StripEmptyIffAllSpace | transcriber.py:199-200 | stripped text is empty exactly when the text is whitespace only |
| TranscriptText.StripKeepsTrimmed | transcriber.py:199 | text without whitespace at either end is left unchanged |
| TranscriptText.StripIdempotent | transcriber.py:199 | stripping twice equals stripping once |
| TranscriptText.ReplaceNewlines | transcriber.py:203 | the length is kept, every newline becomes a space, every other character stays, and no newline remains |
| TranscriptText.Clean | transcriber.py:199-203 | nothing is published exactly for whitespace-only text; published text is the stripped text character by character with each newline turned into a space: non-empty, newline-free, of the stripped length, and without whitespace at either end |
| TranscriptText.ReplaceNewlinesKeeps | transcriber.py:203 | text without newlines is unchanged by the replacement |
| TranscriptText.CleanIdempotent | transcriber.py:199-203 | cleaning published text again yields it unchanged |
| Transcriber.Mailbox.constructor | server.py:22 | a new subscriber mailbox is empty |
| Transcriber.Mailbox.PutNowait | transcriber.py:205-209 | an empty mailbox takes the text; a full one refuses it and keeps its text |
| Transcriber.Mailbox.Get | server.py:33 | the consumer's get returns the pending text, or None when there is none (the timeout), and leaves the mailbox empty |
| Transcriber.NeedsReload | transcriber.py:79 | the model is loaded when none is loaded yet or the requested name differs from the loaded one; defined here and used by ConfigOutcome's contract |
| Transcriber.SilenceExpired | transcriber.py:181-182 | the loop's silence stop: something was published and now minus the voice clock exceeds the timeout; defined here and used by SilenceCheck's and LoopStep's contracts |
| Transcriber.CalibrationInRange | transcriber.py:123-125 | a calibration result lies in [0, 0.3]: 1.5 times a percentile of RMS values, which are never negative, capped at 0.3 |
| Transcriber.ConfigOutcome | transcriber.py:74-80 | applying a configuration succeeds exactly when the threshold is fixed or the calibration succeeds, and the model needs no reload or loads; a calibration failure is reported as such |
| Transcriber.AudioOf | transcriber.py:157-160 | the audio is None exactly when the deque is empty; otherwise it is the prefix of the concatenation of length min(total samples, rate * buffer) |
| Transcriber.CycleText | transcriber.py:191-203 | a text is published only for audio of at least the minimum length on which the speech model succeeded, and it is then its cleaned text; such a result is published whenever it is not whitespace only |
| Transcriber.AudioTranscriber.constructor | transcriber.py:22-29 | the state __init__ builds before it applies the configuration: unbounded empty buffers, no model, no subscribers, not running, voice clock at now |
| Transcriber.NewTranscriber | transcriber.py:22-42 | constructing a transcriber fails exactly when its first configuration fails to apply, with that error; a constructed one satisfies the invariant with the derived bounds, has the model loaded and the threshold set, is idle, and has empty buffers and no subscribers |
| Transcriber.AudioTranscriber.ApplyConfig | transcriber.py:63-99 | the new configuration and fresh empty buffers with the derived bounds are in place however it ends; the outcome is ConfigOutcome; the threshold is a fixed level verbatim, or else the calibration; the model name changes only on success; it takes a calibration outcome only in the range calibrate_threshold can return, and keeps the threshold non-negative |
| Transcriber.AudioTranscriber.AudioCallback | transcriber.py:129-141 | a frame is accepted exactly when the queue is not full; an accepted frame is appended normalised at the tail; a dropped one leaves the queue and the voice clock unchanged |
| Transcriber.AudioTranscriber.UpdateVoiceActivity | transcriber.py:143-147 | the voice clock moves to now exactly for a loud frame and is otherwise unchanged; an all-zero frame never moves it, since the threshold of a live transcriber is never negative |
| Transcriber.AudioTranscriber.ProcessAudioBuffer | transcriber.py:149-172 | the queue is empty and the deque holds the last maxlen frames of old deque + queued frames in arrival order; the result is AudioOf(deque); with the configured bounds it is the whole concatenation |
| Transcriber.AudioTranscriber.DrainQueue | transcriber.py:150-155 | after the get_nowait loop the queue is empty and the deque is the bounded view of old deque + old queue; the invariant is kept |
| Transcriber.AudioTranscriber.TakeFrame | transcriber.py:152 | the head frame leaves the queue and has chunk samples |
| Transcriber.AudioTranscriber.AppendToDeque | transcriber.py:153 | the deque receives the frame by the drop-oldest rule and the invariant is kept |
| Transcriber.AudioTranscriber.SilenceCheck | transcriber.py:180-185 | the loop stops exactly when a text was published and the silence outlasted the timeout; stopping sets the stop request and clears running |
| Transcriber.AudioTranscriber.FanOut | transcriber.py:204-209 | every empty subscriber mailbox then holds the text, and every full one is unchanged |
| Transcriber.AudioTranscriber.TranscribeCycle | transcriber.py:191-212 | the buffer is processed; the published text is CycleText of the audio with one second of samples as minimum; only a published text is offered to mailboxes and sets has_transcribed |
| Transcriber.AudioTranscriber.LoopStep | transcriber.py:179-212 | the loop leaves exactly on a stop request or expired silence, and silence then clears running; a leaving or throttled pass publishes nothing and leaves the queue, the deque, has_transcribed and every mailbox alone, and an exit on an earlier stop request leaves running as it was; any other pass is exactly one TranscribeCycle: queue drained into the deque, CycleText published, has_transcribed set by a publication, and each empty mailbox given the text |
| Transcriber.AudioTranscriber.Start | transcriber.py:216-235 | a second start while running changes nothing; otherwise has_transcribed and the stop request are cleared, the voice clock restarts, both buffers are empty and it runs |
| Transcriber.AudioTranscriber.Stop | transcriber.py:261-268 | running is cleared and stop requested; it fails when start never created the threads, and otherwise clears the subscriber list |
| Server.Texts | server.py:31-33 | the received texts are exactly the texts the waits delivered, no more of them than waits |
| Server.Dedup | server.py:35-39 | the filter keeps every distinct text, adds none, never lengthens, and ends with the last text received |
| Server.Suffixed | server.py:38 | each kept text is yielded with one trailing space |
| Server.Emitted | server.py:30-39 | the chunks the loop yields: the received texts with repeats of the previous one filtered out, each followed by a space |
| Server.LastText | server.py:30-39 | last_text after the waits: None before any text arrives, else the most recently received text, which is also the most recently yielded |
| Server.Generate | server.py:28-47 | the yielded chunks are the filtered texts each followed by a space, and then "\n" |
| Server.DedupHasNoAdjacentDuplicates | server.py:36-39 | no two consecutive kept texts are equal |
| Server.EmittedHasNoAdjacentDuplicates | server.py:36-39 | no two consecutive yielded chunks are equal |
| Server.DedupKeepsDistinct | server.py:36-39 | texts without adjacent duplicates pass the filter unchanged |
| Server.DedupFixedPoint | server.py:36-39 | the filter leaves a sequence unchanged exactly when it has no adjacent duplicates |
| Server.DedupIdempotent | server.py:36-39 | filtering twice equals filtering once |
| Server.RemoveFirst | server.py:50 | list.remove of an element the list holds (the call is guarded by a membership test, since list.remove raises otherwise) leaves the list one shorter |
| Server.RemoveFirstMultiset | server.py:50 | list.remove takes out exactly one occurrence of the element and leaves every other element's count alone |
| Server.RemoveFirstAt | server.py:50 | removing an element first found at index i splices out exactly index i |
| Server.RemoveFirstUnique | server.py:48-50 | in a list without repeats, the removed mailbox is gone, every other mailbox stays listed, and the list still has no repeats |
| Server.Cleanup | server.py:48-50 | an absent mailbox changes nothing; a listed one loses exactly one occurrence and nothing else changes count; in a list without repeats it is then gone, every other mailbox stays, and the list keeps no repeats |
| Server.CleanupRestores | server.py:22-25 | subscribing a new mailbox and then cleaning it up restores the list exactly |
| Server.CleanupAsWritten | server.py:44-50 | as written, a disconnect leaves the list unchanged, and only a normal end cleans up |
| Server.DisconnectLeaksMailbox | server.py:44-50 | with the clean-up as written, the mailbox of a client who disconnects stays in the list |
| Server.Subscribe | server.py:17-25 | a transcriber that is not running is started (with all of Start's effects); a running one keeps its buffers, voice clock, has_transcribed, stop request and threads; a fresh empty mailbox is appended, the existing entries are unchanged, and the list stays free of repeats |
| Server.FinishAsWritten | server.py:44-51 | the subscriber list after a stream ends, with the clean-up as written |
| Server.Finish | server.py:46-51 | the subscriber's mailbox is removed if still listed, and no other subscriber is affected |
| Server.Control | server.py:88-99 | "start" answers 200, changes nothing on a running transcriber, and otherwise has Start's effects (threads created, stop request and has_transcribed cleared, voice clock at now, both buffers empty); "stop" clears running and requests stop, answers 200 and clears the subscribers, or 500 before any start, and touches no buffer; any other action answers 400 and changes nothing |
| Server.PostConfig | server.py:64-76 | a failed validation answers 400 before anything changes; a valid request is applied with its bounds and empty buffers, answers 200 exactly when ApplyConfig's outcome succeeds and 400 otherwise, sets the threshold to the fixed level or the calibration (kept on a failed calibration), and changes the loaded model only on success |

## Left out

- Audio capture (`sounddevice` and the `_run_audio` sleep loop): device I/O. A capture is a call of `AudioCallback` with the raw block and the time.
- The speech model and its loading (Whisper and torch): foreign calls. The load is its success flag, and a transcription is a function argument whose `None` stands for an exception.
- Noise reduction in `process_audio_buffer`: foreign numeric code on floats. The model returns the audio before that step.
- Threshold calibration (the percentile of RMS values and the noise profile): numerics plus device reads. Only its outcome is modelled.
- Threads, locks, `stop_event` waits, the thread joins of `stop`, the one-second waits of `generate`, and the wall-clock throttle of `transcribe_loop`: concurrency and time. Each method is one atomic step, and the interleaving of the capture thread, the transcription thread and the request handlers is not modelled. Times are arguments.
- Transcriber.AudioTranscriber.TranscribeCycle: uses the configured rate as the minimum length at every cycle. The source captures `rate * 1` once when the loop starts, which differs only if the configuration changes while the loop runs.
- Transcriber.AudioTranscriber.AudioCallback: requires a block of exactly `chunk` samples, the length of the preallocated buffer. The input stream is opened once by `start` with the `chunk` of that moment (transcriber.py:247-252), while POST `/config` re-sizes the preallocated buffer to the new `chunk` (transcriber.py:72). After a POST `/config` that changes `chunk` while running, every block has the old length and the clip at transcriber.py:131 raises inside the callback; the model does not cover that state.
- Buffering.Loud: decided on exact reals. numpy computes the normalised samples, their mean square and its root in float32 (transcriber.py:131-132, 144), so a frame whose RMS lies within rounding of the threshold can be judged differently; LoudIsRmsAbove is exact only for real arithmetic.
- Buffering.QueueCapacity: computed on exact reals. Python computes `1.5 * (r * b / c)` in binary floating point, which can round differently at an exact integer boundary.
- Pydantic's coercions: numeric strings, integral floats and booleans are not converted. A request arrives already typed, with a threshold that is a number or a string.
- Transcriber.AudioTranscriber.constructor: models `__init__` only up to its `apply_config` call, with a placeholder `silence_threshold` (the Python attribute does not exist yet). `NewTranscriber` is the whole of `__init__`: a failed first application yields no object, as in the source. A caller that uses the constructor and `ApplyConfig` directly can keep a transcriber whose first application failed, with the placeholder threshold and no model; the source never exposes that state.
- Server.Generate: covers the stream that ends because the transcriber stopped running. A client who disconnects receives a prefix of those chunks and not the final "\n". Its waits are given as a sequence of `Mailbox.Get` results; the interleaving of those gets with the transcription thread's `FanOut` is not modelled, so no contract ties the sequence to a particular mailbox's history.
- GET `/config` and `/status`: they only report state. Flask routing, JSON bodies, CORS and the event-stream headers are transport.
- Logging configuration: it has no effect on the modelled state.

## Findings

| source | as written | input that shows it | evidently intended | confidence | as-written member | corrected member |
|---|---|---|---|---|---|---|
| server.py:44-50 | On a client disconnect, closing the generator raises GeneratorExit at its pending yield. The `except GeneratorExit` handler only logs it. The finally block then yields "\n", so `close()` fails with RuntimeError, and the removal after that yield never runs. | A client subscribes and disconnects while the transcriber keeps running: its mailbox stays in the list and is offered every later text. | The finally block removes the subscriber's mailbox however the stream ends. | not executed | Server.CleanupAsWritten, Server.DisconnectLeaksMailbox | Server.Cleanup, Server.CleanupRestores |
