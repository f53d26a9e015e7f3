/**
 * The audio transcriber object (transcriber.py): its configuration, the bounded frame
 * queue filled by the capture callback, the drop-oldest deque re-read on every
 * processing cycle, the voice-activity clock, the subscriber mailboxes, and the
 * running/stop flags.
 *
 * The device, the speech model, the noise reducer and the clock are outside the
 * model: a capture delivers raw samples and a timestamp as arguments, a calibration
 * and a model load arrive as their outcomes, and the speech model is a function
 * argument whose None stands for an exception.
 */
module Transcriber {
  import opened Common
  import opened Schemas
  import opened Buffering
  import opened TranscriptText

  /** A subscriber's queue.Queue(maxsize=1): at most one pending text. */
  class Mailbox {
    var item: Option<string>

    constructor ()
      ensures item == None
    {
      item := None;
    }

    /** put_nowait: an empty slot takes the text; a full one raises Full and keeps its text. */
    method PutNowait(text: string) returns (accepted: bool)
      modifies this
      ensures accepted <==> old(item).None?
      ensures item == if accepted then Some(text) else old(item)
    {
      accepted := item.None?;
      if accepted {
        item := Some(text);
      }
    }

    /**
     * get(timeout=1) as the stream's consumer sees it at the end of one wait: a pending
     * text is taken out and the slot is empty again; an empty slot gives None (Empty).
     */
    method Get() returns (text: Option<string>)
      modifies this
      ensures text == old(item)
      ensures item == None
    {
      text := item;
      item := None;
    }
  }

  datatype ConfigError = CalibrationFailed | ModelLoadFailed

  /** A model is (re)loaded when none is loaded yet or a different one is requested. */
  predicate NeedsReload(loaded: Option<string>, requested: string) {
    loaded.None? || loaded.value != requested
  }

  predicate FramesOfLength(frames: seq<Frame>, n: int) {
    forall i :: 0 <= i < |frames| ==> |frames[i]| == n
  }

  /** The cap calibrate_threshold puts on 1.5 times the 90th percentile of the RMS values. */
  const MaxCalibratedThreshold := 0.3

  /**
   * What a calibration can return: a percentile of RMS values (never negative) times 1.5,
   * capped at MaxCalibratedThreshold.
   */
  predicate CalibrationInRange(calibration: Option<real>) {
    calibration.Some? ==> 0.0 <= calibration.value <= MaxCalibratedThreshold
  }

  /**
   * How applying cfg ends: the calibration (for an "auto" threshold) runs first and its
   * failure wins; then the model load, attempted only when a reload is needed.
   */
  function ConfigOutcome(cfg: Config, calibration: Option<real>, loadSucceeds: bool, loaded: Option<string>)
    : (r: Result<(), ConfigError>)
    ensures r.Success? <==> (cfg.silenceThreshold.Fixed? || calibration.Some?)
                            && (!NeedsReload(loaded, cfg.model) || loadSucceeds)
    ensures r == Failure(CalibrationFailed) <==> cfg.silenceThreshold.Auto? && calibration.None?
  {
    if cfg.silenceThreshold.Auto? && calibration.None? then Failure(CalibrationFailed)
    else if NeedsReload(loaded, cfg.model) && !loadSucceeds then Failure(ModelLoadFailed)
    else Success(())
  }

  /** The silence stop condition of the transcription loop. */
  predicate SilenceExpired(hasTranscribed: bool, now: real, lastVoiceTime: real, timeout: real) {
    hasTranscribed && now - lastVoiceTime > timeout
  }

  /** What process_audio_buffer returns for this deque: None when it is empty. */
  function AudioOf(deque: seq<Frame>, c: Config): (audio: Option<seq<real>>)
    requires ValidConfig(c)
    ensures audio.None? <==> deque == []
    ensures audio.Some? ==> |audio.value| == Min(|Flatten(deque)|, c.rate * c.buffer)
    ensures audio.Some? ==> audio.value == Flatten(deque)[..|audio.value|]
  {
    if deque == [] then None else Some(Truncate(Flatten(deque), c.rate * c.buffer))
  }

  /**
   * The text one transcription cycle publishes: nothing when there is no audio, when it
   * is shorter than minLength samples, when the speech model fails, or when its text
   * is whitespace only; otherwise the cleaned text.
   */
  function CycleText(audio: Option<seq<real>>, minLength: int, asr: seq<real> -> Option<string>): (text: Option<string>)
    ensures text.Some? ==> audio.Some? && |audio.value| >= minLength && asr(audio.value).Some?
    ensures text.Some? ==> text == Clean(asr(audio.value).value)
    ensures text.Some? ==> text.value != [] && '\n' !in text.value
    ensures audio.Some? && |audio.value| >= minLength && asr(audio.value).Some? && !AllSpace(asr(audio.value).value)
            ==> text.Some?
  {
    if audio.None? || |audio.value| < minLength then None
    else
      match asr(audio.value)
      case None => None
      case Some(raw) => Clean(raw)
  }

  class AudioTranscriber {
    var config: Config
    var running: bool
    /** stop_event. */
    var stopRequested: bool
    /** Whether start has ever created the two thread handles. */
    var threadsStarted: bool
    /** The frame queue and its maxsize (maxsize <= 0: unbounded). */
    var queueMaxsize: int
    var audioQueue: seq<Frame>
    /** The frame deque and its maxlen (None: unbounded). */
    var dequeMaxlen: Option<nat>
    var bufferDeque: seq<Frame>
    var silenceThreshold: real
    var lastVoiceTime: real
    var hasTranscribed: bool
    /** The name of the loaded speech model; None before the first successful load. */
    var loadedModel: Option<string>
    var clientQueues: seq<Mailbox>

    /** The object invariant: a valid configuration, a non-negative silence threshold, both
        buffers within their bounds, and every buffered frame as long as the configured chunk. */
    ghost predicate Valid()
      reads this
    {
      && ValidConfig(config)
      && silenceThreshold >= 0.0
      && (queueMaxsize > 0 ==> |audioQueue| <= queueMaxsize)
      && (dequeMaxlen.Some? ==> |bufferDeque| <= dequeMaxlen.value)
      && FramesOfLength(audioQueue, config.chunk)
      && FramesOfLength(bufferDeque, config.chunk)
    }

    /** The queue and deque bounds are the ones derived from the current configuration. */
    ghost predicate Configured()
      reads this
    {
      ValidConfig(config) && queueMaxsize == QueueCapacity(config) && dequeMaxlen == Some(DequeBound(config))
    }

    /** The state __init__ builds before it applies the configuration: unbounded buffers,
        no model, no subscribers, not running. */
    constructor (cfg: Config, now: real)
      requires ValidConfig(cfg)
      ensures Valid()
      ensures config == cfg && !running && !stopRequested && !threadsStarted && !hasTranscribed
      ensures queueMaxsize == 0 && audioQueue == [] && dequeMaxlen == None && bufferDeque == []
      ensures lastVoiceTime == now && loadedModel == None && clientQueues == []
    {
      config := cfg;
      running := false;
      stopRequested := false;
      threadsStarted := false;
      queueMaxsize := 0;
      audioQueue := [];
      dequeMaxlen := None;
      bufferDeque := [];
      silenceThreshold := 0.0;
      lastVoiceTime := now;
      hasTranscribed := false;
      loadedModel := None;
      clientQueues := [];
    }

    /**
     * apply_config: the new configuration and fresh, empty buffers with the derived bounds
     * are in place before anything can fail; then the threshold (calibrated for "auto",
     * taken verbatim otherwise), then the model, loaded only if needed.
     * `calibration` is the calibration's outcome (None: it raised); `loadSucceeds` the load's.
     */
    method ApplyConfig(cfg: Config, calibration: Option<real>, loadSucceeds: bool)
      returns (outcome: Result<(), ConfigError>)
      requires Valid() && ValidConfig(cfg) && CalibrationInRange(calibration)
      modifies this`config, this`queueMaxsize, this`audioQueue, this`dequeMaxlen, this`bufferDeque,
               this`silenceThreshold, this`loadedModel
      ensures Valid() && Configured()
      ensures config == cfg && audioQueue == [] && bufferDeque == []
      ensures outcome == ConfigOutcome(cfg, calibration, loadSucceeds, old(loadedModel))
      ensures silenceThreshold ==
        match cfg.silenceThreshold
        case Fixed(level) => level
        case Auto => calibration.GetOr(old(silenceThreshold))
      ensures loadedModel == if outcome.Success? then Some(cfg.model) else old(loadedModel)
    {
      config := cfg;
      queueMaxsize := QueueCapacity(cfg);
      audioQueue := [];
      dequeMaxlen := Some(DequeBound(cfg));
      bufferDeque := [];
      match cfg.silenceThreshold {
        case Auto =>
          if calibration.None? {
            return Failure(CalibrationFailed);
          }
          silenceThreshold := calibration.value;
        case Fixed(level) =>
          silenceThreshold := level;
      }
      if NeedsReload(loadedModel, cfg.model) {
        if !loadSucceeds {
          return Failure(ModelLoadFailed);
        }
        loadedModel := Some(cfg.model);
      }
      return Success(());
    }

    /**
     * audio_callback: normalise the block and push it without blocking. A full queue drops
     * the frame and leaves both the queue and the voice clock as they were; an accepted
     * frame goes to the tail and may move the voice clock.
     */
    method AudioCallback(raw: seq<int>, now: real) returns (accepted: bool)
      requires Valid() && |raw| == config.chunk
      modifies this`audioQueue, this`lastVoiceTime
      ensures Valid()
      ensures accepted <==> !QueueFull(old(audioQueue), queueMaxsize)
      ensures audioQueue == if accepted then old(audioQueue) + [Normalize(raw)] else old(audioQueue)
      ensures lastVoiceTime == if accepted && Loud(Normalize(raw), silenceThreshold) then now else old(lastVoiceTime)
    {
      var data := Normalize(raw);
      accepted := !QueueFull(audioQueue, queueMaxsize);
      if accepted {
        audioQueue := audioQueue + [data];
        UpdateVoiceActivity(data, now);
      }
    }

    /** update_voice_activity: the voice clock moves to now only for a frame louder than the threshold. */
    method UpdateVoiceActivity(data: Frame, now: real)
      requires Valid()
      modifies this`lastVoiceTime
      ensures Valid()
      ensures lastVoiceTime == if Loud(data, silenceThreshold) then now else old(lastVoiceTime)
      ensures (forall i :: 0 <= i < |data| ==> data[i] == 0.0) ==> lastVoiceTime == old(lastVoiceTime)
    {
      if forall i :: 0 <= i < |data| ==> data[i] == 0.0 {
        SilenceIsNotLoud(data, silenceThreshold);
      }
      if Loud(data, silenceThreshold) {
        lastVoiceTime := now;
      }
    }

    /**
     * process_audio_buffer (without noise reduction): drain the whole queue into the deque,
     * which keeps the last maxlen frames of everything it was given, in arrival order;
     * then return None for an empty deque, or else its concatenation cut to rate * buffer
     * samples.
     */
    method ProcessAudioBuffer() returns (audio: Option<seq<real>>)
      requires Valid()
      modifies this`audioQueue, this`bufferDeque
      ensures Valid()
      ensures audioQueue == []
      ensures bufferDeque == Bounded(old(bufferDeque) + old(audioQueue), dequeMaxlen)
      ensures audio == AudioOf(bufferDeque, config)
      ensures Configured() && audio.Some? ==> audio.value == Flatten(bufferDeque)
    {
      DrainQueue();
      if bufferDeque == [] {
        return None;
      }
      audio := Some(Truncate(Flatten(bufferDeque), config.rate * config.buffer));
      if Configured() {
        TruncationKeepsAll(bufferDeque, config);
      }
    }

    /** The get_nowait loop: every queued frame moves, in order, through the bounded deque. */
    method DrainQueue()
      requires Valid()
      modifies this`audioQueue, this`bufferDeque
      ensures Valid()
      ensures audioQueue == []
      ensures bufferDeque == Bounded(old(bufferDeque) + old(audioQueue), dequeMaxlen)
    {
      ghost var pending := audioQueue;
      ghost var k := 0;
      assert old(bufferDeque) + pending[..k] == bufferDeque;
      while audioQueue != []
        invariant 0 <= k <= |pending| && audioQueue == pending[k..]
        invariant bufferDeque == Bounded(old(bufferDeque) + pending[..k], dequeMaxlen)
        invariant Valid()
        decreases |audioQueue|
      {
        DrainStep(old(bufferDeque), pending, k, dequeMaxlen);
        var data := TakeFrame();
        assert data == pending[k] && audioQueue == pending[k + 1..];
        AppendToDeque(data);
        k := k + 1;
      }
      assert pending[..k] == pending;
    }

    /** audio_queue.get_nowait on a non-empty queue: the head frame leaves the queue. */
    method TakeFrame() returns (data: Frame)
      requires Valid() && audioQueue != []
      modifies this`audioQueue
      ensures Valid() && |data| == config.chunk
      ensures data == old(audioQueue)[0] && audioQueue == old(audioQueue)[1..]
    {
      data := audioQueue[0];
      audioQueue := audioQueue[1..];
    }

    /** buffer_deque.append: the frame enters on the right and a full deque drops its leftmost. */
    method AppendToDeque(data: Frame)
      requires Valid() && |data| == config.chunk
      modifies this`bufferDeque
      ensures Valid()
      ensures bufferDeque == DequeAppend(old(bufferDeque), data, dequeMaxlen)
    {
      bufferDeque := DequeAppend(bufferDeque, data, dequeMaxlen);
    }

    /** The silence check at the head of the transcription loop: it stops the transcriber
        once a text was published and the silence has outlasted the timeout. */
    method SilenceCheck(now: real) returns (stop: bool)
      requires Valid()
      modifies this`stopRequested, this`running
      ensures Valid()
      ensures stop <==> SilenceExpired(hasTranscribed, now, lastVoiceTime, config.silenceTimeout)
      ensures stopRequested == (old(stopRequested) || stop)
      ensures running == (old(running) && !stop)
    {
      stop := SilenceExpired(hasTranscribed, now, lastVoiceTime, config.silenceTimeout);
      if stop {
        stopRequested := true;
        running := false;
      }
    }

    /** Offer the text to every subscriber: each empty mailbox then holds it, each full one is unchanged. */
    method FanOut(text: string)
      requires Valid()
      modifies clientQueues
      ensures Valid()
      ensures forall m :: m in clientQueues ==>
        m.item == if old(m.item).None? then Some(text) else old(m.item)
    {
      var i := 0;
      while i < |clientQueues|
        invariant 0 <= i <= |clientQueues|
        invariant forall m :: m in clientQueues[..i] ==>
          m.item == if old(m.item).None? then Some(text) else old(m.item)
        invariant forall m :: m in clientQueues[i..] && m !in clientQueues[..i] ==> m.item == old(m.item)
      {
        var mailbox := clientQueues[i];
        var _ := mailbox.PutNowait(text);
        assert clientQueues[..i + 1] == clientQueues[..i] + [mailbox];
        i := i + 1;
      }
    }

    /**
     * One transcription cycle of transcribe_loop after its throttle: process the buffer,
     * skip audio shorter than one second (rate samples), transcribe, clean, and publish a
     * non-empty text to every subscriber; only a published text sets has_transcribed.
     */
    method TranscribeCycle(asr: seq<real> -> Option<string>) returns (published: Option<string>)
      requires Valid()
      modifies this`audioQueue, this`bufferDeque, this`hasTranscribed, clientQueues
      ensures Valid()
      ensures audioQueue == [] && bufferDeque == Bounded(old(bufferDeque) + old(audioQueue), dequeMaxlen)
      ensures published == CycleText(AudioOf(bufferDeque, config), config.rate, asr)
      ensures hasTranscribed == (old(hasTranscribed) || published.Some?)
      ensures forall m :: m in clientQueues ==>
        m.item == if published.Some? && old(m.item).None? then published else old(m.item)
    {
      var audio := ProcessAudioBuffer();
      assert forall m :: m in clientQueues ==> m.item == old(m.item);
      published := CycleText(audio, config.rate, asr);
      if published.Some? {
        FanOut(published.value);
        hasTranscribed := true;
      }
    }

    /**
     * One pass of transcribe_loop: leave when stop is requested or silence has expired;
     * otherwise, unless the throttle holds the cycle back, run one transcription cycle,
     * whose published text (if any) is returned.
     */
    method LoopStep(now: real, throttled: bool, asr: seq<real> -> Option<string>)
      returns (exit: bool, published: Option<string>)
      requires Valid()
      modifies this`stopRequested, this`running, this`audioQueue, this`bufferDeque, this`hasTranscribed, clientQueues
      ensures Valid()
      ensures exit <==> old(stopRequested)
                        || SilenceExpired(old(hasTranscribed), now, lastVoiceTime, config.silenceTimeout)
      ensures exit && !old(stopRequested) ==> !running
      ensures exit ==> stopRequested
      ensures !exit ==> running == old(running) && stopRequested == old(stopRequested)
      ensures old(stopRequested) ==> running == old(running)
      ensures exit || throttled ==>
        published.None? && unchanged(clientQueues) && audioQueue == old(audioQueue)
        && bufferDeque == old(bufferDeque) && hasTranscribed == old(hasTranscribed)
      ensures !exit && !throttled ==>
        && audioQueue == [] && bufferDeque == Bounded(old(bufferDeque) + old(audioQueue), dequeMaxlen)
        && published == CycleText(AudioOf(bufferDeque, config), config.rate, asr)
        && hasTranscribed == (old(hasTranscribed) || published.Some?)
        && forall m :: m in clientQueues ==>
             m.item == if published.Some? && old(m.item).None? then published else old(m.item)
    {
      published := None;
      if stopRequested {
        return true, None;
      }
      exit := SilenceCheck(now);
      if exit || throttled {
        return;
      }
      published := TranscribeCycle(asr);
    }

    /**
     * start: a second start while running changes nothing. Otherwise the stop request and
     * has_transcribed are reset, the voice clock restarts at now, both buffers are emptied,
     * and the transcriber runs with its two threads created.
     */
    method Start(now: real)
      requires Valid()
      modifies this`stopRequested, this`hasTranscribed, this`lastVoiceTime, this`bufferDeque,
               this`audioQueue, this`running, this`threadsStarted
      ensures Valid()
      ensures old(running) ==> unchanged(this)
      ensures !old(running) ==> running && threadsStarted && !stopRequested && !hasTranscribed
                                && lastVoiceTime == now && bufferDeque == [] && audioQueue == []
    {
      if running {
        return;
      }
      stopRequested := false;
      hasTranscribed := false;
      lastVoiceTime := now;
      bufferDeque := [];
      while audioQueue != []
        invariant Valid()
        modifies this`audioQueue
        decreases |audioQueue|
      {
        audioQueue := audioQueue[1..];
      }
      running := true;
      threadsStarted := true;
    }

    /**
     * stop, without the joins: the flags are set first; when start never ran the thread
     * handles do not exist and the call fails there; otherwise the subscriber list is cleared.
     */
    method Stop() returns (ok: bool)
      requires Valid()
      modifies this`running, this`stopRequested, this`clientQueues
      ensures Valid()
      ensures !running && stopRequested
      ensures ok == threadsStarted
      ensures clientQueues == if ok then [] else old(clientQueues)
    {
      running := false;
      stopRequested := true;
      if !threadsStarted {
        return false;
      }
      clientQueues := [];
      return true;
    }
  }

  /**
   * AudioTranscriber(config): __init__ builds the unconfigured state and then applies the
   * configuration. A failure of that first application propagates out of __init__, so no
   * transcriber exists then; on success it is configured, idle and has no subscribers.
   */
  method NewTranscriber(cfg: Config, calibration: Option<real>, loadSucceeds: bool, now: real)
    returns (r: Result<AudioTranscriber, ConfigError>)
    requires ValidConfig(cfg) && CalibrationInRange(calibration)
    ensures r.Failure? <==> ConfigOutcome(cfg, calibration, loadSucceeds, None).Failure?
    ensures r.Failure? ==> r.error == ConfigOutcome(cfg, calibration, loadSucceeds, None).error
    ensures r.Success? ==>
      && fresh(r.value) && r.value.Valid() && r.value.Configured()
      && r.value.config == cfg && r.value.loadedModel == Some(cfg.model)
      && r.value.silenceThreshold == (match cfg.silenceThreshold
                                      case Fixed(level) => level
                                      case Auto => calibration.value)
      && !r.value.running && !r.value.stopRequested && !r.value.threadsStarted && !r.value.hasTranscribed
      && r.value.audioQueue == [] && r.value.bufferDeque == []
      && r.value.lastVoiceTime == now && r.value.clientQueues == []
  {
    var t := new AudioTranscriber(cfg, now);
    var outcome := t.ApplyConfig(cfg, calibration, loadSucceeds);
    if outcome.Failure? {
      return Failure(outcome.error);
    }
    return Success(t);
  }
}
