/**
 * The HTTP front end (server.py): the streaming endpoint's subscription, its text
 * generator with consecutive-duplicate filtering and its clean-up, the start/stop
 * control endpoint, and the configuration update endpoint with its error status.
 *
 * The transport is outside the model. A stream is observed as the sequence of
 * outcomes of the generator's one-second waits on its mailbox (None: the wait timed
 * out), taken while the transcriber is running; a handler's reply is its HTTP status.
 */
module Server {
  import opened Common
  import opened Schemas
  import opened Transcriber

  // ---------------------------------------------------------------------------
  // The generator's output

  /** The texts the waits delivered, in order. */
  function Texts(polls: seq<Option<string>>): (ts: seq<string>)
    ensures |ts| <= |polls|
    ensures forall t :: t in ts <==> Some(t) in polls
    decreases |polls|
  {
    if polls == [] then []
    else
      var rest := Texts(polls[..|polls| - 1]);
      assert polls == polls[..|polls| - 1] + [polls[|polls| - 1]];
      match polls[|polls| - 1]
      case None => rest
      case Some(t) => rest + [t]
  }

  function Last<T>(s: seq<T>): T
    requires s != []
  {
    s[|s| - 1]
  }

  /** No two neighbours are equal. */
  predicate NoAdjacentDuplicates<T(==)>(s: seq<T>) {
    forall i :: 0 < i < |s| ==> s[i - 1] != s[i]
  }

  /**
   * The texts with every run of equal consecutive texts collapsed to one: a text is
   * kept exactly when it differs from the text received just before it.
   */
  function Dedup(ts: seq<string>): (r: seq<string>)
    ensures |r| <= |ts|
    ensures ts != [] ==> r != [] && Last(r) == Last(ts)
    ensures forall t :: t in r <==> t in ts
    decreases |ts|
  {
    if ts == [] then []
    else
      var init := ts[..|ts| - 1];
      assert ts == init + [Last(ts)];
      if init != [] && Last(init) == Last(ts) then Dedup(init) else Dedup(init) + [Last(ts)]
  }

  /** Each kept text followed by the separating space, as the generator yields it. */
  function Suffixed(ts: seq<string>): (r: seq<string>)
    ensures |r| == |ts|
    ensures forall k :: 0 <= k < |ts| ==> r[k] == ts[k] + " "
  {
    seq(|ts|, k requires 0 <= k < |ts| => ts[k] + " ")
  }

  /** The chunks the loop of generate yields for these waits. */
  function Emitted(polls: seq<Option<string>>): seq<string> {
    Suffixed(Dedup(Texts(polls)))
  }

  /** The most recently received text, which is also the most recently yielded one. */
  function LastText(polls: seq<Option<string>>): Option<string> {
    var ts := Texts(polls);
    if ts == [] then None else Some(Last(ts))
  }

  lemma SuffixedAppend(ts: seq<string>, t: string)
    ensures Suffixed(ts + [t]) == Suffixed(ts) + [t + " "]
  {
  }

  /**
   * generate, when the loop ends because the transcriber stopped running: one chunk per
   * kept text, in order, and then the final newline of the finally block. Each poll is
   * the result of one Mailbox.Get at the end of a one-second wait.
   */
  method Generate(polls: seq<Option<string>>) returns (out: seq<string>)
    ensures out == Emitted(polls) + ["\n"]
    ensures |out| <= |polls| + 1 && Last(out) == "\n"
  {
    var lastText: Option<string> := None;
    out := [];
    var i := 0;
    while i < |polls|
      invariant 0 <= i <= |polls|
      invariant out == Emitted(polls[..i])
      invariant lastText == LastText(polls[..i])
    {
      assert polls[..i + 1][..i] == polls[..i];
      match polls[i] {
        case None =>
        case Some(text) =>
          if lastText != Some(text) {
            SuffixedAppend(Dedup(Texts(polls[..i])), text);
            out := out + [text + " "];
            lastText := Some(text);
          }
      }
      i := i + 1;
    }
    assert polls[..i] == polls;
    out := out + ["\n"];
  }

  /** No two consecutive chunks of a stream carry the same text. */
  lemma {:induction false} DedupHasNoAdjacentDuplicates(ts: seq<string>)
    ensures NoAdjacentDuplicates(Dedup(ts))
    decreases |ts|
  {
    if ts != [] {
      var init := ts[..|ts| - 1];
      DedupHasNoAdjacentDuplicates(init);
    }
  }

  lemma EmittedHasNoAdjacentDuplicates(polls: seq<Option<string>>)
    ensures NoAdjacentDuplicates(Emitted(polls))
  {
    var d := Dedup(Texts(polls));
    DedupHasNoAdjacentDuplicates(Texts(polls));
    var e := Emitted(polls);
    forall i | 0 < i < |e| ensures e[i - 1] != e[i] {
      assert d[i - 1] != d[i];
      assert e[i - 1] == d[i - 1] + " " && e[i] == d[i] + " ";
      assert e[i - 1][..|e[i - 1]| - 1] == d[i - 1];
    }
  }

  /** A sequence without adjacent duplicates passes the filter unchanged. */
  lemma {:induction false} DedupKeepsDistinct(ts: seq<string>)
    requires NoAdjacentDuplicates(ts)
    ensures Dedup(ts) == ts
    decreases |ts|
  {
    if ts != [] {
      var init := ts[..|ts| - 1];
      assert NoAdjacentDuplicates(init) by {
        forall i | 0 < i < |init| ensures init[i - 1] != init[i] {
          assert init[i - 1] == ts[i - 1] && init[i] == ts[i];
        }
      }
      DedupKeepsDistinct(init);
      assert ts == init + [Last(ts)];
      if init != [] {
        assert Last(init) == ts[|ts| - 2];
      }
    }
  }

  /** Filtering leaves a sequence alone exactly when it has no adjacent duplicates. */
  lemma DedupFixedPoint(ts: seq<string>)
    ensures Dedup(ts) == ts <==> NoAdjacentDuplicates(ts)
  {
    DedupHasNoAdjacentDuplicates(ts);
    if NoAdjacentDuplicates(ts) {
      DedupKeepsDistinct(ts);
    }
  }

  /** Filtering twice is filtering once. */
  lemma DedupIdempotent(ts: seq<string>)
    ensures Dedup(Dedup(ts)) == Dedup(ts)
  {
    DedupHasNoAdjacentDuplicates(ts);
    DedupFixedPoint(Dedup(ts));
  }

  // ---------------------------------------------------------------------------
  // The subscriber list

  /**
   * list.remove on a list that holds x: the first occurrence of x goes. (On a list
   * without x, list.remove raises ValueError; every caller checks membership first.)
   */
  function RemoveFirst<T(==)>(s: seq<T>, x: T): (r: seq<T>)
    requires x in s
    ensures |r| == |s| - 1
    decreases |s|
  {
    if s[0] == x then s[1..]
    else
      assert s == [s[0]] + s[1..];
      [s[0]] + RemoveFirst(s[1..], x)
  }

  /** Removal takes exactly one x out of a list that has one, and nothing else. */
  lemma {:induction false} RemoveFirstMultiset<T>(s: seq<T>, x: T)
    requires x in s
    ensures multiset(RemoveFirst(s, x)) == multiset(s) - multiset{x}
    decreases |s|
  {
    assert s == [s[0]] + s[1..];
    if s[0] != x {
      RemoveFirstMultiset(s[1..], x);
    }
  }

  /** Every subscriber's mailbox is in the list at most once. */
  predicate NoDuplicates<T(==)>(s: seq<T>) {
    forall i, j :: 0 <= i < j < |s| ==> s[i] != s[j]
  }

  /** Removing the first occurrence, found at index i, splices it out. */
  lemma {:induction false} RemoveFirstAt<T>(s: seq<T>, x: T, i: nat)
    requires i < |s| && s[i] == x && x !in s[..i]
    ensures RemoveFirst(s, x) == s[..i] + s[i + 1..]
    decreases i
  {
    if i == 0 {
      assert s[..0] + s[1..] == s[1..];
    } else {
      var t := s[1..];
      assert s[0] == s[..i][0] && s[0] != x;
      assert t[..i - 1] == s[1..i];
      RemoveFirstAt(t, x, i - 1);
      assert RemoveFirst(s, x) == [s[0]] + (t[..i - 1] + t[i..]);
      assert t[i..] == s[i + 1..];
      assert s[..i] == [s[0]] + s[1..i];
      assert [s[0]] + (t[..i - 1] + t[i..]) == ([s[0]] + t[..i - 1]) + t[i..];
    }
  }

  /** Index k of s with index i spliced out is index Skip(i, k) of s. */
  function Skip(i: nat, k: nat): nat {
    if k < i then k else k + 1
  }

  lemma SpliceIndex<T>(s: seq<T>, i: nat)
    requires i < |s|
    ensures |s[..i] + s[i + 1..]| == |s| - 1
    ensures forall k :: 0 <= k < |s| - 1 ==> (s[..i] + s[i + 1..])[k] == s[Skip(i, k)]
  {
  }

  /** Splicing one element out of a list without repeats removes exactly that element. */
  lemma SpliceUnique<T>(s: seq<T>, i: nat)
    requires i < |s| && NoDuplicates(s)
    ensures s[i] !in s[..i] + s[i + 1..]
    ensures forall y :: y != s[i] ==> (y in s[..i] + s[i + 1..] <==> y in s)
    ensures NoDuplicates(s[..i] + s[i + 1..])
  {
    var r := s[..i] + s[i + 1..];
    SpliceIndex(s, i);
    forall y | y in r ensures y in s && y != s[i] {
      var k :| 0 <= k < |r| && r[k] == y;
      assert y == s[Skip(i, k)];
    }
    forall y | y in s && y != s[i] ensures y in r {
      var k :| 0 <= k < |s| && s[k] == y;
      var j := if k < i then k else k - 1;
      assert Skip(i, j) == k;
      assert y == r[j];
    }
    forall k, l | 0 <= k < l < |r| ensures r[k] != r[l] {
      assert Skip(i, k) < Skip(i, l);
    }
  }

  /** In a list without repeats, the removed element is gone and no other was touched. */
  lemma RemoveFirstUnique<T>(s: seq<T>, x: T)
    requires NoDuplicates(s) && x in s
    ensures x !in RemoveFirst(s, x)
    ensures forall y :: y in s && y != x ==> y in RemoveFirst(s, x)
    ensures forall y :: y in RemoveFirst(s, x) ==> y in s
    ensures NoDuplicates(RemoveFirst(s, x))
  {
    var i :| 0 <= i < |s| && s[i] == x;
    assert x !in s[..i] by {
      forall k | 0 <= k < i ensures s[..i][k] != x {
        assert s[..i][k] == s[k];
      }
    }
    RemoveFirstAt(s, x, i);
    SpliceUnique(s, i);
  }

  /** The clean-up of generate's finally block: remove the mailbox if it is still listed. */
  function Cleanup(queues: seq<Mailbox>, m: Mailbox): (r: seq<Mailbox>)
    ensures m !in queues ==> r == queues
    ensures m in queues ==> |r| == |queues| - 1 && multiset(r) == multiset(queues) - multiset{m}
    ensures NoDuplicates(queues) ==>
      NoDuplicates(r) && m !in r
      && (forall q :: q in queues && q != m ==> q in r) && (forall q :: q in r ==> q in queues)
  {
    if m !in queues then queues
    else
      RemoveFirstMultiset(queues, m);
      if NoDuplicates(queues) then
        RemoveFirstUnique(queues, m);
        RemoveFirst(queues, m)
      else
        RemoveFirst(queues, m)
  }

  /** A subscription followed by its clean-up restores the subscriber list. */
  lemma CleanupRestores(queues: seq<Mailbox>, m: Mailbox)
    requires m !in queues
    ensures Cleanup(queues + [m], m) == queues
    decreases |queues|
  {
    if queues != [] {
      assert (queues + [m])[1..] == queues[1..] + [m];
      CleanupRestores(queues[1..], m);
      assert queues == [queues[0]] + queues[1..];
    }
  }

  /** How a stream ends: the transcriber stopped running, or the client went away. */
  datatype Ending = Stopped | Disconnected

  /**
   * The clean-up as written. On a disconnect the server closes the generator, which
   * raises GeneratorExit inside the loop; the handler only logs it, the finally block
   * then yields "\n", close() fails on that yield, and the removal after it never runs.
   */
  function CleanupAsWritten(queues: seq<Mailbox>, m: Mailbox, ending: Ending): (r: seq<Mailbox>)
    ensures ending == Disconnected ==> r == queues
    ensures ending == Stopped ==> r == Cleanup(queues, m)
  {
    match ending
    case Stopped => Cleanup(queues, m)
    case Disconnected => queues
  }

  /** With the clean-up as written, a client who disconnects leaves its mailbox behind. */
  lemma DisconnectLeaksMailbox(queues: seq<Mailbox>, m: Mailbox)
    requires m !in queues
    ensures CleanupAsWritten(queues + [m], m, Disconnected) == queues + [m] != queues
  {
    assert |queues + [m]| == |queues| + 1;
  }

  // ---------------------------------------------------------------------------
  // The handlers

  /**
   * The part of the /stream handler that runs before the response: start the
   * transcriber if it is not running, then append a new empty mailbox to the list.
   */
  method Subscribe(t: AudioTranscriber, now: real) returns (m: Mailbox)
    requires t.Valid()
    modifies t`stopRequested, t`hasTranscribed, t`lastVoiceTime, t`bufferDeque,
             t`audioQueue, t`running, t`threadsStarted, t`clientQueues
    ensures t.Valid() && t.running
    ensures fresh(m) && m.item == None
    ensures t.clientQueues == old(t.clientQueues) + [m]
    ensures m !in old(t.clientQueues)
    ensures NoDuplicates(old(t.clientQueues)) ==> NoDuplicates(t.clientQueues)
    ensures old(t.running) ==> t.audioQueue == old(t.audioQueue) && t.bufferDeque == old(t.bufferDeque)
                               && t.lastVoiceTime == old(t.lastVoiceTime)
                               && t.hasTranscribed == old(t.hasTranscribed)
                               && t.stopRequested == old(t.stopRequested)
                               && t.threadsStarted == old(t.threadsStarted)
    ensures !old(t.running) ==> t.threadsStarted && !t.stopRequested && !t.hasTranscribed
                                && t.lastVoiceTime == now && t.bufferDeque == [] && t.audioQueue == []
  {
    if !t.running {
      t.Start(now);
    }
    m := new Mailbox();
    t.clientQueues := t.clientQueues + [m];
  }

  /** The end of a stream with the clean-up as written: a disconnect skips the removal. */
  method FinishAsWritten(t: AudioTranscriber, m: Mailbox, ending: Ending)
    modifies t`clientQueues
    ensures t.clientQueues == CleanupAsWritten(old(t.clientQueues), m, ending)
  {
    if ending == Stopped && m in t.clientQueues {
      t.clientQueues := RemoveFirst(t.clientQueues, m);
    }
  }

  /** The end of a stream with the intended clean-up: the mailbox goes however the stream ends. */
  method Finish(t: AudioTranscriber, m: Mailbox)
    modifies t`clientQueues
    ensures t.clientQueues == Cleanup(old(t.clientQueues), m)
    ensures NoDuplicates(old(t.clientQueues)) ==>
      NoDuplicates(t.clientQueues) && m !in t.clientQueues
      && forall q :: q != m ==> (q in t.clientQueues <==> q in old(t.clientQueues))
  {
    if m in t.clientQueues {
      t.clientQueues := RemoveFirst(t.clientQueues, m);
    }
  }

  /**
   * /control: "start" starts the transcriber and "stop" stops it, both answering 200;
   * any other action, or none, is answered with 400 and changes nothing. A stop before
   * any start fails on the missing thread handles, which the framework answers with 500.
   */
  method Control(t: AudioTranscriber, action: Option<string>, now: real) returns (status: int)
    requires t.Valid()
    modifies t`stopRequested, t`hasTranscribed, t`lastVoiceTime, t`bufferDeque,
             t`audioQueue, t`running, t`threadsStarted, t`clientQueues
    ensures t.Valid()
    ensures action == Some("start") ==> status == 200 && t.running && t.clientQueues == old(t.clientQueues)
    ensures action == Some("start") && old(t.running) ==> unchanged(t)
    ensures action == Some("start") && !old(t.running) ==>
      t.threadsStarted && !t.stopRequested && !t.hasTranscribed
      && t.lastVoiceTime == now && t.bufferDeque == [] && t.audioQueue == []
    ensures action == Some("stop") ==> !t.running && t.stopRequested
                                       && status == (if old(t.threadsStarted) then 200 else 500)
                                       && t.clientQueues == (if old(t.threadsStarted) then [] else old(t.clientQueues))
    ensures action == Some("stop") ==>
      t.threadsStarted == old(t.threadsStarted) && t.hasTranscribed == old(t.hasTranscribed)
      && t.lastVoiceTime == old(t.lastVoiceTime) && t.bufferDeque == old(t.bufferDeque)
      && t.audioQueue == old(t.audioQueue)
    ensures action != Some("start") && action != Some("stop") ==> status == 400 && unchanged(t)
  {
    if action == Some("start") {
      t.Start(now);
      return 200;
    } else if action == Some("stop") {
      var ok := t.Stop();
      return if ok then 200 else 500;
    }
    return 400;
  }

  /**
   * POST /config: a request that fails validation is answered with 400 and changes
   * nothing; a valid one is applied, answering 200, or 400 when the calibration or the
   * model load fails, by which time the new configuration and buffers are in place.
   */
  method PostConfig(t: AudioTranscriber, req: ConfigRequest, calibration: Option<real>, loadSucceeds: bool)
    returns (status: int)
    requires t.Valid() && CalibrationInRange(calibration)
    modifies t`config, t`queueMaxsize, t`audioQueue, t`dequeMaxlen, t`bufferDeque,
             t`silenceThreshold, t`loadedModel
    ensures t.Valid()
    ensures Validate(req).Failure? ==> status == 400 && unchanged(t)
    ensures Validate(req).Success? ==>
      && t.config == Validate(req).value && t.Configured()
      && t.audioQueue == [] && t.bufferDeque == []
      && status == (if ConfigOutcome(Validate(req).value, calibration, loadSucceeds, old(t.loadedModel)).Success?
                    then 200 else 400)
      && t.silenceThreshold == (match Validate(req).value.silenceThreshold
                                case Fixed(level) => level
                                case Auto => calibration.GetOr(old(t.silenceThreshold)))
      && t.loadedModel == (if status == 200 then Some(Validate(req).value.model) else old(t.loadedModel))
  {
    match Validate(req) {
      case Failure(_) =>
        return 400;
      case Success(cfg) =>
        var outcome := t.ApplyConfig(cfg, calibration, loadSucceeds);
        return if outcome.Success? then 200 else 400;
    }
  }
}
