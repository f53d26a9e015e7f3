/**
 * The frame-buffering policy of the audio transcriber (transcriber.py), on values:
 * sample normalisation, the loudness test that stands for "RMS above the threshold",
 * the two capacities derived from the configuration, the drop-oldest bounded deque,
 * and the truncation of the concatenated audio.
 */
module Buffering {
  import opened Common
  import opened Schemas

  /** One block of normalised samples, as one device callback delivers it. */
  type Frame = seq<real>

  /** np.clip to [-1.0, 1.0]. */
  function Clip(x: real): (r: real)
    ensures -1.0 <= r <= 1.0
    ensures -1.0 <= x <= 1.0 ==> r == x
    ensures x < -1.0 ==> r == -1.0
    ensures x > 1.0 ==> r == 1.0
  {
    if x < -1.0 then -1.0 else if x > 1.0 then 1.0 else x
  }

  predicate IsInt16(x: int) { -32768 <= x < 32768 }

  /**
   * The capture callback's conversion of raw device samples: divide by 32768 and clip.
   * Every result lies in [-1.0, 1.0]; for genuine 16-bit samples the clip changes nothing.
   */
  function Normalize(raw: seq<int>): (frame: Frame)
    ensures |frame| == |raw|
    ensures forall i :: 0 <= i < |frame| ==> -1.0 <= frame[i] <= 1.0
    ensures forall i :: 0 <= i < |raw| && IsInt16(raw[i]) ==> frame[i] == raw[i] as real / 32768.0
  {
    seq(|raw|, i requires 0 <= i < |raw| => Clip(raw[i] as real / 32768.0))
  }

  /** The sum of the squared samples. */
  function SumSquares(f: Frame): (r: real)
    ensures r >= 0.0
    decreases |f|
  {
    if f == [] then 0.0 else SumSquares(f[..|f| - 1]) + f[|f| - 1] * f[|f| - 1]
  }

  function MeanSquare(f: Frame): real
    requires |f| > 0
  {
    SumSquares(f) / (|f| as real)
  }

  /**
   * The frame's RMS exceeds the threshold. sqrt(mean(f^2)) > t is stated without the
   * square root: it holds for every t below zero, and for t >= 0 exactly when
   * mean(f^2) > t^2. The mean of an empty frame is NaN, which exceeds nothing.
   */
  predicate Loud(f: Frame, threshold: real) {
    |f| > 0 && (threshold < 0.0 || MeanSquare(f) > threshold * threshold)
  }

  /** Loud agrees with comparing the actual RMS (the non-negative root of the mean square). */
  lemma LoudIsRmsAbove(f: Frame, threshold: real, rms: real)
    requires |f| > 0 && rms >= 0.0 && rms * rms == MeanSquare(f)
    ensures Loud(f, threshold) <==> rms > threshold
  {
    if threshold >= 0.0 {
      if rms > threshold {
        SquareAbove(rms, threshold);
      } else {
        SquareAtMost(rms, threshold);
      }
    }
  }

  lemma SquareAbove(x: real, t: real)
    requires t >= 0.0 && x > t
    ensures x * x > t * t
  {
    var square, cross, bound := x * x, t * x, t * t;
    assert square > cross;
    assert cross >= bound;
  }

  lemma SquareAtMost(x: real, t: real)
    requires x >= 0.0 && x <= t
    ensures x * x <= t * t
  {
    var square, cross, bound := x * x, t * x, t * t;
    assert square <= cross;
    assert cross <= bound;
  }

  /** A frame loud against a threshold is loud against every lower threshold. */
  lemma LoudMonotone(f: Frame, lower: real, higher: real)
    requires lower <= higher && Loud(f, higher)
    ensures Loud(f, lower)
  {
    if lower >= 0.0 {
      SquareAtMost(lower, higher);
    }
  }

  /** A frame of silence never counts as voice against a non-negative threshold. */
  lemma {:induction false} SilenceIsNotLoud(f: Frame, threshold: real)
    requires forall i :: 0 <= i < |f| ==> f[i] == 0.0
    requires threshold >= 0.0
    ensures !Loud(f, threshold)
  {
    ZeroSumSquares(f);
  }

  lemma {:induction false} ZeroSumSquares(f: Frame)
    requires forall i :: 0 <= i < |f| ==> f[i] == 0.0
    ensures SumSquares(f) == 0.0
    decreases |f|
  {
    if f != [] {
      ZeroSumSquares(f[..|f| - 1]);
    }
  }

  /** Capacity of the frame queue: int(1.5 * (rate * buffer / chunk)), on exact reals. */
  function QueueCapacity(c: Config): (r: int)
    requires ValidConfig(c)
    ensures r as real <= 1.5 * ((c.rate * c.buffer) as real / c.chunk as real) < r as real + 1.0
  {
    (1.5 * ((c.rate * c.buffer) as real / c.chunk as real)).Floor
  }

  /** Bound of the frame deque: (rate * buffer) // chunk. */
  function DequeBound(c: Config): (r: nat)
    requires ValidConfig(c)
    ensures r * c.chunk <= c.rate * c.buffer < (r + 1) * c.chunk
  {
    (c.rate * c.buffer) / c.chunk
  }

  /** The queue capacity in integer form: floor(3 * rate * buffer / (2 * chunk)). */
  lemma QueueCapacityFormula(c: Config)
    requires ValidConfig(c)
    ensures QueueCapacity(c) == (3 * c.rate * c.buffer) / (2 * c.chunk)
  {
    var n := 3 * c.rate * c.buffer;
    var d := 2 * c.chunk;
    var q := n / d;
    var x := 1.5 * ((c.rate * c.buffer) as real / c.chunk as real);
    assert x == n as real / d as real;
    assert q * d <= n < (q + 1) * d;
    assert (q * d) as real == q as real * d as real;
    assert ((q + 1) * d) as real == (q + 1) as real * d as real;
    assert q as real <= x by {
      assert q as real * d as real <= n as real;
    }
    assert x < (q + 1) as real by {
      assert n as real < (q + 1) as real * d as real;
    }
  }

  /**
   * Under every valid configuration the queue admits at least as many frames as the
   * deque keeps, and both are at least 3; in particular the queue is bounded.
   */
  lemma CapacityCoversDeque(c: Config)
    requires ValidConfig(c)
    ensures QueueCapacity(c) >= DequeBound(c) >= 3
  {
    QueueCapacityFormula(c);
    var rb := c.rate * c.buffer;
    MulLe(8001, c.rate, c.buffer);
    MulLe(2, c.buffer, 8001);
    assert rb >= 16002;
    DivAtLeast(rb, c.chunk, 3);
    var k := rb / c.chunk;
    assert k * c.chunk <= rb;
    assert 3 * c.rate * c.buffer == 3 * rb;
    assert (2 * c.chunk) * k <= 3 * rb;
    DivAtLeast(3 * rb, 2 * c.chunk, k);
  }

  lemma MulLe(a: int, b: int, k: int)
    requires a <= b && k >= 0
    ensures a * k <= b * k
  {
  }

  /** Integer division is at least q whenever q divisor-multiples fit in the dividend. */
  lemma DivAtLeast(n: int, d: int, q: int)
    requires d > 0 && q * d <= n
    ensures n / d >= q
  {
    var r := n / d;
    assert n == r * d + n % d;
    assert q * d < (r + 1) * d;
    MulCancel(q, r + 1, d);
  }

  lemma MulCancel(a: int, b: int, d: int)
    requires d > 0 && a * d < b * d
    ensures a < b
  {
  }

  /** A Python Queue with this maxsize refuses put_nowait (maxsize <= 0 is unbounded). */
  predicate QueueFull<T>(q: seq<T>, maxsize: int) {
    maxsize > 0 && |q| >= maxsize
  }

  /** The last n elements of s (all of s when it is shorter). */
  function LastN<T>(s: seq<T>, n: nat): (r: seq<T>)
    ensures |r| == Min(|s|, n)
    ensures r == s[|s| - |r|..]
  {
    if |s| <= n then s else s[|s| - n..]
  }

  /** What a deque with this maxlen holds after receiving s, in arrival order. */
  function Bounded<T>(s: seq<T>, maxlen: Option<nat>): seq<T> {
    match maxlen
    case None => s
    case Some(n) => LastN(s, n)
  }

  /** deque.append: the new element goes to the right; a full deque drops its leftmost. */
  function DequeAppend<T>(d: seq<T>, x: T, maxlen: Option<nat>): (r: seq<T>)
    ensures maxlen.Some? ==> |r| <= maxlen.value
    ensures maxlen.None? || maxlen.value > 0 ==> |r| > 0 && r[|r| - 1] == x
    ensures forall y :: y in r ==> y in d || y == x
  {
    match maxlen
    case None => d + [x]
    case Some(n) => LastN(d + [x], n)
  }

  /**
   * Appending to a deque that holds the bounded view of s gives the bounded view of s + [x]:
   * a sequence of appends keeps the last maxlen elements of everything received.
   */
  lemma DequeAppendBounded<T>(s: seq<T>, x: T, maxlen: Option<nat>)
    ensures DequeAppend(Bounded(s, maxlen), x, maxlen) == Bounded(s + [x], maxlen)
  {
    if maxlen.Some? {
      var n := maxlen.value;
      var b := LastN(s, n);
      if |s| > n {
        assert |b| == n;
        assert LastN(b + [x], n) == (b + [x])[1..];
        assert (b + [x])[1..] == (s + [x])[|s| + 1 - n..];
      }
    }
  }

  /** One step of draining a queue into a bounded deque. */
  lemma DrainStep<T>(base: seq<T>, pending: seq<T>, k: nat, maxlen: Option<nat>)
    requires k < |pending|
    ensures DequeAppend(Bounded(base + pending[..k], maxlen), pending[k], maxlen)
            == Bounded(base + pending[..k + 1], maxlen)
  {
    DequeAppendBounded(base + pending[..k], pending[k], maxlen);
    assert base + pending[..k] + [pending[k]] == base + pending[..k + 1];
  }

  /** The concatenation of the frames, in order. */
  function Flatten(frames: seq<Frame>): seq<real>
    decreases |frames|
  {
    if frames == [] then [] else Flatten(frames[..|frames| - 1]) + frames[|frames| - 1]
  }

  /** When every frame carries k samples, the concatenation carries |frames| * k. */
  lemma {:induction false} FlattenLength(frames: seq<Frame>, k: nat)
    requires forall i :: 0 <= i < |frames| ==> |frames[i]| == k
    ensures |Flatten(frames)| == |frames| * k
    decreases |frames|
  {
    if frames != [] {
      var n := |frames| - 1;
      var init := frames[..n];
      forall i | 0 <= i < n ensures |init[i]| == k {
        assert init[i] == frames[i];
      }
      FlattenLength(init, k);
      assert Flatten(frames) == Flatten(init) + frames[n];
      MulSucc(n, k);
    }
  }

  lemma MulSucc(n: int, k: int)
    ensures n * k + k == (n + 1) * k
  {
  }

  /** The prefix slice s[:n] for n >= 0. */
  function Truncate<T>(s: seq<T>, n: nat): (r: seq<T>)
    ensures |r| == Min(|s|, n)
    ensures r == s[..|r|]
  {
    if |s| <= n then s else s[..n]
  }

  /**
   * With frames of chunk samples and at most DequeBound of them, the concatenation is
   * never longer than rate * buffer; cutting it to that length never removes a sample.
   */
  lemma TruncationKeepsAll(frames: seq<Frame>, c: Config)
    requires ValidConfig(c)
    requires |frames| <= DequeBound(c)
    requires forall i :: 0 <= i < |frames| ==> |frames[i]| == c.chunk
    ensures Truncate(Flatten(frames), c.rate * c.buffer) == Flatten(frames)
  {
    FlattenLength(frames, c.chunk);
    var rb := c.rate * c.buffer;
    var k := DequeBound(c);
    assert k * c.chunk <= rb by {
      assert rb == k * c.chunk + rb % c.chunk;
    }
    MulLe(|frames|, k, c.chunk);
    assert |Flatten(frames)| <= rb;
  }
}
