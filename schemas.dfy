/**
 * The transcriber's configuration record and its validation (schemas.py).
 * A request may leave any field out: the field then takes its default.
 * Each field has its own constraint, and validation reports every field
 * that breaks its constraint.
 */
module Schemas {
  import opened Common

  /** A validated silence threshold: calibrate it from the device, or use a fixed RMS level. */
  datatype Threshold = Auto | Fixed(level: real)

  /** A silence_threshold as a client sends it: a JSON number or a JSON string. */
  datatype ThresholdInput = Number(x: real) | Text(s: string)

  datatype Config = Config(
    rate: int,
    chunk: int,
    buffer: int,
    model: string,
    silenceThreshold: Threshold,
    silenceTimeout: real,
    verbose: bool)

  /** The keyword arguments of a configuration request; an absent field is None. */
  datatype ConfigRequest = ConfigRequest(
    rate: Option<int>,
    chunk: Option<int>,
    buffer: Option<int>,
    model: Option<string>,
    silenceThreshold: Option<ThresholdInput>,
    silenceTimeout: Option<real>,
    verbose: Option<bool>)

  /** The fields that carry a constraint (verbose has none). */
  datatype Field = Rate | Chunk | Buffer | Model | SilenceThreshold | SilenceTimeout

  const DefaultRate := 16000
  const DefaultChunk := 1024
  const DefaultBuffer := 5
  const DefaultModel := "tiny"
  const DefaultTimeout := 3.0
  const ValidModels: seq<string> := ["tiny", "base", "small", "medium"]

  const DefaultConfig := Config(DefaultRate, DefaultChunk, DefaultBuffer, DefaultModel, Auto, DefaultTimeout, false)
  const EmptyRequest := ConfigRequest(None, None, None, None, None, None, None)

  // The field constraints; all integer bounds are strict.
  predicate RateOk(rate: int) { 8000 < rate < 48000 }
  predicate ChunkOk(chunk: int) { 256 < chunk < 4096 }
  predicate BufferOk(buffer: int) { 1 < buffer < 60 }
  predicate TimeoutOk(timeout: real) { timeout >= 0.5 }
  predicate ThresholdOk(t: Threshold) { t.Fixed? ==> t.level >= 0.0 }

  /** Every constraint holds: what a constructed configuration object guarantees. */
  predicate ValidConfig(c: Config) {
    && RateOk(c.rate)
    && ChunkOk(c.chunk)
    && BufferOk(c.buffer)
    && c.model in ValidModels
    && ThresholdOk(c.silenceThreshold)
    && TimeoutOk(c.silenceTimeout)
  }

  /** The model-name validator: only the four whitelisted names pass, unchanged. */
  function ValidateModel(v: string): (r: Result<string, Field>)
    ensures r.Success? <==> v == "tiny" || v == "base" || v == "small" || v == "medium"
    ensures r.Success? ==> r.value == v
    ensures r.Failure? ==> r.error == Model
  {
    if v in ValidModels then Success(v) else Failure(Model)
  }

  /**
   * The silence_threshold field: the number-or-string type check followed by its
   * validator. A string passes only if it is "auto"; a number only if it is not negative.
   */
  function ValidateThreshold(v: ThresholdInput): (r: Result<Threshold, Field>)
    ensures r.Success? <==> v == Text("auto") || (v.Number? && v.x >= 0.0)
    ensures r == Success(Auto) <==> v == Text("auto")
    ensures r.Success? && r.value.Fixed? ==> v == Number(r.value.level)
    ensures r.Success? ==> ThresholdOk(r.value)
    ensures r.Failure? ==> r.error == SilenceThreshold
  {
    match v
    case Number(x) => if x >= 0.0 then Success(Fixed(x)) else Failure(SilenceThreshold)
    case Text(s) => if s == "auto" then Success(Auto) else Failure(SilenceThreshold)
  }

  /** The request supplies field f with a value that breaks f's constraint. */
  predicate Rejects(req: ConfigRequest, f: Field) {
    match f
    case Rate => req.rate.Some? && !RateOk(req.rate.value)
    case Chunk => req.chunk.Some? && !ChunkOk(req.chunk.value)
    case Buffer => req.buffer.Some? && !BufferOk(req.buffer.value)
    case Model => req.model.Some? && ValidateModel(req.model.value).Failure?
    case SilenceThreshold => req.silenceThreshold.Some? && ValidateThreshold(req.silenceThreshold.value).Failure?
    case SilenceTimeout => req.silenceTimeout.Some? && !TimeoutOk(req.silenceTimeout.value)
  }

  const AllFields: seq<Field> := [Rate, Chunk, Buffer, Model, SilenceThreshold, SilenceTimeout]

  lemma AllFieldsListed()
    ensures forall f: Field :: f in AllFields
  {
    forall f: Field ensures f in AllFields {
      match f
      case Rate => assert AllFields[0] == f;
      case Chunk => assert AllFields[1] == f;
      case Buffer => assert AllFields[2] == f;
      case Model => assert AllFields[3] == f;
      case SilenceThreshold => assert AllFields[4] == f;
      case SilenceTimeout => assert AllFields[5] == f;
    }
  }

  /** The fields among `fields` that the request breaks, in the same order. */
  function RejectedAmong(req: ConfigRequest, fields: seq<Field>): (r: seq<Field>)
    ensures forall f :: f in r <==> f in fields && Rejects(req, f)
  {
    if fields == [] then []
    else (if Rejects(req, fields[0]) then [fields[0]] else []) + RejectedAmong(req, fields[1..])
  }

  /** c holds, field by field, the value the request supplies or else the default. */
  predicate Supplies(req: ConfigRequest, c: Config) {
    && c.rate == req.rate.GetOr(DefaultRate)
    && c.chunk == req.chunk.GetOr(DefaultChunk)
    && c.buffer == req.buffer.GetOr(DefaultBuffer)
    && c.model == req.model.GetOr(DefaultModel)
    && c.silenceThreshold == (match req.silenceThreshold
                              case None => Auto
                              case Some(Text(_)) => Auto
                              case Some(Number(x)) => Fixed(x))
    && c.silenceTimeout == req.silenceTimeout.GetOr(DefaultTimeout)
    && c.verbose == req.verbose.GetOr(false)
  }

  /**
   * Constructing the configuration object from a request: either a valid configuration
   * made of the supplied values and the defaults, or the list of every rejected field
   * (in declaration order).
   */
  function Validate(req: ConfigRequest): (r: Result<Config, seq<Field>>)
    ensures r.Success? <==> forall f: Field :: !Rejects(req, f)
    ensures r.Success? ==> ValidConfig(r.value) && Supplies(req, r.value)
    ensures r.Failure? ==> r.error != [] && forall f: Field :: f in r.error <==> Rejects(req, f)
  {
    var errors := RejectedAmong(req, AllFields);
    AllFieldsListed();
    if errors == [] then
      assert !Rejects(req, Rate) && !Rejects(req, Chunk) && !Rejects(req, Buffer);
      assert !Rejects(req, Model) && !Rejects(req, SilenceThreshold) && !Rejects(req, SilenceTimeout);
      var model := if req.model.Some? then ValidateModel(req.model.value).value else DefaultModel;
      var threshold := if req.silenceThreshold.Some? then ValidateThreshold(req.silenceThreshold.value).value else Auto;
      Success(Config(req.rate.GetOr(DefaultRate), req.chunk.GetOr(DefaultChunk), req.buffer.GetOr(DefaultBuffer),
                     model, threshold, req.silenceTimeout.GetOr(DefaultTimeout), req.verbose.GetOr(false)))
    else
      assert Rejects(req, errors[0]);
      Failure(errors)
  }

  /** The defaults satisfy every constraint, and an empty request yields exactly them. */
  lemma DefaultsAreValid()
    ensures ValidConfig(DefaultConfig)
    ensures Validate(EmptyRequest) == Success(DefaultConfig)
  {
  }

  /** The integer bounds are strict at both ends. */
  lemma BoundsAreStrict()
    ensures !RateOk(8000) && !RateOk(48000) && RateOk(8001) && RateOk(47999)
    ensures !ChunkOk(256) && !ChunkOk(4096) && ChunkOk(257) && ChunkOk(4095)
    ensures !BufferOk(1) && !BufferOk(60) && BufferOk(2) && BufferOk(59)
  {
  }
}
