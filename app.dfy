/** The Flask and Socket.IO handlers of the backend: the two threshold globals,
    the upload folder, and the events the server emits, with each handler's
    order of checks and side effects. */
module App {
  import opened Wrappers
  import opened Text
  import opened Inference

  const UploadFolder: string := "uploads"
  const AllowedExtensions: set<string> := {"png", "jpg", "jpeg", "mp4", "avi", "webp", "bmp"}
  const DefaultConfidence: real := 0.3
  const DefaultIou: real := 0.5

  const NoJsonData := "No JSON data provided"
  const InvalidFilename := "Invalid filename"
  const FileNotFound := "File not found"
  const ConfidenceOutOfRange := "Confidence threshold must be between 0.0 and 1.0"
  const IouOutOfRange := "IoU threshold must be between 0.0 and 1.0"

  // ---------------------------------------------------------------------------
  // File names

  /** `allowed_file`: there is a dot, and the text after the last one,
      lower-cased, is an allowed extension. */
  predicate AllowedFile(filename: string) {
    '.' in filename && AsciiLower(AfterLast(filename, '.')) in AllowedExtensions
  }

  /** The decision depends only on what follows the last dot, whatever precedes it. */
  lemma AllowedFileByExtension(stem: string, ext: string)
    requires '.' !in ext
    ensures AllowedFile(stem + "." + ext) <==> AsciiLower(ext) in AllowedExtensions
  {
    AfterLastOfSeparated(stem, '.', ext);
    assert stem + "." + ext == stem + ['.'] + ext;
    assert (stem + "." + ext)[|stem|] == '.';
  }

  /** The same decision stated by position: some dot that no later dot follows,
      with an allowed extension after it. */
  lemma AllowedFileIff(filename: string)
    ensures AllowedFile(filename) <==>
      exists i | 0 <= i < |filename| ::
        filename[i] == '.' && '.' !in filename[i + 1..] && AsciiLower(filename[i + 1..]) in AllowedExtensions
  {
    var ext := AfterLast(filename, '.');
    if '.' in filename {
      var i := |filename| - |ext| - 1;
      assert filename[i + 1..] == ext;
      assert filename == filename[..i] + "." + ext;
    }
  }

  lemma AllowedFileAcceptsExamples()
    ensures AllowedFile("photo.jpg")
    ensures AllowedFile("X.JPG")
  {
    AllowedFileByExtension("photo", "jpg");
    AllowedFileByExtension("X", "JPG");
    assert AsciiLower("JPG") == "jpg";
  }

  lemma AllowedFileRejectsWrongExtension()
    ensures !AllowedFile("malware.exe")
  {
    AllowedFileByExtension("malware", "exe");
    assert AsciiLower("exe") == "exe";
  }

  lemma AllowedFileRejectsNoDot()
    ensures !AllowedFile("noext")
  {
    assert "noext" == ['n', 'o', 'e', 'x', 't'];
  }

  // ---------------------------------------------------------------------------
  // Requests, responses and events

  /** What `float(x)` makes of a JSON value: a number, a `ValueError` (a
      string that is not a number) or a `TypeError` (null, a list, an object);
      the messages are Python's. */
  datatype NumArg = Num(value: real) | NotNumeric(message: string) | WrongType(message: string)

  /** The body of a threshold update; `None` for a key that is absent. */
  datatype ThresholdBody = ThresholdBody(confidence: Option<NumArg>, iou: Option<NumArg>)

  /** The body of an inference request; `None` for a key that is absent. */
  datatype InferenceBody = InferenceBody(filename: Option<string>, conf: Option<NumArg>, iou: Option<NumArg>)

  /** The `file` part of a multipart upload. */
  datatype FilePart = NoFilePart | FilePart(filename: string)

  /** What saving the uploaded file gives: its size on disk, or the exception raised. */
  datatype SaveOutcome = Saved(fileSize: nat) | SaveRaised(message: string)

  /** `emit(...)` reaches only the client being served; `socketio.emit(...)` and
      `emit(..., broadcast=True)` reach every client. */
  datatype Audience = Sender | AllClients

  datatype Event =
    | Connected(confidence: real, iou: real)
    | FileUploaded(filename: string, fileSize: nat)
    | InferenceStarted(filename: string, conf: real, iou: real)
    | InferenceCompleted(filename: string, totalDetections: nat, processingTimeMs: real)
    | InferenceError(filename: string, error: string)
    | ThresholdsUpdated(confidence: real, iou: real)
    | ErrorMessage(message: string)

  datatype Emit = Emit(audience: Audience, event: Event)

  /** The JSON body of an HTTP response. */
  datatype Body =
    | Error(message: string)
    | ThresholdPair(confidence: real, iou: real)
    | Uploaded(filename: string, fileSize: nat)
    | InferenceOk(outputUrl: string, result: Report, filename: string)
    | InferenceFailed(result: Report)

  datatype Response = Response(status: nat, body: Body)

  predicate InRange(v: real) {
    0.0 <= v <= 1.0
  }

  /** A threshold field is accepted when it is absent or a number in range. */
  predicate Accepts(arg: Option<NumArg>) {
    arg.None? || (arg.value.Num? && InRange(arg.value.value))
  }

  /** The HTTP answer to a rejected field: a range error, `ValueError` or another exception. */
  function HttpRejection(arg: NumArg, rangeMessage: string): (resp: Response)
    ensures resp.body.Error?
    ensures resp.status == (if arg.WrongType? then 500 else 400)
  {
    match arg
    case Num(_) => Response(400, Error(rangeMessage))
    case NotNumeric(_) => Response(400, Error("Invalid numeric values"))
    case WrongType(message) => Response(500, Error(message))
  }

  /** The `error` event sent back over the socket for a rejected field. */
  function SocketRejection(arg: NumArg, rangeMessage: string): (e: Event)
    ensures e.ErrorMessage?
  {
    match arg
    case Num(_) => ErrorMessage(rangeMessage)
    case NotNumeric(_) => ErrorMessage("Invalid threshold values")
    case WrongType(message) => ErrorMessage("Error setting threshold: " + message)
  }

  /** An inference parameter `float()` accepts. */
  predicate Parses(arg: Option<NumArg>) {
    arg.None? || arg.value.Num?
  }

  /** `data.get(key, current)` once `float()` accepted it: the request's number,
      or the current threshold when the key is absent. */
  function GivenOrCurrent(arg: Option<NumArg>, current: real): (v: real)
    requires Parses(arg)
    ensures arg.None? ==> v == current
    ensures arg.Some? ==> v == arg.value.value
  {
    if arg.Some? then arg.value.value else current
  }

  /** An accepted threshold field keeps a threshold in range. */
  lemma AcceptedStaysInRange(arg: Option<NumArg>, current: real)
    requires Accepts(arg) && InRange(current)
    ensures Parses(arg) && InRange(GivenOrCurrent(arg, current))
  {
  }

  function InferenceErrorMessage(message: string): string {
    "Inference error: " + message
  }

  /** The answer of `do_inference` to a parameter `float()` rejects: `ValueError`
      is a 400; any other exception is a 500. */
  function ParameterRejection(arg: NumArg): (resp: Response)
    requires !arg.Num?
    ensures resp.body.Error?
    ensures arg.NotNumeric? ==> resp.status == 400
    ensures arg.WrongType? ==> resp == Response(500, Error(InferenceErrorMessage(arg.message)))
  {
    if arg.NotNumeric? then Response(400, Error("Invalid parameter values: " + arg.message))
    else Response(500, Error(InferenceErrorMessage(arg.message)))
  }

  /** The events `do_inference` emits for such a parameter: only the generic
      exception handler broadcasts. */
  function ParameterRejectionEvents(arg: NumArg, filename: Option<string>): (es: seq<Emit>)
    requires !arg.Num?
    ensures arg.NotNumeric? <==> es == []
  {
    if arg.NotNumeric? then []
    else [Emit(AllClients, InferenceError(filename.GetOr("unknown"), InferenceErrorMessage(arg.message)))]
  }

  /** The filename check of `do_inference`: present, non-empty and allowed. */
  predicate FilenameAccepted(filename: Option<string>) {
    filename.Some? && filename.value != "" && AllowedFile(filename.value)
  }

  /** `extensions` lists the allowed extensions once each, in the order the
      server process iterates the set. */
  predicate OrdersExtensions(extensions: seq<string>) {
    && Distinct(extensions)
    && (forall e | e in extensions :: e in AllowedExtensions)
    && (forall e | e in AllowedExtensions :: e in extensions)
  }

  // ---------------------------------------------------------------------------
  // The server

  /** The server process: the two threshold globals, the upload folder (the set
      of paths that exist there) and the log of events emitted so far. */
  class Server {
    var conf: real
    var iou: real
    var files: set<string>
    var events: seq<Emit>
    /** The order in which this process iterates `ALLOWED_EXTENSIONS`. */
    const extensionOrder: seq<string>

    /** Both thresholds are always in [0, 1]. */
    ghost predicate Valid()
      reads this
    {
      InRange(conf) && InRange(iou)
    }

    /** Start-up: the default thresholds, an upload folder holding `existing`. */
    constructor(existing: set<string>, extensions: seq<string>)
      requires OrdersExtensions(extensions)
      ensures Valid()
      ensures conf == DefaultConfidence && iou == DefaultIou
      ensures files == existing && events == [] && extensionOrder == extensions
    {
      conf := DefaultConfidence;
      iou := DefaultIou;
      files := existing;
      events := [];
      extensionOrder := extensions;
    }

    /** `handle_connect`: the new client is told the current thresholds. */
    method Connect()
      modifies this
      ensures conf == old(conf) && iou == old(iou) && files == old(files)
      ensures events == old(events) + [Emit(Sender, Connected(conf, iou))]
    {
      events := events + [Emit(Sender, Connected(conf, iou))];
    }

    /** `GET /api/thresholds`. */
    method GetThresholds() returns (resp: Response)
      ensures resp == Response(200, ThresholdPair(conf, iou))
    {
      resp := Response(200, ThresholdPair(conf, iou));
    }

    /** `POST /api/thresholds`: confidence first, then IoU; a rejected IoU
        leaves an accepted confidence stored. `None` is a missing or empty body. */
    method SetThresholdsHttp(data: Option<ThresholdBody>) returns (resp: Response)
      requires Valid()
      modifies this
      ensures Valid()
      ensures files == old(files)
      ensures data.None? ==>
        resp == Response(400, Error(NoJsonData))
        && conf == old(conf) && iou == old(iou) && events == old(events)
      ensures data.Some? && !Accepts(data.value.confidence) ==>
        resp == HttpRejection(data.value.confidence.value, "Confidence must be between 0.0 and 1.0")
        && conf == old(conf) && iou == old(iou) && events == old(events)
      ensures data.Some? && Accepts(data.value.confidence) && !Accepts(data.value.iou) ==>
        resp == HttpRejection(data.value.iou.value, "IoU must be between 0.0 and 1.0")
        && conf == GivenOrCurrent(data.value.confidence, old(conf)) && iou == old(iou) && events == old(events)
      ensures data.Some? && Accepts(data.value.confidence) && Accepts(data.value.iou) ==>
        conf == GivenOrCurrent(data.value.confidence, old(conf)) && iou == GivenOrCurrent(data.value.iou, old(iou))
        && events == old(events) + [Emit(AllClients, ThresholdsUpdated(conf, iou))]
        && resp == Response(200, ThresholdPair(conf, iou))
    {
      if data.None? {
        return Response(400, Error(NoJsonData));
      }
      var body := data.value;
      if body.confidence.Some? {
        var arg := body.confidence.value;
        if arg.Num? && InRange(arg.value) {
          conf := arg.value;
        } else {
          return HttpRejection(arg, "Confidence must be between 0.0 and 1.0");
        }
      }
      if body.iou.Some? {
        var arg := body.iou.value;
        if arg.Num? && InRange(arg.value) {
          iou := arg.value;
        } else {
          return HttpRejection(arg, "IoU must be between 0.0 and 1.0");
        }
      }
      events := events + [Emit(AllClients, ThresholdsUpdated(conf, iou))];
      resp := Response(200, ThresholdPair(conf, iou));
    }

    /** The `set_threshold` socket event: the same rules as the HTTP update, with
        rejections sent to the sender as `error` events. */
    method SetThresholdSocket(data: ThresholdBody)
      requires Valid()
      modifies this
      ensures Valid()
      ensures files == old(files)
      ensures !Accepts(data.confidence) ==>
        conf == old(conf) && iou == old(iou)
        && events == old(events) + [Emit(Sender, SocketRejection(data.confidence.value, "Confidence must be between 0.0 and 1.0"))]
      ensures Accepts(data.confidence) && !Accepts(data.iou) ==>
        conf == GivenOrCurrent(data.confidence, old(conf)) && iou == old(iou)
        && events == old(events) + [Emit(Sender, SocketRejection(data.iou.value, "IoU must be between 0.0 and 1.0"))]
      ensures Accepts(data.confidence) && Accepts(data.iou) ==>
        conf == GivenOrCurrent(data.confidence, old(conf)) && iou == GivenOrCurrent(data.iou, old(iou))
        && events == old(events) + [Emit(AllClients, ThresholdsUpdated(conf, iou))]
    {
      if data.confidence.Some? {
        var arg := data.confidence.value;
        if arg.Num? && InRange(arg.value) {
          conf := arg.value;
        } else {
          events := events + [Emit(Sender, SocketRejection(arg, "Confidence must be between 0.0 and 1.0"))];
          return;
        }
      }
      if data.iou.Some? {
        var arg := data.iou.value;
        if arg.Num? && InRange(arg.value) {
          iou := arg.value;
        } else {
          events := events + [Emit(Sender, SocketRejection(arg, "IoU must be between 0.0 and 1.0"))];
          return;
        }
      }
      events := events + [Emit(AllClients, ThresholdsUpdated(conf, iou))];
    }

    /** `POST /upload`: three rejections in a fixed order, then the save; only a
        saved file is announced. */
    method Upload(part: FilePart, save: SaveOutcome) returns (resp: Response)
      modifies this
      ensures conf == old(conf) && iou == old(iou)
      ensures part.NoFilePart? ==>
        resp == Response(400, Error("No file part in request")) && files == old(files) && events == old(events)
      ensures part.FilePart? && part.filename == "" ==>
        resp == Response(400, Error("No file selected")) && files == old(files) && events == old(events)
      ensures part.FilePart? && part.filename != "" && !AllowedFile(part.filename) ==>
        resp == Response(400, Error("File type not allowed. Supported: " + Join(extensionOrder, ", ")))
        && files == old(files) && events == old(events)
      ensures part.FilePart? && AllowedFile(part.filename) && save.SaveRaised? ==>
        resp == Response(500, Error("Upload error: " + save.message)) && files == old(files) && events == old(events)
      ensures part.FilePart? && AllowedFile(part.filename) && save.Saved? ==>
        resp == Response(200, Uploaded(part.filename, save.fileSize))
        && files == old(files) + {PathJoin(UploadFolder, part.filename)}
        && events == old(events) + [Emit(AllClients, FileUploaded(part.filename, save.fileSize))]
    {
      if part.NoFilePart? {
        return Response(400, Error("No file part in request"));
      }
      var filename := part.filename;
      if filename == "" {
        return Response(400, Error("No file selected"));
      }
      if !AllowedFile(filename) {
        return Response(400, Error("File type not allowed. Supported: " + Join(extensionOrder, ", ")));
      }
      var filepath := PathJoin(UploadFolder, filename);
      if save.SaveRaised? {
        return Response(500, Error("Upload error: " + save.message));
      }
      files := files + {filepath};
      events := events + [Emit(AllClients, FileUploaded(filename, save.fileSize))];
      resp := Response(200, Uploaded(filename, save.fileSize));
    }

    /** `POST /inference`. `None` is a missing or empty body; `image` is what
        reading the uploaded file gives and `detect` is the model. */
    method DoInference(data: Option<InferenceBody>, image: ImageLoad,
                       detect: (real, real) -> DetectorOutcome, timing: Timing)
      returns (resp: Response)
      modifies this
      ensures conf == old(conf) && iou == old(iou) && files == old(files)
      ensures old(Valid()) && data.Some? && data.value.conf.None? && data.value.iou.None? ==>
        resp.body != Error(ConfidenceOutOfRange) && resp.body != Error(IouOutOfRange)
      ensures data.None? ==> resp == Response(400, Error(NoJsonData)) && events == old(events)
      ensures data.Some? && !Parses(data.value.conf) ==>
        resp == ParameterRejection(data.value.conf.value)
        && events == old(events) + ParameterRejectionEvents(data.value.conf.value, data.value.filename)
      ensures data.Some? && Parses(data.value.conf) && !Parses(data.value.iou) ==>
        resp == ParameterRejection(data.value.iou.value)
        && events == old(events) + ParameterRejectionEvents(data.value.iou.value, data.value.filename)
      ensures data.Some? && Parses(data.value.conf) && Parses(data.value.iou) ==>
        var d := data.value;
        var c := GivenOrCurrent(d.conf, old(conf));
        var i := GivenOrCurrent(d.iou, old(iou));
        && (!FilenameAccepted(d.filename) ==>
              resp == Response(400, Error(InvalidFilename)) && events == old(events))
        && (FilenameAccepted(d.filename) && !InRange(c) ==>
              resp == Response(400, Error(ConfidenceOutOfRange)) && events == old(events))
        && (FilenameAccepted(d.filename) && InRange(c) && !InRange(i) ==>
              resp == Response(400, Error(IouOutOfRange)) && events == old(events))
        && (FilenameAccepted(d.filename) && InRange(c) && InRange(i) ==>
              var name := d.filename.value;
              var path := PathJoin(UploadFolder, name);
              && (path !in files ==> resp == Response(404, Error(FileNotFound)) && events == old(events))
              && (path in files ==> InferenceRan(resp, events, old(events), name, path, c, i, image, detect, timing)))
    {
      if data.None? {
        return Response(400, Error(NoJsonData));
      }
      var body := data.value;
      var filename := body.filename;
      if body.conf.Some? && !body.conf.value.Num? {
        events := events + ParameterRejectionEvents(body.conf.value, filename);
        return ParameterRejection(body.conf.value);
      }
      var c := GivenOrCurrent(body.conf, conf);
      if body.iou.Some? && !body.iou.value.Num? {
        events := events + ParameterRejectionEvents(body.iou.value, filename);
        return ParameterRejection(body.iou.value);
      }
      var i := GivenOrCurrent(body.iou, iou);

      if filename.None? || filename.value == "" || !AllowedFile(filename.value) {
        return Response(400, Error(InvalidFilename));
      }
      if !InRange(c) {
        return Response(400, Error(ConfidenceOutOfRange));
      }
      if !InRange(i) {
        return Response(400, Error(IouOutOfRange));
      }
      var name := filename.value;
      var filepath := PathJoin(UploadFolder, name);
      if filepath !in files {
        return Response(404, Error(FileNotFound));
      }

      resp := RunValidated(name, filepath, c, i, image, detect, timing);
    }

    /** The rest of `do_inference` once the request has been validated. */
    method RunValidated(name: string, filepath: string, c: real, i: real, image: ImageLoad,
                        detect: (real, real) -> DetectorOutcome, timing: Timing)
      returns (resp: Response)
      modifies this
      ensures conf == old(conf) && iou == old(iou) && files == old(files)
      ensures InferenceRan(resp, events, old(events), name, filepath, c, i, image, detect, timing)
    {
      events := events + [Emit(AllClients, InferenceStarted(name, c, i))];
      var result, _ := RunInference(filepath, c, i, image, detect, timing);
      var closing: Event;
      if result.Failed? {
        closing := InferenceError(name, result.error);
        resp := Response(500, InferenceFailed(result));
      } else {
        closing := InferenceCompleted(name, result.detectionSummary.totalDetections,
                                      result.inferenceInfo.totalProcessingTimeMs);
        resp := Response(200, InferenceOk(result.imageInfo.url, result, name));
      }
      events := events + [Emit(AllClients, closing)];
    }
  }

  /** With the thresholds in range, as the constructor and every handler keep
      them, an inference request that omits `conf` and `iou` passes both range checks. */
  lemma OmittedParametersInRange(server: Server, d: InferenceBody)
    requires server.Valid() && d.conf.None? && d.iou.None?
    ensures InRange(GivenOrCurrent(d.conf, server.conf)) && InRange(GivenOrCurrent(d.iou, server.iou))
  {
  }

  /** What a validated inference request leads to: `inference_started`, then
      `run_inference` on the uploaded path with the effective thresholds, then
      either `inference_error` and a 500 carrying the failed report, or
      `inference_completed` and a 200 whose `output_url` is the report's URL. */
  ghost predicate InferenceRan(resp: Response, events: seq<Emit>, before: seq<Emit>, name: string, path: string,
                               c: real, i: real, image: ImageLoad, detect: (real, real) -> DetectorOutcome,
                               timing: Timing)
  {
    && InferenceAnnounced(resp, events, before, name, c, i)
    && (resp.body.InferenceFailed? || resp.body.InferenceOk?)
    && InferenceOutcome(resp.body.result, path, c, i, image, detect, timing)
    && (resp.body.InferenceOk? ==> resp.body.filename == name && resp.body.outputUrl == resp.body.result.imageInfo.url)
  }

  /** `inference_started` with the effective parameters, then one closing event
      that carries the report's error or its totals. */
  ghost predicate InferenceAnnounced(resp: Response, events: seq<Emit>, before: seq<Emit>, name: string, c: real, i: real) {
    && |events| == |before| + 2
    && events[..|before| + 1] == before + [Emit(AllClients, InferenceStarted(name, c, i))]
    && (resp.status == 500 || resp.status == 200)
    && (resp.status == 500 ==>
          && resp.body.InferenceFailed? && resp.body.result.Failed?
          && events[|before| + 1] == Emit(AllClients, InferenceError(name, resp.body.result.error)))
    && (resp.status == 200 ==>
          && resp.body.InferenceOk? && resp.body.result.Report?
          && events[|before| + 1] == Emit(AllClients, InferenceCompleted(name, resp.body.result.detectionSummary.totalDetections,
                                                                        resp.body.result.inferenceInfo.totalProcessingTimeMs)))
  }

  /** A successful request answers with a well-formed report at the requested
      thresholds, whose `output_url` is the result image of the uploaded file. */
  lemma ServedReport(resp: Response, events: seq<Emit>, before: seq<Emit>, name: string, path: string,
                     c: real, i: real, image: ImageLoad, detect: (real, real) -> DetectorOutcome, timing: Timing)
    requires InferenceRan(resp, events, before, name, path, c, i, image, detect, timing)
    requires resp.status == 200
    ensures resp.body.InferenceOk? && resp.body.filename == name
    ensures resp.body.result.Report? && WellFormed(resp.body.result, c)
    ensures resp.body.outputUrl == "/static/" + ResultName(path)
    ensures resp.body.result.inferenceInfo.confidenceThreshold == c && resp.body.result.inferenceInfo.iouThreshold == i
    ensures events[|before| + 1].event.InferenceCompleted?
  {
    OutcomeWellFormed(resp.body.result, path, c, i, image, detect, timing);
  }

  /** An unreadable upload, or an exception of the model, is a 500 carrying the
      message and announced by `inference_error`. */
  lemma FailedInference(resp: Response, events: seq<Emit>, before: seq<Emit>, name: string, path: string,
                        c: real, i: real, image: ImageLoad, detect: (real, real) -> DetectorOutcome, timing: Timing)
    requires InferenceRan(resp, events, before, name, path, c, i, image, detect, timing)
    requires image.Unreadable? || (c < 1.0 && detect(ModelConf(c), i).Raised?)
    ensures resp.status == 500
    ensures image.Unreadable? ==> resp.body == InferenceFailed(Failed("Could not load image from " + path))
    ensures image.Decoded? ==> resp.body == InferenceFailed(Failed(detect(ModelConf(c), i).message))
    ensures events[|before| + 1] == Emit(AllClients, InferenceError(name, resp.body.result.error))
  {
  }

  /** At a threshold of 100% a readable, non-empty image is answered with an
      empty report, whatever the model would have found. */
  lemma FullThresholdServed(resp: Response, events: seq<Emit>, before: seq<Emit>, name: string, path: string,
                            c: real, i: real, image: ImageLoad, detect: (real, real) -> DetectorOutcome, timing: Timing)
    requires InferenceRan(resp, events, before, name, path, c, i, image, detect, timing)
    requires image.Decoded? && image.height > 0 && c >= 1.0
    ensures resp.status == 200 && resp.body.InferenceOk?
    ensures resp.body.result.predictions == [] && resp.body.result.summary == NoObjectsAtFullThreshold
    ensures events[|before| + 1] == Emit(AllClients, InferenceCompleted(name, 0, resp.body.result.inferenceInfo.totalProcessingTimeMs))
  {
  }

  // ---------------------------------------------------------------------------
  // Scenarios

  /** `{confidence: 0.7}` then `GET`: the new confidence with the old IoU. */
  method PartialUpdateScenario(extensions: seq<string>) returns (resp: Response)
    requires OrdersExtensions(extensions)
    ensures resp == Response(200, ThresholdPair(0.7, DefaultIou))
  {
    var server := new Server({}, extensions);
    var _ := server.SetThresholdsHttp(Some(ThresholdBody(Some(Num(0.7)), None)));
    resp := server.GetThresholds();
  }

  /** A valid confidence with an out-of-range IoU is rejected, yet the
      confidence stays stored and nothing is broadcast. */
  method NonAtomicUpdateScenario(extensions: seq<string>) returns (rejected: Response, after: Response, emitted: nat)
    requires OrdersExtensions(extensions)
    ensures rejected == Response(400, Error("IoU must be between 0.0 and 1.0"))
    ensures after == Response(200, ThresholdPair(0.7, DefaultIou))
    ensures emitted == 0
  {
    var server := new Server({}, extensions);
    rejected := server.SetThresholdsHttp(Some(ThresholdBody(Some(Num(0.7)), Some(Num(1.5)))));
    after := server.GetThresholds();
    emitted := |server.events|;
  }
}
