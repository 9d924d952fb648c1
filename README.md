# YOLOv8 detection backend: result enrichment and request handling

This Dafny project models the two parts of the detection backend that carry its
behaviour.
- `backend/inference.py` turns the raw boxes of the detector into an inference report. It:
  - drops unknown class ids and filters again on the requested confidence;
  - converts corner boxes to centre and size;
  - counts the classes in an insertion-ordered dictionary;
  - computes confidence statistics;
  - tags each box with one of nine positions;
  - writes an English summary sentence.

  At a requested confidence of 100% it answers with an empty report without consulting the detector.
- `backend/app.py` keeps two process-wide thresholds, confidence and IoU (0.3 and 0.5 at start), and serves
  the upload, inference and threshold requests. Each handler has its own fixed order of checks and its own
  events to the sender or to all clients.

Files:
- `wrappers.dfy` (module `Wrappers`): `Option` and a Python-style `Result`, where a failure is the message of the exception.
- `text.dfy` (module `Text`): the few Python string operations the code relies on:
  - `str.join`, `str.endswith`, `rsplit(c, 1)[-1]`;
  - `posixpath.basename` and `posixpath.join`;
  - ASCII `lower()`;
  - `str(n)` for naturals.
- `inference.dfy` (module `Inference`): `run_inference` and its helpers. The detection loop is a method with
  loop invariants, proved against the specification functions `Kept`, `Convert`, `Scores`, `Names` and
  `CountClasses`; lemmas prove what the report promises about those functions. The detector is a
  parameter `detect: (real, real) -> DetectorOutcome`, from the confidence and IoU it is called with to the
  boxes it returns or the message of what it raised. Reading the image is an input `ImageLoad`
  (unreadable, or width, height and file size), and so are the measured durations (`Timing`).
- `app.dfy` (module `App`): `allowed_file`, and class `Server`. Its fields:
  - the two thresholds `conf` and `iou`;
  - `files`, the set of paths present in the upload folder;
  - `events`, the log of emitted events, each marked as sent to the sender or to all clients;
  - `extensionOrder`, the order in which this process iterates the extension set.

  Each handler is a method that returns the HTTP response, or appends the socket events it emits.

Three behaviours of the code that are easy to misread:
- `do_inference` rejects a missing or empty JSON body before it parses `conf` and `iou`
  (`backend/app.py:99-107`). So a request without a body is a 400 "No JSON data provided" and no parse error.
  Among the checks that follow, the parse errors of `conf`, then of `iou`, come first.
- The early exit of `run_inference` is taken for any `conf >= 1.0`, not only for exactly 1.0
  (`backend/inference.py:42`). Through `do_inference` both read the same, since larger values are rejected first.
- A zero image dimension is not excluded. Python's own `ZeroDivisionError` messages are reported as the report's error:
  - "float division by zero" on the first surviving box, from the relative position (`backend/inference.py:143-144`);
  - "division by zero" from the aspect ratio when no box survives (`backend/inference.py:56`, `:173`).

## Model

| member | source | states |
|---|---|---|
| Inference.Keep | backend/inference.py:105-112 | the definition of the filter: a box survives when its class id is a custom label and its score is not below the requested confidence; `Kept` and `KeptComplete` state what the filter keeps |
| Inference.Kept | backend/inference.py:99-112 | the surviving boxes are no more than the input and each of them comes from it; each has a custom-label class and a score not below the requested confidence |
| Inference.KeptComplete | backend/inference.py:105-112 | every box that passes both filters is among the survivors: none is lost |
| Inference.KeptAppend | backend/inference.py:100-112 | filtering keeps the detector's order: the survivors of two runs of boxes are those of the first followed by those of the second |
| Inference.KeptSkipsUnknownClasses | backend/inference.py:105-107 | boxes whose class id is not a custom label never reach the report; skipping them is not a failure |
| Inference.ModelConf | backend/inference.py:84-86 | the detector is called with `min(conf, 0.999)`: never above the requested confidence nor above 0.999, and equal to one of them |
| Inference.Third | backend/inference.py:213-227 | of three distinct tags, the first exactly when the centre is below 33% of the side, the last exactly when it is at or above 67% (strict `<` cut-offs), else the middle one |
| Inference.HorizontalTag | backend/inference.py:213-219 | the definition of the horizontal tag: `Third` of the width with "left", "center", "right"; `Third` and `PositionExamples` state its cut-offs |
| Inference.VerticalTag | backend/inference.py:221-227 | the definition of the vertical tag: `Third` of the height with "top", "middle", "bottom"; `Third` and `PositionExamples` state its cut-offs |
| Inference.Position | backend/inference.py:209-229 | the description is always one of the nine "{vertical}-{horizontal}" tags |
| Inference.PositionExamples | backend/inference.py:213-229 | (0.1W, 0.1H) is "top-left", (0.5W, 0.5H) is "middle-center"; a centre exactly at 33% falls in the middle third and one exactly at 67% in the last |
| Inference.ToPrediction | backend/inference.py:115-148 | a prediction carries the box's class id, the name `CUSTOM_LABELS` gives it, the unrounded score and one of the nine positions |
| Inference.BoxConversion | backend/inference.py:115-146 | width and height are the corner differences; centre minus/plus half the size gives back the corners; area is width × height; relative values times the image side give the centre and size; `xyxy` is the corners |
| Inference.Convert | backend/inference.py:130-150 | one prediction per surviving box, in order, each the conversion of that box |
| Inference.Scores | backend/inference.py:151 | the collected scores are the surviving boxes' scores, in order |
| Inference.Names | backend/inference.py:125 | the class names of the surviving boxes, in order |
| Inference.Bump | backend/inference.py:153-157 | the definition of one turn of the counting: `counts[name] += 1` or a new last key with count 1; the result is never empty; `BumpKeys`, `BumpCount` and `BumpSum` state its effect |
| Inference.CountClasses | backend/inference.py:153-157 | the definition of `class_counts`: the names bumped in order; some class is counted whenever there is a name; `CountKeysInFirstAppearanceOrder` and `CountClassesCounts` state what it holds |
| Inference.Keys | backend/inference.py:194 | `list(class_counts.keys())`: one key per entry, in dictionary order |
| Inference.BumpKeys | backend/inference.py:154-157 | a name already counted keeps the keys as they are; a new name becomes the last key |
| Inference.BumpCount | backend/inference.py:154-157 | counting a name adds one to its count and changes no other count |
| Inference.BumpSum | backend/inference.py:154-157 | counting a name adds one to the total of the counts |
| Inference.FirstAppearancesElements | backend/inference.py:194 | the first-appearance list holds exactly the names that occur, each once |
| Inference.CountKeysInFirstAppearanceOrder | backend/inference.py:153-157 | the dictionary's keys are the class names in order of first appearance, without repeats |
| Inference.CountClassesCounts | backend/inference.py:153-157 | each class is counted exactly as often as it occurs, every count is at least one, and the counts add up to the number of predictions |
| Inference.MinOf | backend/inference.py:190 | the minimum is one of the scores and no score is below it |
| Inference.MaxOf | backend/inference.py:191 | the maximum is one of the scores and no score is above it |
| Inference.AverageBetween | backend/inference.py:192 | the average of scores between two bounds lies between the same bounds |
| Inference.Stats | backend/inference.py:189-193 | the definition of `confidence_stats`: min, max and mean of the scores, all 0 without scores; `StatsOrdered` and `ScoresStatsAgree` state its properties |
| Inference.StatsOrdered | backend/inference.py:189-193 | min ≤ avg ≤ max; with scores, min and max are scores and min is not below any common lower bound of them; without any, all three are 0 |
| Inference.Plural | backend/inference.py:244 | the plural starts with the name and is longer than it |
| Inference.PluralEsExamples | backend/inference.py:244 | names ending in s, x, ch or sh take "es": buses, boxes, churches, dishes |
| Inference.PluralSExamples | backend/inference.py:244 | other names take "s": cars, trucks |
| Inference.Part | backend/inference.py:240-245 | the definition of one part of the sentence: "1 {name}" for one, "{count} {plural}" otherwise; the `Part…Example` rows check it |
| Inference.Parts | backend/inference.py:239-245 | one part per dictionary entry, in dictionary order |
| Inference.PartSingleExamples | backend/inference.py:240-241 | a count of one reads "1 car", "1 bus" |
| Inference.PartCarsExamples | backend/inference.py:243-245 | larger counts use the plural: "2 cars", "3 cars" |
| Inference.PartTrucksExample | backend/inference.py:243-245 | "4 trucks" |
| Inference.PartPluralEsExample | backend/inference.py:243-245 | two buses read "2 buses" |
| Inference.PartsList | backend/inference.py:247-252 | the definition of the list in the sentence: one part alone, two joined by " and ", more by ", " with ", and " before the last; `PartsListIsListPhrase` proves it is the reference Oxford-comma list |
| Inference.DetectionSentence | backend/inference.py:231-252 | the definition of `generate_detection_summary`: the fixed sentence for a zero total, else the framed list of the parts; `SentenceListsParts` and the `Sentence…Example` rows state it |
| Inference.JoinThenLastIsListPhrase | backend/inference.py:251-252 | for three parts or more, the first ones joined by ", " and then ", and " before the last form the Oxford-comma list |
| Inference.PartsListIsListPhrase | backend/inference.py:247-252 | the source's one/two/many list always equals the reference Oxford-comma list of the parts |
| Inference.SentenceListsParts | backend/inference.py:231-252 | with detections, the sentence is "Detected {list} in the image." over the parts in dictionary order |
| Inference.SentenceOneClassExample | backend/inference.py:247-248 | one class "car" × 3 gives "Detected 3 cars in the image." |
| Inference.SentenceTwoClassesExample | backend/inference.py:249-250 | car × 1 then bus × 2 gives "Detected 1 car and 2 buses in the image." |
| Inference.ThreePartsExample | backend/inference.py:239-245 | car × 2, bus × 1, truck × 4 give the parts "2 cars", "1 bus", "4 trucks" in that order |
| Inference.SentenceThreeClassesExample | backend/inference.py:251-252 | those three give "Detected 2 cars, 1 bus, and 4 trucks in the image." |
| Inference.ResultName | backend/inference.py:30-32 | `result_{name}{ext}`, the output image's name, is a non-empty name without a separator |
| Inference.OutputPath | backend/inference.py:30-33 | the output image of any input is `static/` followed by `result_{basename}`: `os.path.join` never discards the folder |
| Inference.OutputUrl | backend/inference.py:51 | the definition of the report's URL, `/static/` and the basename of the output path; `OutputUrlOfPath` resolves it |
| Inference.OutputUrlOfPath | backend/inference.py:30-33 | the output image `static/result_{basename}` is served at `/static/result_{basename}` |
| Inference.OutputInfo | backend/inference.py:30-52 | the names derived from the input path: the output image, its URL `/static/result_{basename}` and the input's basename as the original name |
| Inference.ReportImageInfo | backend/inference.py:49-58 | the report's image info: those names, the width and height read, the aspect ratio width / height and the file size in KB (bytes / 1024) |
| Inference.ExtractPredictions | backend/inference.py:94-157 | the loop succeeds exactly when both image sides are non-zero or no box survives; then the predictions, scores and class counts are those of the surviving boxes in detector order |
| Inference.ConvertValid | backend/inference.py:105-112 | every prediction of surviving boxes has a custom-label class named by `CUSTOM_LABELS`, a score at or above the requested confidence and one of the nine positions |
| Inference.ConvertCounted | backend/inference.py:153-157 | the total equals the number of predictions and the sum of the class counts; each class count equals the number of predictions of that class; detected classes are the keys, which are the predictions' class names in order of first appearance, each once; no predictions exactly when no classes |
| Inference.ScoresStatsAgree | backend/inference.py:186-194 | the statistics of the kept scores are ordered, at or above the requested confidence when there are any, and zero otherwise |
| Inference.KeptSummaryAgrees | backend/inference.py:150-157 | the predictions, class counts, detected classes and statistics built from the surviving boxes all agree with each other |
| Inference.EmptySummaryAgrees | backend/inference.py:68-78 | the empty report's predictions and summary agree at any threshold |
| Inference.FullThresholdReport | backend/inference.py:42-82 | at 100% the report has no predictions, zero totals and statistics, and the fixed 100% sentence; its image info is `ReportImageInfo` of the image read; its inference info names the model and the class count, echoes both thresholds, and gives an inference time of 0 and the measured total time; a zero height fails with "division by zero" |
| Inference.DetectionsReported | backend/inference.py:94-199 | the definition of what the report of the detector's boxes holds, case by case; `ReportDetections` establishes it and `DetectionsWellFormed` draws the report's consistency from it |
| Inference.DetectionsWellFormed | backend/inference.py:150-194 | a report of the detector's boxes has predictions, counts and statistics that agree |
| Inference.ReportDetections | backend/inference.py:94-199 | a zero side with a surviving box fails with "float division by zero"; no survivor with zero height fails with "division by zero"; otherwise the report holds the converted survivors, their counts, statistics, keys and sentence; its image info is `ReportImageInfo` of the image read; its inference info names the model and the class count, echoes both thresholds and gives the measured inference and total times |
| Inference.RunInference | backend/inference.py:16-207 | an unreadable image fails with "Could not load image from {path}"; at 100% the detector is not consulted and the report is empty; a detector exception becomes the error; otherwise the detector's boxes are reported as above. Every report carries `ReportImageInfo` of the path and the image read (output path and URL, original name, dimensions, aspect ratio, file size), names the model and the class count, echoes both thresholds and gives the total time; the output image is written exactly when the image was read |
| Inference.InferenceOutcome | backend/inference.py:16-207 | the definition of every outcome of `run_inference`, case by case; `RunInference` establishes it and `OutcomeWellFormed` draws the report's consistency from it |
| Inference.OutcomeDescribesImage | backend/inference.py:49-66 | every successful report gives the input's basename, the image's width, height, aspect ratio and size in KB, the model, both thresholds and the total time |
| Inference.OutcomeWellFormed | backend/inference.py:94-199 | every successful report of `run_inference` has predictions, counts and statistics that agree |
| Inference.LegacyBoxes | backend/inference.py:295-304 | one legacy box per prediction, in order, carrying its class id, label, confidence and corners |
| Inference.RunInferenceLegacy | backend/inference.py:286-308 | success gives the report's output path and boxes of custom-label classes at or above the confidence; an unreadable image or a detector exception is raised with the report's message; at 100% the box list is empty; otherwise the boxes are the legacy form of the converted surviving boxes |
| Text.Join | backend/inference.py:252 | the definition of `sep.join(parts)`; `JoinThenLastIsListPhrase` states what the sentence makes of it |
| Text.AfterLast | backend/app.py:29 | `rsplit(c, 1)[-1]` is a suffix without `c`, preceded by `c` when `c` occurs, and the whole text otherwise |
| Text.AfterLastOfSeparated | backend/app.py:29 | whatever precedes the last separator, the text after it is the result |
| Text.Basename | backend/inference.py:30 | the definition of `os.path.basename`: `AfterLast` on "/", whose contract states it |
| Text.PathJoin | backend/app.py:63 | the definition of `os.path.join` for two parts: an absolute name replaces the folder, a separator is added unless the folder ends with one |
| Text.BasenameOfJoin | backend/inference.py:33 | a name without separators, joined onto any folder, is the basename of the joined path |
| Text.AsciiLower | backend/app.py:29 | the definition of `lower()` on ASCII letters; `AsciiLowerChars` states it |
| Text.AsciiLowerChars | backend/app.py:29 | lower-casing keeps the length, maps each character on its own and leaves no ASCII capital |
| Text.NatToString | backend/inference.py:245 | the decimal text of a count is a non-empty digit string, with a leading zero only for 0 |
| Text.DecimalRoundTrip | backend/inference.py:245 | reading the decimal text back gives the count |
| App.AllowedFile | backend/app.py:28-29 | the definition of `allowed_file`: a dot, and the lower-cased text after the last one in the allowed set; `AllowedFileByExtension`, `AllowedFileIff` and the example rows state it |
| App.AllowedFileByExtension | backend/app.py:28-29 | for `stem.ext` with a dot-free `ext`, the file is allowed exactly when the lower-cased `ext` is an allowed extension, whatever the stem |
| App.AllowedFileIff | backend/app.py:28-29 | allowed exactly when there is a dot with no later dot after it and the lower-cased text after it is in the allowed set |
| App.AllowedFileAcceptsExamples | backend/app.py:28-29 | "photo.jpg" and "X.JPG" are accepted |
| App.AllowedFileRejectsWrongExtension | backend/app.py:28-29 | "malware.exe" is rejected |
| App.AllowedFileRejectsNoDot | backend/app.py:28-29 | "noext" is rejected |
| App.HttpRejection | backend/app.py:286-317 | a rejected field is a 400 (out of range, or `ValueError`) or a 500 for any other exception, always with an error body |
| App.SocketRejection | backend/app.py:343-371 | a rejected field answers with an `error` event |
| App.GivenOrCurrent | backend/app.py:106-107 | an omitted field takes the current threshold, a given one its own value; the threshold updates of lines 286-296 use it too |
| App.AcceptedStaysInRange | backend/app.py:286-296 | an accepted field applied to an in-range threshold leaves it in range |
| App.OmittedParametersInRange | backend/app.py:106-125 | with the server's thresholds in range, an inference request that omits `conf` and `iou` passes both range checks |
| App.ParameterRejection | backend/app.py:178-199 | a `ValueError` is a 400 and any other exception a 500 "Inference error: {message}" |
| App.ParameterRejectionEvents | backend/app.py:178-194 | only the generic exception handler emits `inference_error`; a `ValueError` emits nothing |
| App.Server.constructor | backend/app.py:24-26 | the server starts with thresholds 0.3 and 0.5 and no events |
| App.Server.Connect | backend/app.py:323-332 | a connecting client alone is sent the current thresholds; nothing else changes |
| App.Server.GetThresholds | backend/app.py:269-274 | answers 200 with the current pair |
| App.Server.SetThresholdsHttp | backend/app.py:278-317 | no body is a 400; confidence is checked first and a rejection changes nothing; a rejected IoU is a 400, or a 500 for an exception other than `ValueError`, and leaves an accepted confidence stored and emits nothing; a full success stores both, broadcasts `thresholds_updated` with the new pair and returns that pair; omitted fields stay; thresholds stay in [0, 1] |
| App.Server.SetThresholdSocket | backend/app.py:338-371 | the same checks; a rejection sends one `error` event to the sender only, and a rejected IoU still leaves an accepted confidence stored; a success broadcasts the new pair to all clients |
| App.Server.Upload | backend/app.py:40-90 | 400 for no file part, then an empty name, then a disallowed extension, listing the extensions in set order; a failed save is a 500 "Upload error: …"; only a saved file joins the upload folder and is announced by `file_uploaded`; thresholds never change |
| App.Server.DoInference | backend/app.py:94-199 | thresholds and upload folder never change; with the thresholds in range, omitting `conf` and `iou` never draws a range error; no body, then a `conf` parse error, an `iou` parse error, an invalid filename, `conf` out of range, `iou` out of range, then a missing file (404), in this order, and only the 500-type parse error emits an event; a valid request runs inference as `RunValidated` states |
| App.Server.RunValidated | backend/app.py:136-176 | `inference_started` with the effective thresholds, then `run_inference` on the uploaded path, then `inference_error` with a 500 carrying the failed report, or `inference_completed` with the totals and a 200 whose `output_url` is the report's URL |
| App.ServedReport | backend/app.py:159-176 | a 200 answer carries a well-formed report at the requested thresholds (class counts equal to the predictions of each class, detected classes in first-appearance order), the request's filename and `output_url` `/static/result_{basename}`, and was announced by `inference_completed` |
| App.FailedInference | backend/app.py:145-157 | an unreadable upload or a detector exception is a 500 carrying the message, announced by `inference_error` |
| App.FullThresholdServed | backend/app.py:145-176 | at 100% a readable image is answered 200 with no predictions and the fixed 100% sentence, announced with zero detections |
| App.PartialUpdateScenario | backend/app.py:269-311 | `{confidence: 0.7}` followed by GET returns confidence 0.7 with the old IoU |
| App.NonAtomicUpdateScenario | backend/app.py:286-298 | a valid confidence with an out-of-range IoU is rejected with 400, yet the confidence 0.7 stays stored and nothing is broadcast |

## Left out

- The YOLO model call and image I/O are inputs:
  - the detector is the parameter `detect`;
  - `cv2.imread` gives an `ImageLoad`;
  - `cv2.imwrite` is the `written` output of `RunInference`;
  - `os.path.getsize` gives `fileBytes` and, at upload, the `Saved` outcome.
- `os.makedirs` is left out.
- Python's `round()` is not modelled. Every value is the unrounded real, and every property is stated on unrounded values (coordinates, scores, statistics, times, aspect ratio, file size).
- Reals are exact. NaN, infinities and float rounding of the 0.33/0.67 cut-offs are not modelled. A JSON number is a `Num(value)`.
- `uuid.uuid4` detection ids, `datetime.now` timestamps and `time.time` are left out. The durations are the input `Timing`.
- `float()` parsing is abstract: `NumArg` is a number, a `ValueError` or another exception with its message.
- `print` and `log_error` output is left out.
- Constant response fields are left out:
  - the `success` flags;
  - the `message` texts of `file_uploaded`, `inference_started` and `inference_completed`;
  - the `message` of the `connected` event ("Connected to YOLO inference server");
  - the `message` of the upload answer and of the POST /api/thresholds answer ("Thresholds updated successfully");
  - the `model_classes` and `model` fields beyond their constants.
- Flask and Socket.IO plumbing is left out:
  - routing and CORS;
  - the `/uploads/<filename>` and `/static/<filename>` file routes;
  - the 413/404/500 handlers;
  - `handle_disconnect`;
  - `socketio.run` and the start-up block.
- `get_model_info`, `verify_model`, the `/api/model-info` and `/api/health` routes and `handle_get_status` are left out. They only wrap constant dictionaries or prints about the foreign model.
- `run_inference_tuple` is left out. It pairs the report with a status word.
- Concurrency is left out. Each handler runs atomically, and there is no lock on the globals in the source either.
- The file checks are on an abstract set of paths:
  - `files` is the set of paths in the upload folder;
  - `..` and other path normalisation are not modelled;
  - a failed save is not modelled as leaving a partial file.
- App.Server.DoInference: a JSON `null` filename is treated as an absent one, although the generic handler would put `None` rather than "unknown" in its `inference_error` event. Non-object JSON payloads and non-string filenames, which raise inside the handler, are not modelled.
- App.Server.SetThresholdsHttp: a truthy JSON body that is not an object (a list, a string or a number) is not modelled. There, `'confidence' in data` or `data['confidence']` raises and the answer is a 500; the body is always a `ThresholdBody`.
- App.Server.SetThresholdSocket: a payload that is not an object (which makes `'confidence' in data` raise) is not modelled; the payload is always a `ThresholdBody`.
- App.Server.Upload: `file_uploaded` and the upload answer are modelled without their `message` text. A `file` part without a filename (`None`) is not modelled.
- Inference.DetectionSentence: it requires a class entry whenever the total is not zero. The source would raise `IndexError` on an empty list there, and `run_inference` never calls it that way.
- Inference.RunInferenceLegacy: the zero-dimension failure paths are not restated. They become `Failure` with the same message as `RunInference`'s report.
- frontend/ is not part of this model, and neither is backend/class.py.
