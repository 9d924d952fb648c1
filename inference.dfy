/** The result enrichment of the detection backend: raw detector boxes are
    filtered, converted to centre/size form, counted per class and summarised
    in an inference report. The detector itself is a parameter. */
module Inference {
  import opened Wrappers
  import opened Text

  /** The class ids the backend keeps, with their names. */
  const CustomLabels: map<int, string> := map[2 := "car", 5 := "bus", 7 := "truck"]
  const ModelName := "custom_3class_model"
  const OutputFolder := "static"
  /** The largest confidence ever handed to the detector. */
  const MaxModelConf: real := 0.999

  const NoObjects := "No objects detected in the image."
  const NoObjectsAtFullThreshold := "No objects detected in the image (confidence threshold: 100%)."
  /** Python's messages for `int / 0` and `float / 0`. */
  const IntDivisionByZero := "division by zero"
  const FloatDivisionByZero := "float division by zero"

  /** One box as the detector reports it: class id, score and corners. */
  datatype RawBox = RawBox(clsId: int, score: real, x1: real, y1: real, x2: real, y2: real)

  /** What a call of the detector gives: its boxes, or the message of what it raised. */
  datatype DetectorOutcome = Boxes(boxes: seq<RawBox>) | Raised(message: string)

  /** What reading the image gave: nothing, or its dimensions and its size on disk. */
  datatype ImageLoad = Unreadable | Decoded(width: nat, height: nat, fileBytes: nat)

  /** Measured durations, in seconds, of the detector call and of the whole run. */
  datatype Timing = Timing(inferenceSeconds: real, totalSeconds: real)

  datatype Prediction = Prediction(
    x: real, y: real, width: real, height: real,
    confidence: real, className: string, classId: int,
    area: real, xyxy: seq<real>, position: string,
    relX: real, relY: real, relWidth: real, relHeight: real)

  datatype ConfidenceStats = ConfidenceStats(min: real, max: real, avg: real)

  datatype DetectionSummary = DetectionSummary(
    totalDetections: nat,
    classStatistics: seq<(string, nat)>,
    confidenceStats: ConfidenceStats,
    detectedClasses: seq<string>)

  datatype ImageInfo = ImageInfo(
    path: string, url: string, originalName: string,
    width: nat, height: nat, aspectRatio: real, fileSizeKb: real)

  datatype InferenceInfo = InferenceInfo(
    model: string, confidenceThreshold: real, iouThreshold: real,
    inferenceTimeMs: real, totalProcessingTimeMs: real, modelClasses: nat)

  datatype Report =
    | Failed(error: string)
    | Report(
        imageInfo: ImageInfo,
        inferenceInfo: InferenceInfo,
        predictions: seq<Prediction>,
        detectionSummary: DetectionSummary,
        summary: string)

  // ---------------------------------------------------------------------------
  // Filtering the detector's boxes

  /** A box survives when its class is one of the custom labels and its score
      is not below the requested confidence. */
  predicate Keep(b: RawBox, conf: real) {
    b.clsId in CustomLabels && !(b.score < conf)
  }

  /** The boxes that survive, in the detector's order. */
  function Kept(boxes: seq<RawBox>, conf: real): (r: seq<RawBox>)
    ensures |r| <= |boxes|
    ensures forall x | x in r :: x in boxes
    ensures forall k | 0 <= k < |r| :: Keep(r[k], conf)
    ensures AllLabelled(r)
    decreases |boxes|
  {
    if boxes == [] then []
    else
      var last := boxes[|boxes| - 1];
      Kept(boxes[..|boxes| - 1], conf) + (if Keep(last, conf) then [last] else [])
  }

  /** No surviving box is lost. */
  lemma {:induction false} KeptComplete(boxes: seq<RawBox>, conf: real, i: nat)
    requires i < |boxes| && Keep(boxes[i], conf)
    ensures boxes[i] in Kept(boxes, conf)
    decreases |boxes|
  {
    if i < |boxes| - 1 {
      var init := boxes[..|boxes| - 1];
      assert init[i] == boxes[i];
      KeptComplete(init, conf, i);
    }
  }

  /** Filtering keeps the order: the survivors of two runs of boxes are the
      survivors of the first followed by those of the second. */
  lemma {:induction false} KeptAppend(a: seq<RawBox>, b: seq<RawBox>, conf: real)
    ensures Kept(a + b, conf) == Kept(a, conf) + Kept(b, conf)
    decreases |b|
  {
    if b == [] {
      assert a + b == a;
    } else {
      var init := b[..|b| - 1];
      assert (a + b)[..|a + b| - 1] == a + init;
      KeptAppend(a, init, conf);
    }
  }

  /** Boxes whose class is not a custom label never reach the report. */
  lemma {:induction false} KeptSkipsUnknownClasses(boxes: seq<RawBox>, conf: real)
    requires forall k | 0 <= k < |boxes| :: boxes[k].clsId !in CustomLabels
    ensures Kept(boxes, conf) == []
    decreases |boxes|
  {
    if boxes != [] {
      KeptSkipsUnknownClasses(boxes[..|boxes| - 1], conf);
    }
  }

  // ---------------------------------------------------------------------------
  // Converting one box

  /** Python's `min(conf, 0.999)`: the confidence the detector is called with. */
  function ModelConf(conf: real): (m: real)
    ensures m <= conf && m <= MaxModelConf
    ensures m == conf || m == MaxModelConf
  {
    if MaxModelConf < conf then MaxModelConf else conf
  }

  /** Which third of an image side a centre coordinate falls in: `first` below
      33% of the side, `last` at or above 67%, `second` between (strict `<`
      cut-offs, the lower one tested first). */
  function Third(coord: real, side: nat, first: string, second: string, last: string): (t: string)
    requires first != second && first != last && second != last
    ensures t == first <==> coord < side as real * 0.33
    ensures t == last <==> side as real * 0.67 <= coord
    ensures t == first || t == second || t == last
  {
    if coord < side as real * 0.33 then first
    else if coord < side as real * 0.67 then second
    else last
  }

  /** The horizontal tag: "left", "center" or "right" third of the width. */
  function HorizontalTag(centerX: real, imgWidth: nat): string {
    Third(centerX, imgWidth, "left", "center", "right")
  }

  /** The vertical tag: "top", "middle" or "bottom" third of the height. */
  function VerticalTag(centerY: real, imgHeight: nat): string {
    Third(centerY, imgHeight, "top", "middle", "bottom")
  }

  const PositionTags: set<string> := {
    "top-left", "top-center", "top-right",
    "middle-left", "middle-center", "middle-right",
    "bottom-left", "bottom-center", "bottom-right"}

  /** `get_position_description`: "{vertical}-{horizontal}". */
  function Position(centerX: real, centerY: real, imgWidth: nat, imgHeight: nat): (p: string)
    ensures p in PositionTags
  {
    var v := VerticalTag(centerY, imgHeight);
    var h := HorizontalTag(centerX, imgWidth);
    assert v + "-" + h in PositionTags by {
      TagsCombine(v, h);
    }
    v + "-" + h
  }

  lemma TagsCombine(v: string, h: string)
    requires v in {"top", "middle", "bottom"} && h in {"left", "center", "right"}
    ensures v + "-" + h in PositionTags
  {
    if v == "top" {
      assert "top-left" == "top" + "-" + "left";
      assert "top-center" == "top" + "-" + "center";
      assert "top-right" == "top" + "-" + "right";
    } else if v == "middle" {
      assert "middle-left" == "middle" + "-" + "left";
      assert "middle-center" == "middle" + "-" + "center";
      assert "middle-right" == "middle" + "-" + "right";
    } else {
      assert "bottom-left" == "bottom" + "-" + "left";
      assert "bottom-center" == "bottom" + "-" + "center";
      assert "bottom-right" == "bottom" + "-" + "right";
    }
  }

  /** The boundaries fall on the upper side: a centre exactly on a cut-off
      belongs to the next third. */
  lemma PositionExamples(w: nat, h: nat)
    requires w > 0 && h > 0
    ensures Position(0.1 * w as real, 0.1 * h as real, w, h) == "top-left"
    ensures Position(0.5 * w as real, 0.5 * h as real, w, h) == "middle-center"
    ensures HorizontalTag(0.33 * w as real, w) == "center"
    ensures HorizontalTag(0.67 * w as real, w) == "right"
    ensures VerticalTag(0.33 * h as real, h) == "middle"
    ensures VerticalTag(0.67 * h as real, h) == "bottom"
  {
  }

  /** The prediction built from one surviving box (values before rounding). */
  function ToPrediction(b: RawBox, imgWidth: nat, imgHeight: nat): (p: Prediction)
    requires b.clsId in CustomLabels && imgWidth > 0 && imgHeight > 0
    ensures p.classId == b.clsId && p.className == CustomLabels[b.clsId]
    ensures p.confidence == b.score
    ensures p.position in PositionTags
  {
    var width := b.x2 - b.x1;
    var height := b.y2 - b.y1;
    var centerX := b.x1 + width / 2.0;
    var centerY := b.y1 + height / 2.0;
    var w := imgWidth as real;
    var h := imgHeight as real;
    Prediction(
      centerX, centerY, width, height,
      b.score, CustomLabels[b.clsId], b.clsId,
      width * height, [b.x1, b.y1, b.x2, b.y2],
      Position(centerX, centerY, imgWidth, imgHeight),
      centerX / w, centerY / h, width / w, height / h)
  }

  /** The centre/size form describes the same box as the corners: the corners
      are recovered from it, and the relative values are fractions of the image. */
  lemma BoxConversion(b: RawBox, imgWidth: nat, imgHeight: nat)
    requires b.clsId in CustomLabels && imgWidth > 0 && imgHeight > 0
    ensures var p := ToPrediction(b, imgWidth, imgHeight);
      && p.width == b.x2 - b.x1 && p.height == b.y2 - b.y1
      && p.x - p.width / 2.0 == b.x1 && p.x + p.width / 2.0 == b.x2
      && p.y - p.height / 2.0 == b.y1 && p.y + p.height / 2.0 == b.y2
      && p.area == p.width * p.height
      && p.relX * imgWidth as real == p.x && p.relWidth * imgWidth as real == p.width
      && p.relY * imgHeight as real == p.y && p.relHeight * imgHeight as real == p.height
      && p.xyxy == [b.x1, b.y1, b.x2, b.y2]
      && p.position == Position(p.x, p.y, imgWidth, imgHeight)
  {
  }

  predicate AllLabelled(kept: seq<RawBox>) {
    forall k | 0 <= k < |kept| :: kept[k].clsId in CustomLabels
  }

  /** The predictions of the surviving boxes, one each, in order. */
  function Convert(kept: seq<RawBox>, imgWidth: nat, imgHeight: nat): (r: seq<Prediction>)
    requires AllLabelled(kept)
    requires kept == [] || (imgWidth > 0 && imgHeight > 0)
    ensures |r| == |kept|
    ensures forall k | 0 <= k < |r| :: imgWidth > 0 && imgHeight > 0 && r[k] == ToPrediction(kept[k], imgWidth, imgHeight)
    decreases |kept|
  {
    if kept == [] then []
    else
      var init := kept[..|kept| - 1];
      assert AllLabelled(init);
      Convert(init, imgWidth, imgHeight) + [ToPrediction(kept[|kept| - 1], imgWidth, imgHeight)]
  }

  /** The scores of the surviving boxes, in order. */
  function Scores(kept: seq<RawBox>): (r: seq<real>)
    ensures |r| == |kept|
    ensures forall k | 0 <= k < |r| :: r[k] == kept[k].score
    decreases |kept|
  {
    if kept == [] then [] else Scores(kept[..|kept| - 1]) + [kept[|kept| - 1].score]
  }

  /** The class names of the surviving boxes, in order. */
  function Names(kept: seq<RawBox>): (r: seq<string>)
    requires AllLabelled(kept)
    ensures |r| == |kept|
    ensures forall k | 0 <= k < |r| :: r[k] == CustomLabels[kept[k].clsId]
    decreases |kept|
  {
    if kept == [] then []
    else
      var init := kept[..|kept| - 1];
      assert AllLabelled(init);
      Names(init) + [CustomLabels[kept[|kept| - 1].clsId]]
  }

  /** One more box, as one more turn of the loop sees it. */
  lemma KeptSnoc(boxes: seq<RawBox>, b: RawBox, conf: real)
    ensures Kept(boxes + [b], conf) == Kept(boxes, conf) + (if Keep(b, conf) then [b] else [])
  {
    assert (boxes + [b])[..|boxes|] == boxes;
  }

  lemma ConvertSnoc(kept: seq<RawBox>, b: RawBox, imgWidth: nat, imgHeight: nat)
    requires AllLabelled(kept) && b.clsId in CustomLabels && imgWidth > 0 && imgHeight > 0
    ensures AllLabelled(kept + [b])
    ensures Convert(kept + [b], imgWidth, imgHeight) == Convert(kept, imgWidth, imgHeight) + [ToPrediction(b, imgWidth, imgHeight)]
  {
    assert (kept + [b])[..|kept|] == kept;
  }

  lemma ScoresNamesSnoc(kept: seq<RawBox>, b: RawBox)
    requires AllLabelled(kept) && b.clsId in CustomLabels
    ensures AllLabelled(kept + [b])
    ensures Scores(kept + [b]) == Scores(kept) + [b.score]
    ensures Names(kept + [b]) == Names(kept) + [CustomLabels[b.clsId]]
  {
    assert (kept + [b])[..|kept|] == kept;
  }

  // ---------------------------------------------------------------------------
  // Counting classes in an insertion-ordered dictionary

  /** `counts[name] += 1` when `name` is a key, else `counts[name] = 1` (a new last key). */
  function Bump(counts: seq<(string, nat)>, name: string): (r: seq<(string, nat)>)
    ensures |r| > 0
    decreases |counts|
  {
    if counts == [] then [(name, 1)]
    else if counts[0].0 == name then [(name, counts[0].1 + 1)] + counts[1..]
    else [counts[0]] + Bump(counts[1..], name)
  }

  /** The per-class counts of a sequence of names, keys in first-seen order. */
  function CountClasses(names: seq<string>): (r: seq<(string, nat)>)
    ensures |names| > 0 ==> |r| > 0
    decreases |names|
  {
    if names == [] then [] else Bump(CountClasses(names[..|names| - 1]), names[|names| - 1])
  }

  lemma CountClassesSnoc(names: seq<string>, n: string)
    ensures CountClasses(names + [n]) == Bump(CountClasses(names), n)
  {
    assert (names + [n])[..|names|] == names;
  }

  /** `list(counts.keys())`. */
  function Keys(counts: seq<(string, nat)>): (r: seq<string>)
    ensures |r| == |counts|
    ensures forall k | 0 <= k < |r| :: r[k] == counts[k].0
    decreases |counts|
  {
    if counts == [] then [] else [counts[0].0] + Keys(counts[1..])
  }

  /** `counts.get(name, 0)`. */
  function CountOf(counts: seq<(string, nat)>, name: string): nat
    decreases |counts|
  {
    if counts == [] then 0
    else if counts[0].0 == name then counts[0].1
    else CountOf(counts[1..], name)
  }

  /** `sum(counts.values())`. */
  function SumCounts(counts: seq<(string, nat)>): nat
    decreases |counts|
  {
    if counts == [] then 0 else counts[0].1 + SumCounts(counts[1..])
  }

  /** Reference definition of first-appearance order: the distinct names,
      each where it first occurs. */
  function FirstAppearances(names: seq<string>): seq<string>
    decreases |names|
  {
    if names == [] then []
    else
      var d := FirstAppearances(names[..|names| - 1]);
      if names[|names| - 1] in d then d else d + [names[|names| - 1]]
  }

  predicate Distinct(s: seq<string>) {
    forall i, j | 0 <= i < j < |s| :: s[i] != s[j]
  }

  lemma {:induction false} BumpKeys(counts: seq<(string, nat)>, name: string)
    ensures Keys(Bump(counts, name)) == if name in Keys(counts) then Keys(counts) else Keys(counts) + [name]
    decreases |counts|
  {
    if counts != [] && counts[0].0 != name {
      BumpKeys(counts[1..], name);
      assert Keys(counts) == [counts[0].0] + Keys(counts[1..]);
    }
  }

  lemma {:induction false} BumpCount(counts: seq<(string, nat)>, name: string, x: string)
    ensures CountOf(Bump(counts, name), x) == CountOf(counts, x) + (if x == name then 1 else 0)
    decreases |counts|
  {
    if counts != [] && counts[0].0 != name {
      BumpCount(counts[1..], name, x);
    }
  }

  lemma {:induction false} BumpSum(counts: seq<(string, nat)>, name: string)
    ensures SumCounts(Bump(counts, name)) == SumCounts(counts) + 1
    decreases |counts|
  {
    if counts != [] && counts[0].0 != name {
      BumpSum(counts[1..], name);
    }
  }

  lemma {:induction false} BumpPositive(counts: seq<(string, nat)>, name: string)
    requires forall k | 0 <= k < |counts| :: counts[k].1 >= 1
    ensures forall k | 0 <= k < |Bump(counts, name)| :: Bump(counts, name)[k].1 >= 1
    decreases |counts|
  {
    if counts != [] && counts[0].0 != name {
      BumpPositive(counts[1..], name);
    }
  }

  lemma {:induction false} FirstAppearancesElements(names: seq<string>)
    ensures forall x :: x in FirstAppearances(names) <==> x in names
    ensures Distinct(FirstAppearances(names))
    decreases |names|
  {
    if names != [] {
      var init := names[..|names| - 1];
      FirstAppearancesElements(init);
      assert names == init + [names[|names| - 1]];
    }
  }

  /** The dictionary's keys are the names in first-appearance order, without repeats. */
  lemma {:induction false} CountKeysInFirstAppearanceOrder(names: seq<string>)
    ensures Keys(CountClasses(names)) == FirstAppearances(names)
    ensures Distinct(Keys(CountClasses(names)))
    decreases |names|
  {
    if names != [] {
      var init := names[..|names| - 1];
      CountKeysInFirstAppearanceOrder(init);
      BumpKeys(CountClasses(init), names[|names| - 1]);
    }
    FirstAppearancesElements(names);
  }

  /** Each class is counted as often as it occurs, every count is at least one,
      and the counts add up to the number of names. */
  lemma {:induction false} CountClassesCounts(names: seq<string>)
    ensures forall x :: CountOf(CountClasses(names), x) == multiset(names)[x]
    ensures SumCounts(CountClasses(names)) == |names|
    ensures forall k | 0 <= k < |CountClasses(names)| :: CountClasses(names)[k].1 >= 1
    decreases |names|
  {
    if names != [] {
      var init := names[..|names| - 1];
      var last := names[|names| - 1];
      CountClassesCounts(init);
      assert names == init + [last];
      forall x ensures CountOf(CountClasses(names), x) == multiset(names)[x] {
        BumpCount(CountClasses(init), last, x);
      }
      BumpSum(CountClasses(init), last);
      BumpPositive(CountClasses(init), last);
    }
  }

  // ---------------------------------------------------------------------------
  // Confidence statistics

  function MinOf(s: seq<real>): (r: real)
    requires |s| > 0
    ensures r in s && forall k | 0 <= k < |s| :: r <= s[k]
    decreases |s|
  {
    if |s| == 1 then s[0]
    else
      var m := MinOf(s[1..]);
      assert forall k | 1 <= k < |s| :: s[k] == s[1..][k - 1];
      if s[0] <= m then s[0] else m
  }

  function MaxOf(s: seq<real>): (r: real)
    requires |s| > 0
    ensures r in s && forall k | 0 <= k < |s| :: s[k] <= r
    decreases |s|
  {
    if |s| == 1 then s[0]
    else
      var m := MaxOf(s[1..]);
      assert forall k | 1 <= k < |s| :: s[k] == s[1..][k - 1];
      if m <= s[0] then s[0] else m
  }

  function SumOf(s: seq<real>): real
    decreases |s|
  {
    if s == [] then 0.0 else s[0] + SumOf(s[1..])
  }

  /** The report's min, max and average of the kept scores; all zero when none. */
  function Stats(scores: seq<real>): ConfidenceStats {
    if scores == [] then ConfidenceStats(0.0, 0.0, 0.0)
    else ConfidenceStats(MinOf(scores), MaxOf(scores), SumOf(scores) / |scores| as real)
  }

  lemma {:induction false} SumBetween(s: seq<real>, lo: real, hi: real)
    requires forall k | 0 <= k < |s| :: lo <= s[k] <= hi
    ensures |s| as real * lo <= SumOf(s) <= |s| as real * hi
    decreases |s|
  {
    if s != [] {
      assert forall k | 0 <= k < |s| - 1 :: s[1..][k] == s[k + 1];
      SumBetween(s[1..], lo, hi);
    }
  }

  lemma MeanBetween(sum: real, n: real, lo: real, hi: real)
    requires n > 0.0 && n * lo <= sum <= n * hi
    ensures lo <= sum / n <= hi
  {
    var a := sum / n;
    assert a * n == sum;
  }

  /** The statistics are ordered, bounded by the scores, and all zero exactly
      when there are no scores. */
  lemma StatsOrdered(scores: seq<real>, floor: real)
    requires forall k | 0 <= k < |scores| :: floor <= scores[k]
    ensures Stats(scores).min <= Stats(scores).avg <= Stats(scores).max
    ensures scores != [] ==> floor <= Stats(scores).min
    ensures scores != [] ==> Stats(scores).min in scores && Stats(scores).max in scores
    ensures scores == [] ==> Stats(scores) == ConfidenceStats(0.0, 0.0, 0.0)
  {
    if scores != [] {
      AverageBetween(scores, MinOf(scores), MaxOf(scores));
      var k :| 0 <= k < |scores| && scores[k] == MinOf(scores);
      assert floor <= scores[k];
    }
  }

  /** The average of scores that lie between two bounds lies between them too. */
  lemma AverageBetween(scores: seq<real>, lo: real, hi: real)
    requires scores != []
    requires forall k | 0 <= k < |scores| :: lo <= scores[k] <= hi
    ensures lo <= SumOf(scores) / |scores| as real <= hi
  {
    SumBetween(scores, lo, hi);
    MeanBetween(SumOf(scores), |scores| as real, lo, hi);
  }

  // ---------------------------------------------------------------------------
  // The summary sentence

  /** `name + "es"` after s, x, ch or sh, else `name + "s"`. */
  function Plural(name: string): (r: string)
    ensures |r| > |name| && r[..|name|] == name
  {
    name + (if EndsWith(name, "s") || EndsWith(name, "x") || EndsWith(name, "ch") || EndsWith(name, "sh")
            then "es" else "s")
  }

  /** "1 {name}" for one, "{count} {plural}" otherwise. */
  function Part(entry: (string, nat)): string {
    if entry.1 == 1 then "1 " + entry.0 else NatToString(entry.1) + " " + Plural(entry.0)
  }

  function Parts(counts: seq<(string, nat)>): (r: seq<string>)
    ensures |r| == |counts|
    ensures forall k | 0 <= k < |r| :: r[k] == Part(counts[k])
    decreases |counts|
  {
    if counts == [] then [] else [Part(counts[0])] + Parts(counts[1..])
  }

  /** `generate_detection_summary(class_counts, total)`. The source indexes the
      last part, so it needs a part whenever the total is not zero. */
  function DetectionSentence(counts: seq<(string, nat)>, total: nat): string
    requires total == 0 || |counts| > 0
  {
    if total == 0 then NoObjects else PartsSentence(Parts(counts))
  }

  /** The sentence for a non-empty list of parts. */
  function PartsSentence(parts: seq<string>): string
    requires |parts| > 0
  {
    Framed(PartsList(parts))
  }

  /** `f"Detected {list} in the image."` */
  function Framed(list: string): string {
    "Detected " + list + " in the image."
  }

  /** The parts as the source lists them: one alone, two joined by " and ",
      more with ", " between all but the last and ", and " before it. */
  function PartsList(parts: seq<string>): string
    requires |parts| > 0
  {
    if |parts| == 1 then parts[0]
    else if |parts| == 2 then parts[0] + " and " + parts[1]
    else Join(parts[..|parts| - 1], ", ") + ", and " + parts[|parts| - 1]
  }

  /** Reference definition of an English list with the Oxford comma. */
  function ListPhrase(parts: seq<string>): string
    decreases |parts|
  {
    if |parts| == 0 then ""
    else if |parts| == 1 then parts[0]
    else if |parts| == 2 then parts[0] + " and " + parts[1]
    else if |parts| == 3 then parts[0] + ", " + parts[1] + ", and " + parts[2]
    else parts[0] + ", " + ListPhrase(parts[1..])
  }

  lemma {:induction false} JoinThenLastIsListPhrase(parts: seq<string>)
    requires |parts| >= 3
    ensures Join(parts[..|parts| - 1], ", ") + ", and " + parts[|parts| - 1] == ListPhrase(parts)
    decreases |parts|
  {
    var n := |parts|;
    if n == 3 {
      assert parts[..2][1..] == [parts[1]];
    } else {
      var rest := parts[1..];
      JoinThenLastIsListPhrase(rest);
      assert parts[..n - 1][1..] == rest[..|rest| - 1];
    }
  }

  /** The source's list agrees with the reference Oxford-comma list. */
  lemma PartsListIsListPhrase(parts: seq<string>)
    requires |parts| > 0
    ensures PartsList(parts) == ListPhrase(parts)
  {
    if |parts| >= 3 {
      JoinThenLastIsListPhrase(parts);
    }
  }

  /** The sentence names every class part, in dictionary order, as an English list. */
  lemma SentenceListsParts(counts: seq<(string, nat)>, total: nat)
    requires total > 0 && |counts| > 0
    ensures DetectionSentence(counts, total) == Framed(ListPhrase(Parts(counts)))
  {
    PartsListIsListPhrase(Parts(counts));
  }

  lemma PluralEsExamples()
    ensures Plural("bus") == "buses" && Plural("box") == "boxes"
    ensures Plural("church") == "churches" && Plural("dish") == "dishes"
  {
    assert EndsWith("bus", "s") && EndsWith("box", "x") && EndsWith("church", "ch") && EndsWith("dish", "sh");
  }

  lemma PluralSExamples()
    ensures Plural("car") == "cars" && Plural("truck") == "trucks"
  {
    assert !EndsWith("car", "s") && !EndsWith("car", "x") && !EndsWith("car", "ch") && !EndsWith("car", "sh");
    assert !EndsWith("truck", "s") && !EndsWith("truck", "x") && !EndsWith("truck", "ch") && !EndsWith("truck", "sh");
  }

  lemma PartSingleExamples()
    ensures Part(("car", 1)) == "1 car" && Part(("bus", 1)) == "1 bus"
  {
  }

  lemma PartCarsExamples()
    ensures Part(("car", 2)) == "2 cars" && Part(("car", 3)) == "3 cars"
  {
    PluralSExamples();
    SmallNumerals();
  }

  lemma PartTrucksExample()
    ensures Part(("truck", 4)) == "4 trucks"
  {
    PluralSExamples();
    SmallNumerals();
  }

  lemma SmallNumerals()
    ensures NatToString(2) == ['2'] && NatToString(3) == ['3'] && NatToString(4) == ['4']
  {
  }

  lemma PartPluralEsExample()
    ensures Part(("bus", 2)) == "2 buses"
  {
    PluralEsExamples();
    SmallNumerals();
    assert Part(("bus", 2)) == ['2'] + " " + "buses";
  }

  lemma SentenceOneClassExample()
    ensures DetectionSentence([("car", 3)], 3) == Framed("3 cars")
  {
    var counts: seq<(string, nat)> := [("car", 3)];
    assert Parts(counts) == ["3 cars"] by {
      PartCarsExamples();
      assert Parts(counts) == [Part(counts[0])];
    }
    SentenceListsParts(counts, 3);
  }

  lemma SentenceTwoClassesExample()
    ensures DetectionSentence([("car", 1), ("bus", 2)], 3) == Framed("1 car" + " and " + "2 buses")
  {
    var counts: seq<(string, nat)> := [("car", 1), ("bus", 2)];
    assert Parts(counts) == ["1 car", "2 buses"] by {
      PartSingleExamples();
      PartPluralEsExample();
      assert Parts(counts) == [Part(counts[0]), Part(counts[1])];
    }
    SentenceListsParts(counts, 3);
  }

  lemma ThreePartsExample()
    ensures Parts([("car", 2), ("bus", 1), ("truck", 4)]) == ["2 cars", "1 bus", "4 trucks"]
  {
    var counts: seq<(string, nat)> := [("car", 2), ("bus", 1), ("truck", 4)];
    PartSingleExamples();
    PartCarsExamples();
    PartTrucksExample();
    assert Parts(counts) == [Part(counts[0]), Part(counts[1]), Part(counts[2])];
  }

  lemma SentenceThreeClassesExample()
    ensures DetectionSentence([("car", 2), ("bus", 1), ("truck", 4)], 7)
         == Framed("2 cars" + ", " + "1 bus" + ", and " + "4 trucks")
  {
    ThreePartsExample();
    SentenceListsParts([("car", 2), ("bus", 1), ("truck", 4)], 7);
  }

  // ---------------------------------------------------------------------------
  // The report

  /** The output image's name, `result_{basename}`: a bare file name. */
  function ResultName(imagePath: string): (n: string)
    ensures n != [] && '/' !in n
  {
    ResultNameHasNoSlash(Basename(imagePath));
    "result_" + Basename(imagePath)
  }

  /** The output image of an input path: `static/result_{basename}`. */
  function OutputPath(imagePath: string): (p: string)
    ensures p == OutputFolder + ['/'] + ResultName(imagePath)
  {
    StaticJoin(ResultName(imagePath));
    PathJoin(OutputFolder, ResultName(imagePath))
  }

  /** The URL the report gives for the output image. */
  function OutputUrl(imagePath: string): string {
    "/static/" + Basename(OutputPath(imagePath))
  }

  /** The output image is served as `/static/result_{basename}`. */
  lemma OutputUrlOfPath(imagePath: string)
    ensures OutputUrl(imagePath) == "/static/" + ResultName(imagePath)
  {
    BasenameOfJoin(OutputFolder, ResultName(imagePath));
  }

  lemma StaticJoin(name: string)
    requires name != [] && name[0] != '/'
    ensures PathJoin(OutputFolder, name) == OutputFolder + ['/'] + name
  {
    assert OutputFolder[|OutputFolder| - 1] == 'c';
  }

  /** Prefixing a basename keeps it free of separators. */
  lemma ResultNameHasNoSlash(b: string)
    requires '/' !in b
    ensures '/' !in "result_" + b
  {
    assert '/' !in "result_";
  }

  /** What every successful report promises about its contents. */
  ghost predicate WellFormed(r: Report, conf: real)
    requires r.Report?
  {
    SummaryAgrees(r.predictions, r.detectionSummary, conf)
  }

  /** The predictions agree with the summary: each is a labelled class at or
      above the threshold, the summary counts exactly them, lists each class
      once, and bounds their confidences. */
  ghost predicate SummaryAgrees(preds: seq<Prediction>, summary: DetectionSummary, conf: real) {
    PredictionsValid(preds, conf)
    && CountsAgree(preds, summary)
    && StatsAgree(preds, summary.confidenceStats, conf)
  }

  ghost predicate PredictionsValid(preds: seq<Prediction>, conf: real) {
    forall k | 0 <= k < |preds| ::
      preds[k].classId in CustomLabels && preds[k].className == CustomLabels[preds[k].classId]
      && preds[k].confidence >= conf && preds[k].position in PositionTags
  }

  /** The class names of the predictions, in order. */
  function ClassNames(preds: seq<Prediction>): seq<string> {
    seq(|preds|, k requires 0 <= k < |preds| => preds[k].className)
  }

  ghost predicate CountsAgree(preds: seq<Prediction>, summary: DetectionSummary) {
    && summary.totalDetections == |preds| == SumCounts(summary.classStatistics)
    && (forall x :: CountOf(summary.classStatistics, x) == multiset(ClassNames(preds))[x])
    && summary.detectedClasses == Keys(summary.classStatistics)
    && summary.detectedClasses == FirstAppearances(ClassNames(preds))
    && Distinct(summary.detectedClasses)
    && (forall k | 0 <= k < |preds| ::
          preds[k].className in summary.detectedClasses && CountOf(summary.classStatistics, preds[k].className) >= 1)
    && (preds == [] <==> summary.detectedClasses == [])
  }

  ghost predicate StatsAgree(preds: seq<Prediction>, stats: ConfidenceStats, conf: real) {
    && stats.min <= stats.avg <= stats.max
    && (preds == [] ==> stats == ConfidenceStats(0.0, 0.0, 0.0))
    && (preds != [] ==> conf <= stats.min)
  }

  /** The loop of `run_inference` over the detector's boxes. It stops with
      `ok == false` where Python would raise dividing by a zero image side. */
  method ExtractPredictions(boxes: seq<RawBox>, conf: real, imgWidth: nat, imgHeight: nat)
    returns (ok: bool, predictions: seq<Prediction>, classCounts: seq<(string, nat)>, scores: seq<real>)
    ensures ok <==> (imgWidth > 0 && imgHeight > 0) || Kept(boxes, conf) == []
    ensures ok ==> predictions == Convert(Kept(boxes, conf), imgWidth, imgHeight)
    ensures ok ==> scores == Scores(Kept(boxes, conf))
    ensures ok ==> classCounts == CountClasses(Names(Kept(boxes, conf)))
  {
    predictions, classCounts, scores := [], [], [];
    ghost var kept: seq<RawBox> := [];
    var i := 0;
    while i < |boxes|
      invariant 0 <= i <= |boxes|
      invariant kept == Kept(boxes[..i], conf)
      invariant (imgWidth > 0 && imgHeight > 0) || kept == []
      invariant predictions == Convert(kept, imgWidth, imgHeight)
      invariant scores == Scores(kept)
      invariant classCounts == CountClasses(Names(kept))
    {
      var box := boxes[i];
      assert boxes[..i + 1] == boxes[..i] + [box];
      KeptSnoc(boxes[..i], box, conf);
      if box.clsId in CustomLabels && !(box.score < conf) {
        if imgWidth == 0 || imgHeight == 0 {
          KeptComplete(boxes, conf, i);
          return false, [], [], [];
        }
        ConvertSnoc(kept, box, imgWidth, imgHeight);
        ScoresNamesSnoc(kept, box);
        CountClassesSnoc(Names(kept), CustomLabels[box.clsId]);
        var prediction := ToPrediction(box, imgWidth, imgHeight);
        predictions := predictions + [prediction];
        scores := scores + [box.score];
        classCounts := Bump(classCounts, prediction.className);
        kept := kept + [box];
      }
      i := i + 1;
    }
    assert boxes[..|boxes|] == boxes;
    ok := true;
  }

  /** The predictions, counts and statistics built from the surviving boxes agree. */
  lemma KeptSummaryAgrees(boxes: seq<RawBox>, conf: real, imgWidth: nat, imgHeight: nat)
    requires imgWidth > 0 && imgHeight > 0
    ensures var kept := Kept(boxes, conf);
            var counts := CountClasses(Names(kept));
            SummaryAgrees(Convert(kept, imgWidth, imgHeight),
                          DetectionSummary(|kept|, counts, Stats(Scores(kept)), Keys(counts)), conf)
  {
    var kept := Kept(boxes, conf);
    ConvertValid(kept, conf, imgWidth, imgHeight);
    ConvertCounted(kept, imgWidth, imgHeight);
    ScoresStatsAgree(kept, conf, imgWidth, imgHeight);
  }

  lemma ScoresStatsAgree(kept: seq<RawBox>, conf: real, imgWidth: nat, imgHeight: nat)
    requires forall k | 0 <= k < |kept| :: Keep(kept[k], conf)
    requires imgWidth > 0 && imgHeight > 0
    ensures AllLabelled(kept) && StatsAgree(Convert(kept, imgWidth, imgHeight), Stats(Scores(kept)), conf)
  {
    var scores := Scores(kept);
    assert forall k | 0 <= k < |scores| :: conf <= scores[k] by {
      forall k | 0 <= k < |scores| ensures conf <= scores[k] {
        assert Keep(kept[k], conf);
      }
    }
    StatsOrdered(scores, conf);
    assert AllLabelled(kept);
    assert |Convert(kept, imgWidth, imgHeight)| == |scores|;
  }

  lemma ConvertValid(kept: seq<RawBox>, conf: real, imgWidth: nat, imgHeight: nat)
    requires forall k | 0 <= k < |kept| :: Keep(kept[k], conf)
    requires imgWidth > 0 && imgHeight > 0
    ensures AllLabelled(kept) && PredictionsValid(Convert(kept, imgWidth, imgHeight), conf)
  {
    assert AllLabelled(kept);
    var preds := Convert(kept, imgWidth, imgHeight);
    forall k | 0 <= k < |preds|
      ensures preds[k].classId in CustomLabels && preds[k].className == CustomLabels[preds[k].classId]
      ensures preds[k].confidence >= conf && preds[k].position in PositionTags
    {
      assert Keep(kept[k], conf);
    }
  }

  /** The predictions of the surviving boxes carry the survivors' class names. */
  lemma ClassNamesOfConvert(kept: seq<RawBox>, imgWidth: nat, imgHeight: nat)
    requires AllLabelled(kept) && imgWidth > 0 && imgHeight > 0
    ensures ClassNames(Convert(kept, imgWidth, imgHeight)) == Names(kept)
  {
    var preds := Convert(kept, imgWidth, imgHeight);
    assert forall k | 0 <= k < |kept| :: ClassNames(preds)[k] == preds[k].className == Names(kept)[k];
  }

  lemma ConvertCounted(kept: seq<RawBox>, imgWidth: nat, imgHeight: nat)
    requires AllLabelled(kept) && imgWidth > 0 && imgHeight > 0
    ensures var counts := CountClasses(Names(kept));
            CountsAgree(Convert(kept, imgWidth, imgHeight), DetectionSummary(|kept|, counts, Stats(Scores(kept)), Keys(counts)))
  {
    var preds := Convert(kept, imgWidth, imgHeight);
    var names := Names(kept);
    var counts := CountClasses(names);
    CountKeysInFirstAppearanceOrder(names);
    CountClassesCounts(names);
    FirstAppearancesElements(names);
    ClassNamesOfConvert(kept, imgWidth, imgHeight);
    forall k | 0 <= k < |preds|
      ensures preds[k].className in Keys(counts) && CountOf(counts, preds[k].className) >= 1
    {
      assert preds[k].className == names[k];
      assert names[k] in multiset(names);
    }
    assert preds == [] <==> names == [];
  }

  /** Everything `run_inference(image_path, conf, iou)` promises about its report:
      - an unreadable image fails with the path in the message;
      - at a threshold of 100% the model is not consulted and the report is
        empty (or the aspect ratio divides by a zero height);
      - otherwise an exception of the model is reported as the error, and the
        boxes it returns are reported as `DetectionsReported` says;
      - every report describes the output image and the image read, names
        the model, echoes both thresholds and gives the total time. */
  ghost predicate InferenceOutcome(r: Report, imagePath: string, conf: real, iou: real, image: ImageLoad,
                                   detect: (real, real) -> DetectorOutcome, timing: Timing)
  {
    && (image.Unreadable? ==> r == Failed("Could not load image from " + imagePath))
    && (image.Decoded? && conf >= 1.0 && image.height == 0 ==> r == Failed(IntDivisionByZero))
    && (image.Decoded? && conf >= 1.0 && image.height > 0 ==>
          && r.Report? && r.predictions == []
          && r.detectionSummary == DetectionSummary(0, [], ConfidenceStats(0.0, 0.0, 0.0), [])
          && r.inferenceInfo.inferenceTimeMs == 0.0
          && r.summary == NoObjectsAtFullThreshold)
    && (image.Decoded? && conf < 1.0 && detect(ModelConf(conf), iou).Raised? ==>
          r == Failed(detect(ModelConf(conf), iou).message))
    && (image.Decoded? && conf < 1.0 && detect(ModelConf(conf), iou).Boxes? ==>
          DetectionsReported(r, detect(ModelConf(conf), iou).boxes, conf, image, timing))
    && (r.Report? ==>
          && image.Decoded? && image.height > 0
          && r.imageInfo == ReportImageInfo(imagePath, image)
          && r.inferenceInfo == InferenceInfo(ModelName, conf, iou, r.inferenceInfo.inferenceTimeMs,
                                              timing.totalSeconds * 1000.0, |CustomLabels|))
  }

  /** `run_inference(image_path, conf, iou)` once the image has been read:
      `image` is what reading it gave and `detect` answers a call of the
      detector with a given confidence and IoU threshold. */
  method RunInference(imagePath: string, conf: real, iou: real, image: ImageLoad,
                      detect: (real, real) -> DetectorOutcome, timing: Timing)
    returns (r: Report, written: Option<string>)
    ensures written == if image.Decoded? then Some(OutputPath(imagePath)) else None
    ensures InferenceOutcome(r, imagePath, conf, iou, image, detect, timing)
  {
    if image.Unreadable? {
      return Failed("Could not load image from " + imagePath), None;
    }
    written := Some(OutputPath(imagePath));

    if conf >= 1.0 {
      r := FullThresholdReport(imagePath, conf, iou, image, timing);
    } else {
      match detect(ModelConf(conf), iou)
      case Raised(message) =>
        r := Failed(message);
      case Boxes(boxes) =>
        r := ReportDetections(boxes, imagePath, conf, iou, image, timing);
    }
  }

  /** Every report `run_inference` can produce is well formed for its threshold. */
  lemma OutcomeWellFormed(r: Report, imagePath: string, conf: real, iou: real, image: ImageLoad,
                          detect: (real, real) -> DetectorOutcome, timing: Timing)
    requires InferenceOutcome(r, imagePath, conf, iou, image, detect, timing)
    requires r.Report?
    ensures WellFormed(r, conf)
  {
    if conf >= 1.0 {
      EmptySummaryAgrees(conf);
    } else {
      match detect(ModelConf(conf), iou)
      case Boxes(boxes) =>
        DetectionsWellFormed(r, boxes, conf, image, timing);
    }
  }

  /** A report of the detector's boxes is well formed for its threshold. */
  lemma DetectionsWellFormed(r: Report, boxes: seq<RawBox>, conf: real, image: ImageLoad, timing: Timing)
    requires image.Decoded? && DetectionsReported(r, boxes, conf, image, timing)
    requires r.Report?
    ensures WellFormed(r, conf)
  {
    if image.width > 0 {
      KeptSummaryAgrees(boxes, conf, image.width, image.height);
    } else {
      assert Kept(boxes, conf) == [];
      EmptySummaryAgrees(conf);
    }
  }

  /** Every report of `run_inference` describes the image it read and the run:
      original name, dimensions, aspect ratio, size in KB, model, thresholds
      and total time. */
  lemma OutcomeDescribesImage(r: Report, imagePath: string, conf: real, iou: real, image: ImageLoad,
                              detect: (real, real) -> DetectorOutcome, timing: Timing)
    requires InferenceOutcome(r, imagePath, conf, iou, image, detect, timing)
    requires r.Report?
    ensures image.Decoded? && image.height > 0
    ensures r.imageInfo.originalName == Basename(imagePath) && r.imageInfo.url == "/static/" + ResultName(imagePath)
    ensures r.imageInfo.width == image.width && r.imageInfo.height == image.height
    ensures r.imageInfo.aspectRatio == image.width as real / image.height as real
    ensures r.imageInfo.fileSizeKb == image.fileBytes as real / 1024.0
    ensures r.inferenceInfo.model == ModelName && r.inferenceInfo.modelClasses == |CustomLabels|
    ensures r.inferenceInfo.confidenceThreshold == conf && r.inferenceInfo.iouThreshold == iou
    ensures r.inferenceInfo.totalProcessingTimeMs == timing.totalSeconds * 1000.0
  {
  }

  /** The names `run_inference` derives from the input path: the output image,
      its URL and the input's basename; the dimensions are filled in later. */
  function OutputInfo(imagePath: string): (info: ImageInfo)
    ensures info.path == OutputPath(imagePath)
    ensures info.url == "/static/" + ResultName(imagePath)
    ensures info.originalName == Basename(imagePath)
  {
    OutputUrlOfPath(imagePath);
    ImageInfo(OutputPath(imagePath), OutputUrl(imagePath), Basename(imagePath), 0, 0, 0.0, 0.0)
  }

  /** The image info of a report on a read image: the names derived from the
      path, then the dimensions, their ratio and the file size in KB. */
  function ReportImageInfo(imagePath: string, image: ImageLoad): (info: ImageInfo)
    requires image.Decoded? && image.height > 0
    ensures info.path == OutputPath(imagePath) && info.url == "/static/" + ResultName(imagePath)
    ensures info.originalName == Basename(imagePath)
    ensures info.width == image.width && info.height == image.height
    ensures info.aspectRatio == image.width as real / image.height as real
    ensures info.fileSizeKb == image.fileBytes as real / 1024.0
  {
    OutputInfo(imagePath).(width := image.width, height := image.height,
                           aspectRatio := image.width as real / image.height as real,
                           fileSizeKb := image.fileBytes as real / 1024.0)
  }

  /** The early exit of `run_inference` at a threshold of 100%: an empty report
      built without consulting the model. */
  method FullThresholdReport(imagePath: string, conf: real, iou: real, image: ImageLoad, timing: Timing)
    returns (r: Report)
    requires image.Decoded?
    ensures image.height == 0 ==> r == Failed(IntDivisionByZero)
    ensures image.height > 0 ==>
      && r.Report? && r.predictions == []
      && r.detectionSummary == DetectionSummary(0, [], ConfidenceStats(0.0, 0.0, 0.0), [])
      && r.summary == NoObjectsAtFullThreshold
      && r.imageInfo == ReportImageInfo(imagePath, image)
      && r.inferenceInfo == InferenceInfo(ModelName, conf, iou, 0.0, timing.totalSeconds * 1000.0, |CustomLabels|)
  {
    if image.height == 0 {
      return Failed(IntDivisionByZero);
    }
    r := Report(
      ReportImageInfo(imagePath, image),
      InferenceInfo(ModelName, conf, iou, 0.0, timing.totalSeconds * 1000.0, |CustomLabels|),
      [],
      DetectionSummary(0, [], ConfidenceStats(0.0, 0.0, 0.0), []),
      NoObjectsAtFullThreshold);
  }

  /** The report with no predictions is well formed at any threshold. */
  lemma EmptySummaryAgrees(conf: real)
    ensures SummaryAgrees([], DetectionSummary(0, [], ConfidenceStats(0.0, 0.0, 0.0), []), conf)
  {
    assert Keys([]) == [];
  }

  /** What `run_inference` reports for the boxes the model returned: a zero
      dimension fails on the first surviving box (relative position) or, with
      none, on the aspect ratio; otherwise the predictions are the converted
      surviving boxes, counted, summarised and described. */
  ghost predicate DetectionsReported(r: Report, boxes: seq<RawBox>, conf: real, image: ImageLoad, timing: Timing)
    requires image.Decoded?
  {
    var kept := Kept(boxes, conf);
    var counts := CountClasses(Names(kept));
    && ((image.width == 0 || image.height == 0) && kept != [] ==> r == Failed(FloatDivisionByZero))
    && (kept == [] && image.height == 0 ==> r == Failed(IntDivisionByZero))
    && (image.height > 0 && (image.width > 0 || kept == []) ==>
          && r.Report?
          && r.predictions == Convert(kept, image.width, image.height)
          && r.detectionSummary == DetectionSummary(|kept|, counts, Stats(Scores(kept)), Keys(counts))
          && r.summary == DetectionSentence(counts, |kept|)
          && r.inferenceInfo.inferenceTimeMs == timing.inferenceSeconds * 1000.0)
  }

  /** The part of `run_inference` after the detector returned: the loop over the
      boxes, then the report. */
  method ReportDetections(boxes: seq<RawBox>, imagePath: string, conf: real, iou: real, image: ImageLoad, timing: Timing)
    returns (r: Report)
    requires image.Decoded?
    ensures DetectionsReported(r, boxes, conf, image, timing)
    ensures r.Report? ==> image.height > 0 && r.imageInfo == ReportImageInfo(imagePath, image)
    ensures r.Report? ==>
      r.inferenceInfo == InferenceInfo(ModelName, conf, iou, timing.inferenceSeconds * 1000.0,
                                       timing.totalSeconds * 1000.0, |CustomLabels|)
  {
    var ok, predictions, classCounts, scores := ExtractPredictions(boxes, conf, image.width, image.height);
    if !ok {
      return Failed(FloatDivisionByZero);
    }
    if image.height == 0 {
      return Failed(IntDivisionByZero);
    }
    var total := |predictions|;
    var summary := DetectionSummary(total, classCounts, Stats(scores), Keys(classCounts));
    r := Report(
      ReportImageInfo(imagePath, image),
      InferenceInfo(ModelName, conf, iou, timing.inferenceSeconds * 1000.0, timing.totalSeconds * 1000.0, |CustomLabels|),
      predictions,
      summary,
      DetectionSentence(classCounts, total));
  }

  // ---------------------------------------------------------------------------
  // The legacy tuple format

  /** One box of the legacy format. */
  datatype LegacyBox = LegacyBox(classId: int, classLabel: string, confidence: real, xyxy: seq<real>)

  function LegacyOf(p: Prediction): LegacyBox {
    LegacyBox(p.classId, p.className, p.confidence, p.xyxy)
  }

  /** The loop of `run_inference_legacy` that re-packs the predictions. */
  method LegacyBoxes(predictions: seq<Prediction>) returns (boxes: seq<LegacyBox>)
    ensures |boxes| == |predictions|
    ensures forall k | 0 <= k < |boxes| :: boxes[k] == LegacyOf(predictions[k])
  {
    boxes := [];
    for i := 0 to |predictions|
      invariant |boxes| == i
      invariant forall k | 0 <= k < i :: boxes[k] == LegacyOf(predictions[k])
    {
      boxes := boxes + [LegacyOf(predictions[i])];
    }
  }

  /** `run_inference_legacy`: the output path and the legacy boxes, or the
      report's error raised as an exception. */
  method RunInferenceLegacy(imagePath: string, conf: real, iou: real, image: ImageLoad,
                            detect: (real, real) -> DetectorOutcome, timing: Timing)
    returns (res: Result<(string, seq<LegacyBox>)>)
    ensures res.Success? ==> res.value.0 == OutputPath(imagePath)
    ensures res.Success? ==> forall k | 0 <= k < |res.value.1| :: res.value.1[k].confidence >= conf && res.value.1[k].classId in CustomLabels && res.value.1[k].classLabel == CustomLabels[res.value.1[k].classId]
    ensures image.Unreadable? ==> res == Failure("Could not load image from " + imagePath)
    ensures image.Decoded? && conf >= 1.0 && image.height > 0 ==> res == Success((OutputPath(imagePath), []))
    ensures image.Decoded? && conf < 1.0 && detect(ModelConf(conf), iou).Raised? ==>
      res == Failure(detect(ModelConf(conf), iou).message)
    ensures image.Decoded? && conf < 1.0 && image.width > 0 && image.height > 0 && detect(ModelConf(conf), iou).Boxes? ==>
      var kept := Kept(detect(ModelConf(conf), iou).boxes, conf);
      && res.Success? && |res.value.1| == |kept|
      && forall k | 0 <= k < |kept| :: res.value.1[k] == LegacyOf(ToPrediction(kept[k], image.width, image.height))
  {
    var r, _ := RunInference(imagePath, conf, iou, image, detect, timing);
    if r.Report? {
      OutcomeWellFormed(r, imagePath, conf, iou, image, detect, timing);
      var boxes := LegacyBoxes(r.predictions);
      res := Success((r.imageInfo.path, boxes));
    } else {
      res := Failure(r.error);
    }
  }
}
