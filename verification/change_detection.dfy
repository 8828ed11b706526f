/** The change-detection view: the score-to-category ladder, the two colour
    bands drawn from the same thresholds, the separate alert-level ladder,
    which view is shown, and the view's local state (comparison toggle,
    slider position and the detected-change label kept in sync with the
    score). */
module ChangeDetection {
  import opened Images

  /** The change categories of the detected-change label. */
  datatype Category = Deforestation | UrbanExpansion | Flooding | NoSignificantChange

  /** The threshold ladder of the detection effect. Every boundary is strict:
      a score exactly on a threshold falls in the lower category. */
  function DetectionType(score: real): (c: Category)
    ensures c == Deforestation <==> score > 0.7
    ensures c == UrbanExpansion <==> 0.5 < score <= 0.7
    ensures c == Flooding <==> 0.3 < score <= 0.5
    ensures c == NoSignificantChange <==> score <= 0.3
  {
    if score > 0.7 then Deforestation
    else if score > 0.5 then UrbanExpansion
    else if score > 0.3 then Flooding
    else NoSignificantChange
  }

  function Label(c: Category): (s: string)
  {
    match c
    case Deforestation => "Deforestation"
    case UrbanExpansion => "Urban Expansion"
    case Flooding => "Flooding"
    case NoSignificantChange => "No significant change"
  }

  /** Distinct categories carry distinct labels, so the label shown
      determines the category. */
  lemma LabelInjective(c: Category, d: Category)
    ensures Label(c) == Label(d) <==> c == d
  {
  }

  /** The colour family of each category's band. */
  datatype Hue = Red | Orange | Yellow | Emerald

  function HueOf(c: Category): Hue
  {
    match c
    case Deforestation => Red
    case UrbanExpansion => Orange
    case Flooding => Yellow
    case NoSignificantChange => Emerald
  }

  function TextClass(h: Hue): string
  {
    match h
    case Red => "text-red-400"
    case Orange => "text-orange-400"
    case Yellow => "text-yellow-400"
    case Emerald => "text-emerald-400"
  }

  function BackgroundClass(h: Hue): string
  {
    match h
    case Red => "bg-red-500"
    case Orange => "bg-orange-500"
    case Yellow => "bg-yellow-500"
    case Emerald => "bg-emerald-500"
  }

  /** The colour of the score figure: its own if-chain, which splits scores
      into the same four bands as the category ladder. */
  function ScoreColor(score: real): (cls: string)
    ensures cls == TextClass(HueOf(DetectionType(score)))
  {
    if score > 0.7 then "text-red-400"
    else if score > 0.5 then "text-orange-400"
    else if score > 0.3 then "text-yellow-400"
    else "text-emerald-400"
  }

  /** The colour of the intensity bar: again the same four bands. */
  function ScoreBackground(score: real): (cls: string)
    ensures cls == BackgroundClass(HueOf(DetectionType(score)))
  {
    if score > 0.7 then "bg-red-500"
    else if score > 0.5 then "bg-orange-500"
    else if score > 0.3 then "bg-yellow-500"
    else "bg-emerald-500"
  }

  /** The alert-level figure of the results block. */
  datatype AlertLevel = Critical | Moderate | Low

  /** The alert-level ladder has only two cut-offs, 0.5 and 0.3, so it
      merges the two top categories into `Critical`. */
  function AlertLevelOf(score: real): (l: AlertLevel)
    ensures l == Critical <==> score > 0.5
    ensures l == Critical <==> DetectionType(score) in {Deforestation, UrbanExpansion}
    ensures l == Moderate <==> DetectionType(score) == Flooding
    ensures l == Low <==> DetectionType(score) == NoSignificantChange
  {
    if score > 0.5 then Critical else if score > 0.3 then Moderate else Low
  }

  /** The results block: score colour, detected-change label, alert level
      and intensity-bar colour. The label is the view's `detectionType`
      state, not a value recomputed from the score. */
  datatype Results = Results(scoreColor: string, detected: string, level: AlertLevel, bar: string)

  /** The comparison area: two independent images, or the reveal slider with
      `after` full-frame and `before` clipped at `clipAt` percent of the width. */
  datatype Comparison =
    | SideBySide(before: Option<string>, after: Option<string>)
    | Slider(full: Option<string>, clipped: Option<string>, clipAt: int)

  datatype View =
    | Processing
    | UploadPrompt
    | Analysis(results: Option<Results>, comparison: Comparison)

  /** What the view renders from its props (images, processing flag, score)
      and its local state (toggle, slider position, detected label). */
  function Render(
    beforeImage: Option<string>, afterImage: Option<string>, isProcessing: bool, changeScore: real,
    showComparison: bool, sliderPosition: int, detectionType: string): (v: View)
    ensures isProcessing ==> v == Processing
    ensures !isProcessing && !Present(beforeImage) && !Present(afterImage) ==> v == UploadPrompt
    ensures v.Analysis? <==> !isProcessing && (Present(beforeImage) || Present(afterImage))
    ensures v.Analysis? ==> (v.results.Some? <==> changeScore > 0.0)
    ensures v.Analysis? && v.results.Some? ==>
      v.results.value.scoreColor == TextClass(HueOf(DetectionType(changeScore))) &&
      v.results.value.bar == BackgroundClass(HueOf(DetectionType(changeScore))) &&
      v.results.value.level == AlertLevelOf(changeScore) &&
      v.results.value.detected == detectionType
    ensures v.Analysis? ==> (v.comparison.Slider? <==> showComparison)
    ensures v.Analysis? && v.comparison.SideBySide? ==>
      (v.comparison.before.Some? <==> Present(beforeImage)) &&
      (v.comparison.after.Some? <==> Present(afterImage)) &&
      v.comparison.before == Shown(beforeImage) && v.comparison.after == Shown(afterImage)
    ensures v.Analysis? && v.comparison.Slider? ==>
      v.comparison.full == Shown(afterImage) && v.comparison.clipped == Shown(beforeImage) &&
      v.comparison.clipAt == sliderPosition
  {
    if isProcessing then Processing
    else if !Present(beforeImage) && !Present(afterImage) then UploadPrompt
    else
      var results :=
        if changeScore > 0.0
        then Some(Results(ScoreColor(changeScore), detectionType, AlertLevelOf(changeScore), ScoreBackground(changeScore)))
        else None;
      var comparison :=
        if showComparison then Slider(Shown(afterImage), Shown(beforeImage), sliderPosition)
        else SideBySide(Shown(beforeImage), Shown(afterImage));
      Analysis(results, comparison)
  }

  /** The view's local state. `sliderPosition` only ever takes values from a
      range input bounded to 0..100. */
  class ComparisonState {
    var showComparison: bool
    var sliderPosition: int
    var detectionType: string

    ghost predicate Valid()
      reads this
    {
      0 <= sliderPosition <= 100
    }

    constructor ()
      ensures Valid()
      ensures !showComparison && sliderPosition == 50 && detectionType == ""
    {
      showComparison := false;
      sliderPosition := 50;
      detectionType := "";
    }

    /** The Show/Hide Comparison button. */
    method ToggleComparison()
      requires Valid()
      modifies this
      ensures Valid()
      ensures showComparison == !old(showComparison)
      ensures sliderPosition == old(sliderPosition) && detectionType == old(detectionType)
    {
      showComparison := !showComparison;
    }

    /** The range input's change handler. */
    method SetSliderPosition(value: int)
      requires Valid()
      requires 0 <= value <= 100
      modifies this
      ensures Valid()
      ensures sliderPosition == value
      ensures showComparison == old(showComparison) && detectionType == old(detectionType)
    {
      sliderPosition := value;
    }

    /** The effect that runs whenever the score changes: it writes the label
      of the score's category. */
    method OnScoreChange(changeScore: real)
      requires Valid()
      modifies this
      ensures Valid()
      ensures detectionType == Label(DetectionType(changeScore))
      ensures showComparison == old(showComparison) && sliderPosition == old(sliderPosition)
    {
      if changeScore > 0.7 {
        detectionType := "Deforestation";
      } else if changeScore > 0.5 {
        detectionType := "Urban Expansion";
      } else if changeScore > 0.3 {
        detectionType := "Flooding";
      } else {
        detectionType := "No significant change";
      }
    }
  }

  /** Once the effect has run for the current score, the results block
      names that score's category. */
  lemma SyncedResultsNameCategory(
    beforeImage: Option<string>, afterImage: Option<string>, changeScore: real,
    showComparison: bool, sliderPosition: int)
    requires Present(beforeImage) || Present(afterImage)
    requires changeScore > 0.0
    ensures
      var v := Render(beforeImage, afterImage, false, changeScore, showComparison, sliderPosition,
                      Label(DetectionType(changeScore)));
      v.Analysis? && v.results.Some? && v.results.value.detected == Label(DetectionType(changeScore))
  {
  }

  /** The boundary scores themselves fall in the lower category. */
  lemma StrictBoundaries()
    ensures DetectionType(0.3) == NoSignificantChange
    ensures DetectionType(0.5) == Flooding
    ensures DetectionType(0.7) == UrbanExpansion
    ensures AlertLevelOf(0.3) == Low && AlertLevelOf(0.5) == Moderate
  {
  }
}
