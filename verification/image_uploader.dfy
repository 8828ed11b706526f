/** The image uploader: slot-targeted ingestion from the file picker or a
    drop, the drag-over highlight, the sample pair, the Analyze button's
    enable rule and the run trigger, whose delayed completion is a separate
    step here. */
module ImageUploader {
  import opened Images
  import opened App
  import AlertsPanel
  import ChangeDetection

  const SampleBefore: string :=
    "https://images.pexels.com/photos/87651/earth-blue-planet-globe-planet-87651.jpeg?auto=compress&cs=tinysrgb&w=512"
  const SampleAfter: string :=
    "https://images.pexels.com/photos/355465/pexels-photo-355465.jpeg?auto=compress&cs=tinysrgb&w=512"

  /** The simulated scorer scales a uniform draw from [0, 1) onto [0.1, 1.0). */
  function ScoreFromRandom(random: real): (score: real)
    requires 0.0 <= random < 1.0
    ensures 0.1 <= score < 1.0
  {
    random * 0.9 + 0.1
  }

  /** Every score in [0.1, 1.0) is produced by exactly one draw. */
  lemma ScoreRangeIsCovered(score: real)
    requires 0.1 <= score < 1.0
    ensures 0.0 <= (score - 0.1) / 0.9 < 1.0
    ensures ScoreFromRandom((score - 0.1) / 0.9) == score
    ensures forall r :: 0.0 <= r < 1.0 && ScoreFromRandom(r) == score ==> r == (score - 0.1) / 0.9
  {
  }

  /** The Analyze button is disabled while either slot is empty, where a
      slot holding `null` or the empty string counts as empty. */
  predicate AnalyzeDisabled(beforeImage: Option<string>, afterImage: Option<string>)
    ensures AnalyzeDisabled(beforeImage, afterImage) <==>
      beforeImage in {None, Some("")} || afterImage in {None, Some("")}
  {
    !Present(beforeImage) || !Present(afterImage)
  }

  /** The uploader's own state, wired to the dashboard's setters and
      callbacks. Each call of the run trigger that passes its guard schedules
      one completion; `pendingRuns` counts those not yet fired. The
      processing flag is only ever set with a completion on its way. */
  class Uploader {
    const app: Dashboard
    var dragOver: Option<Slot>
    var pendingRuns: nat
    ghost var runsStarted: nat
    ghost var runsCompleted: nat

    ghost predicate Valid()
      reads this, app
    {
      app.Valid() && runsCompleted + pendingRuns == runsStarted &&
      (app.isProcessing ==> pendingRuns > 0)
    }

    constructor (app: Dashboard)
      requires app.Valid() && !app.isProcessing
      ensures Valid() && this.app == app
      ensures dragOver == None && pendingRuns == 0 && runsStarted == 0
    {
      this.app := app;
      dragOver := None;
      pendingRuns := 0;
      runsStarted := 0;
      runsCompleted := 0;
    }

    /** Stores a read image in the targeted slot; the other slot and the
      rest of the session are untouched. `dataUrl` is what the browser's
      file reader produced. */
    method HandleFileUpload(dataUrl: string, slot: Slot)
      requires Valid()
      modifies app
      ensures Valid()
      ensures slot == Before ==> app.beforeImage == Some(dataUrl) && app.afterImage == old(app.afterImage)
      ensures slot == After ==> app.afterImage == Some(dataUrl) && app.beforeImage == old(app.beforeImage)
      ensures app.isProcessing == old(app.isProcessing) && app.alerts == old(app.alerts)
      ensures app.changeScore == old(app.changeScore) && app.completed == old(app.completed)
    {
      if slot == Before {
        app.SetBeforeImage(Some(dataUrl));
      } else {
        app.SetAfterImage(Some(dataUrl));
      }
    }

    method HandleDragOver(slot: Slot)
      requires Valid()
      modifies this
      ensures Valid()
      ensures dragOver == Some(slot)
      ensures pendingRuns == old(pendingRuns) && runsStarted == old(runsStarted) && runsCompleted == old(runsCompleted)
    {
      dragOver := Some(slot);
    }

    method HandleDragLeave()
      requires Valid()
      modifies this
      ensures Valid()
      ensures dragOver == None
      ensures pendingRuns == old(pendingRuns) && runsStarted == old(runsStarted) && runsCompleted == old(runsCompleted)
    {
      dragOver := None;
    }

    /** A drop clears the highlight and ingests only the first dropped file;
      a drop without files leaves both slots as they were. */
    method HandleDrop(files: seq<string>, slot: Slot)
      requires Valid()
      modifies this, app
      ensures Valid()
      ensures dragOver == None
      ensures |files| == 0 ==> app.beforeImage == old(app.beforeImage) && app.afterImage == old(app.afterImage)
      ensures |files| > 0 && slot == Before ==>
        app.beforeImage == Some(files[0]) && app.afterImage == old(app.afterImage)
      ensures |files| > 0 && slot == After ==>
        app.afterImage == Some(files[0]) && app.beforeImage == old(app.beforeImage)
      ensures app.isProcessing == old(app.isProcessing) && app.alerts == old(app.alerts)
      ensures app.changeScore == old(app.changeScore) && app.completed == old(app.completed)
      ensures pendingRuns == old(pendingRuns) && runsStarted == old(runsStarted) && runsCompleted == old(runsCompleted)
    {
      dragOver := None;
      if |files| > 0 {
        HandleFileUpload(files[0], slot);
      }
    }

    /** The hidden file input's change handler: the first chosen file, if
      any, goes to the slot; the highlight is not touched. */
    method HandlePick(files: seq<string>, slot: Slot)
      requires Valid()
      modifies app
      ensures Valid()
      ensures |files| == 0 ==> app.beforeImage == old(app.beforeImage) && app.afterImage == old(app.afterImage)
      ensures |files| > 0 && slot == Before ==>
        app.beforeImage == Some(files[0]) && app.afterImage == old(app.afterImage)
      ensures |files| > 0 && slot == After ==>
        app.afterImage == Some(files[0]) && app.beforeImage == old(app.beforeImage)
      ensures app.isProcessing == old(app.isProcessing) && app.alerts == old(app.alerts)
      ensures app.changeScore == old(app.changeScore) && app.completed == old(app.completed)
    {
      if |files| > 0 {
        HandleFileUpload(files[0], slot);
      }
    }

    /** The sample pair replaces whatever both slots held. */
    method LoadSampleImages()
      requires Valid()
      modifies app
      ensures Valid()
      ensures app.beforeImage == Some(SampleBefore) && app.afterImage == Some(SampleAfter)
      ensures !AnalyzeDisabled(app.beforeImage, app.afterImage)
      ensures app.isProcessing == old(app.isProcessing) && app.alerts == old(app.alerts)
      ensures app.changeScore == old(app.changeScore) && app.completed == old(app.completed)
    {
      app.SetBeforeImage(Some(SampleBefore));
      app.SetAfterImage(Some(SampleAfter));
    }

    /** The run trigger. With either slot empty it does nothing; otherwise
      it fires the start callback and schedules exactly one completion.
      It does not look at the processing flag, so a second run can be
      scheduled while one is pending. */
    method ProcessImages() returns (started: bool)
      requires Valid()
      modifies this, app
      ensures Valid()
      ensures started <==> !AnalyzeDisabled(old(app.beforeImage), old(app.afterImage))
      ensures started ==> app.isProcessing
      ensures !started ==> app.isProcessing == old(app.isProcessing)
      ensures pendingRuns == old(pendingRuns) + (if started then 1 else 0)
      ensures runsStarted == old(runsStarted) + (if started then 1 else 0)
      ensures runsCompleted == old(runsCompleted)
      ensures app.beforeImage == old(app.beforeImage) && app.afterImage == old(app.afterImage)
      ensures app.alerts == old(app.alerts) && app.changeScore == old(app.changeScore)
      ensures app.completed == old(app.completed) && dragOver == old(dragOver)
    {
      if !Present(app.beforeImage) || !Present(app.afterImage) {
        return false;
      }
      app.OnProcessStart();
      pendingRuns := pendingRuns + 1;
      runsStarted := runsStarted + 1;
      started := true;
    }

    /** One scheduled completion fires: the draw becomes a score in
      [0.1, 1.0), which goes to the completion callback. */
    method CompleteRun(random: real, id: int, timestamp: int) returns (score: real)
      requires Valid()
      requires pendingRuns > 0
      requires 0.0 <= random < 1.0
      modifies this, app
      ensures Valid()
      ensures score == ScoreFromRandom(random) && 0.1 <= score < 1.0
      ensures pendingRuns == old(pendingRuns) - 1 && runsCompleted == old(runsCompleted) + 1
      ensures runsStarted == old(runsStarted)
      ensures !app.isProcessing && app.changeScore == score
      ensures app.alerts == Record(old(app.alerts), score, id, timestamp)
      ensures app.completed == old(app.completed) + [Completion(score, id, timestamp)]
      ensures app.beforeImage == old(app.beforeImage) && app.afterImage == old(app.afterImage)
      ensures dragOver == old(dragOver)
    {
      score := random * 0.9 + 0.1;
      app.OnProcessComplete(score, id, timestamp);
      pendingRuns := pendingRuns - 1;
      runsCompleted := runsCompleted + 1;
    }
  }

  /** The end-to-end path: the before image is dropped, the after image
      picked, the run started, and its completion draws 0.8, which is the
      score 0.82. The run leaves the processing flag clear and a critical
      alert in front, and the change-detection view can show the reveal
      slider with the after image full-frame and the before image clipped. */
  method EndToEnd(beforeUrl: string, afterUrl: string, id: int, timestamp: int)
    returns (started: bool, processing: bool, score: real, newest: AlertsPanel.Alert, view: ChangeDetection.View)
    requires beforeUrl != "" && afterUrl != ""
    ensures started && !processing
    ensures score == 0.82
    ensures newest == MakeAlert(score, id, timestamp) && newest.kind == "critical"
    ensures view.Analysis? && view.results.Some?
    ensures view.results.value.detected == "Deforestation" && view.results.value.level == ChangeDetection.Critical
    ensures view.comparison.Slider?
    ensures view.comparison.full == Some(afterUrl) && view.comparison.clipped == Some(beforeUrl)
  {
    var dashboard := new Dashboard();
    var uploader := new Uploader(dashboard);
    uploader.HandleDrop([beforeUrl], Before);
    uploader.HandlePick([afterUrl], After);
    started := uploader.ProcessImages();
    score := uploader.CompleteRun(0.8, id, timestamp);
    processing := dashboard.isProcessing;
    newest := dashboard.alerts[0];
    var state := new ChangeDetection.ComparisonState();
    state.ToggleComparison();
    state.OnScoreChange(dashboard.changeScore);
    view := ChangeDetection.Render(dashboard.beforeImage, dashboard.afterImage, dashboard.isProcessing,
                                   dashboard.changeScore, state.showComparison, state.sliderPosition,
                                   state.detectionType);
  }
}
