/** The dashboard's session controller: the five state cells (two image
    slots, the processing flag, the alert list and the current change
    score), the completion handler that records a score and may raise an
    alert, and the start/complete callbacks handed to the uploader. */
module App {
  import opened Images
  import opened AlertsPanel
  import ChangeDetection

  const CriticalMessage: string := "Critical environmental change detected"
  const ModerateMessage: string := "Moderate change detected"
  const AlertLocation: string := "Sample Region"

  /** A completed run's score raises an alert when it is above 0.3. */
  predicate RaisesAlert(score: real)
  {
    score > 0.3
  }

  /** The alert built for a completed run. The id and the creation time come
      from the clock; here they are parameters. */
  function MakeAlert(score: real, id: int, timestamp: int): (a: Alert)
    ensures a.kind == "critical" <==> score > 0.7
    ensures a.kind == "warning" <==> score <= 0.7
    ensures a.message == CriticalMessage <==> score > 0.7
    ensures a.message == ModerateMessage <==> score <= 0.7
    ensures a.id == id && a.timestamp == timestamp
    ensures a.location == AlertLocation && a.score == score
  {
    Alert(
      id,
      if score > 0.7 then "critical" else "warning",
      if score > 0.7 then CriticalMessage else ModerateMessage,
      timestamp,
      AlertLocation,
      score)
  }

  /** The alert list after one completion: a raised alert goes in front,
      and the previous alerts follow unchanged and in their order. */
  function Record(alerts: seq<Alert>, score: real, id: int, timestamp: int): (r: seq<Alert>)
    ensures |r| == if RaisesAlert(score) then |alerts| + 1 else |alerts|
    ensures r[|r| - |alerts|..] == alerts
    ensures |r| > |alerts| ==> r[0] == MakeAlert(score, id, timestamp)
  {
    if RaisesAlert(score) then [MakeAlert(score, id, timestamp)] + alerts else alerts
  }

  /** One completed analysis run: its score and the clock readings its
      alert would carry. */
  datatype Completion = Completion(score: real, id: int, timestamp: int)

  /** The alert list after a sequence of completions, oldest first. */
  function RecordAll(alerts: seq<Alert>, runs: seq<Completion>): seq<Alert>
    decreases |runs|
  {
    if runs == [] then alerts
    else RecordAll(Record(alerts, runs[0].score, runs[0].id, runs[0].timestamp), runs[1..])
  }

  /** The alerts a sequence of completions raises, in completion order. */
  function Raised(runs: seq<Completion>): (r: seq<Alert>)
    ensures |r| <= |runs|
  {
    if runs == [] then []
    else
      var head := if RaisesAlert(runs[0].score)
                  then [MakeAlert(runs[0].score, runs[0].id, runs[0].timestamp)]
                  else [];
      head + Raised(runs[1..])
  }

  function Reversed(s: seq<Alert>): (r: seq<Alert>)
    ensures |r| == |s|
  {
    if s == [] then [] else Reversed(s[1..]) + [s[0]]
  }

  /** The score shown on the dashboard after a sequence of completions: the
      last one's, or the initial 0. */
  function LastScore(runs: seq<Completion>): real
  {
    if runs == [] then 0.0 else runs[|runs| - 1].score
  }

  /** The registry is newest first: after any sequence of completions the
      list is the raised alerts in reverse completion order, followed by the
      alerts that were there before. */
  lemma {:induction false} RecordAllNewestFirst(alerts: seq<Alert>, runs: seq<Completion>)
    ensures RecordAll(alerts, runs) == Reversed(Raised(runs)) + alerts
    decreases |runs|
  {
    if runs != [] {
      var c := runs[0];
      var next := Record(alerts, c.score, c.id, c.timestamp);
      RecordAllNewestFirst(next, runs[1..]);
      if RaisesAlert(c.score) {
        var m := MakeAlert(c.score, c.id, c.timestamp);
        assert Raised(runs) == [m] + Raised(runs[1..]);
        assert ([m] + Raised(runs[1..]))[1..] == Raised(runs[1..]);
        assert Reversed(Raised(runs)) == Reversed(Raised(runs[1..])) + [m];
        assert next == [m] + alerts;
      } else {
        assert Raised(runs) == Raised(runs[1..]);
        assert next == next[|next| - |alerts|..] == alerts;
      }
    }
  }

  /** Recording one more completion on top of a history is the same as
      recording the longer history. */
  lemma {:induction false} RecordAllSnoc(alerts: seq<Alert>, runs: seq<Completion>, c: Completion)
    ensures RecordAll(alerts, runs + [c]) == Record(RecordAll(alerts, runs), c.score, c.id, c.timestamp)
    decreases |runs|
  {
    if runs == [] {
      assert runs + [c] == [c];
    } else {
      assert (runs + [c])[0] == runs[0];
      assert (runs + [c])[1..] == runs[1..] + [c];
      RecordAllSnoc(Record(alerts, runs[0].score, runs[0].id, runs[0].timestamp), runs[1..], c);
    }
  }

  /** Every raised alert comes from a run above the alert threshold, sits in
      the fixed region, and is critical exactly when its score is above 0.7. */
  lemma {:induction false} RaisedAlertsWellFormed(runs: seq<Completion>, a: Alert)
    requires a in Raised(runs)
    ensures a.score > 0.3 && a.location == AlertLocation
    ensures a.kind == "critical" <==> a.score > 0.7
    ensures exists c :: c in runs && a == MakeAlert(c.score, c.id, c.timestamp)
  {
    var c := runs[0];
    if RaisesAlert(c.score) && a == MakeAlert(c.score, c.id, c.timestamp) {
      assert c in runs;
    } else {
      var head := if RaisesAlert(c.score) then [MakeAlert(c.score, c.id, c.timestamp)] else [];
      assert Raised(runs) == head + Raised(runs[1..]);
      assert a in Raised(runs[1..]);
      RaisedAlertsWellFormed(runs[1..], a);
      var d :| d in runs[1..] && a == MakeAlert(d.score, d.id, d.timestamp);
      assert d in runs;
    }
  }

  /** The worked ordering example: scores 0.4, 0.8 and 0.35 in that order
      leave the three alerts newest first. */
  lemma RegistryOrderExample(id1: int, id2: int, id3: int, t1: int, t2: int, t3: int)
    ensures RecordAll([], [Completion(0.4, id1, t1), Completion(0.8, id2, t2), Completion(0.35, id3, t3)])
         == [MakeAlert(0.35, id3, t3), MakeAlert(0.8, id2, t2), MakeAlert(0.4, id1, t1)]
  {
    var runs := [Completion(0.4, id1, t1), Completion(0.8, id2, t2), Completion(0.35, id3, t3)];
    var a1, a2, a3 := MakeAlert(0.4, id1, t1), MakeAlert(0.8, id2, t2), MakeAlert(0.35, id3, t3);
    RecordAllNewestFirst([], runs);
    assert Raised(runs[2..]) == [a3] by {
      assert runs[2..][1..] == [];
    }
    assert Raised(runs[1..]) == [a2, a3] by {
      assert runs[1..][1..] == runs[2..];
    }
    assert Raised(runs) == [a1, a2, a3];
    assert Reversed([a3]) == [a3] by {
      assert [a3][1..] == [];
    }
    assert Reversed([a2, a3]) == [a3, a2] by {
      assert [a2, a3][1..] == [a3];
    }
    assert Reversed([a1, a2, a3]) == [a3, a2, a1] by {
      assert [a1, a2, a3][1..] == [a2, a3];
    }
  }

  /** The App's alert type and the view's alert level are thresholded
      differently: an alert is raised exactly when the level is not `Low`,
      a critical alert always has level `Critical`, but a score in
      (0.5, 0.7] has level `Critical` while its alert is only a warning. */
  lemma AlertTypeAgainstAlertLevel(score: real, id: int, timestamp: int)
    ensures RaisesAlert(score) <==> ChangeDetection.AlertLevelOf(score) != ChangeDetection.Low
    ensures RaisesAlert(score) <==> ChangeDetection.DetectionType(score) != ChangeDetection.NoSignificantChange
    ensures MakeAlert(score, id, timestamp).kind == "critical" <==>
            ChangeDetection.DetectionType(score) == ChangeDetection.Deforestation
    ensures MakeAlert(score, id, timestamp).kind == "critical" ==>
            ChangeDetection.AlertLevelOf(score) == ChangeDetection.Critical
    ensures ChangeDetection.AlertLevelOf(0.6) == ChangeDetection.Critical &&
            MakeAlert(0.6, id, timestamp).kind == "warning"
  {
  }

  /** After a completion that raises an alert, the panel's first card is
      that alert's, red when the score is above 0.7 and yellow otherwise. */
  lemma NewestCardFollowsScore(alerts: seq<Alert>, score: real, id: int, timestamp: int)
    requires RaisesAlert(score)
    ensures RenderPanel(Record(alerts, score, id, timestamp)).CardList?
    ensures var v := RenderPanel(Record(alerts, score, id, timestamp));
      v.cards[0].key == id && v.cards[0].score == score &&
      (ToneOf(v.cards[0].kind) == AlertsPanel.Red <==> score > 0.7) &&
      (ToneOf(v.cards[0].kind) == AlertsPanel.Yellow <==> score <= 0.7)
  {
  }

  /** The top-level state cells. */
  class Dashboard {
    var beforeImage: Option<string>
    var afterImage: Option<string>
    var isProcessing: bool
    var alerts: seq<Alert>
    var changeScore: real

    /** Every completion recorded so far, oldest first. */
    ghost var completed: seq<Completion>

    ghost predicate Valid()
      reads this
    {
      alerts == RecordAll([], completed) && changeScore == LastScore(completed)
    }

    constructor ()
      ensures Valid()
      ensures beforeImage == None && afterImage == None
      ensures !isProcessing && alerts == [] && changeScore == 0.0 && completed == []
    {
      beforeImage := None;
      afterImage := None;
      isProcessing := false;
      alerts := [];
      changeScore := 0.0;
      completed := [];
    }

    method SetBeforeImage(img: Option<string>)
      requires Valid()
      modifies this
      ensures Valid()
      ensures beforeImage == img && afterImage == old(afterImage)
      ensures isProcessing == old(isProcessing) && alerts == old(alerts)
      ensures changeScore == old(changeScore) && completed == old(completed)
    {
      beforeImage := img;
    }

    method SetAfterImage(img: Option<string>)
      requires Valid()
      modifies this
      ensures Valid()
      ensures afterImage == img && beforeImage == old(beforeImage)
      ensures isProcessing == old(isProcessing) && alerts == old(alerts)
      ensures changeScore == old(changeScore) && completed == old(completed)
    {
      afterImage := img;
    }

    /** Records a completed run's score: the score always becomes the
      current one, and an alert is prepended when the score is above 0.3. */
    method HandleProcessing(score: real, id: int, timestamp: int)
      requires Valid()
      modifies this
      ensures Valid()
      ensures changeScore == score
      ensures alerts == Record(old(alerts), score, id, timestamp)
      ensures completed == old(completed) + [Completion(score, id, timestamp)]
      ensures beforeImage == old(beforeImage) && afterImage == old(afterImage)
      ensures isProcessing == old(isProcessing)
    {
      RecordAllSnoc([], completed, Completion(score, id, timestamp));
      changeScore := score;
      if score > 0.3 {
        var newAlert := Alert(
          id,
          if score > 0.7 then "critical" else "warning",
          if score > 0.7 then CriticalMessage else ModerateMessage,
          timestamp,
          AlertLocation,
          score);
        alerts := [newAlert] + alerts;
      }
      completed := completed + [Completion(score, id, timestamp)];
    }

    /** The start callback handed to the uploader. */
    method OnProcessStart()
      requires Valid()
      modifies this
      ensures Valid()
      ensures isProcessing
      ensures beforeImage == old(beforeImage) && afterImage == old(afterImage)
      ensures alerts == old(alerts) && changeScore == old(changeScore) && completed == old(completed)
    {
      isProcessing := true;
    }

    /** The completion callback handed to the uploader: it clears the
      processing flag, then records the score. */
    method OnProcessComplete(score: real, id: int, timestamp: int)
      requires Valid()
      modifies this
      ensures Valid()
      ensures !isProcessing && changeScore == score
      ensures alerts == Record(old(alerts), score, id, timestamp)
      ensures completed == old(completed) + [Completion(score, id, timestamp)]
      ensures beforeImage == old(beforeImage) && afterImage == old(afterImage)
    {
      isProcessing := false;
      HandleProcessing(score, id, timestamp);
    }

    /** The change-detection panel is mounted only while some image is present. */
    predicate ShowsChangeDetection()
      reads this
    {
      Present(beforeImage) || Present(afterImage)
    }
  }

  /** While the dashboard mounts the change-detection panel, that panel
      never falls through to its upload prompt. */
  lemma MountedPanelNeverPrompts(d: Dashboard, showComparison: bool, sliderPosition: int, detectionType: string)
    requires d.ShowsChangeDetection()
    ensures ChangeDetection.Render(d.beforeImage, d.afterImage, d.isProcessing, d.changeScore,
                                   showComparison, sliderPosition, detectionType) != ChangeDetection.UploadPrompt
  {
  }

  /** The registry as a whole: every alert in a valid dashboard's list was
      raised by a recorded completion, newest first. */
  lemma RegistryIsHistory(d: Dashboard)
    requires d.Valid()
    ensures d.alerts == Reversed(Raised(d.completed))
  {
    RecordAllNewestFirst([], d.completed);
  }
}
