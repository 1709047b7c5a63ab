/** Sequences of events run against the root component's state, showing how
    the alarm engine of App.tsx behaves across several saves. */
module AlarmScenarios {
  import opened Wrappers
  import opened Types
  import App

  /** A reading of the given type and value, as the quick-log dialog saves
      it. */
  function Reading(t: LogType, v: real, time: int): (e: NewEntry)
    requires t == Temperature || t == HeartRate || t == SpO2
    ensures e.logType == t && e.timestamp == time
    ensures forall id :: App.ClassifyNewest(LogEntry(id, t, time, e.details))
                         == if v != 0.0 then App.BandSeverity(t, v) else Stable
  {
    var d := match t
      case Temperature => NoDetails.(temperature := Some(Finite(v)))
      case HeartRate => NoDetails.(bpm := Some(Finite(v)))
      case _ => NoDetails.(oxygen := Some(Finite(v)));
    NewEntry(t, time, d)
  }

  /** The example readings grade as the thresholds say: a fever of 39.6 is
      an emergency, 93 percent oxygen a warning, 170 bpm a warning. */
  lemma ExampleGrades()
    ensures App.TemperatureSeverity(39.6) == Emergency
    ensures App.OxygenSeverity(93.0) == Warning
    ensures App.HeartRateSeverity(170.0) == Warning
    ensures App.TemperatureSeverity(37.8) == Stable && App.TemperatureSeverity(37.9) == Warning
  {
  }

  /** A warning followed by an emergency: the severity rises to EMERGENCY
      but the interval started for the warning keeps running, so the
      emergency is announced with the warning beep. */
  method EscalationKeepsWarningBeep() returns (severity: Severity, interval: Option<App.Timer>, beeps: seq<App.Tone>)
    ensures severity == Emergency
    ensures interval == Some(App.AlarmTimer(false))
    ensures beeps == [App.AlarmTone(false)]
  {
    var app := new App.AppState();
    app.SaveLog(Reading(HeartRate, 170.0, 1000), "a");
    app.SaveLog(Reading(Temperature, 39.6, 2000), "b");
    severity, interval, beeps := app.severity, app.alarmInterval, app.beeps;
  }

  /** Muting silences the alarm, and the next abnormal reading starts it
      again with a fresh beep. */
  method MuteThenRearm() returns (mutedActive: bool, rearmedActive: bool, beeps: seq<App.Tone>)
    ensures !mutedActive && rearmedActive
    ensures beeps == [App.AlarmTone(true), App.AlarmTone(false)]
  {
    var app := new App.AppState();
    app.SaveLog(Reading(SpO2, 85.0, 1000), "a");
    app.Mute();
    mutedActive := app.isAlarmActive;
    app.SaveLog(Reading(SpO2, 93.0, 2000), "b");
    rearmedActive := app.isAlarmActive;
    beeps := app.beeps;
  }

  /** A normal reading after an emergency stops the alarm and clears the
      interval. */
  method RecoveryStopsAlarm() returns (severity: Severity, active: bool, interval: Option<App.Timer>)
    ensures severity == Stable && !active && interval.None?
  {
    var app := new App.AppState();
    app.SaveLog(Reading(Temperature, 39.6, 1000), "a");
    app.SaveLog(Reading(Temperature, 36.8, 2000), "b");
    severity, active, interval := app.severity, app.isAlarmActive, app.alarmInterval;
  }

  /** Only the newest entry is graded: logging a feeding right after an
      emergency reading silences the alarm and hides the Alert Doctor
      button. */
  method FeedingSilencesEmergency() returns (before: bool, after: bool, severity: Severity)
    ensures before && !after && severity == Stable
  {
    var app := new App.AppState();
    app.SaveLog(Reading(HeartRate, 60.0, 1000), "a");
    before := app.AlertButtonShown();
    app.SaveLog(NewEntry(Feeding, 2000, NoDetails.(amount := Some(Finite(4.0)))), "b");
    after := app.AlertButtonShown();
    severity := app.severity;
  }
}
