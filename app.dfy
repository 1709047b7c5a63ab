/** The vital-sign alarm engine of the root component (App.tsx): the
    classifier that grades the newest log entry, the alarm controller that
    starts and stops the repeating beep, and the escalation message sent to
    the doctor. */
module App {
  import opened Wrappers
  import opened Types
  import Text

  // ---------------------------------------------------------------------------
  // Severity classifier
  // ---------------------------------------------------------------------------

  /** Temperature in degrees Celsius: normal 36.0 to 37.8, emergency at or
      beyond 35.0 and 39.5. */
  function TemperatureSeverity(t: real): (s: Severity)
    ensures s == Stable <==> 36.0 <= t <= 37.8
    ensures s == Emergency <==> (t <= 35.0 || 39.5 <= t)
  {
    if t >= 39.5 || t <= 35.0 then Emergency
    else if t > 37.8 || t < 36.0 then Warning
    else Stable
  }

  /** Heart rate in beats per minute: normal 90 to 165, emergency below 70 or
      above 185. */
  function HeartRateSeverity(bpm: real): (s: Severity)
    ensures s == Stable <==> 90.0 <= bpm <= 165.0
    ensures s == Emergency <==> (bpm < 70.0 || 185.0 < bpm)
  {
    if bpm > 185.0 || bpm < 70.0 then Emergency
    else if bpm > 165.0 || bpm < 90.0 then Warning
    else Stable
  }

  /** Oxygen saturation in percent: normal from 94 up, emergency below 90. */
  function OxygenSeverity(oxygen: real): (s: Severity)
    ensures s == Stable <==> 94.0 <= oxygen
    ensures s == Emergency <==> oxygen < 90.0
  {
    if oxygen < 90.0 then Emergency
    else if oxygen < 94.0 then Warning
    else Stable
  }

  /** The field the classifier reads for an entry of a monitored type; None
      for every other type. */
  function MonitoredReading(e: LogEntry): Option<Num> {
    match e.logType
    case Temperature => e.details.temperature
    case HeartRate => e.details.bpm
    case SpO2 => e.details.oxygen
    case _ => None
  }

  /** The band of a monitored vital type. */
  function BandSeverity(t: LogType, v: real): Severity {
    match t
    case Temperature => TemperatureSeverity(v)
    case HeartRate => HeartRateSeverity(v)
    case SpO2 => OxygenSeverity(v)
    case _ => Stable
  }

  /** The severity the effect computes from the newest entry `logs[0]`: a
      monitored reading that is missing, zero or NaN counts as absent and
      gives STABLE, as does an entry of any other type. */
  function ClassifyNewest(latest: LogEntry): (s: Severity)
    ensures !Truthy(MonitoredReading(latest)) ==> s == Stable
    ensures Truthy(MonitoredReading(latest)) ==>
      s == BandSeverity(latest.logType, ValueOf(MonitoredReading(latest)))
  {
    var d := latest.details;
    if latest.logType == Temperature && Truthy(d.temperature) then TemperatureSeverity(ValueOf(d.temperature))
    else if latest.logType == HeartRate && Truthy(d.bpm) then HeartRateSeverity(ValueOf(d.bpm))
    else if latest.logType == SpO2 && Truthy(d.oxygen) then OxygenSeverity(ValueOf(d.oxygen))
    else Stable
  }

  /** As the effect grades it, a temperature reading at least as far from
      the normal range as another, on the same side, is graded at least as
      severe, provided both readings are truthy (non-zero, not NaN). */
  lemma TemperatureMonotone(e1: LogEntry, e2: LogEntry)
    requires e1.logType == Temperature && e2.logType == Temperature
    requires Truthy(e1.details.temperature) && Truthy(e2.details.temperature)
    requires var t1, t2 := ValueOf(e1.details.temperature), ValueOf(e2.details.temperature);
      36.0 <= t1 <= t2 || t2 <= t1 <= 37.8
    ensures ClassifyNewest(e1).Rank() <= ClassifyNewest(e2).Rank()
  {
  }

  /** The same for heart rate, on truthy readings. */
  lemma HeartRateMonotone(e1: LogEntry, e2: LogEntry)
    requires e1.logType == HeartRate && e2.logType == HeartRate
    requires Truthy(e1.details.bpm) && Truthy(e2.details.bpm)
    requires var b1, b2 := ValueOf(e1.details.bpm), ValueOf(e2.details.bpm);
      90.0 <= b1 <= b2 || b2 <= b1 <= 165.0
    ensures ClassifyNewest(e1).Rank() <= ClassifyNewest(e2).Rank()
  {
  }

  /** Lower oxygen is never graded less severe, on truthy readings. */
  lemma OxygenMonotone(e1: LogEntry, e2: LogEntry)
    requires e1.logType == SpO2 && e2.logType == SpO2
    requires Truthy(e1.details.oxygen) && Truthy(e2.details.oxygen)
    requires ValueOf(e2.details.oxygen) <= ValueOf(e1.details.oxygen)
    ensures ClassifyNewest(e1).Rank() <= ClassifyNewest(e2).Rank()
  {
  }

  /** The truthiness test breaks that order at zero: a reading of exactly 0
      counts as absent and grades STABLE, although its band is EMERGENCY for
      each of the three vitals. */
  lemma ZeroReadingGradesStable(e: LogEntry)
    requires e.logType == Temperature || e.logType == HeartRate || e.logType == SpO2
    requires MonitoredReading(e) == Some(Finite(0.0))
    ensures BandSeverity(e.logType, 0.0) == Emergency
    ensures ClassifyNewest(e) == Stable
  {
  }

  /** Only the newest entry is graded: whatever lies behind it, and however
      critical an older reading was, the severity is that of `logs[0]`. */
  lemma OnlyNewestCounts(latest: LogEntry, older1: seq<LogEntry>, older2: seq<LogEntry>)
    ensures ClassifyNewest(([latest] + older1)[0]) == ClassifyNewest(([latest] + older2)[0])
    ensures !Truthy(MonitoredReading(latest)) ==> ClassifyNewest(([latest] + older1)[0]) == Stable
  {
  }

  // ---------------------------------------------------------------------------
  // Alarm tones
  // ---------------------------------------------------------------------------

  datatype Waveform = Sine | Sawtooth

  /** One beep: oscillator waveform and pitch, how long it sounds, its gain. */
  datatype Tone = Tone(waveform: Waveform, frequencyHz: nat, durationMs: nat, gain: real)

  /** A live `setInterval` that repeats `beep` every `periodMs`. */
  datatype Timer = Timer(periodMs: nat, beep: Tone)

  /** The beep of `playAlarmSound(isEmergency)`. */
  function AlarmTone(isEmergency: bool): (t: Tone)
    ensures t.durationMs == 300 && t.gain == 0.1
    ensures t.waveform == Sawtooth <==> isEmergency
    ensures t.frequencyHz == (if isEmergency then 1200 else 880)
  {
    Tone(if isEmergency then Sawtooth else Sine, if isEmergency then 1200 else 880, 300, 0.1)
  }

  /** The interval of `playAlarmSound(isEmergency)`. */
  function AlarmTimer(isEmergency: bool): (t: Timer)
    ensures t.beep == AlarmTone(isEmergency)
    ensures t.periodMs == (if isEmergency then 500 else 1200)
  {
    Timer(if isEmergency then 500 else 1200, AlarmTone(isEmergency))
  }

  /** The emergency alarm is harsher, higher and faster than the warning alarm,
      so the two can be told apart by ear. */
  lemma EmergencyAlarmDistinct()
    ensures AlarmTone(true).waveform != AlarmTone(false).waveform
    ensures AlarmTone(true).frequencyHz > AlarmTone(false).frequencyHz
    ensures AlarmTimer(true).periodMs < AlarmTimer(false).periodMs
  {
  }

  // ---------------------------------------------------------------------------
  // Escalation message
  // ---------------------------------------------------------------------------

  const DefaultDoctorPhone := "919999999999"
  /** "Please check NurtureAI Dashboard immediately.", written in short pieces
      so that the verifier can see at a glance that it holds no line break. */
  const AlertFooter := "Please" + " check " + "Nurture" + "AI Dash" + "board " + "immed" + "iately."

  /** The message and the `wa.me` link opened in a new window. */
  datatype Alert = Alert(message: string, phone: string, url: string)

  /** One `TYPE: details` line for each of the (at most) three newest entries;
      `stringify` stands for `JSON.stringify`. */
  function VitalsLines(logs: seq<LogEntry>, stringify: Details -> string): (lines: seq<string>)
    ensures |lines| == if |logs| < 3 then |logs| else 3
    ensures forall i :: 0 <= i < |lines| ==> lines[i] == logs[i].logType.Name() + ": " + stringify(logs[i].details)
  {
    var n := if |logs| < 3 then |logs| else 3;
    seq(n, i requires 0 <= i < n => logs[i].logType.Name() + ": " + stringify(logs[i].details))
  }

  /** The destination: the profile's doctor phone, or the default number when
      that is missing or empty. */
  function DoctorPhone(p: InfantProfile): (phone: string)
    ensures p.doctorPhone.Some? && p.doctorPhone.value != "" ==> phone == p.doctorPhone.value
    ensures !(p.doctorPhone.Some? && p.doctorPhone.value != "") ==> phone == DefaultDoctorPhone
  {
    if p.doctorPhone.Some? && p.doctorPhone.value != "" then p.doctorPhone.value else DefaultDoctorPhone
  }

  /** The template of the message, line by line: the name, the severity label,
      a heading, the vitals block and the footer. */
  function AlertMessage(p: InfantProfile, logs: seq<LogEntry>, severity: Severity, stringify: Details -> string): string {
    Text.Join(["EMERGENCY ALERT for " + p.name + "!", "Severity: " + severity.Label(), "Latest Vitals:",
               Text.Join(VitalsLines(logs, stringify), "\n"), AlertFooter], "\n")
  }

  /** `triggerEmergencyAlert`: nothing without a profile; otherwise the
      message, and the link that carries it URI-encoded (`encodeUri` stands for
      `encodeURIComponent`). */
  function EmergencyAlert(profile: Option<InfantProfile>, logs: seq<LogEntry>, severity: Severity,
                          stringify: Details -> string, encodeUri: string -> string): (r: Option<Alert>)
    ensures r.None? <==> profile.None?
    ensures r.Some? ==> r.value.phone == DoctorPhone(profile.value)
    ensures r.Some? ==> r.value.message == AlertMessage(profile.value, logs, severity, stringify)
    ensures r.Some? ==> r.value.url == "https://wa.me/" + r.value.phone + "?text=" + encodeUri(r.value.message)
  {
    match profile
    case None => None
    case Some(p) =>
      var message := AlertMessage(p, logs, severity, stringify);
      var phone := DoctorPhone(p);
      Some(Alert(message, phone, "https://wa.me/" + phone + "?text=" + encodeUri(message)))
  }

  /** Read line by line, the message names the baby, states the severity
      label, lists exactly the three (or fewer) newest entries newest first,
      and ends with the footer; this holds when neither the name nor any
      serialised `details` contains a line break, as `JSON.stringify` without
      indentation never does. */
  lemma {:induction false} AlertMessageLines(p: InfantProfile, logs: seq<LogEntry>, severity: Severity,
                                             stringify: Details -> string)
    requires |logs| > 0
    requires '\n' !in p.name
    requires forall d :: '\n' !in stringify(d)
    ensures Text.Split(AlertMessage(p, logs, severity, stringify), '\n')
         == ["EMERGENCY ALERT for " + p.name + "!", "Severity: " + severity.Label(), "Latest Vitals:"]
            + VitalsLines(logs, stringify) + [AlertFooter]
  {
    VitalsLinesAreLines(logs, stringify);
    NameLineIsLine(p.name);
    SeverityLineIsLine(severity);
    FixedLinesAreLines();
    TemplateLines("EMERGENCY ALERT for " + p.name + "!", "Severity: " + severity.Label(), "Latest Vitals:",
                  VitalsLines(logs, stringify), AlertFooter);
  }

  /** The lines of the five-part template around a block of lines. */
  lemma TemplateLines(l1: string, l2: string, l3: string, lines: seq<string>, footer: string)
    requires '\n' !in l1 && '\n' !in l2 && '\n' !in l3 && '\n' !in footer
    requires |lines| >= 1 && forall i :: 0 <= i < |lines| ==> '\n' !in lines[i]
    ensures Text.Split(Text.Join([l1, l2, l3, Text.Join(lines, "\n"), footer], "\n"), '\n')
         == [l1, l2, l3] + lines + [footer]
  {
    var body := Text.Join(lines, "\n");
    Text.SplitJoin(lines, '\n');
    FiveLines(l1, l2, l3, body, footer, lines);
  }

  lemma FiveLines(l1: string, l2: string, l3: string, body: string, footer: string, bodyLines: seq<string>)
    requires '\n' !in l1 && '\n' !in l2 && '\n' !in l3 && '\n' !in footer
    requires Text.Split(body, '\n') == bodyLines
    ensures Text.Split(Text.Join([l1, l2, l3, body, footer], "\n"), '\n') == [l1, l2, l3] + bodyLines + [footer]
  {
    var r4 := [body, footer];
    var r3 := [l3] + r4;
    var r2 := [l2] + r3;
    var r1 := [l1] + r2;
    assert r1 == [l1, l2, l3, body, footer];
    assert [l1] + ([l2] + ([l3] + (bodyLines + [footer]))) == [l1, l2, l3] + bodyLines + [footer];
    Text.SplitNoSeparator(footer, '\n');
    SplitLine(body, footer);
    assert Text.Join(r4, "\n") == body + "\n" + footer;
    PrependLine(l3, r4);
    PrependLine(l2, r3);
    PrependLine(l1, r2);
  }

  /** A first part without a line break is the first line. */
  lemma PrependLine(a: string, rest: seq<string>)
    requires |rest| >= 1 && '\n' !in a
    ensures Text.Split(Text.Join([a] + rest, "\n"), '\n') == [a] + Text.Split(Text.Join(rest, "\n"), '\n')
  {
    assert ([a] + rest)[1..] == rest;
    SplitLine(a, Text.Join(rest, "\n"));
    Text.SplitNoSeparator(a, '\n');
  }

  lemma VitalsLinesAreLines(logs: seq<LogEntry>, stringify: Details -> string)
    requires forall d :: '\n' !in stringify(d)
    ensures forall i :: 0 <= i < |VitalsLines(logs, stringify)| ==> '\n' !in VitalsLines(logs, stringify)[i]
  {
    var lines := VitalsLines(logs, stringify);
    forall i | 0 <= i < |lines| ensures '\n' !in lines[i] {
      var t := logs[i].logType;
      assert '\n' !in t.Name() by { match t { case _ => } }
      assert '\n' !in stringify(logs[i].details);
    }
  }

  lemma NameLineIsLine(name: string)
    requires '\n' !in name
    ensures '\n' !in "EMERGENCY ALERT for " + name + "!"
  {
    assert '\n' !in "EMERGENCY ALERT for " && '\n' !in "!";
  }

  lemma SeverityLineIsLine(severity: Severity)
    ensures '\n' !in "Severity: " + severity.Label()
  {
    assert '\n' !in "Severity: ";
    assert '\n' !in severity.Label() by { match severity { case _ => } }
  }

  lemma FixedLinesAreLines()
    ensures '\n' !in "Latest Vitals:" && '\n' !in AlertFooter
  {
    FooterIsLine();
    assert "Latest Vitals:" == "Latest" + " Vitals:";
    assert '\n' !in "Latest" && '\n' !in " Vitals:";
  }

  lemma FooterIsLine()
    ensures '\n' !in AlertFooter
  {
    assert '\n' !in "Please" && '\n' !in " check " && '\n' !in "Nurture";
    assert '\n' !in "AI Dash" && '\n' !in "board " && '\n' !in "immed" && '\n' !in "iately.";
  }

  /** Splitting `a + "\n" + b` on line breaks gives the lines of `a` then
      those of `b`. */
  lemma SplitLine(a: string, b: string)
    ensures Text.Split(a + "\n" + b, '\n') == Text.Split(a, '\n') + Text.Split(b, '\n')
  {
    Text.SplitAppend(a, b, '\n');
    assert a + "\n" + b == a + ['\n'] + b;
  }

  // ---------------------------------------------------------------------------
  // The component's state and the alarm controller
  // ---------------------------------------------------------------------------

  /** The state of the root component that the alarm engine touches: the log
      list (newest first), the profile, the `severity` and `isAlarmActive`
      state, and the refs `alarmIntervalRef` and `audioCtxRef`. `beeps`
      records the beep each start sounds at once. The ghost counters record
      how many intervals are live and how many audio contexts were created. */
  class AppState {
    var logs: seq<LogEntry>
    var profile: Option<InfantProfile>
    var severity: Severity
    var isAlarmActive: bool
    var alarmInterval: Option<Timer>
    var hasAudioContext: bool
    var beeps: seq<Tone>
    ghost var liveIntervals: nat
    ghost var audioContextsCreated: nat

    /** The flag and the refs agree: active exactly when an interval is held;
        never more than one live interval; at most one audio context, created
        by the first start. */
    ghost predicate RefsValid()
      reads this
    {
      && (isAlarmActive <==> alarmInterval.Some?)
      && liveIntervals == (if alarmInterval.Some? then 1 else 0)
      && audioContextsCreated == (if hasAudioContext then 1 else 0)
      && (isAlarmActive ==> hasAudioContext)
    }

    /** Between events, besides: the alarm sounds only at a non-STABLE
        severity. */
    ghost predicate Valid()
      reads this
    {
      RefsValid() && (isAlarmActive ==> severity != Stable)
    }

    /** The initial state: no logs, no profile, STABLE, silent. */
    constructor ()
      ensures Valid()
      ensures logs == [] && profile == None && severity == Stable
      ensures !isAlarmActive && alarmInterval == None && !hasAudioContext && beeps == []
    {
      logs := [];
      profile := None;
      severity := Stable;
      isAlarmActive := false;
      alarmInterval := None;
      hasAudioContext := false;
      beeps := [];
      liveIntervals := 0;
      audioContextsCreated := 0;
    }

    /** The Alert Doctor button is on screen only while the alarm sounds at
        EMERGENCY. */
    predicate AlertButtonShown()
      reads this
    {
      isAlarmActive && severity == Emergency
    }

    /** `stopAlarmSound`: clears the interval if one is held and lowers the
        flag; severity, logs and the audio context are untouched. */
    method StopAlarmSound()
      requires RefsValid()
      modifies this
      ensures Valid()
      ensures !isAlarmActive && alarmInterval == None
      ensures severity == old(severity) && logs == old(logs) && profile == old(profile)
      ensures hasAudioContext == old(hasAudioContext) && beeps == old(beeps)
      ensures audioContextsCreated == old(audioContextsCreated)
    {
      if alarmInterval.Some? {
        alarmInterval := None;
        liveIntervals := liveIntervals - 1;
      }
      isAlarmActive := false;
    }

    /** `playAlarmSound(isEmergency)`: a no-op while active; otherwise raises
        the flag, creates the audio context if there is none, sounds one beep
        at once and starts the repeating interval. Its only caller, the logs
        effect, has just set a non-STABLE severity. */
    method PlayAlarmSound(isEmergency: bool)
      requires RefsValid() && severity != Stable
      modifies this
      ensures Valid()
      ensures severity == old(severity) && logs == old(logs) && profile == old(profile)
      ensures old(isAlarmActive) ==>
                (isAlarmActive && alarmInterval == old(alarmInterval) && beeps == old(beeps)
                 && hasAudioContext && audioContextsCreated == old(audioContextsCreated))
      ensures !old(isAlarmActive) ==>
                (isAlarmActive && alarmInterval == Some(AlarmTimer(isEmergency))
                 && beeps == old(beeps) + [AlarmTone(isEmergency)] && hasAudioContext)
      ensures old(hasAudioContext) ==> audioContextsCreated == old(audioContextsCreated)
    {
      if isAlarmActive {
        return;
      }
      isAlarmActive := true;
      if !hasAudioContext {
        hasAudioContext := true;
        audioContextsCreated := audioContextsCreated + 1;
      }
      beeps := beeps + [AlarmTone(isEmergency)];
      alarmInterval := Some(AlarmTimer(isEmergency));
      liveIntervals := liveIntervals + 1;
    }

    /** The effect that runs after each change of `logs`: nothing on an empty
        list; otherwise the newest entry's severity is stored and the alarm is
        started (a no-op if already sounding, so an escalation from WARNING to
        EMERGENCY keeps the WARNING beep) or stopped. */
    method LogsEffect()
      requires Valid()
      modifies this
      ensures Valid()
      ensures logs == old(logs) && profile == old(profile)
      ensures audioContextsCreated <= 1
      ensures |logs| == 0 ==>
                (severity == old(severity) && isAlarmActive == old(isAlarmActive) && alarmInterval == old(alarmInterval)
                 && hasAudioContext == old(hasAudioContext) && beeps == old(beeps))
      ensures |logs| > 0 ==> severity == ClassifyNewest(logs[0])
      ensures |logs| > 0 ==> (isAlarmActive <==> severity != Stable)
      ensures |logs| > 0 && severity == Stable ==> alarmInterval == None && beeps == old(beeps)
      ensures |logs| > 0 && severity != Stable && old(isAlarmActive) ==>
                (alarmInterval == old(alarmInterval) && beeps == old(beeps))
      ensures |logs| > 0 && severity != Stable && !old(isAlarmActive) ==>
                (alarmInterval == Some(AlarmTimer(severity == Emergency))
                 && beeps == old(beeps) + [AlarmTone(severity == Emergency)])
      ensures hasAudioContext == (old(hasAudioContext) || isAlarmActive)
    {
      if |logs| == 0 {
        return;
      }
      var current := ClassifyNewest(logs[0]);
      severity := current;
      if current == Emergency {
        PlayAlarmSound(true);
      } else if current == Warning {
        PlayAlarmSound(false);
      } else {
        StopAlarmSound();
      }
    }

    /** The Mute button: `stopAlarmSound` itself. */
    method Mute()
      requires Valid()
      modifies this
      ensures Valid()
      ensures !isAlarmActive && alarmInterval == None && liveIntervals == 0
      ensures severity == old(severity) && logs == old(logs) && profile == old(profile)
      ensures hasAudioContext == old(hasAudioContext) && beeps == old(beeps)
      ensures !old(isAlarmActive) ==> alarmInterval == old(alarmInterval)
    {
      StopAlarmSound();
    }

    /** `saveLog`: the entry gets its id and is put in front of the list, and
        the logs effect runs on the new list. */
    method SaveLog(entry: NewEntry, id: string)
      requires Valid()
      modifies this
      ensures Valid()
      ensures logs == [LogEntry(id, entry.logType, entry.timestamp, entry.details)] + old(logs)
      ensures profile == old(profile)
      ensures severity == ClassifyNewest(logs[0])
      ensures isAlarmActive <==> severity != Stable
      ensures severity != Stable && old(isAlarmActive) ==> alarmInterval == old(alarmInterval) && beeps == old(beeps)
      ensures severity != Stable && !old(isAlarmActive) ==>
                (alarmInterval == Some(AlarmTimer(severity == Emergency))
                 && beeps == old(beeps) + [AlarmTone(severity == Emergency)])
      ensures severity == Stable ==> alarmInterval == None && beeps == old(beeps)
    {
      logs := [LogEntry(id, entry.logType, entry.timestamp, entry.details)] + logs;
      LogsEffect();
    }

    /** `handleAuth`: stores the profile and, when there are no logs yet,
        seeds one FEEDING entry an hour old, which the logs effect grades
        STABLE. */
    method HandleAuth(userProfile: InfantProfile, now: int)
      requires Valid()
      modifies this
      ensures Valid()
      ensures profile == Some(userProfile)
      ensures old(logs) != [] ==>
                (logs == old(logs) && severity == old(severity)
                 && isAlarmActive == old(isAlarmActive) && alarmInterval == old(alarmInterval))
      ensures old(logs) == [] ==> logs == [SeedEntry(now)] && severity == Stable && !isAlarmActive
      ensures beeps == old(beeps)
    {
      profile := Some(userProfile);
      if logs == [] {
        logs := [SeedEntry(now)];
        LogsEffect();
      }
    }

    /** `triggerEmergencyAlert`: the link handed to `window.open`, if any;
        the alarm state is not touched. */
    method TriggerEmergencyAlert(stringify: (Details -> string), encodeUri: (string -> string)) returns (link: Option<string>)
      ensures link.None? <==> profile.None?
      ensures link.Some? ==> link.value == EmergencyAlert(profile, logs, severity, stringify, encodeUri).value.url
    {
      var alert := EmergencyAlert(profile, logs, severity, stringify, encodeUri);
      if alert.Some? {
        link := Some(alert.value.url);
      } else {
        link := None;
      }
    }
  }

  /** The entry `handleAuth` seeds: id '1', FEEDING of 4 with the note
      "Good intake", an hour before `now`. */
  function SeedEntry(now: int): (e: LogEntry)
    ensures e.logType == Feeding && e.timestamp == now - 3600000
    ensures ClassifyNewest(e) == Stable
  {
    LogEntry("1", Feeding, now - 3600000, NoDetails.(amount := Some(Finite(4.0)), note := Some("Good intake")))
  }
}
