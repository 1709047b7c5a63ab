/** The clinical report screen (components/ReportView.tsx): the table of
    recent vital observations and the chat transcript handed to the report
    writer. */
module ReportView {
  import opened Wrappers
  import opened Types
  import Seqs
  import AgentChat
  import Text
  import LogModal

  /** The three types the observation table lists. */
  predicate IsVital(l: LogEntry) {
    l.logType == Temperature || l.logType == HeartRate || l.logType == SpO2
  }

  /** The number of vital entries in a list. */
  function VitalCount(logs: seq<LogEntry>): nat {
    |Seqs.Filter(logs, IsVital)|
  }

  /** `latestVitals`: the first five vital entries of the newest-first list,
      in list order. */
  function LatestVitals(logs: seq<LogEntry>): (r: seq<LogEntry>)
    ensures |r| == if VitalCount(logs) < 5 then VitalCount(logs) else 5
    ensures forall i :: 0 <= i < |r| ==> IsVital(r[i])
    ensures multiset(r) <= multiset(logs)
  {
    var vitals := Seqs.Filter(logs, IsVital);
    var r := Seqs.Take(vitals, 5);
    assert vitals == r + vitals[|r|..];
    Seqs.FilterMultiset(logs, IsVital);
    assert multiset(r) <= multiset(vitals);
    r
  }

  /** No vital entry is skipped: the vital entry at position `i` of the list,
      when fewer than five vital entries come before it, is shown in the row
      numbered by how many vital entries come before it. */
  lemma {:induction false} LatestVitalsNothingSkipped(logs: seq<LogEntry>, i: nat)
    requires i < |logs| && IsVital(logs[i]) && VitalCount(logs[..i]) < 5
    ensures VitalCount(logs[..i]) < |LatestVitals(logs)|
    ensures LatestVitals(logs)[VitalCount(logs[..i])] == logs[i]
  {
    var before := logs[..i];
    assert logs == before + [logs[i]] + logs[i + 1..];
    Seqs.FilterAppend(before + [logs[i]], logs[i + 1..], IsVital);
    Seqs.FilterAppend(before, [logs[i]], IsVital);
    assert Seqs.Filter([logs[i]], IsVital) == [logs[i]] by {
      assert [logs[i]][1..] == [];
    }
  }

  /** Logging a vital puts it at the top of the table and pushes the oldest
      row out once there are five; logging anything else leaves the table
      as it was. */
  lemma LatestVitalsAfterSave(e: LogEntry, logs: seq<LogEntry>)
    ensures IsVital(e) ==> LatestVitals([e] + logs) == Seqs.Take([e] + LatestVitals(logs), 5)
    ensures !IsVital(e) ==> LatestVitals([e] + logs) == LatestVitals(logs)
  {
    assert ([e] + logs)[1..] == logs;
    var vitals := Seqs.Filter(logs, IsVital);
    if IsVital(e) {
      assert Seqs.Filter([e] + logs, IsVital) == [e] + vitals;
      if |vitals| >= 5 {
        assert ([e] + vitals)[..5] == [e] + vitals[..4];
        assert ([e] + vitals[..5])[..5] == [e] + vitals[..4];
      }
    }
  }

  /** The recorded-value cell: the first truthy of temperature, bpm and
      oxygen, or "--". */
  datatype Shown = Reading(value: real) | Dashes

  function ShownValue(d: Details): (r: Shown)
    ensures r.Dashes? <==> !Truthy(d.temperature) && !Truthy(d.bpm) && !Truthy(d.oxygen)
    ensures r.Reading? ==> r.value != 0.0
    ensures r.Reading? ==>
      (Truthy(d.temperature) && r.value == ValueOf(d.temperature))
      || (!Truthy(d.temperature) && Truthy(d.bpm) && r.value == ValueOf(d.bpm))
      || (!Truthy(d.temperature) && !Truthy(d.bpm) && r.value == ValueOf(d.oxygen))
  {
    if Truthy(d.temperature) then Reading(ValueOf(d.temperature))
    else if Truthy(d.bpm) then Reading(ValueOf(d.bpm))
    else if Truthy(d.oxygen) then Reading(ValueOf(d.oxygen))
    else Dashes
  }

  /** The unit after the value, as the file spells it: the temperature unit
      reads U+00C2 U+00B0 followed by 'C'. */
  function Unit(t: LogType): (r: string)
    ensures r == "%" <==> t != Temperature && t != HeartRate
  {
    if t == Temperature then "\U{00C2}\U{00B0}C"
    else if t == HeartRate then "BPM"
    else "%"
  }

  /** An entry that holds only its own vital, as the quick-log dialog saves
      it, shows that vital's reading; a zero or NaN reading shows "--". */
  lemma ShownValueOfSingleVital(t: LogType, v: Num, note: string)
    requires t == Temperature || t == HeartRate || t == SpO2
    ensures ShownValue(LogModal.BuildDetails(t, note, v))
         == if v.Finite? && v.value != 0.0 then Reading(v.value) else Dashes
  {
  }

  /** `chatText`: the last ten messages as "role: text" lines. */
  function ChatText(history: seq<ChatMessage>): (r: string)
    ensures history == [] ==> r == ""
  {
    AgentChat.Transcript(Seqs.TakeLast(history, 10))
  }

  /** With messages free of line breaks, the chat text has one line per
      message for the last (at most) ten, in order. */
  lemma ChatTextLines(history: seq<ChatMessage>)
    requires |history| >= 1 && forall i :: 0 <= i < |history| ==> '\n' !in history[i].text
    ensures var recent := Seqs.TakeLast(history, 10);
      && |recent| == (if |history| < 10 then |history| else 10)
      && recent == history[|history| - |recent|..]
      && Text.Split(ChatText(history), '\n')
         == seq(|recent|, i requires 0 <= i < |recent| => AgentChat.TranscriptLine(recent[i]))
  {
    var recent := Seqs.TakeLast(history, 10);
    forall i | 0 <= i < |recent| ensures '\n' !in recent[i].text {
      assert recent[i] == history[|history| - |recent| + i];
    }
    AgentChat.TranscriptLines(recent);
  }
}
