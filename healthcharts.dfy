/** The trend charts (components/HealthCharts.tsx): the entries each chart
    plots, put in time order, and the points drawn from them. */
module HealthCharts {
  import opened Wrappers
  import opened Types
  import Seqs

  /** The heart-rate and oxygen chart plots the heart-rate and SpO2 entries
      that carry a truthy bpm or oxygen value. */
  predicate IsCardioReading(l: LogEntry) {
    (l.logType == HeartRate || l.logType == SpO2) && (Truthy(l.details.bpm) || Truthy(l.details.oxygen))
  }

  /** The temperature chart plots the temperature entries with a truthy
      temperature. */
  predicate IsTempReading(l: LogEntry) {
    l.logType == Temperature && Truthy(l.details.temperature)
  }

  predicate SortedByTime(s: seq<LogEntry>) {
    forall i, j :: 0 <= i < j < |s| ==> s[i].timestamp <= s[j].timestamp
  }

  /** Inserts `x` into a time-ordered list, before the first entry that is
      not earlier than it. */
  function Insert(x: LogEntry, s: seq<LogEntry>): (r: seq<LogEntry>)
    requires SortedByTime(s)
    ensures SortedByTime(r)
    ensures multiset(r) == multiset(s) + multiset{x}
    ensures r[0] == x || (|s| > 0 && r[0] == s[0])
    decreases |s|
  {
    if |s| == 0 || x.timestamp <= s[0].timestamp then
      [x] + s
    else
      var rest := Insert(x, s[1..]);
      assert s == [s[0]] + s[1..];
      assert s[0].timestamp <= rest[0].timestamp;
      [s[0]] + rest
  }

  /** `sort((a, b) => a.timestamp - b.timestamp)`: ascending by time, the
      same entries as the input. */
  function SortByTime(s: seq<LogEntry>): (r: seq<LogEntry>)
    ensures SortedByTime(r)
    ensures multiset(r) == multiset(s)
    decreases |s|
  {
    if |s| == 0 then []
    else
      assert s == [s[0]] + s[1..];
      Insert(s[0], SortByTime(s[1..]))
  }

  /** One point of the heart-rate and oxygen chart. */
  datatype VitalPoint = VitalPoint(time: string, bpm: Option<Num>, spo2: Option<Num>)

  /** One point of the temperature chart. */
  datatype TempPoint = TempPoint(time: string, temp: Option<Num>)

  /** The entries behind `vitalsData`, in the order they are drawn. */
  function CardioSeries(logs: seq<LogEntry>): (r: seq<LogEntry>)
    ensures SortedByTime(r)
    ensures multiset(r) == multiset(Seqs.Filter(logs, IsCardioReading))
  {
    SortByTime(Seqs.Filter(logs, IsCardioReading))
  }

  /** The entries behind `tempData`, in the order they are drawn. */
  function TempSeries(logs: seq<LogEntry>): (r: seq<LogEntry>)
    ensures SortedByTime(r)
    ensures multiset(r) == multiset(Seqs.Filter(logs, IsTempReading))
  {
    SortByTime(Seqs.Filter(logs, IsTempReading))
  }

  /** `vitalsData`; `timeLabel` stands for the locale's hour-and-minute
      rendering of a timestamp. */
  function VitalsData(logs: seq<LogEntry>, timeLabel: int -> string): (r: seq<VitalPoint>)
    ensures |r| == |Seqs.Filter(logs, IsCardioReading)|
    ensures forall i :: 0 <= i < |r| ==>
      var e := CardioSeries(logs)[i];
      r[i] == VitalPoint(timeLabel(e.timestamp), e.details.bpm, e.details.oxygen)
  {
    var s := CardioSeries(logs);
    assert |s| == |multiset(s)|;
    seq(|s|, i requires 0 <= i < |s| => VitalPoint(timeLabel(s[i].timestamp), s[i].details.bpm, s[i].details.oxygen))
  }

  /** `tempData`. */
  function TempData(logs: seq<LogEntry>, timeLabel: int -> string): (r: seq<TempPoint>)
    ensures |r| == |Seqs.Filter(logs, IsTempReading)|
    ensures forall i :: 0 <= i < |r| ==>
      var e := TempSeries(logs)[i];
      r[i] == TempPoint(timeLabel(e.timestamp), e.details.temperature)
  {
    var s := TempSeries(logs);
    assert |s| == |multiset(s)|;
    seq(|s|, i requires 0 <= i < |s| => TempPoint(timeLabel(s[i].timestamp), s[i].details.temperature))
  }

  /** An entry is drawn on the heart-rate and oxygen chart exactly when it is
      in the log and is a heart-rate or SpO2 entry with a truthy reading. */
  lemma CardioSeriesMembers(logs: seq<LogEntry>, e: LogEntry)
    ensures e in CardioSeries(logs) <==> e in logs && IsCardioReading(e)
  {
    Seqs.FilterMultiset(logs, IsCardioReading);
    assert e in CardioSeries(logs) <==> e in multiset(CardioSeries(logs));
  }

  /** An entry is drawn on the temperature chart exactly when it is in the
      log and is a temperature entry with a truthy temperature. */
  lemma TempSeriesMembers(logs: seq<LogEntry>, e: LogEntry)
    ensures e in TempSeries(logs) <==> e in logs && IsTempReading(e)
  {
    Seqs.FilterMultiset(logs, IsTempReading);
    assert e in TempSeries(logs) <==> e in multiset(TempSeries(logs));
  }

  /** The two charts draw disjoint sets of entries. */
  lemma ChartsDisjoint(logs: seq<LogEntry>, e: LogEntry)
    ensures !(e in CardioSeries(logs) && e in TempSeries(logs))
  {
    CardioSeriesMembers(logs, e);
    TempSeriesMembers(logs, e);
  }
}
