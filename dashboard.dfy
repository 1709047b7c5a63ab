/** The home screen's vital cards (components/Dashboard.tsx): the newest entry
    of each card's type, the card's warning status against the card's own
    thresholds, and the "time ago" caption. */
module Dashboard {
  import opened Wrappers
  import opened Types
  import Seqs
  import Text
  import App

  /** The newest entry of type `t` in the newest-first list
      (`logs.find(l => l.type === t)`). */
  function Latest(logs: seq<LogEntry>, t: LogType): (r: Option<LogEntry>)
    ensures r.None? <==> forall j :: 0 <= j < |logs| ==> logs[j].logType != t
    ensures r.Some? ==> r.value.logType == t
    ensures r.Some? ==> exists k :: (0 <= k < |logs| && logs[k] == r.value
              && forall j :: 0 <= j < k ==> logs[j].logType != t)
  {
    var isType := (l: LogEntry) => l.logType == t;
    var r := Seqs.Find(logs, isType);
    if r.Some? then
      var k := Seqs.FirstIndex(logs, isType);
      assert logs[k] == r.value;
      r
    else r
  }

  datatype CardStatus = NormalCard | WarningCard

  /** The four entries the cards show and the three card statuses. */
  datatype Stats = Stats(
    lastTemp: Option<LogEntry>,
    lastHr: Option<LogEntry>,
    lastSpo2: Option<LogEntry>,
    lastSleep: Option<LogEntry>,
    tempStatus: CardStatus,
    hrStatus: CardStatus,
    oxyStatus: CardStatus)

  /** Temperature card: warning above 37.5 or below 36; a missing, zero or
      NaN temperature is normal. */
  function TempStatus(last: Option<LogEntry>): (r: CardStatus)
    ensures r == WarningCard <==>
      last.Some? && Truthy(last.value.details.temperature)
      && !(36.0 <= ValueOf(last.value.details.temperature) <= 37.5)
  {
    if last.Some? && Truthy(last.value.details.temperature)
       && (ValueOf(last.value.details.temperature) > 37.5 || ValueOf(last.value.details.temperature) < 36.0)
    then WarningCard else NormalCard
  }

  /** Heart-rate card: warning above 160 or below 100 bpm. */
  function HrStatus(last: Option<LogEntry>): (r: CardStatus)
    ensures r == WarningCard <==>
      last.Some? && Truthy(last.value.details.bpm) && !(100.0 <= ValueOf(last.value.details.bpm) <= 160.0)
  {
    if last.Some? && Truthy(last.value.details.bpm)
       && (ValueOf(last.value.details.bpm) > 160.0 || ValueOf(last.value.details.bpm) < 100.0)
    then WarningCard else NormalCard
  }

  /** SpO2 card: warning below 95 percent. */
  function OxyStatus(last: Option<LogEntry>): (r: CardStatus)
    ensures r == WarningCard <==>
      last.Some? && Truthy(last.value.details.oxygen) && ValueOf(last.value.details.oxygen) < 95.0
  {
    if last.Some? && Truthy(last.value.details.oxygen) && ValueOf(last.value.details.oxygen) < 95.0
    then WarningCard else NormalCard
  }

  /** The `stats` memo. */
  function ComputeStats(logs: seq<LogEntry>): (s: Stats)
    ensures s.lastTemp == Latest(logs, Temperature) && s.lastHr == Latest(logs, HeartRate)
    ensures s.lastSpo2 == Latest(logs, SpO2) && s.lastSleep == Latest(logs, Sleep)
    ensures s.tempStatus == TempStatus(s.lastTemp) && s.hrStatus == HrStatus(s.lastHr)
    ensures s.oxyStatus == OxyStatus(s.lastSpo2)
  {
    var lastTemp := Latest(logs, Temperature);
    var lastHr := Latest(logs, HeartRate);
    var lastSpo2 := Latest(logs, SpO2);
    var lastSleep := Latest(logs, Sleep);
    Stats(lastTemp, lastHr, lastSpo2, lastSleep, TempStatus(lastTemp), HrStatus(lastHr), OxyStatus(lastSpo2))
  }

  /** Logging an entry of another type leaves every card that is not of that
      type as it was. */
  lemma {:induction false} PrependOtherTypeKeepsCard(e: LogEntry, logs: seq<LogEntry>, t: LogType)
    requires e.logType != t
    ensures Latest([e] + logs, t) == Latest(logs, t)
    ensures e.logType != Temperature ==> ComputeStats([e] + logs).tempStatus == ComputeStats(logs).tempStatus
    ensures e.logType != HeartRate ==> ComputeStats([e] + logs).hrStatus == ComputeStats(logs).hrStatus
    ensures e.logType != SpO2 ==> ComputeStats([e] + logs).oxyStatus == ComputeStats(logs).oxyStatus
  {
    Seqs.FindSkipsRejected(e, logs, (l: LogEntry) => l.logType == t);
    if e.logType != Temperature {
      Seqs.FindSkipsRejected(e, logs, (l: LogEntry) => l.logType == Temperature);
    }
    if e.logType != HeartRate {
      Seqs.FindSkipsRejected(e, logs, (l: LogEntry) => l.logType == HeartRate);
    }
    if e.logType != SpO2 {
      Seqs.FindSkipsRejected(e, logs, (l: LogEntry) => l.logType == SpO2);
    }
  }

  /** Whenever the alarm engine grades the newest entry WARNING or EMERGENCY,
      the card of that vital shows a warning: the card bands lie inside the
      alarm's normal ranges. */
  lemma AlarmImpliesCardWarning(e: LogEntry, older: seq<LogEntry>)
    requires App.ClassifyNewest(e) != Stable
    ensures e.logType == Temperature ==> ComputeStats([e] + older).tempStatus == WarningCard
    ensures e.logType == HeartRate ==> ComputeStats([e] + older).hrStatus == WarningCard
    ensures e.logType == SpO2 ==> ComputeStats([e] + older).oxyStatus == WarningCard
  {
    Seqs.FindTakesFirst(e, older, (l: LogEntry) => l.logType == e.logType);
  }

  /** The converse fails: a temperature of 37.6 warns on the card while the
      alarm stays silent. */
  lemma CardWarnsBeforeAlarm(id: string, time: int)
    ensures var e := LogEntry(id, Temperature, time, NoDetails.(temperature := Some(Finite(37.6))));
      App.ClassifyNewest(e) == Stable && ComputeStats([e]).tempStatus == WarningCard
  {
    var e := LogEntry(id, Temperature, time, NoDetails.(temperature := Some(Finite(37.6))));
    Seqs.FindTakesFirst(e, [], (l: LogEntry) => l.logType == Temperature);
    assert [e] == [e] + [];
  }

  /** `getTimeAgo(date)` at time `now`: "--" without a date; otherwise the
      whole minutes elapsed `m`, shown as "`m`m" below an hour and as hours
      and the remaining minutes from an hour up. */
  function TimeAgo(date: Option<int>, now: int): (r: string)
    ensures date.None? ==> r == "--"
    ensures date.Some? ==>
      var m := (now - date.value) / 60000;
      && m * 60000 <= now - date.value < (m + 1) * 60000
      && (m < 60 ==> r == Text.IntToString(m) + "m")
      && (m >= 60 ==> exists h: nat, mm: nat :: (mm < 60 && h * 60 + mm == m
                        && r == Text.NatToString(h) + "h " + Text.NatToString(mm) + "m"))
  {
    match date
    case None => "--"
    case Some(d) => MinutesCaption((now - d) / 60000)
  }

  /** The caption for `m` whole minutes. */
  function MinutesCaption(m: int): string {
    if m < 60 then Text.IntToString(m) + "m"
    else Text.NatToString(m / 60) + "h " + Text.NatToString(m % 60) + "m"
  }

  /** The caption determines the elapsed minutes: two times that show the same
      caption of an hour or more lie in the same minute. */
  lemma TimeAgoDeterminesMinutes(d1: int, d2: int, now: int)
    requires (now - d1) / 60000 >= 60 && (now - d2) / 60000 >= 60
    requires TimeAgo(Some(d1), now) == TimeAgo(Some(d2), now)
    ensures (now - d1) / 60000 == (now - d2) / 60000
  {
    var m1, m2 := (now - d1) / 60000, (now - d2) / 60000;
    TimeAgoIsCaption(d1, now, m1);
    TimeAgoIsCaption(d2, now, m2);
    HoursCaptionInjective(m1, m2);
  }

  lemma TimeAgoIsCaption(d: int, now: int, m: int)
    requires m == (now - d) / 60000
    ensures TimeAgo(Some(d), now) == MinutesCaption(m)
  {
  }

  lemma HoursCaptionInjective(m1: int, m2: int)
    requires m1 >= 60 && m2 >= 60
    requires MinutesCaption(m1) == MinutesCaption(m2)
    ensures m1 == m2
  {
    HoursTextSplit(Text.NatToString(m1 / 60), Text.NatToString(m1 % 60),
                   Text.NatToString(m2 / 60), Text.NatToString(m2 % 60));
    Text.NatToStringInjective(m1 / 60, m2 / 60);
    Text.NatToStringInjective(m1 % 60, m2 % 60);
  }

  /** Two digit strings around "h " and "m" can be told apart. */
  lemma HoursTextSplit(s1: string, t1: string, s2: string, t2: string)
    requires forall i :: 0 <= i < |s1| ==> '0' <= s1[i] <= '9'
    requires forall i :: 0 <= i < |s2| ==> '0' <= s2[i] <= '9'
    requires s1 + "h " + t1 + "m" == s2 + "h " + t2 + "m"
    ensures s1 == s2 && t1 == t2
  {
    var w1, w2 := s1 + "h " + t1 + "m", s2 + "h " + t2 + "m";
    DigitRunBeforeMarker(s1, "h " + t1 + "m");
    DigitRunBeforeMarker(s2, "h " + t2 + "m");
    assert w1 == s1 + ("h " + t1 + "m") && w2 == s2 + ("h " + t2 + "m");
    assert s1 == w1[..|s1|] == w2[..|s2|] == s2;
    assert t1 == w1[|s1| + 2..|w1| - 1] == w2[|s2| + 2..|w2| - 1] == t2;
  }

  /** The length of the run of decimal digits a text starts with. */
  function DigitRun(w: string): (n: nat)
    ensures n <= |w|
  {
    if |w| > 0 && '0' <= w[0] <= '9' then 1 + DigitRun(w[1..]) else 0
  }

  lemma {:induction false} DigitRunBeforeMarker(s: string, rest: string)
    requires forall i :: 0 <= i < |s| ==> '0' <= s[i] <= '9'
    requires |rest| > 0 && !('0' <= rest[0] <= '9')
    ensures DigitRun(s + rest) == |s|
    decreases |s|
  {
    if |s| > 0 {
      assert (s + rest)[1..] == s[1..] + rest;
      DigitRunBeforeMarker(s[1..], rest);
    } else {
      assert s + rest == rest;
    }
  }
}
