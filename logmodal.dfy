/** The quick-log dialog (components/LogModal.tsx): which numeric field the
    entered value goes to, the field label, the save guard, and the save
    action that hands the new entry to the log store and closes the dialog. */
module LogModal {
  import opened Wrappers
  import opened Types
  import Text
  import App

  /** The types whose dialog asks for a number. */
  predicate IsNumericType(t: LogType) {
    t == Feeding || t == Temperature || t == HeartRate || t == SpO2 || t == BloodGlucose
  }

  /** The numeric field a type's value is stored in. */
  function FieldFor(t: LogType, d: Details): Option<Num>
    requires IsNumericType(t)
  {
    match t
    case Feeding => d.amount
    case Temperature => d.temperature
    case HeartRate => d.bpm
    case SpO2 => d.oxygen
    case BloodGlucose => d.glucose
  }

  /** How many of the numeric fields of `d` are set. */
  function CountSet(d: Details): nat {
    (if d.amount.Some? then 1 else 0) + (if d.temperature.Some? then 1 else 0)
    + (if d.bpm.Some? then 1 else 0) + (if d.oxygen.Some? then 1 else 0)
    + (if d.glucose.Some? then 1 else 0)
  }

  /** The `details` record that saving builds from the type, the notes and
      the parsed value: the notes always, and the value in exactly the one
      numeric field of a numeric type, in none otherwise. */
  function BuildDetails(t: LogType, notes: string, num: Num): (d: Details)
    ensures d.note == Some(notes)
    ensures d.duration.None? && d.side.None? && d.contents.None? && d.symptom.None?
    ensures IsNumericType(t) ==> FieldFor(t, d) == Some(num)
    ensures CountSet(d) == if IsNumericType(t) then 1 else 0
  {
    var base := NoDetails.(note := Some(notes));
    match t
    case Feeding => base.(amount := Some(num))
    case Temperature => base.(temperature := Some(num))
    case HeartRate => base.(bpm := Some(num))
    case SpO2 => base.(oxygen := Some(num))
    case BloodGlucose => base.(glucose := Some(num))
    case _ => base
  }

  /** `getLabel()`, as the file spells it: the temperature unit reads
      U+00C2 U+00B0 followed by 'C'. */
  function Label(t: LogType): (r: string)
    ensures r == "Value" <==> !IsNumericType(t)
    ensures IsNumericType(t) ==> '(' in r && r[|r| - 1] == ')'
  {
    match t
    case Feeding => "Amount (oz)"
    case Temperature => "Temp (\U{00C2}\U{00B0}C)"
    case HeartRate => "Heart Rate (BPM)"
    case SpO2 => "Oxygen Level (%)"
    case BloodGlucose => "Blood Sugar (mg/dL)"
    case _ => "Value"
  }

  /** The dialog title: "Log " followed by the label up to its first '('. */
  function Title(t: LogType): (r: string)
    ensures Text.StartsWith(r, "Log ") && '(' !in r
  {
    var head := Text.Split(Label(t), '(')[0];
    "Log " + head
  }

  /** The title of a numeric type stops short of its unit. */
  lemma TitleDropsUnit()
    ensures Title(HeartRate) == "Log " + "Heart" + " Rate "
  {
    var name := "Heart" + " Rate ";
    assert '(' !in "Heart" && '(' !in " Rate ";
    assert Label(HeartRate) == name + ['('] + "BPM)";
    TitleBeforeParen(HeartRate, name, "BPM)");
  }

  lemma TitleBeforeParen(t: LogType, name: string, unit: string)
    requires '(' !in name && Label(t) == name + ['('] + unit
    ensures Title(t) == "Log " + name
  {
    Text.SplitAppend(name, unit, '(');
    Text.SplitNoSeparator(name, '(');
    assert Text.Split(Label(t), '(') == [name] + Text.Split(unit, '(');
  }

  /** The title of a type without a unit is the whole fallback label. */
  lemma TitleWithoutUnit(t: LogType)
    requires !IsNumericType(t)
    ensures Title(t) == "Log Value"
  {
    Text.SplitNoSeparator("Value", '(');
  }

  /** The dialog's own state (`value`, `notes`) and the two pieces of the
      parent's state it is driven by (`isModalOpen`, `modalType`). */
  class LogDialog {
    var value: string
    var notes: string
    var isOpen: bool
    var modalType: Option<LogType>

    constructor ()
      ensures value == "" && notes == "" && !isOpen && modalType.None?
    {
      value := "";
      notes := "";
      isOpen := false;
      modalType := None;
    }

    /** The dialog renders nothing while closed or without a type. */
    predicate Rendered()
      reads this
    {
      isOpen && modalType.Some?
    }

    /** The save button is disabled while the value field is empty. */
    predicate SaveEnabled()
      reads this
    {
      value != ""
    }

    /** `handleQuickLog(type)` in the parent: choose the type and open. */
    method QuickLog(t: LogType)
      modifies this
      ensures Rendered() && modalType == Some(t)
      ensures value == old(value) && notes == old(notes)
    {
      modalType := Some(t);
      isOpen := true;
    }

    method SetValue(v: string)
      modifies this
      ensures value == v && notes == old(notes) && isOpen == old(isOpen) && modalType == old(modalType)
    {
      value := v;
    }

    method SetNotes(n: string)
      modifies this
      ensures notes == n && value == old(value) && isOpen == old(isOpen) && modalType == old(modalType)
    {
      notes := n;
    }

    /** `handleSave`: the entry handed to `onSave`, built from the type, the
        notes and `parseFloat(value)` at time `now`; then both fields are
        cleared and `onClose` closes the dialog. */
    method HandleSave(parseFloat: string -> Num, now: int) returns (entry: NewEntry)
      requires Rendered() && SaveEnabled()
      modifies this
      ensures entry == NewEntry(old(modalType).value, now,
                                BuildDetails(old(modalType).value, old(notes), parseFloat(old(value))))
      ensures value == "" && notes == "" && !isOpen && modalType == old(modalType)
      ensures !Rendered()
    {
      var t := modalType.value;
      var numValue := parseFloat(value);
      var details := NoDetails.(note := Some(notes));
      if t == Feeding { details := details.(amount := Some(numValue)); }
      if t == Temperature { details := details.(temperature := Some(numValue)); }
      if t == HeartRate { details := details.(bpm := Some(numValue)); }
      if t == SpO2 { details := details.(oxygen := Some(numValue)); }
      if t == BloodGlucose { details := details.(glucose := Some(numValue)); }
      entry := NewEntry(t, now, details);
      value := "";
      notes := "";
      isOpen := false;
    }
  }

  /** A vital entered in the dialog and saved is what the alarm engine grades
      next: a non-zero reading falls in its type's band, a zero reading or a
      non-number counts as absent. */
  lemma EnteredVitalIsGraded(t: LogType, notes: string, num: Num, id: string, now: int)
    requires t == Temperature || t == HeartRate || t == SpO2
    ensures var e := LogEntry(id, t, now, BuildDetails(t, notes, num));
      App.ClassifyNewest(e) ==
        if num.Finite? && num.value != 0.0 then App.BandSeverity(t, num.value) else Stable
  {
  }

  /** Feeding, growth and the other non-vital entries never raise the alarm. */
  lemma NonVitalEntryIsStable(t: LogType, notes: string, num: Num, id: string, now: int)
    requires t != Temperature && t != HeartRate && t != SpO2
    ensures App.ClassifyNewest(LogEntry(id, t, now, BuildDetails(t, notes, num))) == Stable
  {
  }
}
