/** The sign-up screen (components/Auth.tsx): the profile its submit hands to
    the application, in sign-up mode from the form and in login mode as a
    fixed demonstration profile. */
module Auth {
  import opened Wrappers
  import opened Types
  import AgeGroups
  import App

  /** The form fields, as the text the inputs hold. */
  datatype SignupForm = SignupForm(
    name: string,
    parentName: string,
    doctorPhone: string,
    birthDate: string,
    weight: string,
    height: string,
    gender: Gender,
    lang: Language)

  /** The form as the screen opens. */
  const InitialForm := SignupForm("", "", "", "", "3.5", "50", Male, En)

  /** `new Date('2024-01-01')`: midnight UTC on 1 January 2024. */
  const DemoBirthMs: int := 1704067200000

  /** `handleSubmit`. `parseDate` and `parseFloat` stand for `new Date(text)`
      and `parseFloat(text)`; `now` is the clock reading the age classifier
      takes. */
  function HandleSubmit(isLogin: bool, form: SignupForm, parseDate: string -> Date,
                        parseFloat: string -> Num, now: int): (p: InfantProfile)
    ensures isLogin ==>
      && p.name == "Demo Baby" && p.parentName == "Demo Parent"
      && p.doctorPhone == Some(App.DefaultDoctorPhone) && p.birthDate == At(DemoBirthMs)
      && p.weight == Finite(6.2) && p.height == Finite(65.0) && p.gender == Some(Female)
      && p.ageGroup == Some(Infant) && p.language == En && p.mqttConfig.None?
    ensures !isLogin ==>
      && p.name == form.name && p.parentName == form.parentName
      && p.doctorPhone == Some(form.doctorPhone) && p.gender == Some(form.gender)
      && p.language == form.lang
      && p.birthDate == parseDate(form.birthDate)
      && p.weight == parseFloat(form.weight) && p.height == parseFloat(form.height)
      && p.ageGroup == Some(AgeGroups.CalculateAgeGroup(p.birthDate, now))
      && p.mqttConfig.None?
  {
    if isLogin then
      InfantProfile("Demo Baby", "Demo Parent", At(DemoBirthMs), Finite(6.2), Finite(65.0),
                    Some(Infant), En, Some(Female), Some("919999999999"), None)
    else
      var bDate := parseDate(form.birthDate);
      InfantProfile(form.name, form.parentName, bDate, parseFloat(form.weight), parseFloat(form.height),
                    Some(AgeGroups.CalculateAgeGroup(bDate, now)), form.lang, Some(form.gender),
                    Some(form.doctorPhone), None)
  }

  /** The demonstration profile's age group is fixed, not computed: from
      twelve thirty-day months after its birth date on (27 December 2024),
      the classifier would put it among the toddlers. */
  lemma DemoAgeGroupIsFixed(form: SignupForm, parseDate: string -> Date, parseFloat: string -> Num, now: int)
    requires now > DemoBirthMs + 12 * AgeGroups.MonthMs
    ensures var p := HandleSubmit(true, form, parseDate, parseFloat, now);
      p.ageGroup == Some(Infant) && AgeGroups.CalculateAgeGroup(p.birthDate, now) == Toddler
  {
  }

  /** The phone field is `required`, so the browser lets through any
      non-empty text, and `||` keeps every non-empty text: a phone of one
      space is kept, and the alert link goes to "https://wa.me/ ?text=…"
      rather than to the default number. */
  lemma SpacePhoneIsNotDefaulted(form: SignupForm, parseDate: string -> Date, parseFloat: string -> Num, now: int,
                                 logs: seq<LogEntry>, severity: Severity,
                                 stringify: Details -> string, encodeUri: string -> string)
    requires form.doctorPhone == " "
    ensures var p := HandleSubmit(false, form, parseDate, parseFloat, now);
      var alert := App.EmergencyAlert(Some(p), logs, severity, stringify, encodeUri).value;
      && alert.phone == " " && alert.phone != App.DefaultDoctorPhone
      && alert.url == "https://wa.me/ ?text=" + encodeUri(alert.message)
  {
    var p := HandleSubmit(false, form, parseDate, parseFloat, now);
    var alert := App.EmergencyAlert(Some(p), logs, severity, stringify, encodeUri).value;
    assert alert.phone == " ";
    assert "https://wa.me/" + " " == "https://wa.me/ ";
  }
}

/** The simpler login screen (components/Login.tsx): a profile from a name, a
    birth date and an optional weight. */
module Login {
  import opened Wrappers
  import opened Types
  import AgeGroups

  datatype LoginForm = LoginForm(name: string, parentName: string, birthDate: string, weight: string, lang: Language)

  /** The weight when the field does not parse to a non-zero number. */
  const DefaultWeight: real := 3.5

  /** `handleSubmit`: nothing when the name or the birth date is empty;
      otherwise the profile, with the parsed weight if it is truthy and 3.5
      if not, a height of 50 and the computed age group. */
  function HandleSubmit(form: LoginForm, parseDate: string -> Date, parseFloat: string -> Num, now: int)
    : (r: Option<InfantProfile>)
    ensures r.None? <==> form.name == "" || form.birthDate == ""
    ensures r.Some? ==>
      var p := r.value;
      && p.name == form.name && p.parentName == form.parentName && p.language == form.lang
      && p.birthDate == parseDate(form.birthDate)
      && (Truthy(Some(parseFloat(form.weight))) ==> p.weight == parseFloat(form.weight))
      && (!Truthy(Some(parseFloat(form.weight))) ==> p.weight == Finite(DefaultWeight))
      && p.height == Finite(50.0)
      && p.ageGroup == Some(AgeGroups.CalculateAgeGroup(p.birthDate, now))
      && p.gender.None? && p.doctorPhone.None? && p.mqttConfig.None?
  {
    if form.name == "" || form.birthDate == "" then None
    else
      var bDate := parseDate(form.birthDate);
      var parsed := parseFloat(form.weight);
      var weight := if Truthy(Some(parsed)) then parsed else Finite(DefaultWeight);
      Some(InfantProfile(form.name, form.parentName, bDate, weight, Finite(50.0),
                         Some(AgeGroups.CalculateAgeGroup(bDate, now)), form.lang, None, None, None))
  }

  /** The profile's weight is never zero or NaN. */
  lemma WeightAlwaysTruthy(form: LoginForm, parseDate: string -> Date, parseFloat: string -> Num, now: int)
    requires form.name != "" && form.birthDate != ""
    ensures var p := HandleSubmit(form, parseDate, parseFloat, now).value;
      Truthy(Some(p.weight))
  {
  }
}
