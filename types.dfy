/** The entities of the application (types.ts), plus the types that the
    components use but types.ts does not declare: the severity level, the
    gender, the MQTT sensor configuration and the caregiver's phone number. */
module Types {
  import opened Wrappers

  /** A JavaScript number as the components meet it: a finite value, or NaN
      (what `parseFloat` yields for text that is not a number). */
  datatype Num = Finite(value: real) | NaN

  /** JavaScript truthiness of an optional numeric field: present, not NaN
      and not zero. `if (x)` and `x || y` test exactly this. */
  predicate Truthy(n: Option<Num>) {
    n.Some? && n.value.Finite? && n.value.value != 0.0
  }

  /** The value of a truthy numeric field. */
  function ValueOf(n: Option<Num>): real
    requires Truthy(n)
  {
    n.value.value
  }

  datatype LogType =
    | Feeding | Sleep | Diaper | Growth | Temperature | Symptom | HeartRate | SpO2 | BloodGlucose
  {
    /** The enum's string value, as rendered in messages and reports. */
    function Name(): string {
      match this
      case Feeding => "FEEDING"
      case Sleep => "SLEEP"
      case Diaper => "DIAPER"
      case Growth => "GROWTH"
      case Temperature => "TEMPERATURE"
      case Symptom => "SYMPTOM"
      case HeartRate => "HEART_RATE"
      case SpO2 => "SPO2"
      case BloodGlucose => "BLOOD_GLUCOSE"
    }
  }

  datatype Side = Left | Right | Both

  /** The `details` record of a log entry: every field optional. */
  datatype Details = Details(
    amount: Option<Num>,
    duration: Option<Num>,
    side: Option<Side>,
    contents: Option<string>,
    temperature: Option<Num>,
    bpm: Option<Num>,
    oxygen: Option<Num>,
    glucose: Option<Num>,
    symptom: Option<string>,
    note: Option<string>)

  const NoDetails := Details(None, None, None, None, None, None, None, None, None, None)

  /** One logged observation; `timestamp` is milliseconds since the epoch. */
  datatype LogEntry = LogEntry(id: string, logType: LogType, timestamp: int, details: Details)

  /** A log entry before the store gives it an id (`Omit<LogEntry, 'id'>`). */
  datatype NewEntry = NewEntry(logType: LogType, timestamp: int, details: Details)

  datatype Role = User | Model {
    function Name(): string {
      match this
      case User => "user"
      case Model => "model"
    }
  }

  datatype ChatMessage = ChatMessage(id: string, role: Role, text: string, timestamp: int)

  datatype AgeGroup = Newborn | Infant | Toddler {
    function Label(): string {
      match this
      case Newborn => "Newborn (0-3m)"
      case Infant => "Infant (3-12m)"
      case Toddler => "Toddler (1yr+)"
    }
  }

  datatype Language = En | Te

  datatype Gender = Male | Female

  /** A JavaScript `Date`: a time in milliseconds since the epoch, or the
      invalid date that `new Date` gives for text it cannot parse. */
  datatype Date = At(ms: int) | InvalidDate

  datatype MqttConfig = MqttConfig(brokerUrl: string, topic: string, enabled: bool)

  datatype InfantProfile = InfantProfile(
    name: string,
    parentName: string,
    birthDate: Date,
    weight: Num,
    height: Num,
    ageGroup: Option<AgeGroup>,
    language: Language,
    gender: Option<Gender>,
    doctorPhone: Option<string>,
    mqttConfig: Option<MqttConfig>)

  /** Ordered severity of the newest reading. */
  datatype Severity = Stable | Warning | Emergency {
    function Label(): string {
      match this
      case Stable => "STABLE"
      case Warning => "WARNING"
      case Emergency => "EMERGENCY"
    }

    function Rank(): nat {
      match this
      case Stable => 0
      case Warning => 1
      case Emergency => 2
    }
  }
}
