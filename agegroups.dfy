/** The age classifier that the sign-up, login and profile-settings screens
    each define (`calculateAgeGroup` in components/Auth.tsx,
    components/Login.tsx and components/ProfileSettings.tsx, three identical
    copies), defined here once. */
module AgeGroups {
  import opened Types

  /** A month, for this purpose: thirty days in milliseconds. */
  const MonthMs: int := 1000 * 60 * 60 * 24 * 30

  /** The group for a birth date at time `now`: up to and including three
      months NEWBORN, up to and including twelve INFANT, TODDLER after. An
      invalid date makes the difference NaN, every comparison false, and so
      gives TODDLER. */
  function CalculateAgeGroup(birth: Date, now: int): (g: AgeGroup)
    ensures g == Newborn <==> birth.At? && now - birth.ms <= 3 * MonthMs
    ensures g == Infant <==> birth.At? && 3 * MonthMs < now - birth.ms <= 12 * MonthMs
    ensures g == Toddler <==> birth.InvalidDate? || now - birth.ms > 12 * MonthMs
  {
    match birth
    case InvalidDate => Toddler
    case At(ms) =>
      var diffMonths := (now - ms) as real / MonthMs as real;
      if diffMonths <= 3.0 then Newborn
      else if diffMonths <= 12.0 then Infant
      else Toddler
  }

  /** Youngest first. */
  function AgeRank(g: AgeGroup): nat {
    match g
    case Newborn => 0
    case Infant => 1
    case Toddler => 2
  }

  /** At a fixed time, an earlier birth date never gives a younger group. */
  lemma EarlierBirthNeverYounger(b1: int, b2: int, now: int)
    requires b1 <= b2
    ensures AgeRank(CalculateAgeGroup(At(b1), now)) >= AgeRank(CalculateAgeGroup(At(b2), now))
  {
  }

  /** As time passes, a child never moves to a younger group. */
  lemma LaterNowNeverYounger(b: Date, now1: int, now2: int)
    requires now1 <= now2
    ensures AgeRank(CalculateAgeGroup(b, now1)) <= AgeRank(CalculateAgeGroup(b, now2))
  {
  }

  /** A birth date in the future counts as a newborn. */
  lemma FutureBirthIsNewborn(b: int, now: int)
    requires b > now
    ensures CalculateAgeGroup(At(b), now) == Newborn
  {
  }

  /** The boundaries belong to the younger group. */
  lemma BoundariesInclusive(b: int)
    ensures CalculateAgeGroup(At(b), b + 3 * MonthMs) == Newborn
    ensures CalculateAgeGroup(At(b), b + 3 * MonthMs + 1) == Infant
    ensures CalculateAgeGroup(At(b), b + 12 * MonthMs) == Infant
    ensures CalculateAgeGroup(At(b), b + 12 * MonthMs + 1) == Toddler
  {
  }
}
