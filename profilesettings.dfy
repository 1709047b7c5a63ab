/** The profile editor (components/ProfileSettings.tsx): a working copy of the
    profile that the field handlers replace, the sensor-configuration merge,
    and the save that recomputes the age group. */
module ProfileSettings {
  import opened Wrappers
  import opened Types
  import AgeGroups

  /** The configuration a profile without one starts from. */
  const DefaultMqtt := MqttConfig("wss://broker.hivemq.com:8000/mqtt", "iot/ikram/mlx90614/object", false)

  /** A `Partial<MqttConfig>`: the fields an update sets. */
  datatype MqttUpdate = MqttUpdate(brokerUrl: Option<string>, topic: Option<string>, enabled: Option<bool>)

  /** `{...(existing || defaults), ...updates}`: every field the update sets
      replaces the old one; every other field keeps the existing value, or
      the default when there is no configuration yet. */
  function MergeMqtt(existing: Option<MqttConfig>, u: MqttUpdate): (c: MqttConfig)
    ensures var base := existing.GetOr(DefaultMqtt);
      && c.brokerUrl == u.brokerUrl.GetOr(base.brokerUrl)
      && c.topic == u.topic.GetOr(base.topic)
      && c.enabled == u.enabled.GetOr(base.enabled)
  {
    var base := if existing.Some? then existing.value else DefaultMqtt;
    MqttConfig(
      if u.brokerUrl.Some? then u.brokerUrl.value else base.brokerUrl,
      if u.topic.Some? then u.topic.value else base.topic,
      if u.enabled.Some? then u.enabled.value else base.enabled)
  }

  /** Two updates in a row, as one: the later one's fields win. */
  function Then(u1: MqttUpdate, u2: MqttUpdate): MqttUpdate {
    MqttUpdate(
      if u2.brokerUrl.Some? then u2.brokerUrl else u1.brokerUrl,
      if u2.topic.Some? then u2.topic else u1.topic,
      if u2.enabled.Some? then u2.enabled else u1.enabled)
  }

  /** Applying the same update twice is applying it once. */
  lemma MergeIdempotent(existing: Option<MqttConfig>, u: MqttUpdate)
    ensures MergeMqtt(Some(MergeMqtt(existing, u)), u) == MergeMqtt(existing, u)
  {
  }

  /** Two successive updates give what their combination gives at once. */
  lemma MergeCompose(existing: Option<MqttConfig>, u1: MqttUpdate, u2: MqttUpdate)
    ensures MergeMqtt(Some(MergeMqtt(existing, u1)), u2) == MergeMqtt(existing, Then(u1, u2))
  {
  }

  /** The toggle on a profile without a configuration fills in the default
      broker and topic. */
  lemma FirstToggleUsesDefaults(b: bool)
    ensures MergeMqtt(None, MqttUpdate(None, None, Some(b)))
         == MqttConfig("wss://broker.hivemq.com:8000/mqtt", "iot/ikram/mlx90614/object", b)
  {
  }

  /** The form's working copy of the profile. */
  class ProfileForm {
    var formData: InfantProfile

    constructor (profile: InfantProfile)
      ensures formData == profile
    {
      formData := profile;
    }

    method SetName(name: string)
      modifies this
      ensures formData == old(formData).(name := name)
    {
      formData := formData.(name := name);
    }

    /** `weight: parseFloat(value)`, the parse done by the caller. */
    method SetWeight(weight: Num)
      modifies this
      ensures formData == old(formData).(weight := weight)
    {
      formData := formData.(weight := weight);
    }

    method SetHeight(height: Num)
      modifies this
      ensures formData == old(formData).(height := height)
    {
      formData := formData.(height := height);
    }

    method SetGender(g: Gender)
      modifies this
      ensures formData == old(formData).(gender := Some(g))
    {
      formData := formData.(gender := Some(g));
    }

    /** `updateMqtt(updates)`: only the sensor configuration changes. */
    method UpdateMqtt(u: MqttUpdate)
      modifies this
      ensures formData == old(formData).(mqttConfig := Some(MergeMqtt(old(formData).mqttConfig, u)))
    {
      var merged := MergeMqtt(formData.mqttConfig, u);
      formData := formData.(mqttConfig := Some(merged));
    }

    /** `handleSave` at time `now`: the profile handed to `onUpdate` is the
        working copy with its age group recomputed from its birth date; the
        working copy itself is not changed. */
    method HandleSave(now: int) returns (updated: InfantProfile)
      ensures updated == formData.(ageGroup := Some(AgeGroups.CalculateAgeGroup(formData.birthDate, now)))
    {
      var birthDate := formData.birthDate;
      updated := formData.(birthDate := birthDate, ageGroup := Some(AgeGroups.CalculateAgeGroup(birthDate, now)));
    }
  }

  /** Saving does not depend on the age group the profile came in with: two
      working copies that differ only there save to the same profile. */
  lemma SaveIgnoresStoredAgeGroup(p: InfantProfile, g: Option<AgeGroup>, now: int)
    ensures var saved := (q: InfantProfile) => q.(ageGroup := Some(AgeGroups.CalculateAgeGroup(q.birthDate, now)));
      saved(p) == saved(p.(ageGroup := g))
  {
  }
}
