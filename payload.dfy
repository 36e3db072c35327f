/**
 * The request body sent to the complete-panchang endpoint: the instant's
 * six fields and the bot's fixed location and calculation settings. The
 * JSON text itself is not modelled; the record has the body's keys as fields.
 */
module Payload {
  import opened Calendar

  /** Theni, Tamil Nadu. */
  const Latitude: real := 10.0079
  const Longitude: real := 77.4735

  /** India Standard Time, in hours east of UTC. */
  const TimezoneHours: real := 5.5

  /** The same offset in seconds, as the arrival time is shifted by it. */
  const IstOffsetSeconds: int := 19800

  datatype Config = Config(observationPoint: string, ayanamsha: string)

  const ApiConfig: Config := Config("topocentric", "lahiri")

  datatype ApiPayload = ApiPayload(
    year: int, month: int, date: int,
    hours: int, minutes: int, seconds: int,
    latitude: real, longitude: real, timezone: real,
    config: Config)

  /** The instant a request asks about. */
  function RequestedInstant(p: ApiPayload): DateTime
  {
    DateTime(p.year, p.month, p.date, p.hours, p.minutes, p.seconds)
  }

  /** `build_api_payload`. */
  function BuildApiPayload(t: DateTime): (p: ApiPayload)
    ensures RequestedInstant(p) == t
    ensures p.latitude == 10.0079 && p.longitude == 77.4735 && p.timezone == 5.5
    ensures p.config.observationPoint == "topocentric" && p.config.ayanamsha == "lahiri"
  {
    ApiPayload(t.year, t.month, t.day, t.hour, t.minute, t.second,
               Latitude, Longitude, TimezoneHours, ApiConfig)
  }

  /** Two requests differ exactly when the instants they were built from differ. */
  lemma PayloadDeterminesInstant(t1: DateTime, t2: DateTime)
    ensures BuildApiPayload(t1) == BuildApiPayload(t2) <==> t1 == t2
  {
    if BuildApiPayload(t1) == BuildApiPayload(t2) {
      assert RequestedInstant(BuildApiPayload(t1)) == RequestedInstant(BuildApiPayload(t2));
    }
  }

  /** Whatever the instant, the location, time zone and configuration are the same. */
  lemma PayloadSettingsFixed(t1: DateTime, t2: DateTime)
    ensures var p1, p2 := BuildApiPayload(t1), BuildApiPayload(t2);
      p1.latitude == p2.latitude && p1.longitude == p2.longitude &&
      p1.timezone == p2.timezone && p1.config == p2.config
  {
  }

  /** The time zone sent upstream is the offset the arrival time is shifted by. */
  lemma TimezoneMatchesShift()
    ensures TimezoneHours * 3600.0 == IstOffsetSeconds as real
  {
  }
}
