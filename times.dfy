/** Python's `datetime.time`, reduced to what the model needs: four fields and
    the instant of the day they name, counted in microseconds. */
module Times {

  const MicrosPerSecond: int := 1_000_000
  const SecondsPerDay: int := 86_400
  const MicrosPerDay: int := SecondsPerDay * MicrosPerSecond

  datatype Time = Time(hour: int, minute: int, second: int, microsecond: int) {

    /** The field ranges `datetime.time` enforces on construction. */
    predicate Valid() {
      && 0 <= hour < 24
      && 0 <= minute < 60
      && 0 <= second < 60
      && 0 <= microsecond < MicrosPerSecond
    }

    /** Whole seconds since midnight. */
    function SecondsOfDay(): int {
      (hour * 60 + minute) * 60 + second
    }

    /** Microseconds since midnight: the position of this time on any day. */
    function MicrosOfDay(): int {
      SecondsOfDay() * MicrosPerSecond + microsecond
    }
  }

  /** A valid time names an instant of the day it is placed on. */
  lemma ValidWithinDay(t: Time)
    requires t.Valid()
    ensures 0 <= t.SecondsOfDay() < SecondsPerDay
    ensures 0 <= t.MicrosOfDay() < MicrosPerDay
  {
    assert 0 <= t.hour * 60 + t.minute <= 23 * 60 + 59;
    assert 0 <= t.SecondsOfDay() <= (23 * 60 + 59) * 60 + 59;
    assert t.SecondsOfDay() * MicrosPerSecond <= (SecondsPerDay - 1) * MicrosPerSecond;
  }
}
