/**
 * The part of `java.time.ZonedDateTime` the kill monitor relies on. A timestamp is an
 * instant (nanoseconds since the epoch) together with the UTC offset it was written in.
 * Parsing and pattern formatting belong to the Java library and are passed in as
 * functions; region zone identifiers (`[Europe/Berlin]`) are not modelled.
 */
module Time {
  import opened Wrappers

  datatype Timestamp = Timestamp(epochNanos: int, offsetSeconds: int)

  const NanosPerSecond: int := 1_000_000_000

  /** The local date-time, in nanoseconds, that the timestamp shows in its own offset. */
  function LocalNanos(t: Timestamp): int
  {
    t.epochNanos + t.offsetSeconds * NanosPerSecond
  }

  /** `ChronoZonedDateTime.isAfter`: compares the instants only. */
  predicate IsAfter(a: Timestamp, b: Timestamp)
  {
    a.epochNanos > b.epochNanos
  }

  /**
   * `a.compareTo(b) <= 0` for `ZonedDateTime`: the instants are compared first and, when
   * they are equal, the local date-times, which for equal instants order as the offsets.
   */
  predicate NotLater(a: Timestamp, b: Timestamp)
  {
    a.epochNanos < b.epochNanos || (a.epochNanos == b.epochNanos && a.offsetSeconds <= b.offsetSeconds)
  }

  /** `ZonedDateTime.parse(text, DateTimeFormatter.ISO_DATE_TIME)`; `None` is a `DateTimeParseException`. */
  type DateTimeParser = string -> Option<Timestamp>

  /** A `DateTimeFormatter.ofPattern(...)` applied to the local date-time given by `LocalNanos`. */
  type DateFormatter = int -> string

  /** The order `NotLater` breaks ties between equal instants exactly as local date-times do. */
  lemma LocalOrderOnEqualInstants(a: Timestamp, b: Timestamp)
    requires a.epochNanos == b.epochNanos
    ensures NotLater(a, b) <==> LocalNanos(a) <= LocalNanos(b)
  {
  }

  /** `compareTo` is a total order whose equality is `ZonedDateTime.equals`. */
  lemma NotLaterTotalOrder(a: Timestamp, b: Timestamp, c: Timestamp)
    ensures NotLater(a, a)
    ensures NotLater(a, b) || NotLater(b, a)
    ensures NotLater(a, b) && NotLater(b, a) ==> a == b
    ensures NotLater(a, b) && NotLater(b, c) ==> NotLater(a, c)
  {
  }

  /** An instant strictly after another is also later in the `compareTo` order. */
  lemma IsAfterImpliesLater(a: Timestamp, b: Timestamp)
    ensures IsAfter(a, b) ==> NotLater(b, a) && a != b
  {
  }
}
