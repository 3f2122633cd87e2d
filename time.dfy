/** The time conversions of backend/src/utils/time.js. Both are thin wrappers
    over dayjs and the IANA time-zone database; the model takes them as given
    functions and proves nothing about their behaviour. */
module Time {

  /** An absolute instant, in milliseconds since the Unix epoch. */
  type Instant = int

  datatype Converter = Converter(
    /** `localToUTC(local, tz)`: the instant that the wall-clock time `local`
        denotes in zone `tz`. */
    localToUTC: (string, string) -> Instant,
    /** `utcToTz(instant, tz)`: the instant rendered in zone `tz` with the
        default format "MMM D, YYYY [at] hh:mm A". */
    utcToTz: (Instant, string) -> string)
}
