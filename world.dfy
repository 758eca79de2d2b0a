/**
 * What a tool can observe of the world besides its arguments: the wall clock, read as
 * an hour of the day in US/Pacific time, and the randomness of `uuid.uuid4()`.
 */
module World {

  /** An hour of the day as `datetime.hour` reports it. */
  type Hour = h: int | 0 <= h < 24

  predicate IsLowerHexDigit(c: char) {
    '0' <= c <= '9' || 'a' <= c <= 'f'
  }

  /** The text of `uuid.uuid4().hex`: 32 lower-case hexadecimal digits. */
  type UuidHex = s: string | |s| == 32 && forall i | 0 <= i < |s| :: IsLowerHexDigit(s[i])
    witness "00000000000000000000000000000000"

  /** The clock reading and the fresh uuid that one tool invocation sees. */
  datatype Ambient = Ambient(pacificHour: Hour, uuidHex: UuidHex)
}
