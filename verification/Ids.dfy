/** Identifiers, machine integers and time, as the services use them. */
module Ids {
  newtype byte = x: int | 0 <= x < 0x100

  /** A two's complement 64-bit integer; leaving the range is a verification error. */
  type int64 = x: int | -0x8000_0000_0000_0000 <= x < 0x8000_0000_0000_0000

  type Octets16 = s: seq<byte> | |s| == 16 witness seq(16, i => 0)

  /** The 16 octets of RFC 9562, in network order. */
  datatype Uuid = Uuid(octets: Octets16)

  const NilId: Uuid := Uuid(Zeros())

  function Zeros(): Octets16 { [0, 0, 0, 0, 0, 0, 0, 0, 0, 0, 0, 0, 0, 0, 0, 0] }

  /** Version nibble 7; the database checks and most of the services ask no more. */
  predicate IsV7(id: Uuid) { id.octets[6] / 16 == 7 }

  predicate IsRfc4122(id: Uuid) { id.octets[8] / 64 == 2 }

  lemma NilIsNotV7() ensures !IsV7(NilId) && !IsRfc4122(NilId) {}

  /** Microseconds, the database precision; 0 is the unset time. */
  type Time = int
  const NoTime: Time := 0
  const Second: Time := 1_000_000
  const Minute: Time := 60 * Second
  const Hour: Time := 60 * Minute

  datatype Option<+T> = None | Some(value: T)

  function Max(a: int, b: int): (m: int) ensures m == a || m == b ensures a <= m && b <= m {
    if a >= b then a else b
  }

  function Min(a: int, b: int): (m: int) ensures m == a || m == b ensures m <= a && m <= b {
    if a <= b then a else b
  }

  /** unicode.IsSpace, which strings.TrimSpace strips. */
  predicate IsSpace(c: char) {
    c in {'\t', '\U{0B}', '\U{0C}', '\n', '\r', ' ', '\U{85}', '\U{A0}', '\U{1680}', '\U{2028}',
          '\U{2029}', '\U{202F}', '\U{205F}', '\U{3000}'}
    || '\U{2000}' <= c <= '\U{200A}'
  }
}
