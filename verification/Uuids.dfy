/** The text form of UUIDs that the schemas admit (RFC 9562, section 4). */
module Uuids {
  predicate IsHexDigit(c: char) {
    '0' <= c <= '9' || 'a' <= c <= 'f' || 'A' <= c <= 'F'
  }

  predicate DashAt(i: int) {
    i == 8 || i == 13 || i == 18 || i == 23
  }

  predicate HasUuidForm(s: string) {
    |s| == 36 && forall i :: 0 <= i < 36 ==> if DashAt(i) then s[i] == '-' else IsHexDigit(s[i])
  }

  const NIL := "00000000-0000-0000-0000-000000000000"
  const MAX := "ffffffff-ffff-ffff-ffff-ffffffffffff"

  /** RFC 9562: a version from 1 to 8 and the variant of section 4.1, or one of the two special UUIDs. */
  predicate IsUuid(s: string) {
    HasUuidForm(s) && (('1' <= s[14] <= '8' && s[19] in "89abAB") || s == NIL || s == MAX)
  }
}
