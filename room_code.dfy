/** The public room code: `RandomStringUtils.randomAlphanumeric(6).toUpperCase()`.
    The random draw is an oracle input (`raw`) that satisfies the library's contract:
    six characters, each an ASCII letter or digit. */
module RoomCode {

  const CodeLength: nat := 6

  predicate IsAlphanumeric(c: char) {
    'a' <= c <= 'z' || 'A' <= c <= 'Z' || '0' <= c <= '9'
  }

  predicate IsCodeChar(c: char) {
    'A' <= c <= 'Z' || '0' <= c <= '9'
  }

  /** What `randomAlphanumeric(6)` promises about the string it draws. */
  predicate IsRandomAlphanumeric(raw: string) {
    |raw| == CodeLength && forall i :: 0 <= i < |raw| ==> IsAlphanumeric(raw[i])
  }

  /** A well-formed public room code: length 6 over [A-Z0-9]. */
  predicate ValidRoomCode(code: string) {
    |code| == CodeLength && forall i :: 0 <= i < |code| ==> IsCodeChar(code[i])
  }

  /** Upper-casing of one ASCII character; every other character is kept. */
  function UpperChar(c: char): (u: char)
    ensures 'a' <= c <= 'z' ==> 'A' <= u <= 'Z' && u as int + 32 == c as int
    ensures !('a' <= c <= 'z') ==> u == c
  {
    if 'a' <= c <= 'z' then (c as int - 32) as char else c
  }

  /** `String.toUpperCase` restricted to the ASCII letters. */
  function ToUpperCase(s: string): (r: string)
    ensures |r| == |s|
    ensures forall i :: 0 <= i < |s| ==> r[i] == UpperChar(s[i])
  {
    if s == [] then [] else [UpperChar(s[0])] + ToUpperCase(s[1..])
  }

  /** `generateRoomId`: the drawn string, upper-cased. The result is always a valid code,
      and a draw that is already a valid code is returned unchanged. No uniqueness
      against existing rooms is checked. */
  function GenerateRoomId(raw: string): (code: string)
    requires IsRandomAlphanumeric(raw)
    ensures ValidRoomCode(code)
    ensures ValidRoomCode(raw) ==> code == raw
  {
    ToUpperCase(raw)
  }
}
