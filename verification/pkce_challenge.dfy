/**
 * The challenge generator of the session-management helper: 43 characters,
 * each picked at random from a fixed character table.
 */
module PkceChallenge {

  /**
   * The character table as the helper spells it: 63 characters, with 'T'
   * twice (where 'Y' belongs) and no 'j'. The literal is cut into short
   * pieces only so that the verifier can look up each position; joined, the
   * pieces are the source's literal character for character.
   */
  const Chars: string :=
    "0123456789" + "ABCDEFGH" + "IJKLMNOP" + "QRSTUVWX" + "TZ" +
    "abcdefgh" + "iklmnopq" + "rstuvwxy" + "z-_"

  /** The number of characters the helper draws. */
  const ChallengeLength: nat := 43

  /** A string the generator can return: 43 characters, each from the table. */
  ghost predicate IsChallenge(s: string) {
    |s| == ChallengeLength && forall i :: 0 <= i < |s| ==> s[i] in Chars
  }

  /** The unreserved characters of section 2.3 of RFC 3986, which RFC 7636 uses for verifiers. */
  predicate IsUnreserved(c: char) {
    ('A' <= c <= 'Z') || ('a' <= c <= 'z') || ('0' <= c <= '9') || c == '-' || c == '.' || c == '_' || c == '~'
  }

  /** The base64url alphabet (section 5 of RFC 4648), in which an S256 code challenge is written. */
  predicate IsBase64UrlChar(c: char) {
    ('A' <= c <= 'Z') || ('a' <= c <= 'z') || ('0' <= c <= '9') || c == '-' || c == '_'
  }

  /** The table's shape: 63 entries, 'T' at two positions, and two base64url letters missing. */
  lemma CharsShape()
    ensures |Chars| == 63
    ensures Chars[29] == 'T' && Chars[34] == 'T'
    ensures IsBase64UrlChar('Y') && 'Y' !in Chars
    ensures IsBase64UrlChar('j') && 'j' !in Chars
  {
  }

  /** Every entry of the table is a base64url character, hence also unreserved. */
  lemma CharsAreBase64Url(i: int)
    requires 0 <= i < |Chars|
    ensures IsBase64UrlChar(Chars[i]) && IsUnreserved(Chars[i])
  {
  }

  /**
   * Whatever the random draws, a generated string has the length of an S256
   * code challenge and the syntax of an RFC 7636 code verifier (section 4.1:
   * 43 to 128 unreserved characters).
   */
  lemma ChallengeIsWellFormed(s: string)
    requires IsChallenge(s)
    ensures 43 <= |s| <= 128
    ensures forall i :: 0 <= i < |s| ==> IsBase64UrlChar(s[i]) && IsUnreserved(s[i])
  {
  }

  /**
   * The generator. Each draw of `Math.floor(Math.random() * chars.length)` is
   * modelled as an arbitrary index into the table; the character at that index
   * is appended, as `substring(rnum, rnum + 1)` does.
   */
  method GetRandomPKCEChallenge() returns (randomString: string)
    ensures |randomString| == ChallengeLength
    ensures forall i :: 0 <= i < |randomString| ==> randomString[i] in Chars
  {
    randomString := "";
    for i := 0 to ChallengeLength
      invariant |randomString| == i
      invariant forall k :: 0 <= k < i ==> randomString[k] in Chars
    {
      assert |Chars| > 0;
      var rnum :| 0 <= rnum < |Chars|;
      randomString := randomString + Chars[rnum..rnum + 1];
    }
  }
}
