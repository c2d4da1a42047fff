/**
 * The web client's PKCE helpers (RFC 7636): the code verifier drawn from
 * random bytes, and the URL-safe rewrite that turns the standard base64
 * form of the verifier's SHA-256 digest into the code challenge. The
 * random bytes and the base64 digest are inputs: the browser's random
 * source, SHA-256 and base64 encoding lie outside this model.
 */
module Pkce {

  newtype byte = x: int | 0 <= x < 256

  // The four runs of generateCodeVerifier's charset.
  const UpperRun: string := "ABCDEFGHIJKLMNOPQRSTUVWXYZ"
  const LowerRun: string := "abcdefghijklmnopqrstuvwxyz"
  const DigitRun: string := "0123456789"
  const MarkRun: string := "-._~"

  /** The unreserved characters of section 4.1 of RFC 7636, in generateCodeVerifier's order. */
  const Charset: string := UpperRun + LowerRun + DigitRun + MarkRun

  /** generateCodeVerifier's default length. */
  const DefaultVerifierLength: nat := 64

  /** unreserved = ALPHA / DIGIT / "-" / "." / "_" / "~" (section 4.1 of RFC 7636). */
  predicate IsUnreserved(c: char) {
    'A' <= c <= 'Z' || 'a' <= c <= 'z' || '0' <= c <= '9' || c == '-' || c == '.' || c == '_' || c == '~'
  }

  const LettersLiteral: string := "ABCDEFGHIJKLMNOPQRSTUVWXYZabcdefghijklmnopqrstuvwxyz"
  const DigitsMarksLiteral: string := "0123456789-._~"

  lemma LetterRuns()
    ensures UpperRun + LowerRun == LettersLiteral
  {
  }

  lemma DigitMarkRuns()
    ensures DigitRun + MarkRun == DigitsMarksLiteral
  {
  }

  /** The charset is generateCodeVerifier's 66-character string. */
  lemma CharsetIsSourceString()
    ensures Charset == "ABCDEFGHIJKLMNOPQRSTUVWXYZabcdefghijklmnopqrstuvwxyz0123456789-._~"
  {
    LetterRuns();
    DigitMarkRuns();
    assert LettersLiteral + DigitsMarksLiteral == "ABCDEFGHIJKLMNOPQRSTUVWXYZabcdefghijklmnopqrstuvwxyz0123456789-._~";
  }

  /** Position k of a run holds the k-th character after the run's first one. */
  lemma LetterRunAt(k: int)
    requires 0 <= k < 26
    ensures UpperRun[k] as int == 'A' as int + k && LowerRun[k] as int == 'a' as int + k
  {
  }

  lemma DigitRunAt(k: int)
    requires 0 <= k < 10
    ensures DigitRun[k] as int == '0' as int + k
  {
  }

  lemma CharsetAt(i: int)
    requires 0 <= i < |Charset|
    ensures IsUnreserved(Charset[i])
    ensures i < 26 ==> Charset[i] as int == 'A' as int + i
    ensures 26 <= i < 52 ==> Charset[i] as int == 'a' as int + i - 26
    ensures 52 <= i < 62 ==> Charset[i] as int == '0' as int + i - 52
  {
    if i < 26 {
      LetterRunAt(i);
    } else if i < 52 {
      LetterRunAt(i - 26);
    } else if i < 62 {
      DigitRunAt(i - 52);
    }
  }

  lemma CharsetOnlyUnreserved()
    ensures forall i :: 0 <= i < |Charset| ==> IsUnreserved(Charset[i])
  {
    forall i | 0 <= i < |Charset| ensures IsUnreserved(Charset[i]) {
      CharsetAt(i);
    }
  }

  lemma CharsetHasEveryUnreserved()
    ensures forall c :: IsUnreserved(c) ==> c in Charset
  {
    forall c | IsUnreserved(c) ensures c in Charset {
      var i := if 'A' <= c <= 'Z' then c as int - 'A' as int
               else if 'a' <= c <= 'z' then 26 + c as int - 'a' as int
               else if '0' <= c <= '9' then 52 + c as int - '0' as int
               else if c == '-' then 62 else if c == '.' then 63 else if c == '_' then 64 else 65;
      CharsetAt(i);
      assert Charset[i] == c;
    }
  }

  /** The charset is exactly the unreserved set: 66 characters, each unreserved, none missing. */
  lemma CharsetIsUnreservedSet()
    ensures |Charset| == 66
    ensures forall i :: 0 <= i < |Charset| ==> IsUnreserved(Charset[i])
    ensures forall c :: IsUnreserved(c) ==> c in Charset
  {
    CharsetOnlyUnreserved();
    CharsetHasEveryUnreserved();
  }

  /**
   * generateCodeVerifier: `randomValues` is the `Uint8Array(length)` the
   * browser filled; character i of the verifier is `Charset[randomValues[i] % 66]`.
   */
  method GenerateCodeVerifier(randomValues: seq<byte>) returns (verifier: string)
    ensures |verifier| == |randomValues|
    ensures forall i :: 0 <= i < |randomValues| ==> verifier[i] == Charset[randomValues[i] as int % |Charset|]
    ensures forall i :: 0 <= i < |verifier| ==> IsUnreserved(verifier[i])
  {
    verifier := "";
    var i := 0;
    while i < |randomValues|
      invariant 0 <= i <= |randomValues|
      invariant |verifier| == i
      invariant forall k :: 0 <= k < i ==> verifier[k] == Charset[randomValues[k] as int % |Charset|]
    {
      verifier := verifier + [Charset[randomValues[i] as int % |Charset|]];
      i := i + 1;
    }
    CharsetIsUnreservedSet();
  }

  /** generateCodeVerifier() with its default length: 64 random bytes give a 64-character verifier. */
  method GenerateDefaultCodeVerifier(randomValues: seq<byte>) returns (verifier: string)
    requires |randomValues| == DefaultVerifierLength
    ensures |verifier| == 64
    ensures forall i :: 0 <= i < |verifier| ==> IsUnreserved(verifier[i])
  {
    verifier := GenerateCodeVerifier(randomValues);
  }

  // ---------------------------------------------------------------------
  // The code challenge

  /** How often `c` occurs in `s`. */
  function Count(s: string, c: char): nat
    decreases |s|
  {
    if s == [] then 0 else (if s[0] == c then 1 else 0) + Count(s[1..], c)
  }

  /** `s.replace(/from/g, to)` for a one-character pattern. */
  function ReplaceAll(s: string, from: char, to: char): (r: string)
    ensures |r| == |s|
    ensures forall i :: 0 <= i < |s| ==> r[i] == (if s[i] == from then to else s[i])
    decreases |s|
  {
    if s == [] then [] else [if s[0] == from then to else s[0]] + ReplaceAll(s[1..], from, to)
  }

  /** `s.replace(/c/g, '')`: every `c` dropped, the rest kept in order. */
  function RemoveAll(s: string, c: char): (r: string)
    ensures c !in r
    ensures |r| == |s| - Count(s, c)
    ensures forall x :: x != c ==> (x in r <==> x in s)
    decreases |s|
  {
    if s == [] then [] else (if s[0] == c then [] else [s[0]]) + RemoveAll(s[1..], c)
  }

  /** Replacing a character by another never changes how often a third one occurs. */
  lemma {:induction false} ReplaceKeepsCount(s: string, from: char, to: char, c: char)
    requires from != c && to != c
    ensures Count(ReplaceAll(s, from, to), c) == Count(s, c)
    decreases |s|
  {
    if s != [] {
      ReplaceKeepsCount(s[1..], from, to, c);
      assert ReplaceAll(s, from, to)[1..] == ReplaceAll(s[1..], from, to);
    }
  }

  /**
   * The rewrite at the end of generateCodeChallenge: the base64 alphabet of
   * section 4 of RFC 4648 becomes the URL-safe alphabet of its section 5,
   * without padding, as section 4.2 of RFC 7636 asks for S256.
   */
  function GenerateCodeChallenge(base64Digest: string): (challenge: string)
    ensures '+' !in challenge && '/' !in challenge && '=' !in challenge
    ensures |challenge| == |base64Digest| - Count(base64Digest, '=')
  {
    ReplaceKeepsCount(base64Digest, '+', '-', '=');
    ReplaceKeepsCount(ReplaceAll(base64Digest, '+', '-'), '/', '_', '=');
    RemoveAll(ReplaceAll(ReplaceAll(base64Digest, '+', '-'), '/', '_'), '=')
  }

  /** One character of the rewrite: '+' to '-', '/' to '_', anything else unchanged. */
  function UrlSafeChar(c: char): char {
    if c == '+' then '-' else if c == '/' then '_' else c
  }

  /** The rewrite as one pass: each '=' dropped, every other character swapped by UrlSafeChar, in order. */
  function UrlSafe(s: string): string
    decreases |s|
  {
    if s == [] then [] else (if s[0] == '=' then [] else [UrlSafeChar(s[0])]) + UrlSafe(s[1..])
  }

  /** The three replace calls are the one-pass rewrite. */
  lemma {:induction false} ChallengeIsOnePass(s: string)
    ensures GenerateCodeChallenge(s) == UrlSafe(s)
    decreases |s|
  {
    if s != [] {
      ChallengeIsOnePass(s[1..]);
      var r1 := ReplaceAll(s, '+', '-');
      var r2 := ReplaceAll(r1, '/', '_');
      assert r1[1..] == ReplaceAll(s[1..], '+', '-');
      assert r2[1..] == ReplaceAll(r1[1..], '/', '_');
      assert r2[0] == UrlSafeChar(s[0]);
      assert RemoveAll(r2, '=') == (if r2[0] == '=' then [] else [r2[0]]) + RemoveAll(r2[1..], '=');
    }
  }

  lemma ReplaceAbsent(s: string, from: char, to: char)
    requires from !in s
    ensures ReplaceAll(s, from, to) == s
  {
  }

  lemma {:induction false} RemoveAbsent(s: string, c: char)
    requires c !in s
    ensures RemoveAll(s, c) == s
    decreases |s|
  {
    if s != [] {
      assert s[0] != c;
      assert c !in s[1..] by { assert forall x :: x in s[1..] ==> x in s; }
      RemoveAbsent(s[1..], c);
      assert s == [s[0]] + s[1..];
    }
  }

  /** Rewriting a challenge again changes nothing: it holds none of '+', '/', '='. */
  lemma ChallengeIdempotent(s: string)
    ensures GenerateCodeChallenge(GenerateCodeChallenge(s)) == GenerateCodeChallenge(s)
  {
    var c := GenerateCodeChallenge(s);
    ReplaceAbsent(c, '+', '-');
    ReplaceAbsent(c, '/', '_');
    RemoveAbsent(c, '=');
  }

  /** The standard base64 alphabet and its pad (section 4 of RFC 4648). */
  predicate IsBase64Char(c: char) {
    'A' <= c <= 'Z' || 'a' <= c <= 'z' || '0' <= c <= '9' || c == '+' || c == '/' || c == '='
  }

  /** The URL- and filename-safe alphabet (section 5 of RFC 4648). */
  predicate IsBase64UrlChar(c: char) {
    'A' <= c <= 'Z' || 'a' <= c <= 'z' || '0' <= c <= '9' || c == '-' || c == '_'
  }

  /** A base64 digest becomes a challenge over the URL-safe alphabet, itself unreserved in the sense of RFC 7636. */
  lemma {:induction false} ChallengeIsBase64Url(s: string)
    requires forall i :: 0 <= i < |s| ==> IsBase64Char(s[i])
    ensures forall i :: 0 <= i < |UrlSafe(s)| ==> IsBase64UrlChar(UrlSafe(s)[i]) && IsUnreserved(UrlSafe(s)[i])
    ensures UrlSafe(s) == GenerateCodeChallenge(s)
    decreases |s|
  {
    ChallengeIsOnePass(s);
    if s != [] {
      ChallengeIsBase64Url(s[1..]);
    }
  }

  /** A SHA-256 digest is 44 base64 characters with one pad: its challenge has 43 characters. */
  lemma DigestChallengeLength(s: string)
    requires |s| == 44 && Count(s, '=') == 1
    ensures |GenerateCodeChallenge(s)| == 43
  {
  }
}
