/**
 * The two string operations the records rely on: Rails' `blank?` (used by the
 * presence validations of Answer#body and User#email) and Ruby's
 * `String#downcase` (used to store emails in lower case).
 */
module Text {

  /** The whitespace characters `blank?` skips: space, tab, line feed,
      vertical tab, form feed and carriage return. */
  predicate IsSpace(c: char)
  {
    c == ' ' || c == '\t' || c == '\n' || c == '\U{0B}' || c == '\U{0C}' || c == '\r'
  }

  /** `blank?` on a string: empty or whitespace only. */
  predicate Blank(s: string)
  {
    forall i :: 0 <= i < |s| ==> IsSpace(s[i])
  }

  predicate IsUpper(c: char)
  {
    'A' <= c <= 'Z'
  }

  /** The lower-case form of one character; only ASCII letters change. */
  function LowerChar(c: char): (d: char)
    ensures !IsUpper(d)
    ensures IsUpper(c) ==> d as int == c as int + 32
    ensures !IsUpper(c) ==> d == c
  {
    if IsUpper(c) then (c as int + 32) as char else c
  }

  /** No upper-case ASCII letter anywhere in `s`. */
  predicate LowerCase(s: string)
  {
    forall i :: 0 <= i < |s| ==> !IsUpper(s[i])
  }

  /** `String#downcase`: every character lowered, nothing added or dropped. */
  function Downcase(s: string): (r: string)
    ensures |r| == |s|
    ensures forall i :: 0 <= i < |s| ==> r[i] == LowerChar(s[i])
  {
    if s == [] then [] else [LowerChar(s[0])] + Downcase(s[1..])
  }

  /** Downcasing yields a lower-case string, and a lower-case string is its own downcase. */
  lemma DowncaseNormalises(s: string)
    ensures LowerCase(Downcase(s))
    ensures LowerCase(s) <==> Downcase(s) == s
  {
  }

  /** Downcasing twice is downcasing once. */
  lemma DowncaseIdempotent(s: string)
    ensures Downcase(Downcase(s)) == Downcase(s)
  {
  }

  /** The worked example of the user model: "EMilY@GmaiL.COM" is stored as
      "emily@gmail.com". The email is a parameter fixed by the precondition
      because the verifier unfolds `Downcase` on a string literal without
      limit. */
  lemma DowncaseExample(email: string)
    requires email == "EMilY@GmaiL.COM"
    ensures Downcase(email) == "emily@gmail.com"
  {
  }
}
