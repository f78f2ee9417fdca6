/**
 * The client's room codes: the sanitiser and validator behind "join by code"
 * and the generator behind "create room" (script.js).
 *
 * Strings are sequences of code points. Trimming removes the characters
 * JavaScript's String.prototype.trim removes; upper-casing maps only the ASCII
 * letters a-z.
 */
module RoomCode {
  import opened Wrappers

  /** The letters a generated code is drawn from: A-Z without I and O. */
  const LETTERS: string := "ABCDEFGHJKLMNPQRSTUVWXYZ"
  /** The digits a generated code is drawn from: 2-9. */
  const DIGITS: string := "23456789"
  /** A cleaned code shorter than this is rejected. */
  const MIN_CODE_LENGTH: nat := 3

  /** JavaScript white space and line terminators, the characters trim removes. */
  predicate IsSpace(ch: char)
  {
    || ch == ' ' || ch == '\t' || ch == '\n' || ch == '\r'
    || ch == '\U{000B}' || ch == '\U{000C}' || ch == '\U{00A0}' || ch == '\U{1680}'
    || ('\U{2000}' <= ch <= '\U{200A}')
    || ch == '\U{2028}' || ch == '\U{2029}' || ch == '\U{202F}' || ch == '\U{205F}'
    || ch == '\U{3000}' || ch == '\U{FEFF}'
  }

  ghost predicate AllSpace(s: string)
  {
    forall i :: 0 <= i < |s| ==> IsSpace(s[i])
  }

  /** The characters the cleaning regular expression keeps: A-Z, 0-9 and '-'. */
  predicate IsCodeChar(ch: char)
  {
    'A' <= ch <= 'Z' || '0' <= ch <= '9' || ch == '-'
  }

  ghost predicate AllCodeChars(s: string)
  {
    forall i :: 0 <= i < |s| ==> IsCodeChar(s[i])
  }

  /** Number of white-space characters at the start of s. */
  function LeadingSpaces(s: string): (k: nat)
    ensures k <= |s|
    ensures forall i :: 0 <= i < k ==> IsSpace(s[i])
    ensures k < |s| ==> !IsSpace(s[k])
  {
    if |s| > 0 && IsSpace(s[0]) then 1 + LeadingSpaces(s[1..]) else 0
  }

  /** Number of white-space characters at the end of s. */
  function TrailingSpaces(s: string): (k: nat)
    ensures k <= |s|
    ensures forall i :: |s| - k <= i < |s| ==> IsSpace(s[i])
    ensures k < |s| ==> !IsSpace(s[|s| - 1 - k])
  {
    if |s| > 0 && IsSpace(s[|s| - 1]) then 1 + TrailingSpaces(s[..|s| - 1]) else 0
  }

  /** String.prototype.trim. */
  function Trim(s: string): (r: string)
    ensures |r| <= |s|
    ensures r == [] <==> AllSpace(s)
    ensures r != [] ==> !IsSpace(r[0]) && !IsSpace(r[|r| - 1])
  {
    var rest := s[LeadingSpaces(s)..];
    var r := rest[..|rest| - TrailingSpaces(rest)];
    r
  }

  lemma {:induction false} LeadingSpacesOfPadded(p: string, x: string)
    requires AllSpace(p)
    ensures LeadingSpaces(p + x) == |p| + LeadingSpaces(x)
  {
    if p != [] {
      assert (p + x)[1..] == p[1..] + x;
      LeadingSpacesOfPadded(p[1..], x);
    } else {
      assert p + x == x;
    }
  }

  lemma {:induction false} TrailingSpacesOfPadded(x: string, q: string)
    requires AllSpace(q)
    ensures TrailingSpaces(x + q) == TrailingSpaces(x) + |q|
  {
    if q != [] {
      assert (x + q)[..|x + q| - 1] == x + q[..|q| - 1];
      TrailingSpacesOfPadded(x, q[..|q| - 1]);
    } else {
      assert x + q == x;
    }
  }

  /** Trim removes exactly the white-space padding around a word. */
  lemma TrimStripsPadding(p: string, m: string, q: string)
    requires AllSpace(p) && AllSpace(q)
    requires m != [] ==> !IsSpace(m[0]) && !IsSpace(m[|m| - 1])
    ensures Trim(p + m + q) == m
  {
    if m == [] {
      assert AllSpace(p + m + q);
    } else {
      assert p + m + q == p + (m + q);
      LeadingSpacesOfPadded(p, m + q);
      assert LeadingSpaces(m + q) == 0;
      var rest := (p + m + q)[|p|..];
      assert rest == m + q;
      TrailingSpacesOfPadded(m, q);
      assert TrailingSpaces(m) == 0;
    }
  }

  /** ASCII upper-casing of one character. */
  function UpperChar(ch: char): (u: char)
    ensures !('a' <= u <= 'z')
    ensures 'a' <= ch <= 'z' ==> u as int == ch as int - 32
    ensures !('a' <= ch <= 'z') ==> u == ch
  {
    if 'a' <= ch <= 'z' then (ch as int - 32) as char else ch
  }

  /** String.prototype.toUpperCase, restricted to the ASCII letters. */
  function Upper(s: string): (r: string)
    ensures |r| == |s|
    ensures forall i :: 0 <= i < |s| ==> r[i] == UpperChar(s[i])
  {
    if s == [] then [] else [UpperChar(s[0])] + Upper(s[1..])
  }

  /** The replace(/[^A-Z0-9-]/g, '') step: drops every other character. */
  function KeepCodeChars(s: string): (r: string)
    ensures |r| <= |s|
    ensures AllCodeChars(r)
    ensures AllCodeChars(s) ==> r == s
  {
    if s == [] then []
    else (if IsCodeChar(s[0]) then [s[0]] else []) + KeepCodeChars(s[1..])
  }

  /** The cleaned room code: trimmed, upper-cased, filtered. */
  function CleanCode(input: string): string
  {
    KeepCodeChars(Upper(Trim(input)))
  }

  /** Why a typed room code is refused. */
  datatype CodeError =
    | MissingCode  // nothing but white space was typed
    | InvalidCode  // fewer than three characters survive cleaning

  /** The checks joinRoomByCode makes before it accepts a code. */
  function ValidateRoomCode(input: string): (r: Result<string, CodeError>)
    ensures r == Failure(MissingCode) <==> AllSpace(input)
    ensures r == Failure(InvalidCode) <==> !AllSpace(input) && |CleanCode(input)| < MIN_CODE_LENGTH
    ensures r.Success? ==> r.value == CleanCode(input) && |r.value| >= MIN_CODE_LENGTH && AllCodeChars(r.value)
  {
    var roomCode := Upper(Trim(input));
    if roomCode == [] then Failure(MissingCode)
    else
      var cleanCode := KeepCodeChars(roomCode);
      if |cleanCode| < MIN_CODE_LENGTH then Failure(InvalidCode) else Success(cleanCode)
  }

  /** joinRoomByCode's effect on the current room id: replaced on success, untouched on error. */
  function JoinRoomByCode(roomId: Option<string>, input: string): (r: Option<string>)
    ensures ValidateRoomCode(input).Failure? ==> r == roomId
    ensures ValidateRoomCode(input).Success? ==> r == Some(CleanCode(input))
    ensures r != roomId ==> r.Some? && |r.value| >= MIN_CODE_LENGTH && AllCodeChars(r.value)
  {
    match ValidateRoomCode(input)
    case Success(code) => Some(code)
    case Failure(_) => roomId
  }

  /** Filtering distributes over concatenation. */
  lemma {:induction false} KeepCodeCharsAppend(a: string, b: string)
    ensures KeepCodeChars(a + b) == KeepCodeChars(a) + KeepCodeChars(b)
  {
    if a == [] {
      assert a + b == b;
    } else {
      assert (a + b)[1..] == a[1..] + b;
      KeepCodeCharsAppend(a[1..], b);
    }
  }

  /** Filtering keeps every code character as often as it occurs and nothing else. */
  lemma {:induction false} KeepCodeCharsCounts(s: string, ch: char)
    ensures multiset(KeepCodeChars(s))[ch] == if IsCodeChar(ch) then multiset(s)[ch] else 0
  {
    if s != [] {
      KeepCodeCharsCounts(s[1..], ch);
      assert s == [s[0]] + s[1..];
    }
  }

  /** Trimming first makes no difference to the cleaned code: white space is never kept. */
  lemma CleanCodeIgnoresTrim(input: string)
    ensures CleanCode(input) == KeepCodeChars(Upper(input))
  {
    var k := LeadingSpaces(input);
    var rest := input[k..];
    var t := TrailingSpaces(rest);
    var mid := rest[..|rest| - t];
    assert Trim(input) == mid;
    var p, q := input[..k], rest[|rest| - t..];
    assert input == p + mid + q;
    assert AllSpace(p) && AllSpace(q);
    PaddingVanishes(p, mid, q);
  }

  lemma PaddingVanishes(p: string, m: string, q: string)
    requires AllSpace(p) && AllSpace(q)
    ensures KeepCodeChars(Upper(p + m + q)) == KeepCodeChars(Upper(m))
  {
    UpperAppend(p + m, q);
    UpperAppend(p, m);
    KeepCodeCharsAppend(Upper(p) + Upper(m), Upper(q));
    KeepCodeCharsAppend(Upper(p), Upper(m));
    SpacesVanish(p);
    SpacesVanish(q);
  }

  lemma UpperAppend(a: string, b: string)
    ensures Upper(a + b) == Upper(a) + Upper(b)
  {
  }

  /** Upper-cased white space is filtered out entirely. */
  lemma {:induction false} SpacesVanish(s: string)
    requires AllSpace(s)
    ensures KeepCodeChars(Upper(s)) == []
  {
    if s != [] {
      assert Upper(s)[0] == s[0];
      assert !IsCodeChar(s[0]);
      assert Upper(s)[1..] == Upper(s[1..]);
      SpacesVanish(s[1..]);
    }
  }

  /** Cleaning a code that is already clean changes nothing. */
  lemma CleanCodeOfCleanCode(code: string)
    requires AllCodeChars(code)
    ensures CleanCode(code) == code
  {
    assert LeadingSpaces(code) == 0;
    assert code[0..] == code;
    assert TrailingSpaces(code) == 0;
    assert code[..|code|] == code;
    assert Upper(code) == code;
  }

  /** Cleaning is idempotent. */
  lemma CleanCodeIdempotent(input: string)
    ensures CleanCode(CleanCode(input)) == CleanCode(input)
  {
    CleanCodeOfCleanCode(CleanCode(input));
  }

  /** generateRoomId, with the three random letter picks and three random digit picks as inputs. */
  function GenerateRoomId(letterPicks: seq<nat>, digitPicks: seq<nat>): (code: string)
    requires |letterPicks| == 3 && |digitPicks| == 3
    requires forall i :: 0 <= i < 3 ==> letterPicks[i] < |LETTERS|
    requires forall i :: 0 <= i < 3 ==> digitPicks[i] < |DIGITS|
    ensures |code| == 7 && code[3] == '-'
    ensures forall i :: 0 <= i < 3 ==> 'A' <= code[i] <= 'Z' && code[i] != 'I' && code[i] != 'O'
    ensures forall i :: 4 <= i < 7 ==> '2' <= code[i] <= '9'
  {
    var part1 := [LETTERS[letterPicks[0]], LETTERS[letterPicks[1]], LETTERS[letterPicks[2]]];
    var part2 := [DIGITS[digitPicks[0]], DIGITS[digitPicks[1]], DIGITS[digitPicks[2]]];
    LetterRange(letterPicks[0]);
    LetterRange(letterPicks[1]);
    LetterRange(letterPicks[2]);
    part1 + "-" + part2
  }

  lemma LetterRange(i: nat)
    requires i < |LETTERS|
    ensures 'A' <= LETTERS[i] <= 'Z' && LETTERS[i] != 'I' && LETTERS[i] != 'O'
  {
  }

  /** Every generated code survives joinRoomByCode unchanged. */
  lemma GeneratedCodeIsAccepted(letterPicks: seq<nat>, digitPicks: seq<nat>)
    requires |letterPicks| == 3 && |digitPicks| == 3
    requires forall i :: 0 <= i < 3 ==> letterPicks[i] < |LETTERS|
    requires forall i :: 0 <= i < 3 ==> digitPicks[i] < |DIGITS|
    ensures ValidateRoomCode(GenerateRoomId(letterPicks, digitPicks)) == Success(GenerateRoomId(letterPicks, digitPicks))
  {
    var code := GenerateRoomId(letterPicks, digitPicks);
    assert AllCodeChars(code);
    assert !IsSpace(code[0]);
    CleanCodeOfCleanCode(code);
  }

  /** Distinct picks give distinct codes, so 24^3 * 8^3 codes can be generated. */
  lemma GenerateRoomIdInjective(l1: seq<nat>, d1: seq<nat>, l2: seq<nat>, d2: seq<nat>)
    requires |l1| == 3 && |d1| == 3 && |l2| == 3 && |d2| == 3
    requires forall i :: 0 <= i < 3 ==> l1[i] < |LETTERS| && l2[i] < |LETTERS|
    requires forall i :: 0 <= i < 3 ==> d1[i] < |DIGITS| && d2[i] < |DIGITS|
    requires GenerateRoomId(l1, d1) == GenerateRoomId(l2, d2)
    ensures l1 == l2 && d1 == d2
  {
    var c1 := GenerateRoomId(l1, d1);
    var c2 := GenerateRoomId(l2, d2);
    forall i | 0 <= i < 3 ensures l1[i] == l2[i] && d1[i] == d2[i] {
      assert c1[i] == LETTERS[l1[i]] && c2[i] == LETTERS[l2[i]];
      assert c1[4 + i] == DIGITS[d1[i]] && c2[4 + i] == DIGITS[d2[i]];
      LetterIndexUnique(l1[i], l2[i]);
      DigitIndexUnique(d1[i], d2[i]);
    }
  }

  lemma LetterIndexUnique(i: nat, j: nat)
    requires i < |LETTERS| && j < |LETTERS| && LETTERS[i] == LETTERS[j]
    ensures i == j
  {
  }

  lemma DigitIndexUnique(i: nat, j: nat)
    requires i < |DIGITS| && j < |DIGITS| && DIGITS[i] == DIGITS[j]
    ensures i == j
  {
  }
}
