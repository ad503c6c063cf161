/**
 * The parts of the .NET base library whose behaviour the Exceptron client
 * depends on: the exception kinds it raises or catches, and the string
 * operations String.IsNullOrEmpty, String.IndexOf(char),
 * String.Substring(int) and String.Trim().
 */
module DotNet {
  import opened Wrappers

  /** An exception thrown by the client or by one of its collaborators. */
  datatype Error =
    | ArgumentNull(paramName: string)
    | Argument(message: string, argumentName: Option<string>)
    | InvalidOperation(message: string)
    | ArgumentOutOfRange(paramName: string)
    | NullReference
      /** a failure raised by the runtime or the network, identified by its description */
    | Platform(description: string)

  /** String.IsNullOrEmpty */
  predicate IsNullOrEmpty(s: Option<string>)
    ensures s == None || s == Some("") ==> IsNullOrEmpty(s)
    ensures s.Some? && |s.value| > 0 ==> !IsNullOrEmpty(s)
  {
    s.None? || s.value == ""
  }

  /**
   * Char.IsWhiteSpace: the Unicode space, line and paragraph separators,
   * the control characters U+0009 to U+000D, and U+0085.
   */
  predicate IsWhiteSpace(c: char)
    ensures c == ' ' || c == '\t' || c == '\n' || c == '\r' ==> IsWhiteSpace(c)
    ensures 'a' <= c <= 'z' || 'A' <= c <= 'Z' || '0' <= c <= '9' || c == '(' || c == ')' || c == '.' || c == ',' ==> !IsWhiteSpace(c)
  {
    var n := c as int;
    || 0x09 <= n <= 0x0D
    || n == 0x20 || n == 0x85 || n == 0xA0 || n == 0x1680
    || 0x2000 <= n <= 0x200A
    || n == 0x2028 || n == 0x2029 || n == 0x202F || n == 0x205F || n == 0x3000
  }

  predicate AllWhiteSpace(s: string) {
    forall k :: 0 <= k < |s| ==> IsWhiteSpace(s[k])
  }

  /** Neither end of s is white space. */
  predicate IsTrimmed(s: string) {
    s == [] || (!IsWhiteSpace(s[0]) && !IsWhiteSpace(s[|s| - 1]))
  }

  /** String.IndexOf(char): the first position of c in s, or -1 when c does not occur. */
  function IndexOf(s: string, c: char): (r: int)
    ensures -1 <= r < |s|
    ensures r == -1 <==> c !in s
    ensures 0 <= r ==> s[r] == c && c !in s[..r]
  {
    if s == [] then -1
    else if s[0] == c then 0
    else
      var k := IndexOf(s[1..], c);
      if k == -1 then -1
      else
        assert s[..k + 1] == [s[0]] + s[1..][..k];
        k + 1
  }

  /**
   * String.Substring(startIndex): the suffix of s from startIndex on; it
   * throws ArgumentOutOfRangeException when startIndex is negative or past
   * the end.
   */
  function Substring(s: string, startIndex: int): (r: Result<string, Error>)
    ensures r.Ok? <==> 0 <= startIndex <= |s|
    ensures r.Ok? ==> |r.value| == |s| - startIndex
    ensures r.Ok? ==> forall k :: 0 <= k < |r.value| ==> r.value[k] == s[startIndex + k]
    ensures r.Err? ==> r.error == ArgumentOutOfRange("startIndex")
  {
    if 0 <= startIndex <= |s| then Ok(s[startIndex..])
    else Err(ArgumentOutOfRange("startIndex"))
  }

  /** The length of the longest all-white-space prefix of s. */
  function LeadingWhiteSpace(s: string): (n: nat)
    ensures n <= |s|
    ensures forall k :: 0 <= k < n ==> IsWhiteSpace(s[k])
    ensures n < |s| ==> !IsWhiteSpace(s[n])
  {
    if s != [] && IsWhiteSpace(s[0]) then 1 + LeadingWhiteSpace(s[1..]) else 0
  }

  /** The length of the longest all-white-space suffix of s. */
  function TrailingWhiteSpace(s: string): (n: nat)
    ensures n <= |s|
    ensures forall k :: |s| - n <= k < |s| ==> IsWhiteSpace(s[k])
    ensures n < |s| ==> !IsWhiteSpace(s[|s| - 1 - n])
  {
    TrailingWhiteSpaceBefore(s, |s|)
  }

  /** The number of white-space characters that immediately precede position end of s. */
  function TrailingWhiteSpaceBefore(s: string, end: nat): (n: nat)
    requires end <= |s|
    ensures n <= end
    ensures forall k :: end - n <= k < end ==> IsWhiteSpace(s[k])
    ensures n < end ==> !IsWhiteSpace(s[end - 1 - n])
  {
    if end > 0 && IsWhiteSpace(s[end - 1]) then 1 + TrailingWhiteSpaceBefore(s, end - 1) else 0
  }

  /**
   * String.Trim(): s without its leading and trailing white space. The
   * result is trimmed, it is the part of s after the leading white space,
   * and only white space follows it.
   */
  function Trim(s: string): (r: string)
    ensures IsTrimmed(r)
    ensures var a := LeadingWhiteSpace(s);
      && a + |r| <= |s|
      && r == s[a..a + |r|]
      && forall k :: a + |r| <= k < |s| ==> IsWhiteSpace(s[k])
  {
    var a := LeadingWhiteSpace(s);
    if a == |s| then []
    else
      var b := |s| - TrailingWhiteSpace(s);
      assert !IsWhiteSpace(s[a]);
      s[a..b]
  }

  /** The number of leading white-space characters is determined by where the first other character stands. */
  lemma LeadingWhiteSpaceAt(s: string, n: nat)
    requires n <= |s|
    requires forall k :: 0 <= k < n ==> IsWhiteSpace(s[k])
    requires n < |s| ==> !IsWhiteSpace(s[n])
    ensures LeadingWhiteSpace(s) == n
  {
  }

  /** The number of trailing white-space characters is determined by where the last other character stands. */
  lemma TrailingWhiteSpaceAt(s: string, n: nat)
    requires n <= |s|
    requires forall k :: |s| - n <= k < |s| ==> IsWhiteSpace(s[k])
    requires n < |s| ==> !IsWhiteSpace(s[|s| - 1 - n])
    ensures TrailingWhiteSpace(s) == n
  {
  }

  /** Trim removes exactly the white space around a trimmed string: the reverse of padding it. */
  lemma {:induction false} TrimUnpads(before: string, t: string, after: string)
    requires AllWhiteSpace(before) && AllWhiteSpace(after) && IsTrimmed(t)
    ensures Trim(before + t + after) == t
  {
    var s := before + t + after;
    if t == [] {
      forall k | 0 <= k < |s| ensures IsWhiteSpace(s[k]) {
        if k < |before| { assert s[k] == before[k]; } else { assert s[k] == after[k - |before|]; }
      }
      LeadingWhiteSpaceAt(s, |s|);
    } else {
      forall k | 0 <= k < |before| ensures IsWhiteSpace(s[k]) {
        assert s[k] == before[k];
      }
      LeadingWhiteSpaceAt(s, |before|);
      forall k | |s| - |after| <= k < |s| ensures IsWhiteSpace(s[k]) {
        assert s[k] == after[k - (|s| - |after|)];
      }
      TrailingWhiteSpaceAt(s, |after|);
      assert s[|before|..|s| - |after|] == t;
    }
  }

  /** White space in front of a string does not change its trimmed form. */
  lemma TrimIgnoresLeadingWhiteSpace(pad: string, rest: string)
    requires AllWhiteSpace(pad)
    ensures Trim(pad + rest) == Trim(rest)
  {
    var t := Trim(rest);
    var a := LeadingWhiteSpace(rest);
    var b := a + |t|;
    var before := pad + rest[..a];
    var after := rest[b..];
    forall k | 0 <= k < |before| ensures IsWhiteSpace(before[k]) {
      if k < |pad| { assert before[k] == pad[k]; } else { assert before[k] == rest[k - |pad|]; }
    }
    forall k | 0 <= k < |after| ensures IsWhiteSpace(after[k]) {
      assert after[k] == rest[b + k];
    }
    var padded := before + t + after;
    assert |padded| == |pad + rest|;
    forall k | 0 <= k < |padded| ensures padded[k] == (pad + rest)[k] {
      if k < |before| {
      } else if k < |before| + |t| {
        assert padded[k] == t[k - |before|] == rest[k - |pad|];
      } else {
        assert padded[k] == after[k - |before| - |t|] == rest[k - |pad|];
      }
    }
    assert padded == pad + rest;
    TrimUnpads(before, t, after);
  }

  /** Trimming twice is trimming once. */
  lemma TrimIdempotent(s: string)
    ensures Trim(Trim(s)) == Trim(s)
  {
    var t := Trim(s);
    assert [] + t + [] == t;
    TrimUnpads([], t, []);
  }
}
