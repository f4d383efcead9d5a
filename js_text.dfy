/** The ECMAScript string operations the application relies on, written out
    over `seq<char>`: `trim`, `split` on one character, `replace` of the first
    occurrence of a character, ASCII `toLowerCase`, and `a || b` on strings. */
module JsText {

  /** ECMAScript WhiteSpace and LineTerminator code points, the set that
      `String.prototype.trim` removes. */
  predicate IsJsWhitespace(c: char) {
    var n := c as int;
    n == 0x09 || n == 0x0A || n == 0x0B || n == 0x0C || n == 0x0D || n == 0x20
    || n == 0xA0 || n == 0x1680 || (0x2000 <= n <= 0x200A)
    || n == 0x2028 || n == 0x2029 || n == 0x202F || n == 0x205F
    || n == 0x3000 || n == 0xFEFF
  }

  predicate AllWhitespace(s: string) {
    forall i {:trigger IsJsWhitespace(s[i])} :: 0 <= i < |s| ==> IsJsWhitespace(s[i])
  }

  /** No whitespace at either end. */
  predicate IsTrimmed(s: string) {
    s == [] || (!IsJsWhitespace(s[0]) && !IsJsWhitespace(s[|s| - 1]))
  }

  /** Past a leading whitespace character, what `trimStart` keeps of the
      rest is also what it keeps of the whole. */
  lemma TrimStartStep(s: string, r: string)
    requires |s| > 0 && IsJsWhitespace(s[0])
    requires |r| <= |s[1..]| && r == s[1..][|s[1..]| - |r|..]
    requires AllWhitespace(s[1..][..|s[1..]| - |r|])
    ensures r == s[|s| - |r|..]
    ensures AllWhitespace(s[..|s| - |r|])
  {
    var n := |s| - |r|;
    forall i | 0 < i < n ensures IsJsWhitespace(s[..n][i]) {
      assert s[..n][i] == s[1..][..n - 1][i - 1];
    }
  }

  /** A whitespace run followed by a whitespace character is a run. */
  lemma WhitespaceSnoc(s: string, n: nat)
    requires n < |s| && IsJsWhitespace(s[|s| - 1]) && AllWhitespace(s[..|s| - 1][n..])
    ensures AllWhitespace(s[n..])
  {
    forall i | 0 <= i < |s| - 1 - n ensures IsJsWhitespace(s[n..][i]) {
      assert s[n..][i] == s[..|s| - 1][n..][i];
    }
  }

  /** `s.trimStart()`: the longest suffix of `s` that does not start with
      whitespace; everything cut off is whitespace. */
  function TrimStart(s: string): (r: string)
    ensures |r| <= |s| && r == s[|s| - |r|..]
    ensures AllWhitespace(s[..|s| - |r|])
    ensures r == [] || !IsJsWhitespace(r[0])
  {
    if |s| > 0 && IsJsWhitespace(s[0]) then
      var r := TrimStart(s[1..]);
      TrimStartStep(s, r);
      r
    else s
  }

  /** `s.trimEnd()`: the longest prefix of `s` that does not end with
      whitespace; everything cut off is whitespace. */
  function TrimEnd(s: string): (r: string)
    ensures |r| <= |s| && r == s[..|r|]
    ensures AllWhitespace(s[|r|..])
    ensures r == [] || !IsJsWhitespace(r[|r| - 1])
  {
    if |s| > 0 && IsJsWhitespace(s[|s| - 1]) then
      var r := TrimEnd(s[..|s| - 1]);
      WhitespaceSnoc(s, |r|);
      r
    else s
  }

  /** How many whitespace characters `trim` drops from the front of `s`. */
  function LeadingWhitespace(s: string): nat {
    |s| - |TrimStart(s)|
  }

  /** Trimming the end of a suffix of `s` that does not start with
      whitespace leaves a trimmed slice of `s` followed by whitespace. */
  lemma TrimEndOfSuffix(s: string, t: string)
    requires |t| <= |s| && t == s[|s| - |t|..]
    requires t == [] || !IsJsWhitespace(t[0])
    ensures IsTrimmed(TrimEnd(t))
    ensures var r, lead := TrimEnd(t), |s| - |t|;
      && lead + |r| <= |s|
      && r == s[lead..lead + |r|]
      && AllWhitespace(s[lead + |r|..])
  {
    var r, lead := TrimEnd(t), |s| - |t|;
    assert r != [] ==> r[0] == t[0];
    assert s[lead + |r|..] == t[|r|..];
  }

  /** `s.trim()`: `s` is whitespace, then the result, then whitespace, and the
      result neither starts nor ends with whitespace. */
  function Trim(s: string): (r: string)
    ensures IsTrimmed(r)
    ensures LeadingWhitespace(s) + |r| <= |s|
    ensures r == s[LeadingWhitespace(s)..LeadingWhitespace(s) + |r|]
    ensures AllWhitespace(s[..LeadingWhitespace(s)])
    ensures AllWhitespace(s[LeadingWhitespace(s) + |r|..])
  {
    var t := TrimStart(s);
    TrimEndOfSuffix(s, t);
    TrimEnd(t)
  }

  /** Every character of `Trim(s)` is a character of `s`. */
  lemma TrimKeepsCharacters(s: string, c: char)
    requires c in Trim(s)
    ensures c in s
  {
    var r, lead := Trim(s), LeadingWhitespace(s);
    var i :| 0 <= i < |r| && r[i] == c;
    assert s[lead + i] == c;
  }

  /** Trimming leaves nothing exactly when the text is all whitespace. */
  lemma TrimEmptyIffWhitespace(s: string)
    ensures Trim(s) == "" <==> AllWhitespace(s)
  {
    var lead := LeadingWhitespace(s);
    if Trim(s) == "" {
      assert lead == |s|;
      assert s[..lead] == s;
    } else {
      assert !IsJsWhitespace(s[lead]);
    }
  }

  /** Number of occurrences of `c` in `s`. */
  function Count(s: string, c: char): nat {
    if s == [] then 0 else (if s[0] == c then 1 else 0) + Count(s[1..], c)
  }

  lemma {:induction false} CountZero(s: string, c: char)
    ensures Count(s, c) == 0 <==> c !in s
  {
    if s != [] {
      CountZero(s[1..], c);
      assert c in s <==> s[0] == c || c in s[1..];
    }
  }

  /** Counting in a text with one more character in front. */
  lemma CountCons(x: char, t: string, c: char)
    ensures Count([x] + t, c) == (if x == c then 1 else 0) + Count(t, c)
  {
    assert ([x] + t)[1..] == t;
  }

  /** `s.split(sep)` for a one-character separator: the pieces between
      consecutive separators, in order; one more piece than separators, so
      the empty string splits into one empty piece. */
  function Split(s: string, sep: char): (r: seq<string>)
    ensures |r| == Count(s, sep) + 1
    ensures forall i :: 0 <= i < |r| ==> sep !in r[i]
  {
    if s == [] then [[]]
    else
      var rest := Split(s[1..], sep);
      if s[0] == sep then [[]] + rest
      else [[s[0]] + rest[0]] + rest[1..]
  }

  /** `parts.join(sep)`. */
  function Join(parts: seq<string>, sep: char): string
    requires |parts| >= 1
  {
    if |parts| == 1 then parts[0] else parts[0] + [sep] + Join(parts[1..], sep)
  }

  /** Joining the pieces back with the separator gives the input. */
  lemma {:induction false} JoinSplit(s: string, sep: char)
    ensures Join(Split(s, sep), sep) == s
  {
    if s != [] {
      JoinSplit(s[1..], sep);
      var rest := Split(s[1..], sep);
      if s[0] == sep {
        assert Split(s, sep) == [[]] + rest;
        assert ([[]] + rest)[1..] == rest;
      } else {
        var r := Split(s, sep);
        assert r == [[s[0]] + rest[0]] + rest[1..];
        if |rest| == 1 {
          assert Join(r, sep) == [s[0]] + rest[0];
        } else {
          assert r[1..] == rest[1..];
          assert Join(rest, sep) == rest[0] + [sep] + Join(rest[1..], sep);
          assert Join(r, sep) == [s[0]] + rest[0] + [sep] + Join(rest[1..], sep);
        }
      }
    }
  }

  /** A character other than the separator extends the first piece. */
  lemma SplitCons(c: char, s: string, sep: char)
    requires c != sep
    ensures var rest := Split(s, sep);
      Split([c] + s, sep) == [[c] + rest[0]] + rest[1..]
  {
    assert ([c] + s)[1..] == s;
  }

  /** Joining pieces whose first piece is not empty starts with that
      piece's first character, followed by the join with it dropped. */
  lemma JoinCons(parts: seq<string>, sep: char)
    requires |parts| >= 1 && parts[0] != []
    ensures Join(parts, sep) == [parts[0][0]] + Join([parts[0][1..]] + parts[1..], sep)
  {
    var shorter := [parts[0][1..]] + parts[1..];
    assert shorter[1..] == parts[1..];
    if |parts| > 1 {
      assert Join(shorter, sep) == parts[0][1..] + [sep] + Join(parts[1..], sep);
    }
  }

  /** Splitting a join of separator-free pieces gives the pieces back. */
  lemma {:induction false} SplitJoin(parts: seq<string>, sep: char)
    requires |parts| >= 1
    requires forall i :: 0 <= i < |parts| ==> sep !in parts[i]
    ensures Split(Join(parts, sep), sep) == parts
    decreases |parts|, |parts[0]|
  {
    if parts[0] == [] {
      if |parts| > 1 {
        var tail := Join(parts[1..], sep);
        assert Join(parts, sep) == [sep] + tail;
        assert ([sep] + tail)[1..] == tail;
        SplitJoin(parts[1..], sep);
        assert parts == [[]] + parts[1..];
      }
    } else {
      var p0 := parts[0];
      var shorter := [p0[1..]] + parts[1..];
      assert forall i :: 0 <= i < |shorter| ==> sep !in shorter[i] by {
        forall i | 0 <= i < |shorter| ensures sep !in shorter[i] {
          if i == 0 { assert sep !in p0; } else { assert shorter[i] == parts[i]; }
        }
      }
      SplitJoin(shorter, sep);
      JoinCons(parts, sep);
      assert p0[0] != sep;
      SplitCons(p0[0], Join(shorter, sep), sep);
      assert [p0[0]] + p0[1..] == p0;
      assert parts == [p0] + shorter[1..];
    }
  }

  /** ASCII `toLowerCase` of one character. */
  function LowerChar(c: char): char {
    if 'A' <= c <= 'Z' then (c as int + 32) as char else c
  }

  /** `s.toLowerCase()` restricted to the ASCII letters. */
  function Lower(s: string): (r: string)
    ensures |r| == |s|
    ensures forall i :: 0 <= i < |s| ==> r[i] == LowerChar(s[i])
  {
    if s == [] then [] else [LowerChar(s[0])] + Lower(s[1..])
  }

  /** A text without upper-case letters is its own lower-case form. */
  lemma LowerOfNoUpper(s: string)
    requires forall i :: 0 <= i < |s| ==> !('A' <= s[i] <= 'Z')
    ensures Lower(s) == s
  {
  }

  /** Lower-casing twice is lower-casing once. */
  lemma LowerIdempotent(s: string)
    ensures Lower(Lower(s)) == Lower(s)
  {
  }

  /** The index of the first occurrence of `c` in `s`. */
  function FirstIndex(s: string, c: char): (i: nat)
    requires c in s
    ensures i < |s| && s[i] == c
    ensures c !in s[..i]
  {
    if s[0] == c then 0
    else
      var k := FirstIndex(s[1..], c);
      assert s[..k + 1] == [s[0]] + s[1..][..k];
      k + 1
  }

  /** `s.replace(c, '')` with a one-character string pattern: drops the first
      occurrence of `c`, if any, and keeps every other character in order. */
  function RemoveFirst(s: string, c: char): (r: string)
    ensures c !in s ==> r == s
    ensures c in s ==> r == s[..FirstIndex(s, c)] + s[FirstIndex(s, c) + 1..]
    ensures c in s ==> |r| == |s| - 1 && Count(r, c) == Count(s, c) - 1
  {
    if s == [] then []
    else if s[0] == c then s[1..]
    else
      var rest := RemoveFirst(s[1..], c);
      CountCons(s[0], rest, c);
      assert c !in s ==> [s[0]] + rest == s;
      assert c in s ==> [s[0]] + rest == s[..FirstIndex(s, c)] + s[FirstIndex(s, c) + 1..] by {
        if c in s { RemoveFirstStep(s, c, rest); }
      }
      [s[0]] + rest
  }

  /** Past a first character that is not `c`, the first `c` is one place
      further on. */
  lemma RemoveFirstStep(s: string, c: char, rest: string)
    requires c in s && s[0] != c
    requires rest == s[1..][..FirstIndex(s[1..], c)] + s[1..][FirstIndex(s[1..], c) + 1..]
    ensures [s[0]] + rest == s[..FirstIndex(s, c)] + s[FirstIndex(s, c) + 1..]
  {
    var k := FirstIndex(s[1..], c);
    assert FirstIndex(s, c) == k + 1;
    assert s[..k + 1] == [s[0]] + s[1..][..k];
    assert s[k + 2..] == s[1..][k + 1..];
  }

  /** Lower-casing and dropping a non-letter commute. */
  lemma {:induction false} RemoveFirstLower(s: string, c: char)
    requires !('A' <= c <= 'Z') && !('a' <= c <= 'z')
    ensures Lower(RemoveFirst(s, c)) == RemoveFirst(Lower(s), c)
  {
    if s != [] {
      RemoveFirstLower(s[1..], c);
      assert LowerChar(s[0]) == c <==> s[0] == c;
      if s[0] != c {
        assert ([s[0]] + RemoveFirst(s[1..], c))[1..] == RemoveFirst(s[1..], c);
      }
    }
  }

  /** JavaScript's `a || b` on two strings: `a` unless it is the empty string. */
  function OrElse(a: string, b: string): (r: string)
    ensures r == a || r == b
    ensures r == "" <==> a == "" && b == ""
    ensures a != "" ==> r == a
  {
    if a != "" then a else b
  }
}
