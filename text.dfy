/**
 * The string operations the components use: `toLowerCase`/`toUpperCase`,
 * `includes`, `trim`, `split(" ")` and the "first letter of every word"
 * initials, on ASCII text (see README for what is abstracted).
 */
module Text {

  /** The ASCII characters that `\s` matches and that `trim()` strips. */
  predicate IsSpace(c: char)
  {
    c == ' ' || c == '\t' || c == '\n' || c == '\r' || c == '\U{0B}' || c == '\U{0C}'
  }

  /** Every character of `s` is whitespace (this includes the empty string). */
  predicate Blank(s: string)
  {
    forall i :: 0 <= i < |s| ==> IsSpace(s[i])
  }

  function LowerChar(c: char): char
  {
    if 'A' <= c <= 'Z' then (c as int + 32) as char else c
  }

  function UpperChar(c: char): char
  {
    if 'a' <= c <= 'z' then (c as int - 32) as char else c
  }

  /** `s.toLowerCase()` on ASCII letters. */
  function ToLower(s: string): (r: string)
    ensures |r| == |s|
    ensures forall i :: 0 <= i < |s| ==> r[i] == LowerChar(s[i])
  {
    seq(|s|, i requires 0 <= i < |s| => LowerChar(s[i]))
  }

  /** `s.toUpperCase()` on ASCII letters. */
  function ToUpper(s: string): (r: string)
    ensures |r| == |s|
    ensures forall i :: 0 <= i < |s| ==> r[i] == UpperChar(s[i])
  {
    seq(|s|, i requires 0 <= i < |s| => UpperChar(s[i]))
  }

  /** `sub` occurs in `s` starting at offset `i`. */
  predicate OccursAt(s: string, sub: string, i: int)
  {
    0 <= i <= |s| - |sub| && s[i..i + |sub|] == sub
  }

  /** `s.includes(sub)`: `sub` occurs in `s` at some offset. */
  predicate Includes(s: string, sub: string)
  {
    exists i | 0 <= i <= |s| - |sub| :: OccursAt(s, sub, i)
  }

  /** Every string includes the empty string, and only strings at least as long as `sub` include it. */
  lemma IncludesBasics(s: string, sub: string)
    ensures Includes(s, "")
    ensures Includes(s, sub) ==> |sub| <= |s|
    ensures Includes(s, s)
  {
    assert OccursAt(s, "", 0);
    assert OccursAt(s, s, 0);
  }

  /** `s.trimStart()`: what remains after the leading whitespace. */
  function TrimStart(s: string): (r: string)
    ensures |r| <= |s| && r == s[|s| - |r|..]
    ensures Blank(s[..|s| - |r|])
    ensures r != "" ==> !IsSpace(r[0])
  {
    if |s| > 0 && IsSpace(s[0]) then
      var t := s[1..];
      var r := TrimStart(t);
      assert s[|s| - |r|..] == t[|t| - |r|..];
      assert s[..|s| - |r|] == [s[0]] + t[..|t| - |r|];
      r
    else s
  }

  /** `s.trimEnd()`: what remains before the trailing whitespace. */
  function TrimEnd(s: string): (r: string)
    ensures |r| <= |s| && r == s[..|r|]
    ensures Blank(s[|r|..])
    ensures r != "" ==> !IsSpace(r[|r| - 1])
  {
    if |s| > 0 && IsSpace(s[|s| - 1]) then
      var t := s[..|s| - 1];
      var r := TrimEnd(t);
      assert s[..|r|] == t[..|r|];
      assert s[|r|..] == t[|r|..] + [s[|s| - 1]];
      r
    else s
  }

  /** `s.trim()`: empty exactly when `s` is blank, otherwise framed by non-space characters. */
  function Trim(s: string): (r: string)
    ensures r == "" <==> Blank(s)
    ensures r != "" ==> !IsSpace(r[0]) && !IsSpace(r[|r| - 1])
    ensures |r| <= |s|
  {
    var t := TrimStart(s);
    var r := TrimEnd(t);
    BlankSplit(s, t, r);
    r
  }

  /** `s` is blank exactly when trimming both ends leaves nothing. */
  lemma BlankSplit(s: string, t: string, r: string)
    requires |t| <= |s| && t == s[|s| - |t|..] && Blank(s[..|s| - |t|])
    requires t != "" ==> !IsSpace(t[0])
    requires |r| <= |t| && r == t[..|r|] && Blank(t[|r|..])
    ensures r == "" <==> Blank(s)
    ensures r != "" ==> r[0] == t[0]
  {
    var head := s[..|s| - |t|];
    assert s == head + t;
    if r == "" {
      assert t[|r|..] == t;
      assert s == head;
    } else {
      assert s[|head|] == t[0] == r[0];
    }
  }

  /** A string whose first or last character is whitespace is changed by `trim()`. */
  lemma TrimChangesPadded(s: string)
    requires |s| > 0 && (IsSpace(s[0]) || IsSpace(s[|s| - 1]))
    ensures Trim(s) != s
  {
  }

  /** `parts.join(sep)` for a one-character separator. */
  function Join(parts: seq<string>, sep: char): string
    requires |parts| >= 1
  {
    if |parts| == 1 then parts[0] else parts[0] + [sep] + Join(parts[1..], sep)
  }

  /** `s.split(sep)` for a one-character separator: the maximal pieces between separators. */
  function Split(s: string, sep: char): (parts: seq<string>)
    ensures |parts| >= 1
    ensures forall k :: 0 <= k < |parts| ==> sep !in parts[k]
  {
    if s == [] then [""]
    else
      var rest := Split(s[1..], sep);
      if s[0] == sep then [""] + rest else [[s[0]] + rest[0]] + rest[1..]
  }

  /** Joining the pieces with the separator gives back the string. */
  lemma {:induction false} JoinSplit(s: string, sep: char)
    ensures Join(Split(s, sep), sep) == s
  {
    if s != [] {
      var rest := Split(s[1..], sep);
      JoinSplit(s[1..], sep);
      if s[0] != sep && |rest| > 1 {
        assert Split(s, sep)[1..] == rest[1..];
      }
    }
  }

  /** Splitting a join of separator-free pieces gives back the pieces. */
  lemma {:induction false} SplitJoin(parts: seq<string>, sep: char)
    requires |parts| >= 1
    requires forall k :: 0 <= k < |parts| ==> sep !in parts[k]
    ensures Split(Join(parts, sep), sep) == parts
  {
    if |parts| == 1 {
      SplitPiece(parts[0], [], sep);
    } else {
      SplitJoin(parts[1..], sep);
      SplitPiece(parts[0], Join(parts[1..], sep), sep);
      assert [parts[0]] + parts[1..] == parts;
    }
  }

  /** A separator-free piece followed by a separator and a tail splits into the piece and the tail's pieces. */
  lemma {:induction false} SplitPiece(piece: string, tail: string, sep: char)
    requires sep !in piece
    ensures tail == [] ==> Split(piece, sep) == [piece]
    ensures Split(piece + [sep] + tail, sep) == [piece] + Split(tail, sep)
  {
    if piece != [] {
      SplitPiece(piece[1..], tail, sep);
      assert (piece + [sep] + tail)[1..] == piece[1..] + [sep] + tail;
      assert [piece[0]] + piece[1..] == piece;
      if tail == [] {
        assert Split(piece, sep) == [[piece[0]] + Split(piece[1..], sep)[0]];
      }
    } else {
      assert piece + [sep] + tail == [sep] + tail;
    }
  }

  /** `parts.map(w => w[0]).join("")`: the first character of every piece; an empty piece gives `undefined`, which `join` writes as nothing. */
  function FirstChars(parts: seq<string>): (r: string)
    ensures |r| <= |parts|
  {
    if parts == [] then ""
    else (if parts[0] == "" then "" else [parts[0][0]]) + FirstChars(parts[1..])
  }

  /** Initials distribute over concatenation of the piece lists. */
  lemma {:induction false} FirstCharsAppend(a: seq<string>, b: seq<string>)
    ensures FirstChars(a + b) == FirstChars(a) + FirstChars(b)
  {
    if a != [] {
      FirstCharsAppend(a[1..], b);
      var head := if a[0] == "" then "" else [a[0][0]];
      assert (a + b)[0] == a[0];
      assert (a + b)[1..] == a[1..] + b;
      calc {
        FirstChars(a + b);
        head + FirstChars(a[1..] + b);
        head + (FirstChars(a[1..]) + FirstChars(b));
        (head + FirstChars(a[1..])) + FirstChars(b);
      }
    } else {
      assert a + b == b;
    }
  }

  /** An empty piece (two spaces in a row, or a leading or trailing space) contributes nothing. */
  lemma EmptyPieceContributesNothing(a: seq<string>, b: seq<string>)
    ensures FirstChars(a + [""] + b) == FirstChars(a + b)
  {
    FirstCharsAppend(a + [""], b);
    FirstCharsAppend(a, [""]);
    FirstCharsAppend(a, b);
  }

  /** When no piece is empty there is one initial per piece, in order. */
  lemma {:induction false} FirstCharsOfWords(parts: seq<string>)
    requires forall k :: 0 <= k < |parts| ==> parts[k] != ""
    ensures |FirstChars(parts)| == |parts|
    ensures forall k :: 0 <= k < |parts| ==> FirstChars(parts)[k] == parts[k][0]
  {
    if parts != [] {
      FirstCharsOfWords(parts[1..]);
    }
  }

  /** `name.split(" ").map(w => w[0]).join("")`: the first letter of every space-separated word. */
  function WordInitials(name: string): (r: string)
    ensures |r| <= |Split(name, ' ')|
  {
    FirstChars(Split(name, ' '))
  }

  /** A name made of non-empty words joined by single spaces has one initial per word, in order. */
  lemma WordInitialsOfWords(words: seq<string>)
    requires |words| >= 1
    requires forall k :: 0 <= k < |words| ==> words[k] != "" && ' ' !in words[k]
    ensures |WordInitials(Join(words, ' '))| == |words|
    ensures forall k :: 0 <= k < |words| ==> WordInitials(Join(words, ' '))[k] == words[k][0]
  {
    SplitJoin(words, ' ');
    FirstCharsOfWords(words);
  }

  /** No piece contains a space. */
  predicate SpaceFree(parts: seq<string>)
  {
    forall k :: 0 <= k < |parts| ==> ' ' !in parts[k]
  }

  lemma SpaceFreeAppend(a: seq<string>, b: seq<string>)
    requires SpaceFree(a) && SpaceFree(b)
    ensures SpaceFree(a + b)
  {
    forall k | 0 <= k < |a + b| ensures ' ' !in (a + b)[k] {
      if k < |a| {
        assert (a + b)[k] == a[k];
      } else {
        assert (a + b)[k] == b[k - |a|];
      }
    }
  }

  /**
   * An empty word, which is what a doubled, leading or trailing space
   * produces, leaves the initials unchanged.
   */
  lemma EmptyWordIgnored(a: seq<string>, b: seq<string>)
    requires SpaceFree(a) && SpaceFree(b) && |a + b| >= 1
    ensures WordInitials(Join(a + [""] + b, ' ')) == WordInitials(Join(a + b, ' '))
  {
    SpaceFreeAppend(a, b);
    SpaceFreeAppend(a, [""]);
    SpaceFreeAppend(a + [""], b);
    SplitJoin(a + b, ' ');
    SplitJoin(a + [""] + b, ' ');
    EmptyPieceContributesNothing(a, b);
  }

  /** The count label: `word` followed by an `s` unless the count is exactly one. */
  function Plural(word: string, n: int): (r: string)
    ensures n == 1 <==> r == word
    ensures n != 1 ==> r == word + "s"
  {
    word + (if n != 1 then "s" else "")
  }

  /** Every character is a decimal digit. */
  predicate Digits(s: string)
  {
    forall i :: 0 <= i < |s| ==> '0' <= s[i] <= '9'
  }

  /** The number a string of decimal digits denotes. */
  function DecimalValue(s: string): nat
    requires Digits(s)
  {
    if s == [] then 0 else DecimalValue(s[..|s| - 1]) * 10 + (s[|s| - 1] as int - '0' as int)
  }

  /** A count interpolated into a template (`${n}`): its decimal digits, with no leading zero. */
  function Decimal(n: nat): (r: string)
    ensures r != [] && Digits(r)
    ensures r[0] == '0' ==> n == 0 && |r| == 1
  {
    if n < 10 then [('0' as int + n) as char]
    else Decimal(n / 10) + [('0' as int + n % 10) as char]
  }

  /** Reading the digits back gives the count. */
  lemma {:induction false} DecimalRoundTrip(n: nat)
    ensures DecimalValue(Decimal(n)) == n
  {
    if n >= 10 {
      var d := Decimal(n);
      assert d[..|d| - 1] == Decimal(n / 10);
      DecimalRoundTrip(n / 10);
    }
  }

  /** `r` is `before`, then the decimal digits of `n`, then `after`. */
  ghost predicate ShowsNumber(r: string, before: string, n: nat, after: string)
  {
    |r| > |before| + |after|
    && r[..|before|] == before && r[|r| - |after|..] == after
    && Digits(r[|before|..|r| - |after|]) && DecimalValue(r[|before|..|r| - |after|]) == n
  }

  /** Interpolating `n` between two fixed pieces shows `n`. */
  lemma DecimalShown(before: string, n: nat, after: string)
    ensures ShowsNumber(before + Decimal(n) + after, before, n, after)
  {
    var r := before + Decimal(n) + after;
    assert r[|before|..|r| - |after|] == Decimal(n);
    DecimalRoundTrip(n);
  }

  /** A count followed by a word, plural unless the count is one, shows the count; it reads "1 word" exactly for one. */
  lemma CountedWord(n: nat, word: string)
    ensures ShowsNumber(Decimal(n) + " " + Plural(word, n), "", n, " " + Plural(word, n))
    ensures n == 1 <==> Decimal(n) + " " + Plural(word, n) == "1 " + word
  {
    var tail := " " + Plural(word, n);
    DecimalShown("", n, tail);
    assert "" + Decimal(n) + tail == Decimal(n) + " " + Plural(word, n);
    if n == 1 {
      assert Decimal(1) == ['1'];
    } else {
      assert |Decimal(n) + " " + Plural(word, n)| == |Decimal(n)| + 2 + |word|;
    }
  }
}
