/** The string primitives the components use: digit tests, ASCII case folding,
    `includes`, `startsWith`, `trim`, and `split`/`join` on one separator
    character. Strings are sequences of Unicode scalar values. */
module Text {
  import opened Lists

  predicate IsDigit(c: char) { '0' <= c <= '9' }

  predicate AllDigits(s: string) { forall i :: 0 <= i < |s| ==> IsDigit(s[i]) }

  /** `s.startsWith(prefix)` */
  predicate StartsWith(s: string, prefix: string) {
    |prefix| <= |s| && s[..|prefix|] == prefix
  }

  /** `s.replace(/\D/g, '')`: the ASCII digits of `s`, in order. */
  function Digits(s: string): (r: string)
    ensures AllDigits(r) && |r| <= |s|
    ensures AllDigits(s) ==> r == s
  {
    if s == [] then []
    else if IsDigit(s[0]) then [s[0]] + Digits(s[1..])
    else Digits(s[1..])
  }

  /** The digits kept are exactly those of `s`, in their order. */
  lemma {:induction false} DigitsInOrder(s: string)
    ensures Digits(s) == Filter(s, IsDigit)
  {
    if s != [] {
      DigitsInOrder(s[1..]);
    }
  }

  function LowerChar(c: char): char {
    if 'A' <= c <= 'Z' then (c as int + 32) as char else c
  }

  /** `s.toLowerCase()` restricted to ASCII letters. */
  function Lower(s: string): (r: string)
    ensures |r| == |s|
    ensures forall i :: 0 <= i < |s| ==> r[i] == LowerChar(s[i])
  {
    if s == [] then [] else [LowerChar(s[0])] + Lower(s[1..])
  }

  lemma LowerIdempotent(s: string)
    ensures Lower(Lower(s)) == Lower(s)
  {
  }

  /** `s.includes(sub)` */
  predicate Includes(s: string, sub: string)
    decreases |s|
  {
    StartsWith(s, sub) || (s != [] && Includes(s[1..], sub))
  }

  lemma {:induction false} IncludesSlice(s: string, i: nat, sub: string)
    requires i + |sub| <= |s| && s[i..i + |sub|] == sub
    ensures Includes(s, sub)
    decreases i
  {
    if i > 0 {
      assert s[1..][i - 1..i - 1 + |sub|] == sub;
      IncludesSlice(s[1..], i - 1, sub);
    }
  }

  /** The characters JavaScript's `trim` removes: WhiteSpace and LineTerminator. */
  predicate IsSpace(c: char) {
    c == ' ' || c == '\t' || c == '\n' || c == '\r' || c == '\U{B}' || c == '\U{C}'
    || c == '\U{A0}' || c == '\U{1680}' || ('\U{2000}' <= c <= '\U{200A}')
    || c == '\U{2028}' || c == '\U{2029}' || c == '\U{202F}' || c == '\U{205F}'
    || c == '\U{3000}' || c == '\U{FEFF}'
  }

  predicate IsBlank(s: string) { forall i :: 0 <= i < |s| ==> IsSpace(s[i]) }

  /** Lower-casing neither makes nor unmakes white space. */
  lemma BlankIgnoresCase(s: string)
    ensures IsBlank(Lower(s)) <==> IsBlank(s)
  {
    forall i | 0 <= i < |s|
      ensures IsSpace(Lower(s)[i]) <==> IsSpace(s[i])
    {
      var c := s[i];
      if 'A' <= c <= 'Z' {
        assert !IsSpace(c) && !IsSpace(LowerChar(c));
      }
    }
  }

  function TrimStart(s: string): (r: string)
    ensures |r| <= |s| && r == s[|s| - |r|..]
    ensures r == [] || !IsSpace(r[0])
    ensures IsBlank(s[..|s| - |r|])
  {
    if s != [] && IsSpace(s[0]) then TrimStart(s[1..]) else s
  }

  function TrimEnd(s: string): (r: string)
    ensures |r| <= |s| && r == s[..|r|]
    ensures r == [] || !IsSpace(r[|r| - 1])
    ensures IsBlank(s[|r|..])
  {
    if s != [] && IsSpace(s[|s| - 1]) then TrimEnd(s[..|s| - 1]) else s
  }

  /** `s.trim()` */
  function Trim(s: string): (r: string)
    ensures r == [] || (!IsSpace(r[0]) && !IsSpace(r[|r| - 1]))
    ensures |r| <= |s|
  {
    TrimEnd(TrimStart(s))
  }

  /** The trimmed text is the middle of `s`, between two blank ends. */
  lemma TrimIsMiddle(s: string) returns (i: nat)
    ensures i + |Trim(s)| <= |s| && Trim(s) == s[i..i + |Trim(s)|]
    ensures IsBlank(s[..i]) && IsBlank(s[i + |Trim(s)|..])
  {
    var t := TrimStart(s);
    var r := TrimEnd(t);
    i := |s| - |t|;
    assert s[i..i + |r|] == t[..|r|];
    assert s[i + |r|..] == t[|r|..];
  }

  lemma {:induction false} TrimStartBlank(s: string)
    requires IsBlank(s)
    ensures TrimStart(s) == []
    decreases |s|
  {
    if s != [] { TrimStartBlank(s[1..]); }
  }

  lemma {:induction false} TrimEndKeeps(t: string)
    requires t != [] && !IsSpace(t[0])
    ensures TrimEnd(t) != []
    decreases |t|
  {
    if IsSpace(t[|t| - 1]) {
      TrimEndKeeps(t[..|t| - 1]);
    }
  }

  /** `s.trim() === ''` exactly when every character of `s` is white space. */
  lemma TrimEmptyIffBlank(s: string)
    ensures Trim(s) == [] <==> IsBlank(s)
  {
    var t := TrimStart(s);
    if t != [] {
      TrimEndKeeps(t);
      if IsBlank(s) { TrimStartBlank(s); }
    } else {
      assert s[..|s|] == s;
    }
  }

  /** `s.length`: the number of UTF-16 code units, two for a character
      beyond U+FFFF. */
  function Utf16Length(s: string): (n: nat)
    ensures |s| <= n <= 2 * |s|
    ensures (forall i :: 0 <= i < |s| ==> s[i] as int < 0x10000) ==> n == |s|
  {
    if s == [] then 0 else (if s[0] as int < 0x10000 then 1 else 2) + Utf16Length(s[1..])
  }

  lemma {:induction false} Utf16LengthAppend(a: string, b: string)
    ensures Utf16Length(a + b) == Utf16Length(a) + Utf16Length(b)
    decreases |a|
  {
    if a == [] {
      assert a + b == b;
    } else {
      assert (a + b)[1..] == a[1..] + b;
      Utf16LengthAppend(a[1..], b);
    }
  }

  lemma {:induction false} TrimStartShorter(s: string)
    ensures Utf16Length(TrimStart(s)) <= Utf16Length(s)
    decreases |s|
  {
    if s != [] && IsSpace(s[0]) {
      TrimStartShorter(s[1..]);
    }
  }

  lemma {:induction false} TrimEndShorter(s: string)
    ensures Utf16Length(TrimEnd(s)) <= Utf16Length(s)
    decreases |s|
  {
    if s != [] && IsSpace(s[|s| - 1]) {
      var init := s[..|s| - 1];
      TrimEndShorter(init);
      assert s == init + [s[|s| - 1]];
      Utf16LengthAppend(init, [s[|s| - 1]]);
    }
  }

  /** Trimming never lengthens a text. */
  lemma TrimShorter(s: string)
    ensures Utf16Length(Trim(s)) <= Utf16Length(s)
  {
    TrimStartShorter(s);
    TrimEndShorter(TrimStart(s));
  }

  /** Three emoji are three characters but six code units. */
  lemma EmojiLength()
    ensures |"\U{1F600}\U{1F600}\U{1F600}"| == 3
    ensures Utf16Length("\U{1F600}\U{1F600}\U{1F600}") == 6
  {
  }

  /** Number of occurrences of `c` in `s`. */
  function Count(s: string, c: char): nat {
    if s == [] then 0 else (if s[0] == c then 1 else 0) + Count(s[1..], c)
  }

  lemma {:induction false} CountAppend(a: string, b: string, c: char)
    ensures Count(a + b, c) == Count(a, c) + Count(b, c)
    decreases |a|
  {
    if a == [] {
      assert a + b == b;
    } else {
      assert (a + b)[1..] == a[1..] + b;
      CountAppend(a[1..], b, c);
    }
  }

  lemma {:induction false} CountAbsent(s: string, c: char)
    requires c !in s
    ensures Count(s, c) == 0
    decreases |s|
  {
    if s != [] {
      assert s[0] != c;
      CountAbsent(s[1..], c);
    }
  }

  /** `s.split(sep)` with a one-character separator: the pieces between the
      separators, always at least one ("" splits into [""]). */
  function Split(s: string, sep: char): (r: seq<string>)
    ensures |r| >= 1
    ensures forall w :: w in r ==> sep !in w
    decreases |s|
  {
    if s == [] then [""]
    else if s[0] == sep then [""] + Split(s[1..], sep)
    else
      var rest := Split(s[1..], sep);
      assert sep !in rest[0];
      [[s[0]] + rest[0]] + rest[1..]
  }

  /** `words.join(sep)`; the join of no words is "". */
  function Join(ws: seq<string>, sep: char): string
    decreases |ws|
  {
    if |ws| == 0 then ""
    else if |ws| == 1 then ws[0]
    else ws[0] + [sep] + Join(ws[1..], sep)
  }

  /** Splitting and joining on the same separator gives the text back. */
  lemma {:induction false} JoinSplit(s: string, sep: char)
    ensures Join(Split(s, sep), sep) == s
    decreases |s|
  {
    if s != [] {
      var rest := Split(s[1..], sep);
      JoinSplit(s[1..], sep);
      if s[0] == sep {
        assert Split(s, sep) == [""] + rest;
        assert ([""] + rest)[1..] == rest;
      } else {
        var ws := [[s[0]] + rest[0]] + rest[1..];
        assert Split(s, sep) == ws;
        if |rest| == 1 {
          assert Join(rest, sep) == rest[0];
        } else {
          assert ws[1..] == rest[1..];
          assert Join(rest, sep) == rest[0] + [sep] + Join(rest[1..], sep);
        }
      }
    }
  }

  /** The join of pieces free of the separator holds one separator fewer
      than there are pieces. */
  lemma {:induction false} CountJoin(ws: seq<string>, sep: char)
    requires |ws| >= 1
    requires forall w :: w in ws ==> sep !in w
    ensures Count(Join(ws, sep), sep) == |ws| - 1
    decreases |ws|
  {
    CountAbsent(ws[0], sep);
    if |ws| > 1 {
      CountJoin(ws[1..], sep);
      CountAppend(ws[0] + [sep], Join(ws[1..], sep), sep);
      CountAppend(ws[0], [sep], sep);
      assert Count([sep], sep) == 1 by { assert [sep][1..] == []; }
    }
  }

  /** A text has one more word than separators. */
  lemma SplitLength(s: string, sep: char)
    ensures |Split(s, sep)| == Count(s, sep) + 1
  {
    JoinSplit(s, sep);
    CountJoin(Split(s, sep), sep);
  }

  /** The first `k` pieces, joined back, are a prefix of the whole text. */
  lemma {:induction false} JoinPrefix(ws: seq<string>, k: nat, sep: char)
    requires 1 <= k <= |ws|
    ensures StartsWith(Join(ws, sep), Join(ws[..k], sep))
    decreases k
  {
    if k == 1 {
      assert ws[..1] == [ws[0]];
      if |ws| > 1 { assert Join(ws, sep) == ws[0] + ([sep] + Join(ws[1..], sep)); }
    } else {
      JoinPrefix(ws[1..], k - 1, sep);
      assert ws[..k][1..] == ws[1..][..k - 1];
      var head := ws[0] + [sep];
      assert Join(ws, sep) == head + Join(ws[1..], sep);
      assert Join(ws[..k], sep) == head + Join(ws[1..][..k - 1], sep);
    }
  }

  /** When more pieces follow, the first `k` pieces joined back are followed
      in the whole text by a separator. */
  lemma {:induction false} JoinPrefixSep(ws: seq<string>, k: nat, sep: char)
    requires 1 <= k < |ws|
    ensures StartsWith(Join(ws, sep), Join(ws[..k], sep) + [sep])
    decreases k
  {
    var head := ws[0] + [sep];
    assert Join(ws, sep) == head + Join(ws[1..], sep);
    if k == 1 {
      assert ws[..1] == [ws[0]];
    } else {
      JoinPrefixSep(ws[1..], k - 1, sep);
      assert ws[..k][1..] == ws[1..][..k - 1];
      assert Join(ws[..k], sep) == head + Join(ws[1..][..k - 1], sep);
      var p := Join(ws[1..][..k - 1], sep) + [sep];
      assert Join(ws[..k], sep) + [sep] == head + p;
      assert (head + Join(ws[1..], sep))[..|head + p|] == head + Join(ws[1..], sep)[..|p|];
    }
  }

  /** The first `n` space-separated words of `text`, joined back with spaces:
      `text.split(' ').slice(0, n).join(' ')`. */
  function FirstWords(text: string, n: nat): string {
    var ws := Split(text, ' ');
    Join(ws[..if n <= |ws| then n else |ws|], ' ')
  }

  /** With fewer than `n` spaces, the first `n` words are the whole text. */
  lemma FirstWordsAll(text: string, n: nat)
    requires Count(text, ' ') < n
    ensures FirstWords(text, n) == text
  {
    var ws := Split(text, ' ');
    SplitLength(text, ' ');
    assert ws[..|ws|] == ws;
    JoinSplit(text, ' ');
  }

  /** Otherwise they are the prefix of the text that holds `n - 1` spaces
      and is followed by a space: the cut falls on a word boundary. */
  lemma FirstWordsCut(text: string, n: nat)
    requires 1 <= n <= Count(text, ' ')
    ensures StartsWith(text, FirstWords(text, n) + " ")
    ensures Count(FirstWords(text, n), ' ') == n - 1
  {
    var ws := Split(text, ' ');
    SplitLength(text, ' ');
    JoinSplit(text, ' ');
    JoinPrefixSep(ws, n, ' ');
    assert forall w :: w in ws[..n] ==> w in ws;
    CountJoin(ws[..n], ' ');
  }

  /** Appending "..." adds no space. */
  lemma CountEllipsis(p: string)
    ensures Count(p + "...", ' ') == Count(p, ' ')
  {
    CountAppend(p, "...", ' ');
    CountAbsent("...", ' ');
  }

  /** Lexicographic order on strings by code point: what `localeCompare`
      is taken to be on the ISO date strings the forms produce. */
  predicate LexLe(a: string, b: string)
    decreases |a|
  {
    a == [] || (b != [] && (a[0] < b[0] || (a[0] == b[0] && LexLe(a[1..], b[1..]))))
  }

  lemma {:induction false} LexLeTotal(a: string, b: string)
    ensures LexLe(a, b) || LexLe(b, a)
    decreases |a|
  {
    if a != [] && b != [] && a[0] == b[0] {
      LexLeTotal(a[1..], b[1..]);
    }
  }

  lemma {:induction false} LexLeTransitive(a: string, b: string, c: string)
    requires LexLe(a, b) && LexLe(b, c)
    ensures LexLe(a, c)
    decreases |a|
  {
    if a != [] && a[0] == b[0] && b[0] == c[0] {
      LexLeTransitive(a[1..], b[1..], c[1..]);
    }
  }
}
