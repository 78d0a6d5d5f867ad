/** `_load_labels`: the label file is read line by line and every line is stripped of
    surrounding whitespace, giving one class name per line in file order. */
module LabelFile {
  import opened Sequences

  /** Python's `str.isspace` for a single character. */
  predicate IsSpace(c: char)
  {
    c == ' ' || c == '\t' || c == '\n' || c == '\r' || c == '\U{000B}' || c == '\U{000C}' ||
    c == '\U{001C}' || c == '\U{001D}' || c == '\U{001E}' || c == '\U{001F}' ||
    c == '\U{0085}' || c == '\U{00A0}' || c == '\U{1680}' ||
    ('\U{2000}' <= c <= '\U{200A}') || c == '\U{2028}' || c == '\U{2029}' ||
    c == '\U{202F}' || c == '\U{205F}' || c == '\U{3000}'
  }

  /** Number of whitespace characters at the start of `s`. */
  function LeadingSpaces(s: string): (n: nat)
    ensures n <= |s|
    ensures forall k :: 0 <= k < n ==> IsSpace(s[k])
    ensures n == |s| || !IsSpace(s[n])
  {
    if s != [] && IsSpace(s[0]) then 1 + LeadingSpaces(s[1..]) else 0
  }

  /** Number of whitespace characters at the end of `s`. */
  function TrailingSpaces(s: string): (n: nat)
    ensures n <= |s|
    ensures forall k :: |s| - n <= k < |s| ==> IsSpace(s[k])
    ensures n == |s| || !IsSpace(s[|s| - n - 1])
  {
    if s != [] && IsSpace(s[|s| - 1]) then 1 + TrailingSpaces(s[..|s| - 1]) else 0
  }

  /** `s.lstrip()`. */
  function StripLeading(s: string): string
  {
    s[LeadingSpaces(s)..]
  }

  /** `s.rstrip()`. */
  function StripTrailing(s: string): string
  {
    s[..|s| - TrailingSpaces(s)]
  }

  /** `s.strip()`: a slice of `s` starting after its leading whitespace, which neither starts
      nor ends with whitespace. */
  function Strip(s: string): (r: string)
    ensures LeadingSpaces(s) + |r| <= |s| && r == s[LeadingSpaces(s)..LeadingSpaces(s) + |r|]
    ensures r == [] || (!IsSpace(r[0]) && !IsSpace(r[|r| - 1]))
  {
    var t := StripLeading(s);
    var r := StripTrailing(t);
    assert r == s[LeadingSpaces(s)..LeadingSpaces(s) + |r|];
    assert r != [] ==> r[0] == t[0] && r[|r| - 1] == t[|t| - TrailingSpaces(t) - 1];
    r
  }

  /** The stripped string is a slice of `s`: everything removed before and after it is
      whitespace, and it neither starts nor ends with whitespace. */
  lemma {:induction false} StripIsTrimmedSlice(s: string)
    ensures exists i, j :: 0 <= i <= j <= |s| && Strip(s) == s[i..j] && Trimmed(s, i, j)
  {
    StripBounds(s);
  }

  /** `StripIsTrimmedSlice` with the slice's bounds named: s.strip() is s[i..j] where i counts
      the leading whitespace and |s| - j the trailing whitespace of s[i..]. */
  lemma {:induction false} StripBounds(s: string)
    ensures LeadingSpaces(s) <= |s| - TrailingSpaces(StripLeading(s)) <= |s|
    ensures Strip(s) == s[LeadingSpaces(s)..|s| - TrailingSpaces(StripLeading(s))]
    ensures Trimmed(s, LeadingSpaces(s), |s| - TrailingSpaces(StripLeading(s)))
  {
    var i := LeadingSpaces(s);
    var j := |s| - TrailingSpaces(s[i..]);
    assert s[i..][..j - i] == s[i..j];
    TrailingSpacesOfSuffix(s, i);
  }

  /** The trailing whitespace of s[i..], read as positions of `s`. */
  lemma {:induction false} TrailingSpacesOfSuffix(s: string, i: nat)
    requires i <= |s|
    ensures forall k :: |s| - TrailingSpaces(s[i..]) <= k < |s| ==> IsSpace(s[k])
    ensures i < |s| - TrailingSpaces(s[i..]) ==> !IsSpace(s[|s| - TrailingSpaces(s[i..]) - 1])
  {
    var t := s[i..];
    forall k | |s| - TrailingSpaces(t) <= k < |s| ensures s[k] == t[k - i] { }
  }

  /** Only whitespace lies outside s[i..j], and s[i..j] is empty or starts and ends with a
      character that is not whitespace. */
  predicate Trimmed(s: string, i: nat, j: nat)
    requires i <= j <= |s|
  {
    && (forall k :: 0 <= k < i ==> IsSpace(s[k]))
    && (forall k :: j <= k < |s| ==> IsSpace(s[k]))
    && (i == j || (!IsSpace(s[i]) && !IsSpace(s[j - 1])))
  }

  /** Stripping twice changes nothing more. */
  lemma {:induction false} StripIdempotent(s: string)
    ensures Strip(Strip(s)) == Strip(s)
  {
    StripBounds(s);
    var i, j := LeadingSpaces(s), |s| - TrailingSpaces(StripLeading(s));
    var r := Strip(s);
    if r != [] {
      assert r[0] == s[i] && r[|r| - 1] == s[j - 1];
    }
    assert LeadingSpaces(r) == 0;
    assert StripLeading(r) == r;
    assert TrailingSpaces(r) == 0;
  }

  /** Length of the first line of a non-empty text, its '\n' included if it has one. */
  function LineEnd(text: string): (k: nat)
    requires text != []
    ensures 0 < k <= |text|
    ensures forall j :: 0 <= j < k - 1 ==> text[j] != '\n'
    ensures k < |text| ==> text[k - 1] == '\n'
    ensures k == |text| && text[k - 1] != '\n' ==> forall j :: 0 <= j < |text| ==> text[j] != '\n'
  {
    if text[0] == '\n' || |text| == 1 then 1 else 1 + LineEnd(text[1..])
  }

  /** Python's `f.readlines()`: the text cut after every '\n'; the last line has no '\n'
      when the text does not end with one. */
  function ReadLines(text: string): (lines: seq<string>)
    ensures Flatten(lines) == text
    ensures forall i :: 0 <= i < |lines| ==> lines[i] != []
    decreases |text|
  {
    if text == [] then []
    else
      var k := LineEnd(text);
      var rest := ReadLines(text[k..]);
      assert ([text[..k]] + rest)[1..] == rest;
      assert text == text[..k] + text[k..];
      [text[..k]] + rest
  }

  /** '\n' occurs in `line` at most as its last character. */
  predicate NewlineOnlyAtEnd(line: string)
  {
    forall j :: 0 <= j < |line| - 1 ==> line[j] != '\n'
  }

  /** Every line read holds a '\n' only at its end, and every line but the last has one. */
  lemma {:induction false} LinesEndAtNewlines(text: string)
    ensures forall i :: 0 <= i < |ReadLines(text)| ==> NewlineOnlyAtEnd(ReadLines(text)[i])
    ensures forall i :: 0 <= i < |ReadLines(text)| - 1 ==>
      ReadLines(text)[i][|ReadLines(text)[i]| - 1] == '\n'
    decreases |text|
  {
    if text != [] {
      var k := LineEnd(text);
      var lines, rest := ReadLines(text), ReadLines(text[k..]);
      LinesEndAtNewlines(text[k..]);
      assert lines == [text[..k]] + rest;
      assert NewlineOnlyAtEnd(lines[0]) by {
        forall j | 0 <= j < k - 1 ensures lines[0][j] != '\n' {
          assert lines[0][j] == text[j];
        }
      }
      if 1 < |lines| {
        assert k < |text|;
        assert lines[0][k - 1] == text[k - 1];
      }
      forall i | 1 <= i < |lines| ensures lines[i] == rest[i - 1] { }
    }
  }

  /** Number of '\n' characters in `s`. */
  function CountNewlines(s: string): nat
  {
    if s == [] then 0 else (if s[0] == '\n' then 1 else 0) + CountNewlines(s[1..])
  }

  lemma {:induction false} CountNewlinesAppend(a: string, b: string)
    ensures CountNewlines(a + b) == CountNewlines(a) + CountNewlines(b)
  {
    if a != [] {
      assert (a + b)[1..] == a[1..] + b;
      CountNewlinesAppend(a[1..], b);
    } else {
      assert a + b == b;
    }
  }

  lemma {:induction false} NoNewlines(s: string)
    requires forall j :: 0 <= j < |s| ==> s[j] != '\n'
    ensures CountNewlines(s) == 0
  {
    if s != [] {
      NoNewlines(s[1..]);
    }
  }

  /** A file has one line per '\n', plus one for a last line without a terminator. */
  lemma {:induction false} LineCount(text: string)
    ensures |ReadLines(text)| ==
      CountNewlines(text) + (if text == [] || text[|text| - 1] == '\n' then 0 else 1)
  {
    if text != [] {
      var k := LineEnd(text);
      FirstLineNewlines(text);
      LineCount(text[k..]);
      if k < |text| {
        assert text[|text| - 1] == text[k..][|text| - k - 1];
      }
    }
  }

  /** The first line holds one '\n', its last character, or none when it is the whole text. */
  lemma {:induction false} FirstLineNewlines(text: string)
    requires text != []
    ensures CountNewlines(text) ==
      (if text[LineEnd(text) - 1] == '\n' then 1 else 0) + CountNewlines(text[LineEnd(text)..])
  {
    var k := LineEnd(text);
    var first := text[..k];
    assert text == first[..k - 1] + ([first[k - 1]] + text[k..]);
    CountNewlinesAppend(first[..k - 1], [first[k - 1]] + text[k..]);
    NoNewlines(first[..k - 1]);
    assert ([first[k - 1]] + text[k..])[1..] == text[k..];
  }

  /** `_load_labels` applied to the file's text. */
  function LoadLabels(text: string): (labels: seq<string>)
    ensures |labels| == |ReadLines(text)|
    ensures forall i :: 0 <= i < |labels| ==> labels[i] == Strip(ReadLines(text)[i])
  {
    Map(Strip, ReadLines(text))
  }

  /** Every label is free of line breaks and of surrounding whitespace. */
  lemma {:induction false} LabelsAreClean(text: string)
    ensures forall i :: 0 <= i < |LoadLabels(text)| ==>
      var name := LoadLabels(text)[i];
      && '\n' !in name
      && (name == [] || (!IsSpace(name[0]) && !IsSpace(name[|name| - 1])))
  {
    var lines := ReadLines(text);
    LinesEndAtNewlines(text);
    forall i | 0 <= i < |lines|
      ensures '\n' !in Strip(lines[i])
      ensures Strip(lines[i]) == [] || (!IsSpace(Strip(lines[i])[0]) && !IsSpace(Strip(lines[i])[|Strip(lines[i])| - 1]))
    {
      StrippedLineIsClean(lines[i]);
    }
  }

  /** A line read from a file, '\n' at most as its last character, strips to a clean label. */
  lemma {:induction false} StrippedLineIsClean(line: string)
    requires NewlineOnlyAtEnd(line)
    ensures '\n' !in Strip(line)
    ensures Strip(line) == [] || (!IsSpace(Strip(line)[0]) && !IsSpace(Strip(line)[|Strip(line)| - 1]))
  {
    StripBounds(line);
    var i, j := LeadingSpaces(line), |line| - TrailingSpaces(StripLeading(line));
    var r := Strip(line);
    if r != [] {
      assert r[0] == line[i] && r[|r| - 1] == line[j - 1];
      NoNewlineInside(line, i, j);
    }
  }

  /** A slice that does not end in whitespace stops before a final '\n'. */
  lemma {:induction false} NoNewlineInside(line: string, i: nat, j: nat)
    requires NewlineOnlyAtEnd(line)
    requires i < j <= |line| && !IsSpace(line[j - 1])
    ensures '\n' !in line[i..j]
  {
    forall m | i <= m < j ensures line[m] != '\n' {
      if m == |line| - 1 {
        assert m == j - 1;
      }
    }
    assert forall m :: 0 <= m < j - i ==> line[i..j][m] == line[i + m];
  }
}
