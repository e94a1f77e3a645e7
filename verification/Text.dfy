/**
 * The string operations the repository relies on: trimming, joining, and
 * splitting an append-only text into its completely written lines.
 */
module Text {

  /** White space and line terminators as `String.prototype.trim` removes them. */
  predicate IsSpace(c: char) {
    || '\U{0009}' <= c <= '\U{000D}' || c == ' ' || c == '\U{00A0}' || c == '\U{1680}'
    || '\U{2000}' <= c <= '\U{200A}' || c == '\U{2028}' || c == '\U{2029}' || c == '\U{202F}'
    || c == '\U{205F}' || c == '\U{3000}' || c == '\U{FEFF}'
  }

  function TrimStart(s: string): string {
    if s != "" && IsSpace(s[0]) then TrimStart(s[1..]) else s
  }

  function TrimEnd(s: string): string {
    if s != "" && IsSpace(s[|s| - 1]) then TrimEnd(s[..|s| - 1]) else s
  }

  function Trim(s: string): string {
    TrimEnd(TrimStart(s))
  }

  /** The decoders' "non-empty and normalized": not blank, and unchanged by trimming. */
  predicate Normalized(s: string) {
    |Trim(s)| > 0 && s == Trim(s)
  }

  /** Trimming leaves a string with no space at either end, cut out of the middle of the original. */
  lemma {:induction false} TrimEndShape(s: string)
    ensures TrimEnd(s) <= s
    ensures TrimEnd(s) != "" ==> !IsSpace(TrimEnd(s)[|TrimEnd(s)| - 1])
    ensures forall i :: |TrimEnd(s)| <= i < |s| ==> IsSpace(s[i])
  {
    if s != "" && IsSpace(s[|s| - 1]) {
      TrimEndShape(s[..|s| - 1]);
    }
  }

  lemma {:induction false} TrimStartShape(s: string)
    ensures |TrimStart(s)| <= |s| && TrimStart(s) == s[|s| - |TrimStart(s)|..]
    ensures TrimStart(s) != "" ==> !IsSpace(TrimStart(s)[0])
    ensures forall i :: 0 <= i < |s| - |TrimStart(s)| ==> IsSpace(s[i])
  {
    if s != "" && IsSpace(s[0]) {
      var tail := s[1..];
      TrimStartShape(tail);
      var t := TrimStart(tail);
      assert TrimStart(s) == t;
      assert s[|s| - |t|..] == tail[|tail| - |t|..];
      forall i | 0 <= i < |s| - |t| ensures IsSpace(s[i]) {
        if i > 0 { assert s[i] == tail[i - 1]; }
      }
    }
  }

  /** A string is normalized exactly when it is non-empty and has no space at either end. */
  lemma NormalizedMeaning(s: string)
    ensures Normalized(s) <==> s != "" && !IsSpace(s[0]) && !IsSpace(s[|s| - 1])
  {
    TrimStartShape(s);
    TrimEndShape(TrimStart(s));
  }

  /** What the service stores after trimming is what the replay decoder demands. */
  lemma TrimNormalizes(s: string)
    requires |Trim(s)| > 0
    ensures Normalized(Trim(s))
  {
    TrimStartShape(s);
    TrimEndShape(TrimStart(s));
    NormalizedMeaning(Trim(s));
  }

  /** `Array.prototype.join` with a one-character separator. */
  function Join(parts: seq<string>, separator: char): string {
    if |parts| == 0 then ""
    else if |parts| == 1 then parts[0]
    else parts[0] + [separator] + Join(parts[1..], separator)
  }

  /** `String.prototype.split` on a one-character separator; never empty. */
  function Split(s: string, separator: char): (parts: seq<string>)
    ensures |parts| > 0
  {
    if s == "" then [""]
    else
      var rest := Split(s[1..], separator);
      if s[0] == separator then [""] + rest else [[s[0]] + rest[0]] + rest[1..]
  }

  /** Splitting distributes over a separator, which is what makes an index stable under append. */
  lemma {:induction false} SplitAtSeparator(a: string, separator: char, b: string)
    ensures Split(a + [separator] + b, separator) == Split(a, separator) + Split(b, separator)
  {
    var whole := a + [separator] + b;
    if a == "" {
      assert whole[1..] == b;
    } else {
      assert whole[1..] == a[1..] + [separator] + b;
      SplitAtSeparator(a[1..], separator, b);
    }
  }

  lemma JoinPrepend(c: char, parts: seq<string>, separator: char)
    requires |parts| > 0
    ensures Join([[c] + parts[0]] + parts[1..], separator) == [c] + Join(parts, separator)
  {
    var more := [[c] + parts[0]] + parts[1..];
    assert more[1..] == parts[1..];
    if |parts| > 1 {
      assert Join(more, separator) == [c] + (parts[0] + [separator] + Join(parts[1..], separator));
    }
  }

  /** Joining undoes splitting, and no part holds the separator. */
  lemma {:induction false} SplitJoin(s: string, separator: char)
    ensures Join(Split(s, separator), separator) == s
    ensures forall p :: p in Split(s, separator) ==> separator !in p
  {
    if s != "" {
      var rest := Split(s[1..], separator);
      SplitJoin(s[1..], separator);
      assert s == [s[0]] + s[1..];
      if s[0] == separator {
        assert ([""] + rest)[1..] == rest;
      } else {
        hide Join;
        JoinPrepend(s[0], rest, separator);
        assert rest[0] in rest;
      }
    }
  }

  /** Splitting undoes joining when no part holds the separator. */
  lemma {:induction false} JoinSplit(parts: seq<string>, separator: char)
    requires |parts| > 0 && forall p :: p in parts ==> separator !in p
    ensures Split(Join(parts, separator), separator) == parts
  {
    SplitWhole(parts[0], separator);
    if |parts| > 1 {
      JoinSplit(parts[1..], separator);
      SplitAtSeparator(parts[0], separator, Join(parts[1..], separator));
    }
  }

  lemma {:induction false} SplitWhole(s: string, separator: char)
    requires separator !in s
    ensures Split(s, separator) == [s]
  {
    if s != "" {
      SplitWhole(s[1..], separator);
      assert [s[0]] + s[1..] == s;
    }
  }

  /** Lists of non-empty parts without the separator are told apart by their joined text. */
  lemma JoinInjective(a: seq<string>, b: seq<string>, separator: char)
    requires forall p :: p in a ==> separator !in p && p != ""
    requires forall p :: p in b ==> separator !in p && p != ""
    requires Join(a, separator) == Join(b, separator)
    ensures a == b
  {
    if |a| > 0 { JoinSplit(a, separator); assert a[0] in a; }
    if |b| > 0 { JoinSplit(b, separator); assert b[0] in b; }
  }

  /** Decimal rendering of a counter inside a message. */
  function Decimal(n: nat): string {
    var digit := "0123456789"[n % 10];
    if n < 10 then [digit] else Decimal(n / 10) + [digit]
  }

  /** The number a text of digits stands for, the last digit being the ones. */
  function Value(digits: string): int {
    if digits == "" then 0 else Value(digits[..|digits| - 1]) * 10 + (digits[|digits| - 1] as int - '0' as int)
  }

  /** The rendering reads back as the number, in digits only and without a leading zero. */
  lemma {:induction false} DecimalReadsBack(n: nat)
    ensures Value(Decimal(n)) == n
    ensures forall i :: 0 <= i < |Decimal(n)| ==> '0' <= Decimal(n)[i] <= '9'
    ensures Decimal(n) != "" && (n > 0 ==> Decimal(n)[0] != '0')
  {
    var digit := "0123456789"[n % 10];
    assert digit as int == '0' as int + n % 10;
    if n < 10 {
      assert Decimal(n)[..0] == "";
    } else {
      DecimalReadsBack(n / 10);
      assert Decimal(n)[..|Decimal(n)| - 1] == Decimal(n / 10);
    }
  }

  /** `lastIndexOf(c) + 1`: the length of the shortest prefix holding every occurrence of c. */
  function AfterLast(s: string, c: char): (n: nat)
    ensures n <= |s|
    ensures n > 0 ==> s[n - 1] == c
    ensures forall i :: n <= i < |s| ==> s[i] != c
  {
    if s == "" then 0
    else if s[|s| - 1] == c then |s|
    else AfterLast(s[..|s| - 1], c)
  }

  /** The lines of an append-only file that are completely written: a tail without newline is not a line yet. */
  function SplitCompleteLines(text: string): seq<string> {
    if |text| == 0 then []
    else
      var cut := if text[|text| - 1] == '\n' then |text| else AfterLast(text, '\n');
      if cut == 0 then []
      else
        var body := text[..cut - 1];
        if |body| == 0 then [] else Split(body, '\n')
  }

  /** Every text is a completely written part followed by a tail without newline; the lines come from the first. */
  lemma SplitCompleteLinesMeaning(text: string)
    ensures var cut := AfterLast(text, '\n');
            SplitCompleteLines(text) ==
            if cut <= 1 then [] else Split(text[..cut - 1], '\n')
  {
    if text != "" && text[|text| - 1] == '\n' {
      assert AfterLast(text, '\n') == |text|;
    }
  }

  /** Round trip: writing each line back with its newline restores the completed part of the file. */
  lemma CompleteLinesRoundTrip(text: string)
    ensures var cut := AfterLast(text, '\n');
            var lines := SplitCompleteLines(text);
            && (lines == [] <==> cut <= 1)
            && (lines != [] ==> Join(lines, '\n') + ['\n'] == text[..cut])
            && (forall line :: line in lines ==> '\n' !in line)
  {
    SplitCompleteLinesMeaning(text);
    var cut := AfterLast(text, '\n');
    if cut > 1 {
      SplitJoin(text[..cut - 1], '\n');
    }
  }

  /** A consumed index keeps its line forever: appending only ever extends the list of complete lines. */
  lemma LinesStableUnderAppend(text: string, more: string)
    ensures SplitCompleteLines(text) <= SplitCompleteLines(text + more)
  {
    SplitCompleteLinesMeaning(text);
    SplitCompleteLinesMeaning(text + more);
    hide SplitCompleteLines, AfterLast, Split;
    var whole := text + more;
    var cut, cut' := AfterLast(text, '\n'), AfterLast(whole, '\n');
    if cut > 0 { assert whole[cut - 1] == '\n'; }
    if cut > 1 { BodyGrows(text, whole, cut, cut'); }
  }

  lemma BodyGrows(text: string, whole: string, cut: nat, cut': nat)
    requires text <= whole && 1 < cut <= |text| && cut <= cut' <= |whole| && text[cut - 1] == '\n'
    ensures Split(text[..cut - 1], '\n') <= Split(whole[..cut' - 1], '\n')
  {
    hide Split;
    var body, body' := text[..cut - 1], whole[..cut' - 1];
    if cut' > cut {
      var rest := whole[cut..cut' - 1];
      assert body' == body + ['\n'] + rest;
      SplitAtSeparator(body, '\n', rest);
    } else {
      assert body' == body;
    }
  }
}
