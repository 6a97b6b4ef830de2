/** Words, lines and numbers: the text the block map and the commands are made of. */
module Text {
  import opened Bytes
  import opened Wrappers

  // --- words and lines ---------------------------------------------------------------------------------

  /** The characters of the Unicode property White_Space. */
  predicate IsWhitespace(c: char) {
    || '\t' <= c <= '\r' || c == ' ' || c == '\U{85}' || c == '\U{A0}' || c == '\U{1680}'
    || '\U{2000}' <= c <= '\U{200A}' || c == '\U{2028}' || c == '\U{2029}' || c == '\U{202F}'
    || c == '\U{205F}' || c == '\U{3000}'
  }

  predicate IsWord(s: string) {
    s != "" && forall i :: 0 <= i < |s| ==> !IsWhitespace(s[i])
  }

  /** Length of the leading run of characters that are not white space. */
  function WordLength(s: string): (n: nat)
    ensures n <= |s|
    ensures forall i :: 0 <= i < n ==> !IsWhitespace(s[i])
    ensures n < |s| ==> IsWhitespace(s[n])
  {
    if s == "" || IsWhitespace(s[0]) then 0 else 1 + WordLength(s[1..])
  }

  /** The words of a text, as `split_whitespace` finds them. */
  function Fields(s: string): (words: seq<string>)
    decreases |s|
    ensures forall k :: 0 <= k < |words| ==> IsWord(words[k])
  {
    if s == "" then []
    else if IsWhitespace(s[0]) then Fields(s[1..])
    else [s[..WordLength(s)]] + Fields(s[WordLength(s)..])
  }

  function Join(words: seq<string>): string {
    if words == [] then ""
    else if |words| == 1 then words[0]
    else words[0] + " " + Join(words[1..])
  }

  lemma {:induction false} WordEnds(s: string, n: nat)
    requires n <= |s| && (forall i :: 0 <= i < n ==> !IsWhitespace(s[i])) && (n < |s| ==> IsWhitespace(s[n]))
    ensures WordLength(s) == n
  {
    if n > 0 {
      WordEnds(s[1..], n - 1);
    }
  }

  lemma FirstWord(word: string, rest: string)
    requires IsWord(word) && (rest == "" || IsWhitespace(rest[0]))
    ensures Fields(word + rest) == [word] + Fields(rest)
  {
    var s := word + rest;
    WordEnds(s, |word|);
    assert s[..|word|] == word && s[|word|..] == rest;
  }

  // --- splitting, exactly ------------------------------------------------------------------------------

  /** The code points with the Unicode property White_Space. */
  lemma WhitespaceExact(c: char)
    ensures IsWhitespace(c) <==>
      var n := c as int;
      || n in {9, 10, 11, 12, 13, 32, 133, 160, 5760, 8232, 8233, 8239, 8287, 12288}
      || 8192 <= n <= 8202
  {
  }

  predicate Blank(s: string) {
    forall i :: 0 <= i < |s| ==> IsWhitespace(s[i])
  }

  /** Words with gaps before, between and after them. */
  function Spread(gaps: seq<string>, words: seq<string>): string
    requires |gaps| == |words| + 1
  {
    if words == [] then gaps[0] else gaps[0] + words[0] + Spread(gaps[1..], words[1..])
  }

  /** Gaps are white space, and those between two words are not empty. */
  predicate GapsOk(gaps: seq<string>) {
    && (forall k :: 0 <= k < |gaps| ==> Blank(gaps[k]))
    && (forall k :: 0 < k < |gaps| - 1 ==> gaps[k] != "")
  }

  lemma {:induction false} SkipGap(gap: string, rest: string)
    requires Blank(gap)
    ensures Fields(gap + rest) == Fields(rest)
    decreases |gap|
  {
    if gap == "" {
      assert gap + rest == rest;
    } else {
      assert (gap + rest)[1..] == gap[1..] + rest;
      SkipGap(gap[1..], rest);
    }
  }

  /** Whatever the gaps, the words are found. */
  lemma {:induction false} FieldsSpread(gaps: seq<string>, words: seq<string>)
    requires |gaps| == |words| + 1 && GapsOk(gaps)
    requires forall k :: 0 <= k < |words| ==> IsWord(words[k])
    ensures Fields(Spread(gaps, words)) == words
    decreases |words|
  {
    if words == [] {
      SkipGap(gaps[0], "");
      assert gaps[0] + "" == gaps[0];
    } else {
      var rest := Spread(gaps[1..], words[1..]);
      FieldsSpread(gaps[1..], words[1..]);
      SkipGap(gaps[0], words[0] + rest);
      assert gaps[0] + words[0] + rest == gaps[0] + (words[0] + rest);
      if |words| > 1 {
        assert gaps[1] != "" && IsWhitespace(gaps[1][0]) && rest[0] == gaps[1][0];
      }
      assert rest == "" || IsWhitespace(rest[0]);
      FirstWord(words[0], rest);
    }
  }

  /** Every text is its words with gaps around them, so `Fields` has nothing left to choose. */
  lemma {:induction false} EveryText(s: string) returns (gaps: seq<string>)
    ensures |gaps| == |Fields(s)| + 1 && GapsOk(gaps) && s == Spread(gaps, Fields(s))
    decreases |s|
  {
    if s == "" {
      gaps := [""];
    } else if IsWhitespace(s[0]) {
      var more := EveryText(s[1..]);
      gaps := [[s[0]] + more[0]] + more[1..];
      WiderGap([s[0]], more, Fields(s));
      assert s == [s[0]] + s[1..];
    } else {
      var n := WordLength(s);
      var more := EveryText(s[n..]);
      gaps := [""] + more;
      var words := Fields(s[n..]);
      assert Fields(s) == [s[..n]] + words;
      assert gaps[1..] == more && Fields(s)[1..] == words;
      assert s == "" + s[..n] + s[n..];
    }
  }

  lemma WiderGap(c: string, gaps: seq<string>, words: seq<string>)
    requires |gaps| == |words| + 1
    ensures Spread([c + gaps[0]] + gaps[1..], words) == c + Spread(gaps, words)
  {
    if words != [] {
      var rest := Spread(gaps[1..], words[1..]);
      assert c + gaps[0] + words[0] + rest == c + (gaps[0] + words[0] + rest);
    }
  }

  /** Joining puts exactly one blank between two words. */
  lemma {:induction false} JoinParts(a: seq<string>, b: seq<string>)
    requires a != [] && b != []
    ensures Join(a + b) == Join(a) + " " + Join(b)
    ensures Join([a[0]]) == a[0]
  {
    if |a| == 1 {
      assert (a + b)[1..] == b;
    } else {
      assert (a + b)[1..] == a[1..] + b;
      JoinParts(a[1..], b);
      var first, rest := a[0] + " ", Join(a[1..]);
      assert first + (rest + " " + Join(b)) == first + rest + " " + Join(b);
    }
  }

  /** Splitting undoes joining, for every list of words. */
  lemma {:induction false} FieldsJoin(words: seq<string>)
    requires forall k :: 0 <= k < |words| ==> IsWord(words[k])
    ensures Fields(Join(words)) == words
  {
    if |words| == 1 {
      FirstWord(words[0], "");
      assert words[0] + "" == words[0];
    } else if |words| > 1 {
      var rest := Join(words[1..]);
      FieldsJoin(words[1..]);
      FirstWord(words[0], " " + rest);
      assert (" " + rest)[1..] == rest;
      assert words[0] + " " + rest == words[0] + (" " + rest);
    }
  }

  function LineLength(s: string): (n: nat)
    ensures n <= |s|
    ensures '\n' !in s[..n]
    ensures n < |s| ==> s[n] == '\n'
  {
    if s == "" || s[0] == '\n' then 0 else 1 + LineLength(s[1..])
  }

  /** The lines of a text; a carriage return before the newline counts as white space of the line. */
  function Lines(s: string): seq<string>
    decreases |s|
  {
    if s == "" then []
    else if LineLength(s) == |s| then [s]
    else [s[..LineLength(s)]] + Lines(s[LineLength(s) + 1..])
  }

  lemma {:induction false} LineEnds(s: string, n: nat)
    requires n < |s| && (forall i :: 0 <= i < n ==> s[i] != '\n') && s[n] == '\n'
    ensures LineLength(s) == n
  {
    if n > 0 {
      LineEnds(s[1..], n - 1);
    }
  }

  lemma FirstLine(line: string, rest: string)
    requires '\n' !in line
    ensures Lines(line + "\n" + rest) == [line] + Lines(rest)
  {
    var s := line + "\n" + rest;
    LineEnds(s, |line|);
    assert s[..|line|] == line && s[|line| + 1..] == rest;
  }

  function Unlines(lines: seq<string>): string {
    if lines == [] then "" else lines[0] + "\n" + Unlines(lines[1..])
  }

  lemma {:induction false} LinesUnlines(lines: seq<string>)
    requires forall k :: 0 <= k < |lines| ==> '\n' !in lines[k]
    ensures Lines(Unlines(lines)) == lines
  {
    if lines != [] {
      FirstLine(lines[0], Unlines(lines[1..]));
      LinesUnlines(lines[1..]);
    }
  }

  /** No other text has these lines: they hold every character but the newlines that end them. */
  lemma EveryLine(s: string)
    ensures forall k :: 0 <= k < |Lines(s)| ==> '\n' !in Lines(s)[k]
    ensures Unlines(Lines(s)) == if Ended(s) then s else s + "\n"
  {
    NoNewlines(s);
    LinesJoined(s);
  }

  predicate Ended(s: string) {
    s == "" || s[|s| - 1] == '\n'
  }

  lemma {:induction false} NoNewlines(s: string)
    ensures forall k :: 0 <= k < |Lines(s)| ==> '\n' !in Lines(s)[k]
    decreases |s|
  {
    var n := LineLength(s);
    if n < |s| {
      NoNewlines(s[n + 1..]);
    } else if s != "" {
      assert s[..n] == s;
    }
  }

  lemma {:induction false} LinesJoined(s: string)
    ensures Unlines(Lines(s)) == if Ended(s) then s else s + "\n"
    decreases |s|
  {
    hide Ended, Unlines, Lines;
    if LineLength(s) == |s| {
      OneLineOnly(s);
    } else {
      var line, rest := FirstSplit(s);
      LinesJoined(rest);
      UnlinesFirst(line, Lines(rest));
      MoreText(line, rest, Unlines(Lines(rest)));
    }
  }

  lemma FirstSplit(s: string) returns (line: string, rest: string)
    requires LineLength(s) < |s|
    ensures |rest| < |s| && s == line + "\n" + rest && Lines(s) == [line] + Lines(rest)
  {
    var n := LineLength(s);
    line, rest := s[..n], s[n + 1..];
    CutAt(s, n);
  }

  lemma CutAt(s: string, n: nat)
    requires n < |s|
    ensures s == s[..n] + [s[n]] + s[n + 1..]
  {
  }

  lemma OneLineOnly(s: string)
    requires '\n' !in s
    ensures Unlines(Lines(s)) == if Ended(s) then s else s + "\n"
  {
    if s != "" {
      assert LineLength(s) == |s|;
      assert Lines(s) == [s];
      UnlinesFirst(s, []);
      assert s + "\n" + "" == s + "\n";
    }
  }

  lemma UnlinesFirst(line: string, lines: seq<string>)
    ensures Unlines([line] + lines) == line + "\n" + Unlines(lines)
  {
    assert ([line] + lines)[1..] == lines;
  }

  lemma MoreText(line: string, rest: string, joined: string)
    requires joined == if Ended(rest) then rest else rest + "\n"
    ensures var s := line + "\n" + rest; line + "\n" + joined == if Ended(s) then s else s + "\n"
  {
    assert line + "\n" + (rest + "\n") == line + "\n" + rest + "\n";
  }

  // --- decimal numbers -------------------------------------------------------------------------------------

  predicate IsDigit(c: char) {
    '0' <= c <= '9'
  }

  predicate AllDigits(s: string) {
    forall i :: 0 <= i < |s| ==> IsDigit(s[i])
  }

  function DigitsValue(s: string): nat
    requires AllDigits(s)
  {
    if s == "" then 0 else 10 * DigitsValue(s[..|s| - 1]) + (s[|s| - 1] as int - '0' as int)
  }

  /** Parsing of an unsigned integer no larger than `max`: an optional plus sign and at least one digit. */
  function ParseUnsigned(text: string, max: nat): (r: Result<nat>)
    ensures r.Ok? ==> r.value <= max
  {
    var digits := if text != "" && text[0] == '+' then text[1..] else text;
    if digits == "" || !AllDigits(digits) then Err(CannotParse)
    else if DigitsValue(digits) > max then Err(CannotParse)
    else Ok(DigitsValue(digits))
  }

  function Digit(n: nat): char
    requires n < 10
  {
    '0' + n as char
  }

  /** Decimal printing. */
  function Show(n: nat): (s: string)
    ensures s != "" && AllDigits(s)
  {
    if n < 10 then [Digit(n)] else Show(n / 10) + [Digit(n % 10)]
  }

  lemma {:induction false} ShowValue(n: nat)
    ensures DigitsValue(Show(n)) == n
  {
    var s := Show(n);
    if n >= 10 {
      ShowValue(n / 10);
      assert s[..|s| - 1] == Show(n / 10);
    } else {
      assert s[..|s| - 1] == "";
    }
  }

  /** Every number within the limit survives printing and parsing. */
  lemma ParseShow(n: nat, max: nat)
    requires n <= max
    ensures ParseUnsigned(Show(n), max) == Ok(n)
  {
    ShowValue(n);
  }

  // --- numbers, exactly --------------------------------------------------------------------------------

  function Pow10(k: nat): nat {
    if k == 0 then 1 else 10 * Pow10(k - 1)
  }

  /** Digits count by their place, in tens. */
  lemma {:induction false} DigitsPlace(a: string, b: string)
    requires AllDigits(a) && AllDigits(b)
    ensures AllDigits(a + b) && DigitsValue(a + b) == DigitsValue(a) * Pow10(|b|) + DigitsValue(b)
    ensures |b| == 1 ==> DigitsValue(b) == b[0] as int - 48
    decreases |b|
  {
    if b == "" {
      assert a + b == a;
    } else {
      var front, last := b[..|b| - 1], b[|b| - 1];
      DigitsPlace(a, front);
      assert (a + b)[..|a + b| - 1] == a + front && (a + b)[|a + b| - 1] == last;
      assert Pow10(|b|) == 10 * Pow10(|front|);
      TenTimes(DigitsValue(a), Pow10(|front|), DigitsValue(front));
      assert DigitsValue(a + b) == 10 * DigitsValue(a + front) + (last as int - '0' as int);
      hide DigitsValue;
    }
  }

  lemma TenTimes(a: nat, b: nat, c: nat)
    ensures 10 * (a * b + c) == a * (10 * b) + 10 * c
  {
  }

  function Zeros(n: nat): string {
    if n == 0 then "" else Zeros(n - 1) + "0"
  }

  /** A decimal numeral for `n`: perhaps a plus sign, perhaps leading zeros, then the number as it is printed. */
  ghost predicate Numeral(text: string, n: nat) {
    exists z: nat :: text == Zeros(z) + Show(n) || text == "+" + Zeros(z) + Show(n)
  }

  /** Printing starts with a zero for zero only. */
  lemma {:induction false} NoLeadingZero(n: nat)
    ensures Show(n)[0] == '0' <==> n == 0
    ensures n == 0 ==> Show(n) == "0"
    decreases n
  {
    if n >= 10 {
      NoLeadingZero(n / 10);
    }
  }

  lemma {:induction false} ZerosValue(z: nat, n: nat)
    ensures AllDigits(Zeros(z) + Show(n)) && DigitsValue(Zeros(z) + Show(n)) == n
    decreases z
  {
    ShowValue(n);
    ZerosOnly(z);
    DigitsPlace(Zeros(z), Show(n));
  }

  lemma {:induction false} ZerosOnly(z: nat)
    ensures |Zeros(z)| == z && AllDigits(Zeros(z)) && DigitsValue(Zeros(z)) == 0
  {
    if z > 0 {
      ZerosOnly(z - 1);
      assert Zeros(z)[..|Zeros(z)| - 1] == Zeros(z - 1);
    }
  }

  lemma ShowStep(v: nat, d: nat)
    requires d < 10
    ensures v > 0 ==> Show(10 * v + d) == Show(v) + [Digit(d)]
    ensures Show(d) == [Digit(d)]
  {
    assert (10 * v + d) / 10 == v && (10 * v + d) % 10 == d;
  }

  lemma OneDigit(c: char)
    requires IsDigit(c)
    ensures var d := c as int - 48; 0 <= d < 10 && Digit(d) == c
  {
  }

  /** Any digits are zeros followed by their value as it is printed. */
  lemma {:induction false} DigitsAreNumeral(digits: string) returns (z: nat)
    requires digits != "" && AllDigits(digits)
    ensures digits == Zeros(z) + Show(DigitsValue(digits))
    decreases |digits|
  {
    var front, last := digits[..|digits| - 1], digits[|digits| - 1];
    var d := last as int - 48;
    OneDigit(last);
    assert digits == front + [last];
    assert DigitsValue(digits) == 10 * DigitsValue(front) + d;
    if front == "" {
      z := 0;
      ShowStep(0, d);
    } else {
      var y := DigitsAreNumeral(front);
      z := NumeralStep(front, y, d);
    }
  }

  lemma NumeralStep(front: string, y: nat, d: nat) returns (z: nat)
    requires AllDigits(front) && front == Zeros(y) + Show(DigitsValue(front)) && d < 10
    ensures front + [Digit(d)] == Zeros(z) + Show(10 * DigitsValue(front) + d)
  {
    var v := DigitsValue(front);
    hide DigitsValue, Show;
    ShowStep(v, d);
    if v == 0 {
      z := y + 1;
      NoLeadingZero(0);
    } else {
      z := y;
      assert Zeros(y) + Show(v) + [Digit(d)] == Zeros(y) + (Show(v) + [Digit(d)]);
    }
  }

  /** Exactly the numerals within the limit are parsed, and to the number they stand for; all else is refused. */
  lemma ParseExact(text: string, max: nat, n: nat)
    ensures ParseUnsigned(text, max) == Ok(n) <==> n <= max && Numeral(text, n)
    ensures ParseUnsigned(text, max).Err? ==> ParseUnsigned(text, max) == Err(CannotParse)
  {
    if n <= max && Numeral(text, n) {
      NumeralParses(text, max, n);
    }
    if ParseUnsigned(text, max) == Ok(n) {
      ParsedIsNumeral(text, max, n);
    }
  }

  lemma NumeralParses(text: string, max: nat, n: nat)
    requires n <= max && Numeral(text, n)
    ensures ParseUnsigned(text, max) == Ok(n)
  {
    var z: nat :| text == Zeros(z) + Show(n) || text == "+" + Zeros(z) + Show(n);
    ZerosValue(z, n);
    var digits := Zeros(z) + Show(n);
    assert "+" + Zeros(z) + Show(n) == "+" + digits;
    hide Zeros, Show, DigitsValue, ParseUnsigned, AllDigits;
    DigitsParse(digits, max);
  }

  lemma DigitsParse(digits: string, max: nat)
    requires digits != "" && AllDigits(digits) && DigitsValue(digits) <= max
    ensures ParseUnsigned(digits, max) == ParseUnsigned("+" + digits, max) == Ok(DigitsValue(digits))
  {
    assert IsDigit(digits[0]);
    hide DigitsValue;
    assert ("+" + digits)[1..] == digits;
  }

  lemma ParsedIsNumeral(text: string, max: nat, n: nat)
    requires ParseUnsigned(text, max) == Ok(n)
    ensures n <= max && Numeral(text, n)
  {
    var signed := text != "" && text[0] == '+';
    var digits := if signed then text[1..] else text;
    var z := DigitsAreNumeral(digits);
    if signed {
      assert text == "+" + digits;
      assert "+" + (Zeros(z) + Show(n)) == "+" + Zeros(z) + Show(n);
    }
  }

  lemma ShowIsWord(n: nat)
    ensures IsWord(Show(n))
  {
  }

  // --- UTF-8 ---------------------------------------------------------------------------------------------------

  /** The bytes of one character: one for ASCII, two to four beyond it. */
  function CharBytes(c: char): (bs: seq<U8>)
    ensures 1 <= |bs| <= 4 && (|bs| == 1 <==> c as int < 0x80)
  {
    var n := c as int;
    if n < 0x80 then [n]
    else if n < 0x800 then [0xC0 + n / 0x40, 0x80 + n % 0x40]
    else if n < 0x1_0000 then [0xE0 + n / 0x1000, 0x80 + n / 0x40 % 0x40, 0x80 + n % 0x40]
    else [0xF0 + n / 0x4_0000, 0x80 + n / 0x1000 % 0x40, 0x80 + n / 0x40 % 0x40, 0x80 + n % 0x40]
  }

  function TextBytes(s: string): (bs: seq<U8>)
    ensures |bs| >= |s|
  {
    if s == "" then [] else CharBytes(s[0]) + TextBytes(s[1..])
  }

  // --- UTF-8, read back ----------------------------------------------------------------------------------------

  /** How many bytes the character that starts with this byte takes (RFC 3629, section 3); 0 if none starts so. */
  function LeadLength(b: U8): (n: nat)
    ensures n <= 4
  {
    if b < 0x80 then 1 else if 0xC2 <= b <= 0xDF then 2 else if 0xE0 <= b <= 0xEF then 3
    else if 0xF0 <= b <= 0xF4 then 4 else 0
  }

  /** The bits a lead byte carries. */
  function LeadBits(b: U8): int {
    if b < 0x80 then b else if b < 0xE0 then b - 0xC0 else if b < 0xF0 then b - 0xE0 else b - 0xF0
  }

  /** The code point of `n` bytes: the lead's bits, then six from each byte that follows. */
  function CodePoint(bs: seq<U8>, n: nat): int
    requires 1 <= n <= |bs|
  {
    if n == 1 then LeadBits(bs[0])
    else
      var last: int := bs[n - 1];
      64 * CodePoint(bs, n - 1) + last - 0x80
  }

  predicate Continues(bs: seq<U8>, n: nat)
    requires n <= |bs|
  {
    forall i :: 1 <= i < n ==> 0x80 <= bs[i] < 0xC0
  }

  predicate IsScalar(n: int) {
    0 <= n < 0xD800 || 0xE000 <= n < 0x11_0000
  }

  /** The text some bytes encode. */
  function Decode(bs: seq<U8>): Option<string>
    decreases |bs|
  {
    if bs == [] then Some("")
    else
      var n := LeadLength(bs[0]);
      if n == 0 || |bs| < n || !Continues(bs, n) || !IsScalar(CodePoint(bs, n)) then None
      else
        match Decode(bs[n..])
        case None => None
        case Some(rest) => Some([CodePoint(bs, n) as char] + rest)
  }

  /** The code point written out. */
  lemma PointsOut(bs: seq<U8>)
    requires |bs| > 0
    ensures CodePoint(bs, 1) == LeadBits(bs[0])
    ensures |bs| > 1 ==> CodePoint(bs, 2) == 64 * LeadBits(bs[0]) + bs[1] - 0x80
    ensures |bs| > 2 ==> CodePoint(bs, 3) == 64 * (64 * LeadBits(bs[0]) + bs[1] - 0x80) + bs[2] - 0x80
    ensures |bs| > 3 ==>
      CodePoint(bs, 4) == 64 * (64 * (64 * LeadBits(bs[0]) + bs[1] - 0x80) + bs[2] - 0x80) + bs[3] - 0x80
  {
    hide LeadBits;
  }

  lemma CharReadBack(c: char, rest: seq<U8>)
    ensures var bs, n := CharBytes(c) + rest, |CharBytes(c)|;
      LeadLength(bs[0]) == n && Continues(bs, n) && CodePoint(bs, n) == c as int && bs[n..] == rest
  {
    var bs := CharBytes(c) + rest;
    PointsOut(bs);
    Sixes(c as int);
    hide CodePoint;
  }

  /** A number in groups of six bits. */
  lemma Sixes(n: nat)
    ensures n == 64 * (n / 0x40) + n % 0x40
    ensures n / 0x40 == 64 * (n / 0x1000) + n / 0x40 % 0x40
    ensures n / 0x1000 == 64 * (n / 0x4_0000) + n / 0x1000 % 0x40
  {
    var a := n / 0x40;
    assert n == 64 * a + n % 0x40;
    var b := a / 0x40;
    assert a == 64 * b + a % 0x40;
    assert n / 0x1000 == b;
    assert n / 0x4_0000 == b / 0x40;
  }

  /** The bytes of a text are its UTF-8 encoding: an independent reader gets the text back. */
  lemma {:induction false} Utf8RoundTrip(s: string)
    ensures Decode(TextBytes(s)) == Some(s)
  {
    hide CharBytes, CodePoint, LeadLength;
    if s != "" {
      Utf8RoundTrip(s[1..]);
      CharReadBack(s[0], TextBytes(s[1..]));
      ScalarChar(s[0]);
      assert s == [s[0]] + s[1..];
    }
  }

  lemma ScalarChar(c: char)
    ensures IsScalar(c as int) && (c as int) as char == c
  {
  }

  /** ASCII text is its code points. */
  lemma {:induction false} AsciiBytes(s: string)
    requires forall i :: 0 <= i < |s| ==> s[i] as int < 0x80
    ensures |TextBytes(s)| == |s| && forall i :: 0 <= i < |s| ==> TextBytes(s)[i] == s[i] as int
  {
    if s != "" {
      AsciiBytes(s[1..]);
    }
  }
}
