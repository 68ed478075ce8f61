/** Blanking the identifying objects of a P1 telegram. Text is a sequence of bytes. */
module Telegram {
  import opened Wrappers
  import opened Text

  // ---- the pattern ----

  const Codes := ["96.1.0", "96.1.1", "96.13.0"]

  /** The equipment identifiers of the electricity meter and of what is connected to it, and the free text field. */
  predicate IdentifyingObject(code: string) {
    code == "96.1.0" || code == "96.1.1" || code == "96.13.0"
  }

  lemma CodesAreThose(code: string)
    ensures IdentifyingObject(code) <==> exists n | 0 <= n < |Codes| :: Codes[n] == code
  {
    assert Codes[0] == "96.1.0" && Codes[1] == "96.1.1" && Codes[2] == "96.13.0";
  }

  /** "A-B:" and one of the three identifying objects. */
  ghost predicate Header(h: string) {
    exists a, b, code | IdentifyingObject(code) ::
      a != [] && AllDigits(a) && b != [] && AllDigits(b) && h == a + "-" + b + ":" + code
  }

  /** Beginning of the text or of a line. */
  predicate LineStart(s: string, i: nat)
    requires i <= |s|
  {
    i == 0 || s[i - 1] == '\n'
  }

  /** What the pattern matches at i: the header, then a parenthesis at `open`, then the value up to `close`. */
  ghost predicate Matches(s: string, i: nat, open: nat, close: nat) {
    && i <= open < close < |s|
    && LineStart(s, i)
    && Header(s[i..open])
    && s[open] == '(' && s[close] == ')'
    && ')' !in s[open + 1..close]
  }

  // ---- finding a match ----

  /** Where the run of digits that starts at i ends. */
  function DigitsEnd(s: string, i: nat): (j: nat)
    requires i <= |s|
    ensures i <= j <= |s| && AllDigits(s[i..j])
    ensures j < |s| ==> !IsDigit(s[j])
    decreases |s| - i
  {
    if i < |s| && IsDigit(s[i]) then DigitsEnd(s, i + 1) else i
  }

  predicate StartsAt(s: string, i: nat, word: string) {
    i + |word| <= |s| && s[i..i + |word|] == word
  }

  /** Where the header that starts at i ends. */
  function HeaderEnd(s: string, i: nat): (r: Option<nat>)
    requires i <= |s|
    ensures r.Some? ==> i <= r.value <= |s|
  {
    var j := DigitsEnd(s, i);
    if j == i || j == |s| || s[j] != '-' then None
    else
      var k := DigitsEnd(s, j + 1);
      if k == j + 1 || k == |s| || s[k] != ':' then None
      else if StartsAt(s, k + 1, Codes[0]) then Some(k + 7)
      else if StartsAt(s, k + 1, Codes[1]) then Some(k + 7)
      else if StartsAt(s, k + 1, Codes[2]) then Some(k + 8)
      else None
  }

  /** The first closing parenthesis from i on. */
  function FindClose(s: string, i: nat): (r: Option<nat>)
    requires i <= |s|
    ensures r.Some? ==> i <= r.value < |s| && s[r.value] == ')' && ')' !in s[i..r.value]
    ensures r.None? ==> ')' !in s[i..]
    decreases |s| - i
  {
    if i == |s| then None else if s[i] == ')' then Some(i) else FindClose(s, i + 1)
  }

  /** The parentheses of the match that starts at i, if there is one. */
  function MatchAt(s: string, i: nat): Option<(nat, nat)>
    requires i <= |s|
  {
    match HeaderEnd(s, i)
    case None => None
    case Some(open) =>
      if open < |s| && s[open] == '(' then
        match FindClose(s, open + 1)
        case None => None
        case Some(close) => if LineStart(s, i) then Some((open, close)) else None
      else None
  }

  lemma {:induction false} DigitsEndAt(s: string, i: nat, j: nat)
    requires i <= j <= |s| && AllDigits(s[i..j]) && (j < |s| ==> !IsDigit(s[j]))
    ensures DigitsEnd(s, i) == j
    decreases j - i
  {
    if i < j {
      assert s[i] == s[i..j][0];
      assert s[i + 1..j] == s[i..j][1..];
      DigitsEndAt(s, i + 1, j);
    }
  }

  lemma Pieces(s: string, i: nat, j: nat, k: nat, open: nat)
    requires i <= j < k < open <= |s|
    ensures s[i..open] == s[i..j] + [s[j]] + s[j + 1..k] + [s[k]] + s[k + 1..open]
  {
  }

  /** No object's code is the start of another's. */
  lemma CodesDiffer(s: string, i: nat, n: nat)
    requires n < |Codes| && StartsAt(s, i, Codes[n])
    ensures forall m | 0 <= m < |Codes| && m != n :: !StartsAt(s, i, Codes[m])
    ensures |Codes[n]| == if n == 2 then 7 else 6
  {
    assert s[i + 3] == Codes[n][3] && s[i + 4] == Codes[n][4] && s[i + 5] == Codes[n][5];
    assert Codes[0][4] == '.' && Codes[1][4] == '.' && Codes[2][4] == '3' && Codes[0][5] == '0' && Codes[1][5] == '1';
    forall m | 0 <= m < |Codes| && StartsAt(s, i, Codes[m]) ensures m == n {
      assert s[i + 4] == Codes[m][4] && s[i + 5] == Codes[m][5];
    }
  }

  lemma HeaderEndParts(s: string, i: nat, open: nat)
    requires i <= open < |s| && HeaderEnd(s, i) == Some(open)
    ensures var j := DigitsEnd(s, i);
            && i < j < |s| && s[j] == '-'
            && var k := DigitsEnd(s, j + 1);
            && j + 1 < k < open && s[k] == ':'
            && exists n | 0 <= n < |Codes| :: StartsAt(s, k + 1, Codes[n]) && open == k + 1 + |Codes[n]|
  {
    hide DigitsEnd, AllDigits;
    var k := DigitsEnd(s, DigitsEnd(s, i) + 1);
    var n := if StartsAt(s, k + 1, Codes[0]) then 0 else if StartsAt(s, k + 1, Codes[1]) then 1 else 2;
    assert StartsAt(s, k + 1, Codes[n]) && open == k + 1 + |Codes[n]|;
  }

  lemma HeaderFound(s: string, i: nat, open: nat)
    requires i <= open < |s| && HeaderEnd(s, i) == Some(open)
    ensures Header(s[i..open])
  {
    hide DigitsEnd, HeaderEnd;
    HeaderEndParts(s, i, open);
    var j := DigitsEnd(s, i);
    var k := DigitsEnd(s, j + 1);
    var n :| 0 <= n < |Codes| && StartsAt(s, k + 1, Codes[n]) && open == k + 1 + |Codes[n]|;
    Pieces(s, i, j, k, open);
    assert s[k + 1..open] == Codes[n];
    assert [s[j]] == "-" && [s[k]] == ":";
    var a, b := s[i..j], s[j + 1..k];
    CodesAreThose(Codes[n]);
    assert a != [] && b != [] && AllDigits(a) && AllDigits(b) && s[i..open] == a + "-" + b + ":" + Codes[n];
  }

  lemma FoundAt(s: string, i: nat, j: nat, k: nat, n: nat)
    requires i < j < |s| && DigitsEnd(s, i) == j && s[j] == '-'
    requires j + 1 < k < |s| && DigitsEnd(s, j + 1) == k && s[k] == ':'
    requires n < |Codes| && StartsAt(s, k + 1, Codes[n]) && |Codes[n]| == (if n == 2 then 7 else 6)
    requires forall m | 0 <= m < |Codes| && m != n :: !StartsAt(s, k + 1, Codes[m])
    ensures HeaderEnd(s, i) == Some(k + 1 + |Codes[n]|)
  {
    hide DigitsEnd, StartsAt;
  }

  lemma NotDigits()
    ensures !IsDigit('-') && !IsDigit(':')
  {
  }

  lemma SplitTwo(s: string, i: nat, end: nat, p: string, q: string)
    requires i <= end <= |s| && s[i..end] == p + q
    ensures i + |p| + |q| == end && s[i..i + |p|] == p && s[i + |p|..end] == q
  {
    assert |s[i..end]| == |p| + |q|;
    assert s[i..i + |p|] == s[i..end][..|p|];
    assert s[i + |p|..end] == s[i..end][|p|..];
  }

  lemma Split(s: string, i: nat, end: nat, a: string, x: char, b: string, y: char, c: string)
    requires i <= end <= |s| && s[i..end] == a + [x] + b + [y] + c
    ensures var j, k := i + |a|, i + |a| + 1 + |b|;
            && k + 1 + |c| == end
            && s[i..j] == a && s[j] == x && s[j + 1..k] == b && s[k] == y && s[k + 1..end] == c
  {
    var j, k := i + |a|, i + |a| + 1 + |b|;
    SplitTwo(s, i, end, a + [x] + b + [y], c);
    SplitTwo(s, i, k + 1, a + [x] + b, [y]);
    SplitTwo(s, i, k, a + [x], b);
    SplitTwo(s, i, j + 1, a, [x]);
    assert s[j..j + 1] == [x] && s[k..k + 1] == [y];
    assert s[j] == s[j..j + 1][0] && s[k] == s[k..k + 1][0];
  }

  lemma HeaderComputed(s: string, i: nat, open: nat, a: string, b: string, n: nat)
    requires i <= open <= |s| && n < |Codes| && a != [] && AllDigits(a) && b != [] && AllDigits(b)
    requires s[i..open] == a + ['-'] + b + [':'] + Codes[n]
    ensures HeaderEnd(s, i) == Some(open)
  {
    var j, k := i + |a|, i + |a| + 1 + |b|;
    hide DigitsEnd, AllDigits;
    Split(s, i, open, a, '-', b, ':', Codes[n]);
    NotDigits();
    DigitsEndAt(s, i, j);
    DigitsEndAt(s, j + 1, k);
    assert StartsAt(s, k + 1, Codes[n]);
    CodesDiffer(s, k + 1, n);
    FoundAt(s, i, j, k, n);
  }

  lemma HeaderIsFound(s: string, i: nat, open: nat)
    requires i <= open <= |s| && Header(s[i..open])
    ensures HeaderEnd(s, i) == Some(open)
  {
    var a, b, code :| IdentifyingObject(code) && a != [] && AllDigits(a) && b != [] && AllDigits(b)
      && s[i..open] == a + "-" + b + ":" + code;
    CodesAreThose(code);
    var n :| 0 <= n < |Codes| && Codes[n] == code;
    hide HeaderEnd;
    HeaderComputed(s, i, open, a, b, n);
  }

  /** The scan finds a header exactly where one stands. */
  lemma HeaderEndExact(s: string, i: nat, open: nat)
    requires i <= open < |s|
    ensures HeaderEnd(s, i) == Some(open) <==> Header(s[i..open])
  {
    hide HeaderEnd, Header;
    if HeaderEnd(s, i) == Some(open) { HeaderFound(s, i, open); }
    if Header(s[i..open]) { HeaderIsFound(s, i, open); }
  }

  lemma {:induction false} FindCloseAt(s: string, i: nat, close: nat)
    requires i <= close < |s| && s[close] == ')' && ')' !in s[i..close]
    ensures FindClose(s, i) == Some(close)
    decreases close - i
  {
    if i < close {
      assert s[i] == s[i..close][0];
      assert s[i + 1..close] == s[i..close][1..];
      FindCloseAt(s, i + 1, close);
    }
  }

  /** The scan finds exactly the matches of the pattern, so a match is determined by where it starts. */
  lemma MatchAtExact(s: string, i: nat, open: nat, close: nat)
    requires i <= |s|
    ensures MatchAt(s, i) == Some((open, close)) <==> Matches(s, i, open, close)
  {
    hide HeaderEnd, Header;
    if open < |s| && s[open] == '(' && i <= open {
      HeaderEndExact(s, i, open);
    }
    if Matches(s, i, open, close) {
      FindCloseAt(s, open + 1, close);
    }
  }

  // ---- the rewrite ----

  function Zeros(n: nat): (r: string)
    ensures |r| == n && forall i | 0 <= i < n :: r[i] == '0'
  {
    seq(n, _ => '0')
  }

  /** ReplaceAllFunc from position i on: the leftmost match first, the next one sought after its end. */
  function ScrubFrom(s: string, i: nat): (r: string)
    requires i <= |s|
    ensures |r| == |s| - i
    decreases |s| - i
  {
    if i == |s| then []
    else
      match MatchAt(s, i)
      case None => [s[i]] + ScrubFrom(s, i + 1)
      case Some((open, close)) =>
        s[i..open + 1] + Zeros(close - open - 1) + [')'] + ScrubFrom(s, close + 1)
  }

  function ScrubTelegram(s: string): (r: string)
    ensures |r| == |s|
  {
    ScrubFrom(s, 0)
  }

  // ---- which bytes it changes ----

  /** A match starts here, and the text before it has not been used up by an earlier match. */
  ghost predicate Selected(s: string, i: nat)
    decreases i
  {
    && i <= |s| && MatchAt(s, i).Some?
    && forall k | 0 <= k < i && Selected(s, k) :: MatchAt(s, k).value.1 < i
  }

  /** The byte lies between the parentheses of a selected match. */
  ghost predicate Blanked(s: string, j: nat) {
    exists k | 0 <= k <= j :: Selected(s, k) && MatchAt(s, k).value.0 < j < MatchAt(s, k).value.1
  }

  /** No selected match that started earlier reaches i. */
  ghost predicate Boundary(s: string, i: nat) {
    forall k | 0 <= k < i && Selected(s, k) :: MatchAt(s, k).value.1 < i
  }

  lemma MatchBounds(s: string, i: nat)
    requires i <= |s| && MatchAt(s, i).Some?
    ensures var (open, close) := MatchAt(s, i).value;
            i <= open < close < |s| && Matches(s, i, open, close)
  {
    var (open, close) := MatchAt(s, i).value;
    MatchAtExact(s, i, open, close);
  }

  lemma NothingHere(s: string, i: nat)
    requires i < |s| && Boundary(s, i) && MatchAt(s, i).None?
    ensures Boundary(s, i + 1) && !Blanked(s, i)
  {
    hide MatchAt;
  }

  lemma MatchHere(s: string, i: nat)
    requires i < |s| && Boundary(s, i) && MatchAt(s, i).Some?
    ensures var (open, close) := MatchAt(s, i).value;
            && Boundary(s, close + 1)
            && forall j | i <= j <= close :: Blanked(s, j) <==> open < j < close
  {
    hide MatchAt, Matches;
    MatchBounds(s, i);
    assert Selected(s, i);
    var (open, close) := MatchAt(s, i).value;
    forall k | i < k <= close ensures !Selected(s, k) {
    }
  }

  lemma MatchCloses(s: string, i: nat, open: nat, close: nat)
    requires Matches(s, i, open, close)
    ensures s[open] == '(' && s[close] == ')'
  {
  }

  lemma MatchShape(s: string, i: nat, j: nat)
    requires i <= j < |s| && MatchAt(s, i).Some?
    ensures var (open, close) := MatchAt(s, i).value;
            && close < |s|
            && ScrubFrom(s, i)[j - i] == if j > close then ScrubFrom(s, close + 1)[j - (close + 1)]
                                         else if open < j < close then '0' else s[j]
  {
    hide MatchAt, Matches;
    MatchBounds(s, i);
    var (open, close) := MatchAt(s, i).value;
    assert s[close] == ')' by { MatchCloses(s, i, open, close); }
    var head := s[i..open + 1] + Zeros(close - open - 1) + [')'];
    assert ScrubFrom(s, i) == head + ScrubFrom(s, close + 1);
  }

  lemma PlainShape(s: string, i: nat)
    requires i < |s| && MatchAt(s, i).None?
    ensures ScrubFrom(s, i)[0] == s[i] && ScrubFrom(s, i)[1..] == ScrubFrom(s, i + 1)
  {
    hide MatchAt;
  }

  lemma {:induction false} ScrubFromAt(s: string, i: nat, j: nat)
    requires i <= j < |s| && Boundary(s, i)
    ensures ScrubFrom(s, i)[j - i] == if Blanked(s, j) then '0' else s[j]
    decreases |s| - i
  {
    hide MatchAt, Matches, Boundary, Blanked, ScrubFrom;
    match MatchAt(s, i)
    case None =>
      NothingHere(s, i);
      PlainShape(s, i);
      if j > i { ScrubFromAt(s, i + 1, j); }
    case Some((open, close)) =>
      MatchBounds(s, i);
      MatchHere(s, i);
      MatchShape(s, i, j);
      if j > close {
        ScrubFromAt(s, close + 1, j);
      }
  }

  /** Byte by byte: the values of the selected matches become zeros and nothing else changes. */
  lemma ScrubbedByteByByte(s: string, j: nat)
    requires j < |s|
    ensures ScrubTelegram(s)[j] == if Blanked(s, j) then '0' else s[j]
  {
    ScrubFromAt(s, 0, j);
  }

  // ---- completeness ----

  /** A selected match is one of the pattern's, and its inside is blanked. */
  lemma SelectedBlanks(s: string, i: nat)
    requires Selected(s, i)
    ensures var (open, close) := MatchAt(s, i).value;
            && Matches(s, i, open, close)
            && forall j | open < j < close :: Blanked(s, j)
  {
    hide MatchAt, Matches;
    MatchBounds(s, i);
  }

  lemma HeaderBytes(h: string, k: nat)
    requires Header(h) && k < |h|
    ensures h[k] != '\n' && h[k] != '(' && h[k] != ')'
  {
    var a, b, code :| IdentifyingObject(code) && a != [] && AllDigits(a) && b != [] && AllDigits(b)
      && h == a + "-" + b + ":" + code;
    assert forall c | c in code :: IsDigit(c) || c == '.';
    assert h[k] in a || h[k] == '-' || h[k] in b || h[k] == ':' || h[k] in code;
  }

  lemma HeaderByte(s: string, i: nat, open: nat, j: nat)
    requires i <= j < open <= |s| && Header(s[i..open])
    ensures s[j] != '\n' && s[j] != '(' && s[j] != ')'
  {
    hide Header;
    HeaderBytes(s[i..open], j - i);
  }

  /** Line feeds and parentheses outside the values stay; inside the values none remain. */
  lemma MarksKept(s: string, j: nat, c: char)
    requires j < |s| && (c == '\n' || c == '(' || c == ')') && ScrubTelegram(s)[j] == c
    ensures s[j] == c && !Blanked(s, j)
  {
    ScrubbedByteByByte(s, j);
  }

  lemma InsideValue(s: string, i: nat, open: nat, close: nat, j: nat)
    requires Matches(s, i, open, close) && open < j < close
    ensures s[j] != ')'
  {
    var value := s[open + 1..close];
    assert value[j - open - 1] == s[j];
  }

  /** Closing parentheses are never blanked, so they stay where they were. */
  lemma ClosingKept(s: string, j: nat)
    requires j < |s| && s[j] == ')'
    ensures ScrubTelegram(s)[j] == ')'
  {
    ScrubbedByteByByte(s, j);
    if Blanked(s, j) {
      var k :| 0 <= k <= j && Selected(s, k) && MatchAt(s, k).value.0 < j < MatchAt(s, k).value.1;
      MatchBounds(s, k);
      InsideValue(s, k, MatchAt(s, k).value.0, MatchAt(s, k).value.1, j);
    }
  }

  lemma HeaderOf(s: string, i: nat, open: nat, close: nat)
    requires Matches(s, i, open, close)
    ensures i <= open < close < |s| && LineStart(s, i) && Header(s[i..open]) && s[open] == '(' && s[close] == ')'
  {
  }

  /** A line feed between a selected match's start and its end lies inside the value. */
  lemma BreakInside(s: string, k: nat, j: nat)
    requires Selected(s, k) && k <= j < MatchAt(s, k).value.1 && s[j] == '\n'
    ensures Blanked(s, j)
  {
    hide MatchAt, Matches;
    MatchBounds(s, k);
    var (open, close) := MatchAt(s, k).value;
    HeaderOf(s, k, open, close);
    if j < open {
      HeaderByte(s, k, open, j);
    }
  }

  /** The break before a selected match is not part of an earlier value. */
  lemma BreakBefore(s: string, k: nat)
    requires Selected(s, k) && k > 0
    ensures s[k - 1] == '\n' && !Blanked(s, k - 1)
  {
    hide MatchAt, Matches;
    MatchBounds(s, k);
    HeaderOf(s, k, MatchAt(s, k).value.0, MatchAt(s, k).value.1);
  }

  /** Up to its opening parenthesis a selected match is left alone. */
  lemma HeaderKept(s: string, i: nat, j: nat)
    requires Selected(s, i) && i <= j <= MatchAt(s, i).value.0
    ensures !Blanked(s, j)
  {
    hide MatchAt, Matches;
    MatchBounds(s, i);
  }

  /** A match of the pattern in the output does not start inside a match of the input. */
  lemma StartsOutside(s: string, i: nat)
    requires i <= |s| && LineStart(ScrubTelegram(s), i)
    ensures LineStart(s, i) && Boundary(s, i)
    ensures i > 0 ==> s[i - 1] == '\n' && !Blanked(s, i - 1)
  {
    hide MatchAt, ScrubTelegram;
    if i > 0 {
      MarksKept(s, i - 1, '\n');
      forall k | 0 <= k < i && Selected(s, k) ensures MatchAt(s, k).value.1 < i {
        if MatchAt(s, k).value.1 >= i { BreakInside(s, k, i - 1); }
      }
    }
  }

  lemma OutputHeaderKept(s: string, i: nat, open: nat, close: nat, j: nat)
    requires Matches(ScrubTelegram(s), i, open, close) && i <= j <= open
    ensures !Blanked(s, j)
  {
    hide MatchAt, ScrubTelegram, Header, LineStart, Matches;
    var t := ScrubTelegram(s);
    HeaderOf(t, i, open, close);
    StartsOutside(s, i);
    if Blanked(s, j) {
      var k :| 0 <= k <= j && Selected(s, k) && MatchAt(s, k).value.0 < j < MatchAt(s, k).value.1;
      if k == i {
        var o := MatchAt(s, i).value.0;
        MatchBounds(s, i);
        HeaderOf(s, i, o, MatchAt(s, i).value.1);
        HeaderKept(s, i, o);
        ScrubbedByteByByte(s, o);
        if o < open { HeaderByte(t, i, open, o); }
      } else {
        BreakBefore(s, k);
        ScrubbedByteByByte(s, k - 1);
        HeaderByte(t, i, open, k - 1);
      }
    }
  }

  lemma StillMatches(s: string, i: nat, open: nat, close: nat)
    requires i <= |s| && Selected(s, i) && MatchAt(s, i) == Some((open, close))
    ensures Matches(ScrubTelegram(s), i, open, close)
  {
    var t := ScrubTelegram(s);
    hide MatchAt, ScrubTelegram, Header;
    MatchAtExact(s, i, open, close);
    if i > 0 {
      BreakBefore(s, i);
      ScrubbedByteByByte(s, i - 1);
    }
    forall j | i <= j <= open ensures t[j] == s[j] {
      HeaderKept(s, i, j);
      ScrubbedByteByByte(s, j);
    }
    assert t[i..open] == s[i..open];
    ClosingKept(s, close);
    forall j | open < j < close ensures t[j] == '0' {
      SelectedBlanks(s, i);
      ScrubbedByteByByte(s, j);
    }
  }

  lemma WasSelected(s: string, i: nat, open: nat, close: nat)
    requires Matches(ScrubTelegram(s), i, open, close)
    ensures Selected(s, i) && MatchAt(s, i) == Some((open, close))
  {
    var t := ScrubTelegram(s);
    forall j | i <= j <= open ensures s[j] == t[j] {
      OutputHeaderKept(s, i, open, close, j);
      ScrubbedByteByByte(s, j);
    }
    assert s[i..open] == t[i..open];
    MarksKept(s, close, ')');
    forall j | open < j < close ensures s[j] != ')' {
      if s[j] == ')' { ClosingKept(s, j); InsideValue(t, i, open, close, j); }
    }
    StartsOutside(s, i);
    hide MatchAt, ScrubTelegram, Header;
    MatchAtExact(s, i, open, close);
  }

  /** The matches of the output are those selected in the input, at the same places. */
  lemma SameMatches(s: string, i: nat, open: nat, close: nat)
    requires i <= |s|
    ensures Matches(ScrubTelegram(s), i, open, close) <==> Selected(s, i) && MatchAt(s, i) == Some((open, close))
  {
    if Matches(ScrubTelegram(s), i, open, close) { WasSelected(s, i, open, close); }
    if Selected(s, i) && MatchAt(s, i) == Some((open, close)) { StillMatches(s, i, open, close); }
  }

  /** After scrubbing, whatever still looks like an identifying object holds nothing but zeros. */
  lemma NothingIdentifyingLeft(s: string, i: nat, open: nat, close: nat, j: nat)
    requires Matches(ScrubTelegram(s), i, open, close) && open < j < close
    ensures ScrubTelegram(s)[j] == '0'
  {
    SameMatches(s, i, open, close);
    SelectedBlanks(s, i);
    ScrubbedByteByByte(s, j);
  }

  /** Scrubbing again changes nothing. */
  lemma ScrubbingTwice(s: string)
    ensures ScrubTelegram(ScrubTelegram(s)) == ScrubTelegram(s)
  {
    var t := ScrubTelegram(s);
    hide MatchAt, ScrubTelegram, Matches;
    forall j | 0 <= j < |t| ensures ScrubTelegram(t)[j] == t[j] {
      ScrubbedByteByByte(t, j);
      if Blanked(t, j) {
        var k :| 0 <= k <= j && Selected(t, k) && MatchAt(t, k).value.0 < j < MatchAt(t, k).value.1;
        MatchBounds(t, k);
        NothingIdentifyingLeft(s, k, MatchAt(t, k).value.0, MatchAt(t, k).value.1, j);
      }
    }
  }
}
