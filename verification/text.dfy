/** The string operations the backend relies on: trimming, lower-casing, substring search, joining
    and decimal printing. */
module Text {
  import opened Uniques

  /** White space as Go's unicode.IsSpace defines it. */
  predicate IsSpace(c: char) {
    || '\t' <= c <= '\r'
    || c == ' '
    || c == '\U{0085}' || c == '\U{00A0}' || c == '\U{1680}'
    || '\U{2000}' <= c <= '\U{200A}'
    || c == '\U{2028}' || c == '\U{2029}' || c == '\U{202F}' || c == '\U{205F}' || c == '\U{3000}'
  }

  /** By their numbers, the twenty-five white characters. */
  lemma SpacesRead(c: char)
    ensures IsSpace(c) <==>
      var n := c as int;
      || n == 32 || 9 <= n <= 13 || n == 133 || n == 160 || n == 5760 || 8192 <= n <= 8202
      || n == 8232 || n == 8233 || n == 8239 || n == 8287 || n == 12288
  {
  }

  function TrimLeft(s: string): string {
    if s != [] && IsSpace(s[0]) then TrimLeft(s[1..]) else s
  }

  function TrimRight(s: string): string {
    if s != [] && IsSpace(s[|s| - 1]) then TrimRight(s[..|s| - 1]) else s
  }

  function TrimSpace(s: string): string {
    TrimRight(TrimLeft(s))
  }

  /** Nothing to trim: empty, or starting and ending with a visible character. */
  predicate Trimmed(s: string) {
    s != [] ==> !IsSpace(s[0]) && !IsSpace(s[|s| - 1])
  }

  lemma {:induction false} TrimLeftEdge(s: string)
    ensures |TrimLeft(s)| <= |s|
    ensures TrimLeft(s) != [] ==> !IsSpace(TrimLeft(s)[0]) && TrimLeft(s)[|TrimLeft(s)| - 1] == s[|s| - 1]
  {
    if s != [] && IsSpace(s[0]) {
      TrimLeftEdge(s[1..]);
    }
  }

  lemma {:induction false} TrimRightEdge(s: string)
    ensures TrimRight(s) <= s
    ensures TrimRight(s) != [] ==> !IsSpace(TrimRight(s)[|TrimRight(s)| - 1])
  {
    if s != [] && IsSpace(s[|s| - 1]) {
      TrimRightEdge(s[..|s| - 1]);
    }
  }

  lemma TrimSpaceTrimmed(s: string)
    ensures Trimmed(TrimSpace(s))
  {
    TrimLeftEdge(s);
    TrimRightEdge(TrimLeft(s));
  }

  lemma TrimOfTrimmed(s: string)
    requires Trimmed(s)
    ensures TrimSpace(s) == s
  {
  }

  /** Lower-casing, character by character, of Latin and Russian letters. */
  function LowerChar(c: char): char {
    if 'A' <= c <= 'Z' then (c as int + 32) as char
    else if '\U{0410}' <= c <= '\U{042F}' then (c as int + 32) as char
    else if c == '\U{0401}' then '\U{0451}'
    else c
  }

  function ToLower(s: string): string {
    seq(|s|, i requires 0 <= i < |s| => LowerChar(s[i]))
  }

  /** Letters keep their place in the alphabet, Latin or Russian; lowering again, or anything else, changes nothing. */
  lemma LettersLowered(c: char)
    ensures 'A' <= c <= 'Z' ==> LowerChar(c) as int - 'a' as int == c as int - 'A' as int
    ensures 'А' <= c <= 'Я' ==> LowerChar(c) as int - 'а' as int == c as int - 'А' as int
    ensures LowerChar('Ё') == 'ё' && LowerChar(LowerChar(c)) == LowerChar(c)
    ensures !('A' <= c <= 'Z') && !('А' <= c <= 'Я') && c != 'Ё' ==> LowerChar(c) == c
  {
  }

  lemma ToLowerConcat(a: string, b: string)
    ensures ToLower(a + b) == ToLower(a) + ToLower(b)
  {
  }

  predicate ContainsAt(s: string, part: string, i: nat) {
    i + |part| <= |s| && s[i..i + |part|] == part
  }

  predicate Contains(s: string, part: string) {
    exists i: nat | i <= |s| :: ContainsAt(s, part, i)
  }

  predicate ContainsAny(s: string, phrases: seq<string>) {
    exists k | 0 <= k < |phrases| :: Contains(s, phrases[k])
  }

  lemma ContainsWithin(a: string, s: string, b: string, part: string)
    requires Contains(s, part)
    ensures Contains(a + s + b, part)
  {
    var i: nat :| i <= |s| && ContainsAt(s, part, i);
    assert (a + s + b)[|a| + i..|a| + i + |part|] == s[i..i + |part|];
    assert ContainsAt(a + s + b, part, |a| + i);
  }

  lemma ContainsItself(s: string)
    ensures Contains(s, s)
  {
    assert ContainsAt(s, s, 0);
  }

  lemma NothingContains(part: string)
    requires part != ""
    ensures !Contains("", part)
  {
  }

  lemma ContainsWithoutFirst(c: char, s: string, part: string)
    requires part != "" && part[0] != c
    ensures Contains([c] + s, part) <==> Contains(s, part)
  {
    var t := [c] + s;
    if i: nat :| i <= |t| && ContainsAt(t, part, i) {
      assert t[i..i + |part|][0] == t[i];
      assert t[i..i + |part|] == s[i - 1..i - 1 + |part|];
      assert ContainsAt(s, part, i - 1);
    }
    if i: nat :| i <= |s| && ContainsAt(s, part, i) {
      assert t[i + 1..i + 1 + |part|] == s[i..i + |part|];
      assert ContainsAt(t, part, i + 1);
    }
  }

  lemma ContainsWithoutLast(s: string, c: char, part: string)
    requires part != "" && part[|part| - 1] != c
    ensures Contains(s + [c], part) <==> Contains(s, part)
  {
    var t := s + [c];
    if i: nat :| i <= |t| && ContainsAt(t, part, i) {
      assert t[i..i + |part|][|part| - 1] == t[i + |part| - 1];
      assert t[i..i + |part|] == s[i..i + |part|];
      assert ContainsAt(s, part, i);
    }
    if i: nat :| i <= |s| && ContainsAt(s, part, i) {
      assert t[i..i + |part|] == s[i..i + |part|];
      assert ContainsAt(t, part, i);
    }
  }

  /** A word without spaces: nothing to find in what trimming takes away. */
  predicate Unspaced(word: string) {
    word != "" && forall i | 0 <= i < |word| :: !IsSpace(word[i])
  }

  lemma {:induction false} TrimLeftKeepsWords(s: string, word: string)
    requires Unspaced(word)
    ensures Contains(ToLower(TrimLeft(s)), word) <==> Contains(ToLower(s), word)
  {
    if s != [] && IsSpace(s[0]) {
      TrimLeftKeepsWords(s[1..], word);
      assert ToLower(s) == [LowerChar(s[0])] + ToLower(s[1..]);
      assert LowerChar(s[0]) == s[0];
      ContainsWithoutFirst(LowerChar(s[0]), ToLower(s[1..]), word);
    }
  }

  lemma {:induction false} TrimRightKeepsWords(s: string, word: string)
    requires Unspaced(word)
    ensures Contains(ToLower(TrimRight(s)), word) <==> Contains(ToLower(s), word)
  {
    if s != [] && IsSpace(s[|s| - 1]) {
      var front, c := s[..|s| - 1], s[|s| - 1];
      TrimRightKeepsWords(front, word);
      assert ToLower(s) == ToLower(front) + [LowerChar(c)];
      assert LowerChar(c) == c;
      ContainsWithoutLast(ToLower(front), LowerChar(c), word);
    }
  }

  /** Trimming neither hides nor reveals a word. */
  lemma TrimKeepsWords(s: string, word: string)
    requires Unspaced(word)
    ensures Contains(ToLower(TrimSpace(s)), word) <==> Contains(ToLower(s), word)
  {
    TrimLeftKeepsWords(s, word);
    TrimRightKeepsWords(TrimLeft(s), word);
  }

  ghost predicate HasVisible(s: string) {
    exists i | 0 <= i < |s| :: !IsSpace(s[i])
  }

  /** Trimming leaves nothing of a text without a visible character, and something of any other. */
  lemma TrimLeavesVisible(s: string)
    ensures TrimSpace(s) != "" <==> HasVisible(s)
  {
    TrimLeftLeaves(s);
    TrimRightLeaves(TrimLeft(s));
  }

  lemma {:induction false} TrimLeftLeaves(s: string)
    ensures HasVisible(TrimLeft(s)) <==> HasVisible(s)
  {
    if s != [] && IsSpace(s[0]) {
      TrimLeftLeaves(s[1..]);
      if i :| 0 <= i < |s| && !IsSpace(s[i]) {
        assert !IsSpace(s[1..][i - 1]);
      }
      if i :| 0 <= i < |s[1..]| && !IsSpace(s[1..][i]) {
        assert !IsSpace(s[i + 1]);
      }
    }
  }

  lemma {:induction false} TrimRightLeaves(s: string)
    ensures TrimRight(s) != "" <==> HasVisible(s)
  {
    if s != [] && IsSpace(s[|s| - 1]) {
      var front := s[..|s| - 1];
      TrimRightLeaves(front);
      if i :| 0 <= i < |s| && !IsSpace(s[i]) {
        assert !IsSpace(front[i]);
      }
      if i :| 0 <= i < |front| && !IsSpace(front[i]) {
        assert !IsSpace(s[i]);
      }
    } else if s != [] {
      assert !IsSpace(s[|s| - 1]);
    }
  }

  function Join(parts: seq<string>, separator: string): string {
    if parts == [] then ""
    else if |parts| == 1 then parts[0]
    else parts[0] + separator + Join(parts[1..], separator)
  }

  /** A phrase visible in one lower-cased part is visible in the lower-cased join of all parts. */
  lemma {:induction false} JoinShowsPart(parts: seq<string>, separator: string, k: nat, phrase: string)
    requires k < |parts| && Contains(ToLower(parts[k]), phrase)
    ensures Contains(ToLower(Join(parts, separator)), phrase)
  {
    if |parts| > 1 {
      var rest := Join(parts[1..], separator);
      ToLowerConcat(parts[0] + separator, rest);
      ToLowerConcat(parts[0], separator);
      var lowerSeparator := ToLower(separator);
      if k == 0 {
        ContainsWithin("", ToLower(parts[0]), lowerSeparator + ToLower(rest), phrase);
        assert "" + ToLower(parts[0]) + (lowerSeparator + ToLower(rest)) == ToLower(Join(parts, separator));
      } else {
        JoinShowsPart(parts[1..], separator, k - 1, phrase);
        ContainsWithin(ToLower(parts[0]) + lowerSeparator, ToLower(rest), "", phrase);
        assert ToLower(parts[0]) + lowerSeparator + ToLower(rest) + "" == ToLower(Join(parts, separator));
      }
    }
  }

  function Digit(d: nat): char
    requires d < 10
  {
    ['0', '1', '2', '3', '4', '5', '6', '7', '8', '9'][d]
  }

  predicate IsDigit(c: char) {
    '0' <= c <= '9'
  }

  function DecimalNat(n: nat): string {
    if n < 10 then [Digit(n)] else DecimalNat(n / 10) + [Digit(n % 10)]
  }

  /** The "%d" verb. */
  function Decimal(n: int): string {
    if n < 0 then "-" + DecimalNat(-n) else DecimalNat(n)
  }

  lemma {:induction false} DecimalNatDigits(n: nat)
    ensures DecimalNat(n) != [] && forall i | 0 <= i < |DecimalNat(n)| :: IsDigit(DecimalNat(n)[i])
  {
    if n >= 10 {
      DecimalNatDigits(n / 10);
    }
  }

  /** A printed number is non-empty and made of digits and an optional leading minus sign. */
  lemma DecimalCharacters(n: int)
    ensures Decimal(n) != []
    ensures forall i | 0 <= i < |Decimal(n)| :: IsDigit(Decimal(n)[i]) || Decimal(n)[i] == '-'
  {
    DecimalNatDigits(if n < 0 then -n else n);
  }

  lemma {:induction false} DecimalNatInjective(m: nat, n: nat)
    requires DecimalNat(m) == DecimalNat(n)
    ensures m == n
  {
    DecimalNatDigits(m / 10);
    DecimalNatDigits(n / 10);
    var s, t := DecimalNat(m), DecimalNat(n);
    if m < 10 || n < 10 {
      assert |s| == 1 && |t| == 1;
    } else {
      assert s[..|s| - 1] == DecimalNat(m / 10) && t[..|t| - 1] == DecimalNat(n / 10);
      assert s[|s| - 1] == Digit(m % 10) && t[|t| - 1] == Digit(n % 10);
      DecimalNatInjective(m / 10, n / 10);
    }
  }

  lemma DecimalSign(n: int)
    ensures Decimal(n) != [] && (Decimal(n)[0] == '-' <==> n < 0)
  {
    DecimalNatDigits(if n < 0 then -n else n);
  }

  /** Different numbers print differently. */
  lemma DecimalInjective(m: int, n: int)
    requires Decimal(m) == Decimal(n)
    ensures m == n
  {
    DecimalSign(m);
    DecimalSign(n);
    if m < 0 {
      assert Decimal(m)[1..] == DecimalNat(-m) && Decimal(n)[1..] == DecimalNat(-n);
      DecimalNatInjective(-m, -n);
    } else {
      DecimalNatInjective(m, n);
    }
  }

  function NoText(): string -> bool {
    (s: string) => s == ""
  }

  /** The trimmed, non-empty items, each once, in order of first appearance. */
  function Dedupe(items: seq<string>): seq<string> {
    Uniq(items, TrimSpace, NoText())
  }

  /** De-duplication keeps exactly the trimmed non-empty items, once each. */
  lemma DedupeMembers(items: seq<string>)
    ensures NoRepeats(Dedupe(items))
    ensures forall item :: item in Dedupe(items) <==> item != "" && Shows(items, TrimSpace, item)
  {
    UniqMembers(items, TrimSpace, NoText());
  }

  lemma DedupeHas(items: seq<string>, k: nat)
    requires k < |items| && items[k] != "" && Trimmed(items[k])
    ensures items[k] in Dedupe(items)
  {
    DedupeMembers(items);
    TrimOfTrimmed(items[k]);
    assert TrimSpace(items[k]) == items[k];
  }
}
