/** The two patterns by which an answer's text mentions an entity: a word, an optional number sign with blanks
    around it, and a number. */
module MentionPatterns {
  import opened Wrappers
  import opened Text

  const MAX_INT64: int := 0x7FFF_FFFF_FFFF_FFFF

  const ALERT_WORDS: seq<string> := ["alert", "алерт"]

  const RECOMMENDATION_WORDS: seq<string> := ["recommendation", "рекомендация", "рекомендации"]

  /** White space in a pattern. */
  predicate IsBlank(c: char) {
    c == ' ' || c == '\t' || c == '\n' || c == '\r' || c == '\U{000C}'
  }

  predicate WordAt(s: string, i: nat, word: string) {
    i + |word| <= |s| && ToLower(s[i..i + |word|]) == word
  }

  /** Where the first of the words that stands at `i` ends. */
  function WordEnd(s: string, i: nat, words: seq<string>): Option<nat> {
    if words == [] then None
    else if WordAt(s, i, words[0]) then Some(i + |words[0]|)
    else WordEnd(s, i, words[1..])
  }

  function Skip(s: string, i: nat, skipped: char -> bool): (end: nat)
    requires i <= |s|
    ensures i <= end <= |s|
    ensures forall k | i <= k < end :: skipped(s[k])
    ensures end < |s| ==> !skipped(s[end])
    decreases |s| - i
  {
    if i < |s| && skipped(s[i]) then Skip(s, i + 1, skipped) else i
  }

  /** Past the blanks, an optional number sign and more blanks. */
  function SkipSign(s: string, i: nat): (end: nat)
    requires i <= |s|
    ensures i <= end <= |s|
    ensures forall k | i <= k < end :: IsBlank(s[k]) || s[k] == '#'
  {
    var sign := Skip(s, i, IsBlank);
    Skip(s, if sign < |s| && s[sign] == '#' then sign + 1 else sign, IsBlank)
  }

  function DigitsValue(digits: string): int {
    if digits == [] then 0 else 10 * DigitsValue(digits[..|digits| - 1]) + (digits[|digits| - 1] as int - '0' as int)
  }

  /** Reading a number too large for 64 bits gives the largest one. */
  function ParseInt64(digits: string): int {
    if DigitsValue(digits) > MAX_INT64 then MAX_INT64 else DigitsValue(digits)
  }

  /** The number of a mention that starts at `i`, and where it ends. */
  function MentionAt(s: string, i: nat, words: seq<string>): (mention: Option<(int, nat)>)
    ensures mention.Some? ==> i <= mention.value.1 <= |s|
  {
    var word := WordEnd(s, i, words);
    if word.None? || word.value > |s| || word.value < i then None
    else
      var start := SkipSign(s, word.value);
      var end := Skip(s, start, IsDigit);
      if start == end then None else Some((ParseInt64(s[start..end]), end))
  }

  /** The numbers of all mentions from `i` on; the search goes on where a mention ended. */
  function FindAll(s: string, i: nat, words: seq<string>): seq<int>
    decreases |s| - i
  {
    if i >= |s| then []
    else
      var mention := MentionAt(s, i, words);
      if mention.None? || mention.value.1 <= i then FindAll(s, i + 1, words)
      else [mention.value.0] + FindAll(s, mention.value.1, words)
  }

  function AlertNumbers(): string -> seq<int> {
    (text: string) => FindAll(text, 0, ALERT_WORDS)
  }

  function RecommendationNumbers(): string -> seq<int> {
    (text: string) => FindAll(text, 0, RECOMMENDATION_WORDS)
  }

  // ---------------------------------------------------------------- no mention is missed

  /** The letter does not come again in the word. */
  ghost predicate OnlyFirst(c: char, word: string) {
    forall j | 1 <= j < |word| :: word[j] != c
  }

  /** The first letter of a word is found nowhere else in a mention. */
  ghost predicate Distinctive(words: seq<string>) {
    && (forall w | w in words :: w != "" && !IsBlank(w[0]) && w[0] != '#' && !IsDigit(w[0]))
    && (forall v, w | v in words && w in words && v != "" :: OnlyFirst(v[0], w))
  }

  lemma AlertWordsDistinctive()
    ensures Distinctive(ALERT_WORDS)
  {
    assert OnlyFirst('a', "alert") && OnlyFirst('а', "алерт");
    assert OnlyFirst('а', "alert") && OnlyFirst('a', "алерт");
    assert "alert"[0] == 'a' && "алерт"[0] == 'а';
    hide OnlyFirst;
  }

  lemma RecommendationLetters(c: char)
    requires c == 'r' || c == 'р'
    ensures OnlyFirst(c, "recommendation") && OnlyFirst(c, "рекомендация") && OnlyFirst(c, "рекомендации")
  {
  }

  lemma RecommendationWordsDistinctive()
    ensures Distinctive(RECOMMENDATION_WORDS)
  {
    RecommendationLetters('r');
    RecommendationLetters('р');
    assert "recommendation"[0] == 'r' && "рекомендация"[0] == "рекомендации"[0] == 'р';
    hide OnlyFirst;
  }

  ghost predicate StartsWord(c: char, words: seq<string>) {
    exists w :: w in words && w != "" && LowerChar(c) == w[0]
  }

  lemma {:induction false} WordEndOfWord(s: string, i: nat, words: seq<string>) returns (w: string)
    requires WordEnd(s, i, words).Some?
    ensures w in words && WordAt(s, i, w) && WordEnd(s, i, words).value == i + |w|
  {
    if WordAt(s, i, words[0]) {
      w := words[0];
    } else {
      w := WordEndOfWord(s, i, words[1..]);
    }
  }

  lemma MentionStartsWord(s: string, i: nat, words: seq<string>)
    requires i < |s| && Distinctive(words) && MentionAt(s, i, words).Some?
    ensures StartsWord(s[i], words) && i < MentionAt(s, i, words).value.1
  {
    var w := WordEndOfWord(s, i, words);
    assert w != "" && ToLower(s[i..i + |w|])[0] == LowerChar(s[i]);
  }

  lemma InsideWord(s: string, i: nat, words: seq<string>, w: string, k: nat)
    requires Distinctive(words) && w in words && WordAt(s, i, w) && i < k < i + |w|
    ensures !StartsWord(s[k], words)
  {
    assert ToLower(s[i..i + |w|])[k - i] == LowerChar(s[k]);
    forall v | v in words && v != ""
      ensures LowerChar(s[k]) != v[0]
    {
      assert OnlyFirst(v[0], w);
    }
  }

  lemma AfterWord(c: char, words: seq<string>)
    requires Distinctive(words) && (IsBlank(c) || c == '#' || IsDigit(c))
    ensures !StartsWord(c, words)
  {
    assert LowerChar(c) == c;
  }

  /** Nothing after the first character of a mention starts another. */
  lemma NothingStartsInside(s: string, i: nat, words: seq<string>, k: nat)
    requires i < |s| && Distinctive(words) && MentionAt(s, i, words).Some? && i < k < MentionAt(s, i, words).value.1
    ensures MentionAt(s, k, words).None?
  {
    var w := WordEndOfWord(s, i, words);
    if k < i + |w| {
      InsideWord(s, i, words, w, k);
    } else {
      AfterWord(s[k], words);
    }
    hide MentionAt, Distinctive, StartsWord;
    if MentionAt(s, k, words).Some? {
      MentionStartsWord(s, k, words);
    }
  }

  ghost predicate MentionedFrom(s: string, i: nat, words: seq<string>, id: int) {
    exists k: nat | i <= k < |s| :: MentionAt(s, k, words).Some? && MentionAt(s, k, words).value.0 == id
  }

  /** The search, which skips what it has read, finds the number of every mention wherever it starts, and no other. */
  lemma {:induction false} FindAllIff(s: string, i: nat, words: seq<string>, id: int)
    requires Distinctive(words)
    ensures id in FindAll(s, i, words) <==> MentionedFrom(s, i, words, id)
    decreases |s| - i
  {
    hide MentionAt, Distinctive;
    if i >= |s| {
    } else if MentionAt(s, i, words).None? {
      FindAllIff(s, i + 1, words, id);
      assert forall k: nat | i <= k < |s| && MentionAt(s, k, words).Some? :: i + 1 <= k;
    } else {
      MentionStartsWord(s, i, words);
      var end := MentionAt(s, i, words).value.1;
      FindAllIff(s, end, words, id);
      forall k: nat | i < k < end
        ensures MentionAt(s, k, words).None?
      {
        NothingStartsInside(s, i, words, k);
      }
    }
  }

  // ---------------------------------------------------------------- what is written is read

  lemma {:induction false} DigitsRead(n: nat)
    ensures DigitsValue(DecimalNat(n)) == n
  {
    if n < 10 {
      assert DecimalNat(n)[..0] == [];
    } else {
      DigitsRead(n / 10);
      assert DecimalNat(n)[..|DecimalNat(n)| - 1] == DecimalNat(n / 10);
    }
  }

  lemma SkipTo(s: string, i: nat, end: nat, skipped: char -> bool)
    requires i <= end <= |s| && (forall k | i <= k < end :: skipped(s[k])) && (end < |s| ==> !skipped(s[end]))
    ensures Skip(s, i, skipped) == end
  {
  }

  lemma SignSkipped(s: string, j: nat)
    requires j + 2 < |s| && s[j] == ' ' && s[j + 1] == '#' && IsDigit(s[j + 2])
    ensures SkipSign(s, j) == j + 2
  {
    SkipTo(s, j, j + 1, IsBlank);
    SkipTo(s, j + 2, j + 2, IsBlank);
  }

  lemma MentionRead(s: string, i: nat, j: nat, end: nat, words: seq<string>)
    requires i <= j && j + 2 < end <= |s| && WordEnd(s, i, words) == Some(j)
    requires s[j] == ' ' && s[j + 1] == '#'
    requires forall k | j + 2 <= k < end :: IsDigit(s[k])
    requires end < |s| ==> !IsDigit(s[end])
    ensures MentionAt(s, i, words) == Some((ParseInt64(s[j + 2..end]), end))
  {
    SignSkipped(s, j);
    SkipTo(s, j + 2, end, IsDigit);
    hide WordEnd, ParseInt64, SkipSign, IsBlank, IsDigit;
  }

  lemma WrittenText(before: string, word: string, digits: string, after: string)
    ensures var s, j := before + (word + " #" + digits + after), |before| + |word|;
      && |s| == j + 2 + |digits| + |after|
      && s[|before|..j] == word && s[j] == ' ' && s[j + 1] == '#' && s[j + 2..j + 2 + |digits|] == digits
      && (after != "" ==> s[j + 2 + |digits|] == after[0])
  {
  }

  /** Words in lower case, none of which another begins with. */
  ghost predicate Prefixless(words: seq<string>) {
    && (forall w | w in words :: ToLower(w) == w)
    && (forall v, w | v in words && w in words && v != w :: !(v <= w))
  }

  lemma AlertWordsPrefixless()
    ensures Prefixless(ALERT_WORDS)
  {
    assert "alert"[0] == 'a' && "алерт"[0] == 'а';
    assert ToLower("alert") == "alert" && ToLower("алерт") == "алерт";
    hide ToLower;
  }

  lemma RecommendationWordsPrefixless()
    ensures Prefixless(RECOMMENDATION_WORDS)
  {
    assert "recommendation"[0] == 'r' && "рекомендация"[0] == "рекомендации"[0] == 'р';
    assert "рекомендация"[11] == 'я' && "рекомендации"[11] == 'и';
    assert ToLower("recommendation") == "recommendation";
    assert ToLower("рекомендация") == "рекомендация" && ToLower("рекомендации") == "рекомендации";
    hide ToLower;
  }

  lemma {:induction false} WordEndAt(s: string, i: nat, words: seq<string>, w: string)
    requires w in words && WordAt(s, i, w) && forall v | v in words && v != w :: !WordAt(s, i, v)
    ensures WordEnd(s, i, words) == Some(i + |w|)
  {
    if words[0] == w {
    } else {
      assert words[0] in words && !WordAt(s, i, words[0]);
      WordEndAt(s, i, words[1..], w);
    }
  }

  /** Of two words at one place, one begins with the other. */
  lemma TwoWordsAt(s: string, i: nat, v: string, w: string)
    requires i + |w| <= |s| && s[i..i + |w|] == w == ToLower(w) && WordAt(s, i, v)
    ensures v <= w || w <= v
  {
    var there := s[i..i + |v|];
    assert forall k | 0 <= k < |v| && k < |w| :: there[k] == w[k] && ToLower(there)[k] == ToLower(w)[k];
  }

  /** A number written after any of the pattern's words is read back from the text, whatever is around it. */
  lemma WrittenIsRead(before: string, word: string, n: nat, after: string, words: seq<string>)
    requires Distinctive(words) && Prefixless(words) && word in words
    requires n <= MAX_INT64 && (after != "" ==> !IsDigit(after[0]))
    ensures n in FindAll(before + (word + " #" + Decimal(n) + after), 0, words)
  {
    hide MentionAt, Distinctive, FindAll, WordEnd, ToLower;
    var digits := Decimal(n);
    var s, i := before + (word + " #" + digits + after), |before|;
    var j := i + |word|;
    DecimalNatDigits(n);
    DigitsRead(n);
    WrittenText(before, word, digits, after);
    forall k | j + 2 <= k < j + 2 + |digits|
      ensures IsDigit(s[k])
    {
      assert s[k] == s[j + 2..j + 2 + |digits|][k - (j + 2)];
    }
    forall v | v in words && v != word
      ensures !WordAt(s, i, v)
    {
      if WordAt(s, i, v) {
        TwoWordsAt(s, i, v, word);
      }
    }
    WordEndAt(s, i, words, word);
    MentionRead(s, i, j, j + 2 + |digits|, words);
    assert MentionedFrom(s, 0, words, n);
    FindAllIff(s, 0, words, n);
  }
}
