/** How the controller's voice says frequencies: `spell_digits`, `spell_frequency`, `speak_frequencies`. */
module FrequencySpeech {
  import opened Text
  import opened TokenCollapse
  import opened FrequencyWords

  // ── Spelling ────────────────────────────────────────────────────────────────

  function DigitsIn(s: string): (r: string)
    ensures AllDigits(r)
  {
    if s == "" then "" else DigitsIn(s[..|s|-1]) + if IsDigit(s[|s|-1]) then [s[|s|-1]] else ""
  }

  /** One more digit spelled after a space. */
  lemma SpellOneMore(before: string, c: char)
    requires AllDigits(before) && IsDigit(c)
    ensures Join(SpellWords(before + [c]))
            == Join(SpellWords(before)) + (if before == "" then "" else " ") + DigitWord(DigitValue(c))
  {
    assert (before + [c])[..|before|] == before;
    assert SpellWords(before + [c]) == SpellWords(before) + [DigitWord(DigitValue(c))];
    if before != "" {
      JoinConcat(SpellWords(before), [DigitWord(DigitValue(c))]);
    }
  }

  lemma SpelledNotEmpty(s: string)
    requires AllDigits(s) && s != ""
    ensures Join(SpellWords(s)) != ""
  {
    var ws := SpellWords(s);
    if |ws| == 1 {
      DigitWordLetters(DigitValue(s[0]));
    }
  }

  method SpellDigits(num: string) returns (out: string)
    ensures out == Join(SpellWords(DigitsIn(num)))
  {
    out := "";
    for i := 0 to |num|
      invariant out == Join(SpellWords(DigitsIn(num[..i])))
    {
      ghost var before := DigitsIn(num[..i]);
      DigitsInStep(num, i);
      if IsDigit(num[i]) {
        assert Join(SpellWords("")) == "";
        SpellOneMore(before, num[i]);
        if before != "" {
          SpelledNotEmpty(before);
        }
        if out != "" {
          out := out + " ";
        }
        out := out + DigitWord(DigitValue(num[i]));
      } else {
        assert before + "" == before;
      }
    }
    assert num[..|num|] == num;
  }

  lemma DigitsInStep(num: string, i: nat)
    requires i < |num|
    ensures DigitsIn(num[..i+1]) == DigitsIn(num[..i]) + if IsDigit(num[i]) then [num[i]] else ""
  {
    assert num[..i+1][..i] == num[..i];
  }

  function DotFrom(s: string, i: nat): (dot: nat)
    requires i <= |s|
    ensures i <= dot <= |s|
    decreases |s| - i
  {
    if i == |s| || s[i] == '.' then i else DotFrom(s, i + 1)
  }

  function Spell(num: string): string {
    Join(SpellWords(DigitsIn(num)))
  }

  function WithDecimal(whole: string, frac: string): string {
    whole + (if whole == "" then "" else " ") + "decimal" + (if frac == "" then "" else " " + frac)
  }

  /** `spell_frequency`: digit by digit, "decimal" for the first dot. */
  function SpellFrequency(mhz: string): string {
    var dot := DotFrom(mhz, 0);
    if dot == |mhz| then Spell(mhz)
    else if Spell(mhz[..dot]) == "" && Spell(mhz[dot+1..]) == "" then ""
    else WithDecimal(Spell(mhz[..dot]), Spell(mhz[dot+1..]))
  }

  lemma {:induction false} DigitsInDigits(s: string)
    requires AllDigits(s)
    ensures DigitsIn(s) == s
    decreases |s|
  {
    if s != "" {
      DigitsInDigits(s[..|s|-1]);
      assert s == s[..|s|-1] + [s[|s|-1]];
    }
  }

  lemma SpellOfDigits(s: string)
    requires AllDigits(s) && s != ""
    ensures Spell(s) == Join(SpellWords(s)) != ""
  {
    DigitsInDigits(s);
    SpelledNotEmpty(s);
  }

  lemma DecimalJoined(ws: seq<string>, fs: seq<string>)
    requires Join(ws) != "" && Join(fs) != ""
    ensures Join(ws + ["decimal"] + fs) == WithDecimal(Join(ws), Join(fs))
  {
    JoinConcat(ws + ["decimal"], fs);
    JoinConcat(ws, ["decimal"]);
    var w, f := Join(ws), Join(fs);
    assert w + " " + "decimal" + (" " + f) == (w + " " + "decimal") + " " + f;
  }

  /** A dotted number is spoken as its digits, the word "decimal", and its decimals. */
  lemma SpelledDotted(w: string, f: string)
    requires w != "" && f != "" && AllDigits(w) && AllDigits(f)
    ensures SpellFrequency(w + "." + f) == Join(SpellWords(w) + ["decimal"] + SpellWords(f))
  {
    var mhz := w + "." + f;
    DotAfter(w, f, 0);
    assert mhz[..|w|] == w && mhz[|w|+1..] == f;
    SpellOfDigits(w);
    SpellOfDigits(f);
    DecimalJoined(SpellWords(w), SpellWords(f));
  }

  lemma {:induction false} DotAfter(w: string, f: string, i: nat)
    requires AllDigits(w) && i <= |w|
    ensures DotFrom(w + "." + f, i) == |w|
    decreases |w| - i
  {
    if i < |w| {
      assert (w + "." + f)[i] == w[i];
      DotAfter(w, f, i + 1);
    }
  }

  /** `find('.')`; the length when there is none. */
  method FindDot(mhz: string) returns (dot: nat)
    ensures dot == DotFrom(mhz, 0)
  {
    dot := 0;
    while dot < |mhz| && mhz[dot] != '.'
      invariant dot <= |mhz| && DotFrom(mhz, dot) == DotFrom(mhz, 0)
    {
      dot := dot + 1;
    }
  }

  method SpellMegahertz(mhz: string) returns (s: string)
    ensures s == SpellFrequency(mhz)
  {
    var dot := FindDot(mhz);
    if dot == |mhz| {
      s := SpellDigits(mhz);
      return;
    }
    var whole := SpellDigits(mhz[..dot]);
    var frac := SpellDigits(mhz[dot+1..]);
    if whole == "" && frac == "" {
      return "";
    }
    s := whole;
    if s != "" {
      s := s + " ";
    }
    s := s + "decimal";
    if frac != "" {
      s := s + " " + frac;
    }
  }

  // ── Rewriting in text ───────────────────────────────────────────────────────

  /** Where the match that starts at an index ends; the index itself when there is none. */
  type Matcher = (string, nat) -> nat

  /** The text from `i` to `end`, with every match in it replaced by what `spell` makes of it. */
  function RewriteTo(m: Matcher, spell: string -> string, s: string, i: nat, end: nat): string
    requires i <= end <= |s|
    decreases end - i
  {
    if i == end then ""
    else if i < m(s, i) <= end then spell(s[i..m(s, i)]) + RewriteTo(m, spell, s, m(s, i), end)
    else [s[i]] + RewriteTo(m, spell, s, i + 1, end)
  }

  function Rewrite(m: Matcher, spell: string -> string, s: string, i: nat): string
    requires i <= |s|
  {
    RewriteTo(m, spell, s, i, |s|)
  }

  /** `w` stands at `off` in `s`, between spaces or ends of text. */
  ghost predicate StandsAt(s: string, off: nat, w: string) {
    && off + |w| <= |s|
    && (forall k :: 0 <= k < |w| ==> s[off + k] == w[k])
    && (off == 0 || s[off-1] == ' ')
    && (off + |w| == |s| || s[off + |w|] == ' ')
  }

  /** Matches look no further than the word they start in. */
  ghost predicate WithinWords(m: Matcher) {
    && (forall s: string, off: nat, w: string, i: nat {:trigger StandsAt(s, off, w), m(w, i)} ::
          StandsAt(s, off, w) && i < |w| ==> m(s, off + i) == off + m(w, i) && i <= m(w, i) <= |w|)
    && (forall s: string, i: nat {:trigger m(s, i)} :: i < |s| && s[i] == ' ' ==> m(s, i) == i)
  }

  lemma InsideWord(m: Matcher, s: string, off: nat, w: string, i: nat)
    requires WithinWords(m) && StandsAt(s, off, w) && i < |w|
    ensures m(s, off + i) == off + m(w, i) && i <= m(w, i) <= |w|
    ensures s[off + i] == w[i] && s[off + i..off + m(w, i)] == w[i..m(w, i)]
  {}

  lemma MatchStep(m: Matcher, spell: string -> string, s: string, i: nat, e: nat, end: nat)
    requires i < e <= end <= |s| && m(s, i) == e
    ensures RewriteTo(m, spell, s, i, end) == spell(s[i..e]) + RewriteTo(m, spell, s, e, end)
  {}

  lemma PlainStep(m: Matcher, spell: string -> string, s: string, i: nat, end: nat)
    requires i < end <= |s| && m(s, i) == i
    ensures RewriteTo(m, spell, s, i, end) == [s[i]] + RewriteTo(m, spell, s, i + 1, end)
  {}

  /** A word is rewritten in a text as it is on its own. */
  lemma {:induction false} RewriteLocal(m: Matcher, spell: string -> string, s: string, off: nat, w: string, i: nat,
                                        p: nat, end: nat)
    requires WithinWords(m) && StandsAt(s, off, w) && i <= |w| && p == off + i && end == off + |w|
    ensures RewriteTo(m, spell, s, p, end) == RewriteTo(m, spell, w, i, |w|)
    decreases |w| - i
  {
    if i < |w| {
      InsideWord(m, s, off, w, i);
      var e := m(w, i);
      if i < e {
        RewriteLocal(m, spell, s, off, w, e, off + e, end);
        MatchStep(m, spell, w, i, e, |w|);
        MatchStep(m, spell, s, p, off + e, end);
      } else {
        RewriteLocal(m, spell, s, off, w, i + 1, p + 1, end);
        PlainStep(m, spell, w, i, |w|);
        PlainStep(m, spell, s, p, end);
      }
    }
  }

  /** No match that starts before `end` goes beyond it. */
  ghost predicate NoCrossing(m: Matcher, s: string, p: nat, end: nat) {
    forall i: nat {:trigger m(s, i)} :: p <= i < end ==> i <= m(s, i) <= end
  }

  lemma {:induction false} RewriteSplit(m: Matcher, spell: string -> string, s: string, p: nat, end: nat)
    requires p <= end <= |s| && NoCrossing(m, s, p, end)
    ensures Rewrite(m, spell, s, p) == RewriteTo(m, spell, s, p, end) + Rewrite(m, spell, s, end)
    decreases end - p
  {
    if p < end {
      var e := m(s, p);
      if p < e {
        RewriteSplit(m, spell, s, e, end);
        MatchStep(m, spell, s, p, e, end);
        MatchStep(m, spell, s, p, e, |s|);
        Assoc(spell(s[p..e]), RewriteTo(m, spell, s, e, end), Rewrite(m, spell, s, end));
      } else {
        RewriteSplit(m, spell, s, p + 1, end);
        PlainStep(m, spell, s, p, end);
        PlainStep(m, spell, s, p, |s|);
        Assoc([s[p]], RewriteTo(m, spell, s, p + 1, end), Rewrite(m, spell, s, end));
      }
    }
  }

  lemma WordNotCrossed(m: Matcher, s: string, off: nat, w: string)
    requires WithinWords(m) && StandsAt(s, off, w)
    ensures NoCrossing(m, s, off, off + |w|)
  {
    forall i: nat | off <= i < off + |w|
      ensures i <= m(s, i) <= off + |w|
    {
      InsideWord(m, s, off, w, i - off);
    }
  }

  /** A word, and what follows it. */
  lemma RewriteWord(m: Matcher, spell: string -> string, s: string, off: nat, w: string)
    requires WithinWords(m) && StandsAt(s, off, w)
    ensures Rewrite(m, spell, s, off) == Rewrite(m, spell, w, 0) + Rewrite(m, spell, s, off + |w|)
  {
    WordNotCrossed(m, s, off, w);
    RewriteSplit(m, spell, s, off, off + |w|);
    RewriteLocal(m, spell, s, off, w, 0, off, off + |w|);
  }

  function RewriteWords(m: Matcher, spell: string -> string, ws: seq<string>): seq<string> {
    if ws == [] then [] else [Rewrite(m, spell, ws[0], 0)] + RewriteWords(m, spell, ws[1..])
  }

  lemma StandsFirst(s: string, off: nat, w: string, rest: string)
    requires off <= |s| && (off == 0 || s[off-1] == ' ')
    requires s[off..] == w + rest && (rest == "" || rest[0] == ' ')
    ensures StandsAt(s, off, w) && s[off + |w|..] == rest
  {
    assert forall k :: 0 <= k < |w| + |rest| ==> s[off + k] == s[off..][k];
    assert s[off + |w|..] == s[off..][|w|..];
  }

  lemma RewriteSpace(m: Matcher, spell: string -> string, s: string, i: nat)
    requires WithinWords(m) && i < |s| && s[i] == ' '
    ensures Rewrite(m, spell, s, i) == " " + Rewrite(m, spell, s, i + 1)
  {}

  lemma SuffixStep(s: string, n: nat, rest: string)
    requires n <= |s| && s[n..] == rest && rest != ""
    ensures n < |s| && s[n] == rest[0] && s[n+1..] == rest[1..]
  {
    assert s[n..][1..] == s[n+1..];
  }

  /** Rewriting the last word, and a word before a space. */
  lemma RewriteLast(m: Matcher, spell: string -> string, s: string, off: nat, w: string)
    requires WithinWords(m) && off <= |s| && (off == 0 || s[off-1] == ' ') && s[off..] == w
    ensures Rewrite(m, spell, s, off) == Rewrite(m, spell, w, 0)
  {
    assert w + "" == w;
    StandsFirst(s, off, w, "");
    RewriteWord(m, spell, s, off, w);
    assert Rewrite(m, spell, s, off + |w|) == "";
  }

  lemma RewriteFirst(m: Matcher, spell: string -> string, s: string, off: nat, w: string, rest: string)
    requires WithinWords(m) && off <= |s| && (off == 0 || s[off-1] == ' ')
    requires s[off..] == w + rest && rest != "" && rest[0] == ' '
    ensures off + |w| < |s| && s[off + |w|] == ' ' && s[off + |w| + 1..] == rest[1..]
    ensures Rewrite(m, spell, s, off) == Rewrite(m, spell, w, 0) + " " + Rewrite(m, spell, s, off + |w| + 1)
  {
    var n := off + |w|;
    StandsFirst(s, off, w, rest);
    SuffixStep(s, n, rest);
    RewriteWord(m, spell, s, off, w);
    RewriteSpace(m, spell, s, n);
    Assoc(Rewrite(m, spell, w, 0), " ", Rewrite(m, spell, s, n + 1));
  }

  lemma JoinFirst(w: string, ws: seq<string>)
    ensures Join([w] + ws) == w + if ws == [] then "" else " " + Join(ws)
  {
    assert ([w] + ws)[1..] == ws;
  }

  lemma JoinRewritten(m: Matcher, spell: string -> string, ws: seq<string>)
    requires ws != []
    ensures Join(ws) == ws[0] + (if |ws| == 1 then "" else " " + Join(ws[1..]))
    ensures Join(RewriteWords(m, spell, ws))
            == Rewrite(m, spell, ws[0], 0) + (if |ws| == 1 then "" else " " + Join(RewriteWords(m, spell, ws[1..])))
  {
    HeadAndTail(ws);
    JoinFirst(ws[0], ws[1..]);
    JoinFirst(Rewrite(m, spell, ws[0], 0), RewriteWords(m, spell, ws[1..]));
  }

  lemma AfterSpace(x: string)
    ensures (" " + x)[1..] == x && (" " + x)[0] == ' '
  {}

  lemma JoinMore(m: Matcher, spell: string -> string, ws: seq<string>, whole: string, rest: string)
    requires |ws| > 1 && whole == Rewrite(m, spell, ws[0], 0) + " " + rest
    requires rest == Join(RewriteWords(m, spell, ws[1..]))
    ensures whole == Join(RewriteWords(m, spell, ws))
  {
    JoinRewritten(m, spell, ws);
    Assoc(Rewrite(m, spell, ws[0], 0), " ", rest);
  }

  /** Text is rewritten word by word. */
  lemma {:induction false} RewriteJoin(m: Matcher, spell: string -> string, s: string, off: nat, ws: seq<string>)
    requires WithinWords(m) && ws != []
    requires off <= |s| && s[off..] == Join(ws) && (off == 0 || s[off-1] == ' ')
    ensures Rewrite(m, spell, s, off) == Join(RewriteWords(m, spell, ws))
    decreases |ws|
  {
    if |ws| == 1 {
      JoinRewritten(m, spell, ws);
      RewriteLast(m, spell, s, off, ws[0]);
    } else {
      AfterSpace(Join(ws[1..]));
      RewriteFirst(m, spell, s, off, ws[0], " " + Join(ws[1..]));
      var next := off + |ws[0]| + 1;
      RewriteJoin(m, spell, s, next, ws[1..]);
      JoinMore(m, spell, ws, Rewrite(m, spell, s, off), Rewrite(m, spell, s, next));
    }
  }

  // ── Frequencies in text ─────────────────────────────────────────────────────

  function DigitRun(s: string, i: nat): (n: nat)
    requires i <= |s|
    ensures i + n <= |s|
    ensures forall k :: i <= k < i + n ==> IsDigit(s[k])
    decreases |s| - i
  {
    if i == |s| || !IsDigit(s[i]) then 0 else 1 + DigitRun(s, i + 1)
  }

  function Hundreds(a: char, b: char, c: char): nat
    requires IsDigit(a) && IsDigit(b) && IsDigit(c)
  {
    DigitValue(a) * 100 + DigitValue(b) * 10 + DigitValue(c)
  }

  predicate FreeLeft(s: string, i: nat)
    requires i <= |s|
  {
    i == 0 || (!IsAlnum(s[i-1]) && s[i-1] != '.')
  }

  predicate FreeRight(s: string, e: nat)
    requires e <= |s|
  {
    e == |s| || !IsAlnum(s[e])
  }

  /** Exactly three digits, 108 to 137, and a dot. */
  predicate BandAt(s: string, i: nat)
    requires i <= |s|
  {
    DigitRun(s, i) == 3 && i + 3 < |s| && s[i+3] == '.' && 108 <= Hundreds(s[i], s[i+1], s[i+2]) <= 137
  }

  /** Three digits in band, a dot, two or three digits, nothing alphanumeric around. */
  function FrequencyEnd(s: string, i: nat): nat {
    if i < |s| && FreeLeft(s, i) && BandAt(s, i)
       && (var n := DigitRun(s, i + 4); 2 <= n <= 3 && FreeRight(s, i + 4 + n))
    then i + 4 + DigitRun(s, i + 4)
    else i
  }

  function SpeakText(s: string): string {
    Rewrite(FrequencyEnd, SpellFrequency, s, 0)
  }

  method RunEnd(s: string, i: nat) returns (e: nat)
    requires i <= |s|
    ensures e == i + DigitRun(s, i)
  {
    e := i;
    while e < |s| && IsDigit(s[e])
      invariant i <= e <= |s|
      invariant e - i + DigitRun(s, e) == DigitRun(s, i)
    {
      e := e + 1;
    }
  }

  method MatchFrequency(s: string, i: nat) returns (end: nat)
    requires i < |s|
    ensures end == FrequencyEnd(s, i)
  {
    end := i;
    var leftOk := i == 0 || (!IsAlnum(s[i-1]) && s[i-1] != '.');
    var e := RunEnd(s, i);
    if leftOk && e - i == 3 && e < |s| && s[e] == '.' {
      var f := RunEnd(s, e + 1);
      var fracLen := f - (e + 1);
      var rightOk := f >= |s| || !IsAlnum(s[f]);
      var mhz := Hundreds(s[i], s[i+1], s[i+2]);
      if (fracLen == 2 || fracLen == 3) && rightOk && 108 <= mhz <= 137 {
        end := f;
      }
    }
  }

  method SpeakFrequencies(text: string) returns (out: string)
    ensures out == SpeakText(text)
  {
    out := "";
    var i := 0;
    while i < |text|
      invariant 0 <= i <= |text|
      invariant out + Rewrite(FrequencyEnd, SpellFrequency, text, i) == SpeakText(text)
    {
      var e := MatchFrequency(text, i);
      if e > i {
        var spoken := SpellMegahertz(text[i..e]);
        Assoc(out, spoken, Rewrite(FrequencyEnd, SpellFrequency, text, e));
        out, i := out + spoken, e;
      } else {
        Assoc(out, [text[i]], Rewrite(FrequencyEnd, SpellFrequency, text, i + 1));
        out, i := out + [text[i]], i + 1;
      }
    }
  }

  lemma {:induction false} DigitRunLocal(s: string, off: nat, w: string, i: nat)
    requires StandsAt(s, off, w) && i <= |w|
    ensures DigitRun(s, off + i) == DigitRun(w, i)
    decreases |w| - i
  {
    if i < |w| {
      assert s[off + i] == w[i];
      if IsDigit(w[i]) {
        DigitRunLocal(s, off, w, i + 1);
      }
    }
  }

  lemma FreeLocal(s: string, off: nat, w: string, i: nat)
    requires StandsAt(s, off, w) && i <= |w|
    ensures FreeLeft(s, off + i) == FreeLeft(w, i) && FreeRight(s, off + i) == FreeRight(w, i)
  {
    if i < |w| {
      assert s[off + i] == w[i];
    }
    if 0 < i {
      assert s[off + (i - 1)] == w[i-1];
    }
  }

  lemma BandLocal(s: string, off: nat, w: string, i: nat)
    requires StandsAt(s, off, w) && i < |w|
    ensures BandAt(s, off + i) == BandAt(w, i)
  {
    DigitRunLocal(s, off, w, i);
    if DigitRun(w, i) == 3 {
      assert s[off + i] == w[i] && s[off + (i + 1)] == w[i+1] && s[off + (i + 2)] == w[i+2];
      assert i + 3 < |w| ==> s[off + (i + 3)] == w[i+3];
    }
  }

  lemma FrequencyLocal(s: string, off: nat, w: string, i: nat)
    requires StandsAt(s, off, w) && i < |w|
    ensures FrequencyEnd(s, off + i) == off + FrequencyEnd(w, i)
    ensures i <= FrequencyEnd(w, i) <= |w|
  {
    FreeLocal(s, off, w, i);
    BandLocal(s, off, w, i);
    if BandAt(w, i) {
      DigitRunLocal(s, off, w, i + 4);
      FreeLocal(s, off, w, i + 4 + DigitRun(w, i + 4));
    }
  }

  /** A frequency never reaches across a space. */
  lemma FrequenciesStayInWords()
    ensures WithinWords(FrequencyEnd)
  {
    forall s: string, off: nat, w: string, i: nat | StandsAt(s, off, w) && i < |w|
      ensures FrequencyEnd(s, off + i) == off + FrequencyEnd(w, i) && i <= FrequencyEnd(w, i) <= |w|
    {
      FrequencyLocal(s, off, w, i);
    }
  }

  /** A word that is one frequency, perhaps with punctuation after it, or that is spoken as it stands. */
  predicate Clean(w: string) {
    VhfWord(w) || SpeakText(w) == w
  }

  lemma {:induction false} RunOfDigits(s: string, i: nat, e: nat)
    requires i <= e <= |s| && (forall k :: i <= k < e ==> IsDigit(s[k])) && (e < |s| ==> !IsDigit(s[e]))
    ensures DigitRun(s, i) == e - i
    decreases e - i
  {
    if i < e {
      RunOfDigits(s, i + 1, e);
    }
  }

  lemma VhfEnds(w: string)
    requires VhfWord(w)
    ensures FrequencyEnd(w, 0) == 7
  {
    VhfParts(w);
    assert forall k :: 0 <= k < 3 ==> IsDigit(w[k]) by {
      assert forall k :: 0 <= k < 3 ==> w[..3][k] == w[k];
    }
    assert w[3] == '.' && forall k :: 4 <= k < 7 ==> IsDigit(w[k]) by {
      assert forall k :: 4 <= k < 7 ==> w[4..7][k-4] == w[k];
      assert w[..7][3] == w[3];
    }
    assert |w| > 7 ==> w[7] == w[7..][0];
    RunOfDigits(w, 0, 3);
    RunOfDigits(w, 4, 7);
    ThreeDigitValue(w[..3]);
  }

  /** Punctuation is spoken as it stands. */
  lemma {:induction false} PunctuationStays(w: string, i: nat)
    requires i <= |w| && Punctuation(w[i..])
    ensures Rewrite(FrequencyEnd, SpellFrequency, w, i) == w[i..]
    decreases |w| - i
  {
    if i < |w| {
      assert w[i] == w[i..][0] && w[i+1..] == w[i..][1..];
      PunctuationStays(w, i + 1);
      HeadAndTail(w[i..]);
    }
  }

  lemma JoinMarked(ws: seq<string>, p: string)
    requires ws != []
    ensures Join(Marked(ws, p)) == Join(ws) + p
  {
    var init, last := ws[..|ws|-1], ws[|ws|-1];
    FrontAndLast(ws);
    if init != [] {
      JoinConcat(init, [last]);
      JoinConcat(init, [last + p]);
      Assoc(Join(init) + " ", last, p);
    }
  }

  lemma SpeakVhf(w: string)
    requires VhfWord(w)
    ensures SpeakText(w) == Join(Say(SayVhf, w))
  {
    var whole, frac, p := SpellWords(w[..3]), SpellWords(w[4..7]), w[7..];
    VhfEnds(w);
    VhfParts(w);
    assert w[0..7] == w[..7];
    SpelledDotted(w[..3], w[4..7]);
    PunctuationStays(w, 7);
    JoinMarked(whole + ["decimal"] + frac, p);
    MarkedLast(whole + ["decimal"], frac, p);
  }

  lemma MarkedLast(a: seq<string>, b: seq<string>, p: string)
    requires b != []
    ensures Marked(a + b, p) == a + Marked(b, p)
  {}

  /** On clean words the spoken text is the joined spoken tokens. */
  lemma {:induction false} SpeakWordsJoin(ws: seq<string>)
    requires forall i :: 0 <= i < |ws| ==> Clean(ws[i])
    ensures Join(RewriteWords(FrequencyEnd, SpellFrequency, ws)) == Join(SayAll(SayVhf, ws))
    ensures SayAll(SayVhf, ws) == [] <==> ws == []
    decreases |ws|
  {
    if ws != [] {
      SpeakWordsJoin(ws[1..]);
      if VhfWord(ws[0]) {
        SpeakVhf(ws[0]);
      }
      JoinStep(SpeakText(ws[0]), RewriteWords(FrequencyEnd, SpellFrequency, ws[1..]),
               Say(SayVhf, ws[0]), SayAll(SayVhf, ws[1..]));
    }
  }

  lemma JoinStep(a: string, xs: seq<string>, b: seq<string>, ys: seq<string>)
    requires b != [] && a == Join(b) && Join(xs) == Join(ys) && (xs == [] <==> ys == [])
    ensures Join([a] + xs) == Join(b + ys)
  {
    if xs == [] {
      assert [a] + xs == [a] && b + ys == b;
    } else {
      JoinConcat([a], xs);
      JoinConcat(b, ys);
    }
  }

  /** `speak_frequencies` on a text of clean words. */
  lemma SpeakTextOfWords(ws: seq<string>)
    requires forall i :: 0 <= i < |ws| ==> Clean(ws[i])
    ensures SpeakText(Join(ws)) == Join(SayAll(SayVhf, ws))
  {
    FrequenciesStayInWords();
    assert Join(ws)[0..] == Join(ws);
    if ws != [] {
      RewriteJoin(FrequencyEnd, SpellFrequency, Join(ws), 0, ws);
    }
    SpeakWordsJoin(ws);
  }
}
