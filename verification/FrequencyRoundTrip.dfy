/** Frequencies spoken by the controller's voice are heard by the normaliser as they were written. */
module FrequencyRoundTrip {
  import opened Options
  import opened Text
  import opened Replace
  import opened TokenCollapse
  import opened FrequencyWords
  import opened FrequencySpeech
  import opened FrequencyNormaliser
  import opened FrequencyTwice

  // ── Texts that the textual repairs leave alone ──────────────────────────────

  predicate HasDecimal(w: string) {
    exists p: nat :: p <= |w| && DecimalAt(w, p)
  }

  predicate EndsInLetter(w: string) {
    w != "" && IsLetter(w[|w|-1])
  }

  predicate NotTo(ws: seq<string>) {
    ws != [] ==> ws[0] != "to" && ws[0] != "too"
  }

  /** "decimal" stands only as a word of its own, after a word that ends in a letter, and not before "to" or "too";
      `prev` is the word before. */
  predicate Quiet(prev: string, ws: seq<string>)
    decreases |ws|
  {
    ws != [] ==>
      && (HasDecimal(ws[0]) ==> |ws[0]| == 7 && EndsInLetter(prev) && NotTo(ws[1..]))
      && Quiet(ws[0], ws[1..])
  }

  predicate QuietAt(s: string, p: nat)
    requires p <= |s|
  {
    DecimalAt(s, p) ==>
      p >= 2 && s[p-1] == ' ' && IsLetter(s[p-2]) && !Occurs(s, " to ", p + 7) && !Occurs(s, " too ", p + 7)
  }

  lemma DecimalIsLetters(s: string, p: nat, k: nat)
    requires DecimalAt(s, p) && k < 7
    ensures IsLetter(s[p + k])
  {
    LowerAllAt(s[p..p+7], k);
    var c := LowerAll(s[p..p+7])[k];
    assert 'a' <= c <= 'z';
  }

  lemma {:induction false} GapHasNoLetter(s: string, i: nat, k: nat)
    requires i <= |s| && i <= k < SkipGap(s, i)
    ensures !IsLetter(s[k])
  {
    var j := SkipSpaces(s, i);
    if k < j {
      SpacesHaveNoLetter(s, i, k);
    } else if k > j {
      SpacesHaveNoLetter(s, j + 1, k);
    }
  }

  lemma {:induction false} SpacesHaveNoLetter(s: string, i: nat, k: nat)
    requires i <= |s| && i <= k < SkipSpaces(s, i)
    ensures !IsLetter(s[k])
    decreases |s| - i
  {
    if i < k {
      SpacesHaveNoLetter(s, i + 1, k);
    }
  }

  lemma QuietHasNoNumeric(s: string, i: nat)
    requires i <= |s| && forall p :: 0 <= p <= |s| ==> QuietAt(s, p)
    ensures NumericAt(s, i).None?
  {
    if NumericAt(s, i).Some? {
      var d := SkipGap(s, i + 3);
      assert QuietAt(s, d);
      if d - 2 >= i + 3 {
        GapHasNoLetter(s, i + 3, d - 2);
      }
      assert false;
    }
  }

  lemma OccursSplit(s: string, a: string, b: string, i: nat)
    requires Occurs(s, a + b, i)
    ensures Occurs(s, a, i) && Occurs(s, b, i + |a|)
  {
    assert s[i..i + |a|] == s[i..i + |a + b|][..|a|];
    assert s[i + |a|..i + |a| + |b|] == s[i..i + |a + b|][|a|..];
  }

  lemma QuietHasNoTo(s: string, i: nat, after: string)
    requires i <= |s| && QuietAt(s, i) && (after == " to " || after == " too ")
    ensures !Occurs(s, "decimal" + after, i)
  {
    if Occurs(s, "decimal" + after, i) {
      OccursSplit(s, "decimal", after, i);
      LowerOfDecimal();
      assert DecimalAt(s, i);
      assert false;
    }
  }

  lemma LowerOfDecimal()
    ensures LowerAll("decimal") == "decimal"
  {
    forall i | 0 <= i < 7
      ensures LowerAll("decimal")[i] == "decimal"[i]
    {
      LowerAllAt("decimal", i);
    }
  }

  lemma QuietIsUntouched(s: string)
    requires forall p :: 0 <= p <= |s| ==> QuietAt(s, p)
    ensures Untouched(s)
  {
    forall i | 0 <= i <= |s|
      ensures !Occurs(s, "decimal to ", i) && !Occurs(s, "decimal too ", i) && NumericAt(s, i).None?
    {
      QuietHasNoNumeric(s, i);
      QuietHasNoTo(s, i, " to ");
      QuietHasNoTo(s, i, " too ");
      assert "decimal" + " to " == "decimal to " && "decimal" + " too " == "decimal too ";
    }
  }

  // ── From words to characters ────────────────────────────────────────────────

  /** `prev` ends just before the space before `off`, or nothing is before `off`. */
  predicate Follows(s: string, off: nat, prev: string) {
    off <= |s| &&
    if off == 0 then prev == "" else s[off-1] == ' ' && off > |prev| && s[off-1-|prev|..off-1] == prev
  }

  /** A word at `off` that contains "decimal" at `p`. */
  lemma DecimalInWord(s: string, off: nat, w: string, p: nat)
    requires StandsAt(s, off, w) && off <= p < off + |w| && DecimalAt(s, p)
    ensures p + 7 <= off + |w| && DecimalAt(w, p - off)
  {
    if off + |w| < p + 7 {
      DecimalIsLetters(s, p, off + |w| - p);
      assert false;
    }
    assert s[p..p+7] == w[p - off..p - off + 7] by {
      assert s[off..off + |w|] == w;
      assert s[off..off + |w|][p - off..p - off + 7] == s[p..p+7];
    }
  }

  lemma WordBefore(s: string, off: nat, prev: string)
    requires Follows(s, off, prev) && EndsInLetter(prev)
    ensures off >= 2 && s[off-1] == ' ' && IsLetter(s[off-2])
  {
    assert s[off-1-|prev|..off-1][|prev|-1] == s[off-2];
  }

  lemma SameLength(t: string, w: string, x: string)
    requires |w| <= |t| && |x| < |t| && (forall i :: 0 <= i < |w| ==> t[i] == w[i]) && t[..|x|] == x
    requires (forall i :: 0 <= i < |w| ==> !IsSpace(w[i])) && (forall i :: 0 <= i < |x| ==> !IsSpace(x[i]))
    requires IsSpace(t[|x|]) && (|w| == |t| || IsSpace(t[|w|]))
    ensures |w| == |x|
  {
    assert forall i :: 0 <= i < |x| ==> t[i] == x[i] by {
      assert forall i :: 0 <= i < |x| ==> t[..|x|][i] == t[i];
    }
  }

  /** A short word between spaces is the next word. */
  lemma NextWord(s: string, off: nat, x: string, ws: seq<string>)
    requires off <= |s| && s[off..] == Join(ws) && AllWords(ws)
    requires Occurs(s, x + " ", off) && forall i :: 0 <= i < |x| ==> !IsSpace(x[i])
    ensures ws != [] && ws[0] == x
  {
    OccursSplit(s, x, " ", off);
    assert s[off..][..|x|] == s[off..off + |x|] == x;
    assert s[off..][|x|] == s[off + |x|] == s[off + |x|..off + |x| + 1][0] == ' ';
    var w := ws[0];
    assert Join(ws) == w + if |ws| == 1 then "" else " " + Join(ws[1..]);
    assert forall i :: 0 <= i < |w| ==> s[off..][i] == w[i];
    SameLength(s[off..], w, x);
    assert w == s[off..][..|w|];
  }

  lemma NoToNext(s: string, off: nat, ws: seq<string>)
    requires off < |s| && s[off] == ' ' && s[off+1..] == Join(ws) && AllWords(ws) && NotTo(ws)
    ensures !Occurs(s, " to ", off) && !Occurs(s, " too ", off)
  {
    assert " " + ("to" + " ") == " to " && " " + ("too" + " ") == " too ";
    if Occurs(s, " to ", off) {
      OccursSplit(s, " ", "to" + " ", off);
      NextWord(s, off + 1, "to", ws);
    }
    if Occurs(s, " too ", off) {
      OccursSplit(s, " ", "too" + " ", off);
      NextWord(s, off + 1, "too", ws);
    }
  }

  lemma DecimalIsFirst(s: string, off: nat, prev: string, ws: seq<string>, p: nat)
    requires ws != [] && Quiet(prev, ws) && StandsAt(s, off, ws[0]) && off <= p < off + |ws[0]| && DecimalAt(s, p)
    ensures p == off && |ws[0]| == 7 && EndsInLetter(prev) && NotTo(ws[1..])
  {
    DecimalInWord(s, off, ws[0], p);
    assert HasDecimal(ws[0]);
  }

  /** Inside the first word. */
  lemma QuietFirst(s: string, off: nat, prev: string, ws: seq<string>, p: nat)
    requires ws != [] && AllWords(ws) && Quiet(prev, ws)
    requires Follows(s, off, prev) && StandsAt(s, off, ws[0]) && off <= p < off + |ws[0]|
    requires |ws| > 1 ==> off + |ws[0]| < |s| && s[off + |ws[0]| + 1..] == Join(ws[1..])
    requires |ws| == 1 ==> off + |ws[0]| == |s|
    ensures QuietAt(s, p)
  {
    if DecimalAt(s, p) {
      DecimalIsFirst(s, off, prev, ws, p);
      WordBefore(s, off, prev);
      var more := ws[1..];
      if more != [] {
        NoToNext(s, off + 7, more);
      }
    }
  }

  lemma {:induction false} QuietJoin(s: string, off: nat, prev: string, ws: seq<string>, p: nat)
    requires ws != [] && AllWords(ws) && Quiet(prev, ws)
    requires Follows(s, off, prev) && s[off..] == Join(ws) && off <= p <= |s|
    ensures QuietAt(s, p)
    decreases |ws|
  {
    var w, n := ws[0], off + |ws[0]|;
    if |ws| == 1 {
      assert w + "" == w;
      StandsFirst(s, off, w, "");
      if p < n {
        QuietFirst(s, off, prev, ws, p);
      }
    } else {
      var rest := " " + Join(ws[1..]);
      assert Join(ws) == w + rest;
      StandsFirst(s, off, w, rest);
      assert s[n] == s[n..][0] == ' ' && s[n+1..] == s[n..][1..] == Join(ws[1..]);
      if p < n {
        QuietFirst(s, off, prev, ws, p);
      } else if p == n {
        if DecimalAt(s, p) {
          DecimalIsLetters(s, p, 0);
          assert false;
        }
      } else {
        assert s[n-|w|..n] == w by {
          assert forall k :: 0 <= k < |w| ==> s[off + k] == w[k];
        }
        QuietJoin(s, n + 1, w, ws[1..], p);
      }
    }
  }

  lemma QuietWordsUntouched(ws: seq<string>)
    requires AllWords(ws) && Quiet("", ws)
    ensures Untouched(Join(ws))
  {
    var s := Join(ws);
    assert s[0..] == s;
    forall p | 0 <= p <= |s|
      ensures QuietAt(s, p)
    {
      if ws != [] {
        QuietJoin(s, 0, "", ws, p);
      }
    }
    QuietIsUntouched(s);
  }

  // ── Speaking keeps a text quiet ─────────────────────────────────────────────

  lemma SpelledWord(d: nat, prev: string, ws: seq<string>)
    requires d < 10 && Quiet(DigitWord(d), ws)
    ensures Quiet(prev, [DigitWord(d)] + ws)
  {
    DigitWordLetters(d);
    assert ([DigitWord(d)] + ws)[1..] == ws;
  }

  lemma QuietAfter(p: string, q: string, ws: seq<string>)
    requires Quiet(p, ws) && (EndsInLetter(p) ==> EndsInLetter(q))
    ensures Quiet(q, ws)
  {}

  /** Spelled digits are quiet before anything that is quiet after a letter. */
  lemma {:induction false} QuietSpelled(prev: string, s: string, ws: seq<string>)
    requires AllDigits(s) && s != "" && Quiet("a", ws)
    ensures Quiet(prev, SpellWords(s) + ws)
    decreases |s|
  {
    var init, d := s[..|s|-1], DigitValue(s[|s|-1]);
    DigitWordLetters(d);
    QuietAfter("a", DigitWord(d), ws);
    SpelledWord(d, prev, ws);
    SpelledWord(d, "a", ws);
    if init == "" {
      assert SpellWords(s) + ws == [DigitWord(d)] + ws;
    } else {
      QuietSpelled(prev, init, [DigitWord(d)] + ws);
      assert SpellWords(s) + ws == SpellWords(init) + ([DigitWord(d)] + ws);
    }
  }

  lemma {:induction false} SpelledStart(s: string)
    requires AllDigits(s) && s != ""
    ensures NotTo(SpellWords(s))
    decreases |s|
  {
    var init := s[..|s|-1];
    if init != "" {
      SpelledStart(init);
    }
  }

  /** No digit word holds "decimal", whatever punctuation follows. */
  lemma MarkedHasNoDecimal(d: nat, p: string)
    requires d < 10 && Punctuation(p)
    ensures !HasDecimal(DigitWord(d) + p)
  {
    var w := DigitWord(d) + p;
    DigitWordLetters(d);
    assert forall i :: 5 <= i < |w| ==> w[i] == p[i - |DigitWord(d)|];
    if HasDecimal(w) {
      var k: nat :| k <= |w| && DecimalAt(w, k);
      DecimalIsLetters(w, k, 6);
    }
  }

  /** The last word of a frequency as it is said. */
  function LastSaid(f: string, p: string): string
    requires AllDigits(f) && f != ""
  {
    DigitWord(DigitValue(f[|f|-1])) + p
  }

  /** The last digit carries the punctuation. */
  lemma QuietMarked(f: string, p: string, ws: seq<string>)
    requires AllDigits(f) && |f| > 1 && Punctuation(p) && Quiet(LastSaid(f, p), ws)
    ensures Quiet("decimal", Marked(SpellWords(f), p) + ws) && NotTo(Marked(SpellWords(f), p) + ws)
  {
    var init, tail := f[..|f|-1], [LastSaid(f, p)] + ws;
    MarkedHasNoDecimal(DigitValue(f[|f|-1]), p);
    assert tail[1..] == ws && Quiet("a", tail);
    QuietSpelled("decimal", init, tail);
    SpelledStart(init);
    assert Marked(SpellWords(f), p) + ws == SpellWords(init) + tail;
  }

  lemma QuietSpokenFrequency(prev: string, w: string, f: string, p: string, ws: seq<string>)
    requires AllDigits(w) && AllDigits(f) && w != "" && |f| > 1 && Punctuation(p) && Quiet(LastSaid(f, p), ws)
    ensures Quiet(prev, SpellWords(w) + ["decimal"] + Marked(SpellWords(f), p) + ws)
    ensures NotTo(SpellWords(w) + ["decimal"] + Marked(SpellWords(f), p) + ws)
  {
    var tail := Marked(SpellWords(f), p) + ws;
    QuietMarked(f, p, ws);
    assert (["decimal"] + tail)[1..] == tail;
    assert Quiet("a", ["decimal"] + tail);
    QuietSpelled(prev, w, ["decimal"] + tail);
    SpelledStart(w);
    Regrouped(SpellWords(w), "decimal", Marked(SpellWords(f), p), ws);
  }

  lemma Regrouped(a: seq<string>, x: string, b: seq<string>, c: seq<string>)
    ensures a + [x] + b + c == a + ([x] + (b + c))
  {}

  lemma NotToSaid(ws: seq<string>)
    requires NotTo(ws)
    ensures NotTo(SayAll(SayVhf, ws))
  {
    if ws != [] && VhfWord(ws[0]) {
      VhfParts(ws[0]);
      SpelledStart(ws[0][..3]);
    }
  }

  lemma VhfStartsInDigit(w: string)
    requires VhfWord(w)
    ensures IsDigit(w[0])
  {
    assert w[0] == w[..7][..3][0];
  }

  lemma VhfHasNoLetter(w: string, k: nat)
    requires VhfWord(w) && k < |w|
    ensures !IsLetter(w[k])
  {
    VhfParts(w);
    assert w[k] == if k < 3 then w[..3][k] else if k == 3 then '.' else if k < 7 then w[4..7][k-4] else w[7..][k-7];
  }

  lemma VhfHasNoDecimal(w: string)
    requires VhfWord(w)
    ensures !HasDecimal(w) && !EndsInLetter(w)
  {
    VhfHasNoLetter(w, |w| - 1);
    if HasDecimal(w) {
      var p: nat :| p <= |w| && DecimalAt(w, p);
      VhfHasNoLetter(w, p);
      DecimalIsLetters(w, p, 0);
    }
  }

  lemma {:induction false} QuietSaid(prev: string, q: string, ws: seq<string>)
    requires Quiet(prev, ws) && (EndsInLetter(prev) ==> EndsInLetter(q))
    ensures Quiet(q, SayAll(SayVhf, ws))
    decreases |ws|
  {
    if ws != [] {
      var w, more := ws[0], SayAll(SayVhf, ws[1..]);
      if VhfWord(w) {
        VhfHasNoDecimal(w);
        QuietSaid(w, LastSaid(w[4..7], w[7..]), ws[1..]);
        QuietSpokenFrequency(q, w[..3], w[4..7], w[7..], more);
      } else {
        QuietSaid(w, w, ws[1..]);
        if HasDecimal(w) {
          NotToSaid(ws[1..]);
        }
        assert SayAll(SayVhf, ws) == [w] + more && ([w] + more)[1..] == more;
      }
    }
  }

  // ── Tokens of spoken text ───────────────────────────────────────────────────

  lemma {:induction false} SpelledStay(v: Vocabulary, s: string)
    requires AllDigits(s)
    ensures AllStay(v, SpellWords(s))
    decreases |s|
  {
    if s != "" {
      var d := DigitValue(s[|s|-1]);
      SpelledStay(v, s[..|s|-1]);
      DigitWordLetters(d);
      WholeStays(v, DigitWord(d));
    }
  }

  lemma SaidStays(v: Vocabulary, w: string)
    requires VhfWord(w)
    ensures AllStay(v, Say(SayVhf, w)) && Pushed(v, w) == [w] && IsWord(w)
  {
    VhfParts(w);
    SpelledStay(v, w[..3]);
    SpelledStay(v, w[4..7]);
    WholeStays(v, "decimal");
    MarkedStays(v, w[4..7], w[7..]);
    assert NoHyphenOrSpace(w) by {
      assert forall i :: 0 <= i < 3 ==> w[i] == w[..3][i];
      assert forall i :: 4 <= i < 7 ==> w[i] == w[4..7][i-4];
      assert forall i :: 7 <= i < |w| ==> w[i] == w[7..][i-7];
    }
    WholeStays(v, w);
  }

  lemma MarkedStays(v: Vocabulary, f: string, p: string)
    requires AllDigits(f) && f != "" && Punctuation(p) && AllStay(v, SpellWords(f))
    ensures AllStay(v, Marked(SpellWords(f), p))
  {
    DigitWordLetters(DigitValue(f[|f|-1]));
    WholeStays(v, LastSaid(f, p));
  }

  lemma {:induction false} SaidWords(v: Vocabulary, ws: seq<string>)
    requires AllWords(ws)
    ensures AllWords(SayAll(SayVhf, ws))
    decreases |ws|
  {
    if ws != [] {
      SaidWords(v, ws[1..]);
      if VhfWord(ws[0]) {
        SaidStays(v, ws[0]);
      }
    }
  }

  lemma {:induction false} SayConcat(say: Speech<string>, a: seq<string>, b: seq<string>)
    ensures SayAll(say, a + b) == SayAll(say, a) + SayAll(say, b)
    decreases |a|
  {
    if a == [] {
      assert a + b == b;
    } else {
      assert (a + b)[1..] == a[1..] + b;
      SayConcat(say, a[1..], b);
    }
  }

  lemma SayOne(say: Speech<string>, w: string)
    ensures SayAll(say, [w]) == Say(say, w)
  {
    assert [w][1..] == [];
  }

  /** A word that is no frequency is not split into frequencies. */
  lemma PushedSaysNothing(v: Vocabulary, w: string)
    requires Sensible(v) && !VhfWord(w)
    ensures forall i :: 0 <= i < |Pushed(v, w)| ==> !VhfWord(Pushed(v, w)[i])
  {
    VhfSpeechIsFaithful(v);
  }

  /** Splitting at hyphens leaves alone what is said for a word, and what is written for it. */
  lemma SayPushed(v: Vocabulary, w: string)
    requires Sensible(v)
    ensures PushAll(v, Say(SayVhf, w)) == SayAll(SayVhf, Pushed(v, w))
    ensures Pushed(v, Bare(w)) == SayAll(Plainly(Vhf(v), SayVhf), Pushed(v, w))
  {
    var plainly := Plainly(Vhf(v), SayVhf);
    SayOne(SayVhf, w);
    SayOne(plainly, w);
    if VhfWord(w) {
      SaidStays(v, w);
      PushStaying(v, Say(SayVhf, w));
      VhfWritten(v, w, SayVhf(w).value);
      BareIsVhf(w);
      SaidStays(v, Bare(w));
    } else {
      assert [w][1..] == [] && PushAll(v, [w]) == Pushed(v, w);
      PushedSaysNothing(v, w);
      SayNothing(SayVhf, Pushed(v, w));
      SayNothing(plainly, Pushed(v, w));
    }
  }

  lemma BareIsVhf(w: string)
    requires VhfWord(w)
    ensures VhfWord(Bare(w)) && !HasDecimal(Bare(w)) && !EndsInLetter(Bare(w))
  {
    var t := w[..7];
    VhfParts(w);
    assert t[..7] == t && t[7..] == "";
    VhfHasNoDecimal(t);
  }

  /** The words with the frequencies written bare. */
  function BareAll(ws: seq<string>): (r: seq<string>)
    ensures |r| == |ws| && forall i :: 0 <= i < |ws| ==> r[i] == Bare(ws[i])
  {
    if ws == [] then [] else [Bare(ws[0])] + BareAll(ws[1..])
  }

  /** Speaking and splitting at hyphens do not interfere. */
  lemma {:induction false} PushSaid(v: Vocabulary, ws: seq<string>)
    requires Sensible(v)
    ensures PushAll(v, SayAll(SayVhf, ws)) == SayAll(SayVhf, PushAll(v, ws))
    ensures PushAll(v, BareAll(ws)) == SayAll(Plainly(Vhf(v), SayVhf), PushAll(v, ws))
    decreases |ws|
  {
    if ws != [] {
      PushSaid(v, ws[1..]);
      SayPushed(v, ws[0]);
      PushConcat(v, Say(SayVhf, ws[0]), SayAll(SayVhf, ws[1..]));
      SayConcat(SayVhf, Pushed(v, ws[0]), PushAll(v, ws[1..]));
      SayConcat(Plainly(Vhf(v), SayVhf), Pushed(v, ws[0]), PushAll(v, ws[1..]));
    }
  }

  lemma {:induction false} QuietBare(prev: string, q: string, ws: seq<string>)
    requires Quiet(prev, ws) && (EndsInLetter(prev) ==> EndsInLetter(q))
    ensures Quiet(q, BareAll(ws))
    decreases |ws|
  {
    if ws != [] {
      var w, more := ws[0], BareAll(ws[1..]);
      if VhfWord(w) {
        BareIsVhf(w);
        VhfHasNoDecimal(w);
      }
      QuietBare(w, Bare(w), ws[1..]);
      assert BareAll(ws)[1..] == more;
    }
  }

  lemma BareWords(v: Vocabulary, ws: seq<string>)
    requires AllWords(ws)
    ensures AllWords(BareAll(ws))
    ensures AllStay(v, ws) ==> AllStay(v, BareAll(ws))
  {
    forall i | 0 <= i < |ws|
      ensures IsWord(Bare(ws[i])) && (Stays(v, ws[i]) ==> Stays(v, Bare(ws[i])))
    {
      if VhfWord(ws[i]) {
        BareIsVhf(ws[i]);
        SaidStays(v, Bare(ws[i]));
      }
    }
  }

  // ── The round trip ──────────────────────────────────────────────────────────

  lemma VhfSpeechFits(v: Vocabulary)
    requires Sensible(v)
    ensures Fitting(Vhf(v), SayVhf)
  {
    forall t: string | VhfWord(t)
      ensures Fits(v, SpellWords(t[..3])) && Fits(v, Marked(SpellWords(t[4..7]), t[7..]))
    {
      VhfParts(t);
      ThreeDigitsFit(v, t[..3], "");
      MarkedNothing(SpellWords(t[..3]));
      ThreeDigitsFit(v, t[4..7], t[7..]);
    }
  }

  lemma ThreeDigitsFit(v: Vocabulary, s: string, p: string)
    requires Sensible(v) && AllDigits(s) && |s| == 3 && Punctuation(p)
    ensures Fits(v, Marked(SpellWords(s), p))
  {
    SpelledReads(v, s);
    MarkedReads(SpellWords(s), p);
    ThreeDigitValue(s);
  }

  /** The words of a text in which every frequency can be told from its neighbours. */
  ghost predicate Speakable(v: Vocabulary, ws: seq<string>) {
    && AllWords(ws) && (forall i :: 0 <= i < |ws| ==> Clean(ws[i]))
    && Quiet("", ws) && Delimited(Vhf(v), SayVhf, PushAll(v, ws))
  }

  /** The tokens of a text, of what is spoken for it, and of it with bare frequencies. */
  lemma SpeakableTokens(v: Vocabulary, ws: seq<string>)
    requires Sensible(v) && Speakable(v, ws)
    ensures Tokens(v, PrePass(SpeakText(Join(ws)))) == SayAll(SayVhf, PushAll(v, ws))
    ensures Tokens(v, PrePass(Join(BareAll(ws)))) == SayAll(Plainly(Vhf(v), SayVhf), PushAll(v, ws))
  {
    var said, bare := SayAll(SayVhf, ws), BareAll(ws);
    SpeakTextOfWords(ws);
    SaidWords(v, ws);
    BareWords(v, ws);
    QuietSaid("", "", ws);
    QuietBare("", "", ws);
    QuietWordsUntouched(said);
    QuietWordsUntouched(bare);
    UntouchedIsKept(Join(said));
    UntouchedIsKept(Join(bare));
    SplitJoin(said);
    SplitJoin(bare);
    PushSaid(v, ws);
  }

  /** Normalising what is spoken gives what normalising the written text gives, the punctuation after a frequency
      dropped. */
  lemma SpeechIsHeard(v: Vocabulary, ws: seq<string>)
    requires Sensible(v) && Speakable(v, ws)
    ensures Normalised(v, SpeakText(Join(ws))) == Normalised(v, Join(BareAll(ws)))
    ensures Overflows(v, SpeakText(Join(ws))) == Overflows(v, Join(BareAll(ws)))
  {
    SpeakableTokens(v, ws);
    VhfIsLawful(v);
    VhfSpeechIsFaithful(v);
    VhfSpeechFits(v);
    SpeakingIsHeard(Vhf(v), SayVhf, [], PushAll(v, ws));
    SpeakingThrowsNothing(Vhf(v), SayVhf, [], PushAll(v, ws));
  }

  /** A text without spoken frequencies comes back word for word. */
  lemma SpokenTextComesBack(v: Vocabulary, ws: seq<string>)
    requires Sensible(v) && Speakable(v, ws)
    requires AllStay(v, ws) && NormalForm(Vhf(v), BareAll(ws))
    ensures Normalised(v, SpeakText(Join(ws))) == Join(BareAll(ws))
  {
    var bare := BareAll(ws);
    SpeechIsHeard(v, ws);
    BareWords(v, ws);
    QuietBare("", "", ws);
    QuietWordsUntouched(bare);
    UntouchedIsKept(Join(bare));
    TokensOfJoin(v, bare);
    assert [] + bare == bare;
    NormalFormIsKept(Vhf(v), [], bare);
  }

  // ── A text on which the second pass is needed, and changes the result ───────

  const WRITTEN: seq<string> := ["125.130", "decimal", "6"]
  const SPOKEN: seq<string> := ["one", "two", "five", "decimal", "one", "three", "zero", "decimal", "6"]

  lemma SpellThree(a: char, b: char, c: char)
    requires IsDigit(a) && IsDigit(b) && IsDigit(c)
    ensures SpellWords([a, b, c]) == [DigitWord(DigitValue(a)), DigitWord(DigitValue(b)), DigitWord(DigitValue(c))]
  {
    assert [a, b, c][..2] == [a, b] && [a, b][..1] == [a] && [a][..0] == "";
    assert SpellWords([a]) == [DigitWord(DigitValue(a))];
    assert SpellWords([a, b]) == SpellWords([a]) + [DigitWord(DigitValue(b))];
  }

  lemma WrittenIsVhf()
    ensures IsVhf("125.130") && VhfWord("125.130") && Bare("125.130") == "125.130"
  {
    var t := "125.130";
    assert t[..3] == "125" && t[4..] == "130";
    ThreeDigitValue("125");
    assert t[..7] == t && t[7..] == "";
  }

  lemma MarkedNothing(ws: seq<string>)
    requires ws != []
    ensures Marked(ws, "") == ws
  {
    assert ws[|ws|-1] + "" == ws[|ws|-1];
  }

  lemma SpokenWords()
    ensures SPOKEN == SpellWords("125") + ["decimal"] + SpellWords("130") + ["decimal", "6"]
  {
    SpellThree('1', '2', '5');
    SpellThree('1', '3', '0');
  }

  lemma WrittenIsSaid()
    ensures SayVhf("125.130") == Some(Frequency(SpellWords("125"), "decimal", SpellWords("130")))
  {
    var t := "125.130";
    WrittenIsVhf();
    assert t[..3] == "125" && t[4..7] == "130" && t[7..] == "";
    MarkedNothing(SpellWords("130"));
  }

  lemma SaidAlone(v: Vocabulary, t: string, p: Piece<string>, rest: seq<string>)
    requires Sensible(v) && SayVhf(t) == Some(p) && |t| == 7
    requires forall i :: 0 <= i < |rest| ==> SayVhf(rest[i]).None?
    ensures SayAll(SayVhf, [t] + rest) == Source(p) + rest
    ensures SayAll(Plainly(Vhf(v), SayVhf), [t] + rest) == [t] + rest
  {
    assert t == t[..7];
    VhfWritten(v, t, p);
    SaidFirst(Vhf(v), SayVhf, t, p, rest);
  }

  lemma SaidBare(v: Vocabulary, t: string, w: string, f: string, rest: seq<string>)
    requires Sensible(v) && AllDigits(w) && AllDigits(f) && |t| == 7
    requires SayVhf(t) == Some(Frequency(SpellWords(w), "decimal", SpellWords(f)))
    requires forall i :: 0 <= i < |rest| ==> SayVhf(rest[i]).None?
    ensures SayAll(SayVhf, [t] + rest) == SpellWords(w) + ["decimal"] + SpellWords(f) + rest
    ensures SayAll(Plainly(Vhf(v), SayVhf), [t] + rest) == [t] + rest
  {
    SaidAlone(v, t, Frequency(SpellWords(w), "decimal", SpellWords(f)), rest);
  }

  lemma WrittenAlone(rest: seq<string>)
    requires rest == ["decimal", "6"]
    ensures forall i :: 0 <= i < |rest| ==> SayVhf(rest[i]).None?
  {
    NotVhf("decimal");
    NotVhf("6");
  }

  lemma SpokenOfWritten(v: Vocabulary, rest: seq<string>)
    requires Sensible(v) && rest == ["decimal", "6"]
    ensures SayAll(SayVhf, ["125.130"] + rest) == SPOKEN
    ensures SayAll(Plainly(Vhf(v), SayVhf), ["125.130"] + rest) == ["125.130"] + rest
  {
    WrittenAlone(rest);
    WrittenIsSaid();
    SaidBare(v, "125.130", "125", "130", rest);
    SpokenWords();
  }

  lemma SpokenIsQuiet()
    ensures Quiet("", SPOKEN)
  {
    var rest := ["decimal", "6"];
    assert LastSaid("130", "") == "zero" && rest[1..] == ["6"] && ["6"][1..] == [];
    QuietSpokenFrequency("", "125", "130", "", rest);
    SpokenWords();
    MarkedNothing(SpellWords("130"));
  }

  lemma OneSpace(s: string, i: nat)
    requires i + 1 < |s| && s[i] == ' ' && !IsSpace(s[i+1])
    ensures SkipSpaces(s, i) == i + 1
  {
    assert SkipSpaces(s, i + 1) == i + 1;
  }

  lemma NumericWithSpaces(s: string, i: nat)
    requires i + 12 < |s| && Boundary(s, i) && BandDigits(s, i)
    requires s[i+3] == ' ' && s[i+4..i+11] == "decimal" && s[i+11] == ' ' && IsDigit(s[i+12])
    ensures NumericAt(s, i).Some?
  {
    LowerOfDecimal();
    assert s[i+4] == s[i+4..i+11][0] == 'd';
    OneSpace(s, i + 3);
    OneSpace(s, i + 11);
    assert SkipGap(s, i + 3) == i + 4;
  }

  lemma WrittenIsTouched()
    ensures !Untouched(Join(WRITTEN))
  {
    var s := "125.130 decimal 6";
    assert WRITTEN[1..] == ["decimal", "6"] && ["decimal", "6"][1..] == ["6"];
    assert Join(WRITTEN) == s;
    NumericWithSpaces(s, 4);
  }

  /** A separator after an opaque token collapses nothing. */
  lemma OpaqueSeparatorOther<T(!new)>(lex: Lexicon<T>, say: Speech<T>, a: T, b: T, c: T)
    requires Lawful(lex) && !lex.num(a) && !lex.sep(a) && lex.sep(b) && say(b).None? && say(c).None?
    ensures Collapse(lex, [], [a, b, c]) == [a, b, c] && Delimited(lex, say, [a, b, c])
  {
    CollapseStep(lex, [], a, [b, c]);
    CollapseStep(lex, [a], b, [c]);
    CollapseStep(lex, [a, b], c, []);
    NoTrail(lex, [], a);
    NoTrail(lex, [a], b);
    Singletons(a, b, c);
  }

  lemma NoTrail<T>(lex: Lexicon<T>, s: seq<T>, t: T)
    requires !lex.num(t)
    ensures Trail(lex, s + [t]) == 0
  {}

  lemma Singletons<T>(a: T, b: T, c: T)
    ensures [a] + [b, c] == [a, b, c] && [b] + [c] == [b, c] && [c] + [] == [c]
    ensures [] + [a] == [a] && [a] + [b] == [a, b] && [a, b] + [c] == [a, b, c]
  {}

  lemma NotVhf(t: string)
    requires |t| < 7 || !IsDigit(t[0])
    ensures SayVhf(t) == None
  {
    if VhfWord(t) {
      VhfStartsInDigit(t);
    }
  }

  lemma OpaqueVhf(v: Vocabulary, t: string)
    requires Sensible(v) && VhfWord(t)
    ensures !Vhf(v).num(t) && !Vhf(v).sep(t)
  {
    VhfWritten(v, t, SayVhf(t).value);
  }

  lemma WrittenIsOpaque(v: Vocabulary)
    requires Sensible(v)
    ensures !Vhf(v).num("125.130") && !Vhf(v).sep("125.130")
    ensures Vhf(v).sep("decimal") && SayVhf("decimal") == SayVhf("6") == None
  {
    WrittenIsVhf();
    OpaqueVhf(v, "125.130");
    DecimalSeparates(v);
    NotVhf("decimal");
    NotVhf("6");
  }

  lemma WrittenCollapsesToItself(v: Vocabulary)
    requires Sensible(v) && Lawful(Vhf(v))
    ensures Collapse(Vhf(v), [], WRITTEN) == WRITTEN
    ensures Delimited(Vhf(v), SayVhf, WRITTEN)
  {
    WrittenIsOpaque(v);
    OpaqueSeparatorOther(Vhf(v), SayVhf, "125.130", "decimal", "6");
  }

  lemma SpokenStays(v: Vocabulary)
    ensures AllStay(v, SPOKEN)
  {
    forall i | 0 <= i < |SPOKEN|
      ensures Stays(v, SPOKEN[i])
    {
      WholeStays(v, SPOKEN[i]);
    }
  }

  /** "one two five decimal one three zero decimal 6" becomes "125.130 decimal 6", which changes again. */
  lemma NormalisingTwiceCanDiffer()
    ensures var once := Normalised(English(), Join(SPOKEN));
            once == Join(WRITTEN) && Normalised(English(), once) != once
  {
    var v := English();
    EnglishIsSensible();
    SpokenOfWritten(v, WRITTEN[1..]);
    HeadAndTail(WRITTEN);
    SpokenIsQuiet();
    SpokenStays(v);
    QuietWordsUntouched(SPOKEN);
    UntouchedIsKept(Join(SPOKEN));
    TokensOfJoin(v, SPOKEN);
    VhfIsLawful(v);
    VhfSpeechIsFaithful(v);
    WrittenCollapsesToItself(v);
    SpeakingIsHeard(Vhf(v), SayVhf, [], WRITTEN);
    WrittenIsTouched();
    TwiceIsOnceExactlyWhenUntouched(v, Join(SPOKEN));
  }
}
