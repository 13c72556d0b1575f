/** The parser normalises twice: exactly when that is the same as once. */
module FrequencyTwice {
  import opened Options
  import opened Text
  import opened Replace
  import opened TokenCollapse
  import opened FrequencyWords
  import opened FrequencySpeech
  import opened FrequencyNormaliser

  // ── Tokens that a second pass takes as they are ─────────────────────────────

  /** A word that the tokeniser does not split. */
  predicate Stays(v: Vocabulary, t: string) {
    IsWord(t) && Pushed(v, t) == [t]
  }

  predicate AllStay(v: Vocabulary, ts: seq<string>) {
    forall i :: 0 <= i < |ts| ==> Stays(v, ts[i])
  }

  predicate NoHyphenOrSpace(t: string) {
    forall i :: 0 <= i < |t| ==> t[i] != '-' && !IsSpace(t[i])
  }

  lemma WholeStays(v: Vocabulary, t: string)
    requires t != "" && NoHyphenOrSpace(t)
    ensures Stays(v, t)
  {}

  lemma {:induction false} PartsStay(v: Vocabulary, t: string, p: string)
    requires (forall i :: 0 <= i < |t| ==> !IsSpace(t[i])) && NoHyphenOrSpace(p)
    ensures AllStay(v, Parts(t, p))
    decreases |t|
  {
    if p != "" {
      WholeStays(v, p);
    }
    if t != "" {
      if t[0] == '-' {
        PartsStay(v, t[1..], "");
      } else {
        PartsStay(v, t[1..], p + [t[0]]);
      }
    }
  }

  lemma {:induction false} PushedStay(v: Vocabulary, ws: seq<string>)
    requires AllWords(ws)
    ensures AllStay(v, PushAll(v, ws))
    decreases |ws|
  {
    if ws != [] {
      PartsStay(v, ws[0], "");
      PushedStay(v, ws[1..]);
    }
  }

  lemma {:induction false} PushStaying(v: Vocabulary, ts: seq<string>)
    requires AllStay(v, ts)
    ensures PushAll(v, ts) == ts
    decreases |ts|
  {
    if ts != [] {
      PushStaying(v, ts[1..]);
    }
  }

  lemma CompactStays(v: Vocabulary, whole: seq<string>, frac: seq<string>)
    ensures Stays(v, Compact(v, whole, frac))
  {
    var w, f := Numeral(Megahertz(v, whole)), Padded(RunDigits(v, NormAll(frac)));
    var t := w + "." + f;
    assert NoHyphenOrSpace(t) by {
      assert forall i :: 0 <= i < |t| ==> IsDigit(t[i]) || t[i] == '.';
    }
    WholeStays(v, t);
  }

  lemma ReplacedStays(v: Vocabulary, out: seq<string>, rest: seq<string>)
    requires AllStay(v, out) && AllStay(v, rest)
    ensures AllStay(v, Replaced(Vhf(v), out, rest)) && AllStay(v, After(Vhf(v), rest))
  {
    CompactStays(v, Whole(Vhf(v), out), Frac(Vhf(v), rest));
  }

  lemma {:induction false} CollapseStays(v: Vocabulary, out: seq<string>, toks: seq<string>)
    requires AllStay(v, out) && AllStay(v, toks)
    ensures AllStay(v, Collapse(Vhf(v), out, toks))
    decreases |toks|
  {
    if toks != [] {
      if Vhf(v).sep(toks[0]) && Collapses(Vhf(v), out, toks[1..]) {
        ReplacedStays(v, out, toks[1..]);
        CollapseStays(v, Replaced(Vhf(v), out, toks[1..]), After(Vhf(v), toks[1..]));
      } else {
        CollapseStays(v, out + [toks[0]], toks[1..]);
      }
    }
  }

  lemma TokensOfJoin(v: Vocabulary, ts: seq<string>)
    requires AllStay(v, ts)
    ensures Tokens(v, Join(ts)) == ts
  {
    SplitJoin(ts);
    PushStaying(v, ts);
  }

  /** The tokens of any text stay, and so do those of what is made of it. */
  lemma ResultStays(v: Vocabulary, text: string)
    ensures AllStay(v, Tokens(v, text))
    ensures AllStay(v, Collapse(Vhf(v), [], Tokens(v, text)))
  {
    SplitGivesWords(text, "");
    PushedStay(v, Split(text, ""));
    CollapseStays(v, [], Tokens(v, text));
  }

  // ── When the textual repairs find nothing ───────────────────────────────────

  /** Nothing for the textual repairs to do. */
  predicate Untouched(s: string) {
    forall i :: 0 <= i <= |s| ==>
      !Occurs(s, "decimal to ", i) && !Occurs(s, "decimal too ", i) && NumericAt(s, i).None?
  }

  lemma {:induction false} ReplaceDropsLetters(s: string, from: string, to: string, i: nat)
    requires from != "" && Letters(to) < Letters(from) && Occurs(s, from, i)
    ensures Letters(ReplaceAll(s, from, to)) < Letters(s)
    decreases |s|
  {
    if s[..|from|] == from {
      LettersReplaceAll(s[|from|..], from, to);
      assert s == from + s[|from|..];
      LettersConcat(from, s[|from|..]);
      LettersConcat(to, ReplaceAll(s[|from|..], from, to));
    } else {
      assert i > 0 && s[1..][i-1..i-1 + |from|] == s[i..i + |from|];
      ReplaceDropsLetters(s[1..], from, to, i - 1);
      LettersConcat([s[0]], ReplaceAll(s[1..], from, to));
      assert s == [s[0]] + s[1..];
      LettersConcat([s[0]], s[1..]);
    }
  }

  lemma ReplaceNothing(s: string, from: string, to: string)
    requires from != "" && forall i :: 0 <= i < |s| ==> !Occurs(s, from, i)
    ensures ReplaceAll(s, from, to) == s
  {
    assert s[0..] == s && s[0..|s|] == s;
    NothingBefore(s, from, to, 0, |s|);
  }

  lemma {:induction false} NumericDropsLetters(s: string, i: nat, j: nat)
    requires i <= j <= |s| && NumericAt(s, j).Some?
    ensures Letters(NumericPass(s, i)) < Letters(s[i..])
    decreases |s| - i
  {
    if NumericAt(s, i).None? {
      NumericDropsLetters(s, i + 1, j);
      NumericKeepsOne(s, i);
    } else {
      NumericDropsHere(s, i);
    }
  }

  lemma UntouchedIsKept(s: string)
    requires Untouched(s)
    ensures PrePass(s) == s
  {
    ReplaceNothing(s, "decimal to ", "decimal 2 ");
    ReplaceNothing(s, "decimal too ", "decimal 2 ");
    assert Repaired(s) == s;
    NoMatchBefore(s, 0, |s|);
    assert s[0..|s|] == s && NumericPass(s, |s|) == "";
  }

  lemma TouchedChanges(s: string, i: nat)
    requires i <= |s|
    requires Occurs(s, "decimal to ", i) || Occurs(s, "decimal too ", i) || NumericAt(s, i).Some?
    ensures PrePass(s) != s
  {
    LettersOfTo();
    LettersOfToo();
    var one := ReplaceAll(s, "decimal to ", "decimal 2 ");
    var two := ReplaceAll(one, "decimal too ", "decimal 2 ");
    LettersReplaceAll(s, "decimal to ", "decimal 2 ");
    LettersReplaceAll(one, "decimal too ", "decimal 2 ");
    LettersNumericPass(two, 0);
    assert two[0..] == two;
    if Occurs(s, "decimal to ", i) {
      ReplaceDropsLetters(s, "decimal to ", "decimal 2 ", i);
    } else if one == s && Occurs(s, "decimal too ", i) {
      ReplaceDropsLetters(s, "decimal too ", "decimal 2 ", i);
    } else if two == s && NumericAt(s, i).Some? {
      NumericDropsLetters(s, 0, i);
    }
  }

  lemma PrePassKeepsExactlyTheUntouched(s: string)
    ensures PrePass(s) == s <==> Untouched(s)
  {
    if Untouched(s) {
      UntouchedIsKept(s);
    } else {
      var i :| 0 <= i <= |s| && (Occurs(s, "decimal to ", i) || Occurs(s, "decimal too ", i) || NumericAt(s, i).Some?);
      TouchedChanges(s, i);
    }
  }

  // ── Twice ───────────────────────────────────────────────────────────────────

  /** `parse` normalises what `preprocess` has normalised: the second pass changes a text exactly when the
      textual repairs find something to do in it. */
  lemma TwiceIsOnceExactlyWhenUntouched(v: Vocabulary, text: string)
    requires Sensible(v)
    ensures var once := Normalised(v, text);
            Normalised(v, once) == once <==> Untouched(once)
  {
    var toks := Collapse(Vhf(v), [], Tokens(v, PrePass(text)));
    var once := Join(toks);
    PrePassKeepsExactlyTheUntouched(once);
    if Untouched(once) {
      ResultStays(v, PrePass(text));
      TokensOfJoin(v, toks);
      FrequencyStageIsIdempotent(v, Tokens(v, PrePass(text)));
    } else {
      LettersPrePass(once);
      LettersNormalised(v, once);
    }
  }
}
