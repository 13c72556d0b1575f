/** `normalize_spoken_frequency` on whole texts: two textual repairs, the tokens, the collapse. */
module FrequencyNormaliser {
  import opened Options
  import opened Text
  import opened Replace
  import opened TokenCollapse
  import opened FrequencyWords
  import opened FrequencySpeech

  // ── "decimal to" is "decimal two" ───────────────────────────────────────────

  function Repaired(s: string): string {
    ReplaceAll(ReplaceAll(s, "decimal to ", "decimal 2 "), "decimal too ", "decimal 2 ")
  }

  // ── "125, decimal 155" ──────────────────────────────────────────────────────

  /** The end of the white space at `i`. */
  function SkipSpaces(s: string, i: nat): (j: nat)
    requires i <= |s|
    ensures i <= j <= |s|
    decreases |s| - i
  {
    if i == |s| || !IsSpace(s[i]) then i else SkipSpaces(s, i + 1)
  }

  /** Space, at most one comma or dot, space. */
  function SkipGap(s: string, i: nat): (j: nat)
    requires i <= |s|
    ensures i <= j <= |s|
  {
    var j := SkipSpaces(s, i);
    if j < |s| && (s[j] == ',' || s[j] == '.') then SkipSpaces(s, j + 1) else j
  }

  predicate DecimalAt(s: string, i: nat) {
    i + 7 <= |s| && LowerAll(s[i..i+7]) == "decimal"
  }

  /** The end of at most `n` more digits, each with space before it. */
  function MoreDigits(s: string, i: nat, n: nat): (e: nat)
    requires i <= |s|
    ensures i <= e <= |s|
    decreases n
  {
    var j := SkipSpaces(s, i);
    if n > 0 && j < |s| && IsDigit(s[j]) then MoreDigits(s, j + 1, n - 1) else i
  }

  predicate BandDigits(s: string, i: nat) {
    i + 3 <= |s| && s[i] == '1' && '0' <= s[i+1] <= '3' && IsDigit(s[i+2])
  }

  predicate Boundary(s: string, i: nat)
    requires i <= |s|
  {
    i == 0 || !(IsAlnum(s[i-1]) || s[i-1] == '_')
  }

  /** Where the decimals of the number that starts at `i` are, when there is one. */
  function NumericAt(s: string, i: nat): (r: Option<(nat, nat)>)
    requires i <= |s|
    ensures r.Some? ==> i + 10 <= r.value.0 < r.value.1 <= |s|
  {
    if !Boundary(s, i) || !BandDigits(s, i) then None
    else
      var d := SkipGap(s, i + 3);
      if !DecimalAt(s, d) then None
      else
        var k := SkipSpaces(s, d + 7);
        if k < |s| && IsDigit(s[k]) then Some((k, MoreDigits(s, k + 1, 2))) else None
  }

  function NumericText(s: string, i: nat, r: (nat, nat)): string
    requires i + 3 <= r.0 <= r.1 <= |s|
  {
    s[i..i+3] + "." + Padded(DigitsIn(s[r.0..r.1]))
  }

  /** The search goes on in what follows a match, as in a text of its own. */
  function NumericPass(s: string, i: nat): string
    requires i <= |s|
    decreases |s| - i
  {
    if i == |s| then ""
    else match NumericAt(s, i)
      case None => [s[i]] + NumericPass(s, i + 1)
      case Some(r) => NumericText(s, i, r) + NumericPass(s[r.1..], 0)
  }

  function PrePass(s: string): string {
    NumericPass(Repaired(s), 0)
  }

  // ── Tokens ──────────────────────────────────────────────────────────────────

  /** The non-empty parts between hyphens; `p` is the part being read. */
  function Parts(t: string, p: string): seq<string> {
    if t == "" then Emit(p)
    else if t[0] == '-' then Emit(p) + Parts(t[1..], "")
    else Parts(t[1..], p + [t[0]])
  }

  predicate Splittable(v: Vocabulary, parts: seq<string>) {
    |parts| > 1 && forall i :: 0 <= i < |parts| ==> Num(v, parts[i]) || Sep(v, parts[i])
  }

  /** A hyphenated word is split only when every part is a number word or a separator. */
  function Pushed(v: Vocabulary, t: string): seq<string> {
    if '-' in t && Splittable(v, Parts(t, "")) then Parts(t, "") else [t]
  }

  function PushAll(v: Vocabulary, ws: seq<string>): seq<string> {
    if ws == [] then [] else Pushed(v, ws[0]) + PushAll(v, ws[1..])
  }

  function Tokens(v: Vocabulary, text: string): seq<string> {
    PushAll(v, Split(text, ""))
  }

  // ── The whole function ──────────────────────────────────────────────────────

  /** A run that is read leaves the range of an `int`. */
  predicate Overflows(v: Vocabulary, text: string) {
    Throws(Vhf(v), [], Tokens(v, PrePass(text)))
  }

  function Normalised(v: Vocabulary, text: string): string {
    Join(Collapse(Vhf(v), [], Tokens(v, PrePass(text))))
  }

  // ── The loops ───────────────────────────────────────────────────────────────

  lemma {:induction false} NoMatchBefore(s: string, i: nat, j: nat)
    requires i <= j <= |s| && forall k :: i <= k < j ==> NumericAt(s, k).None?
    ensures NumericPass(s, i) == s[i..j] + NumericPass(s, j)
    decreases j - i
  {
    if i < j {
      NoMatchBefore(s, i + 1, j);
      SliceHead(s, i, j);
      Assoc([s[i]], s[i+1..j], NumericPass(s, j));
    }
  }

  /** `std::regex_search`: the leftmost match. */
  method SearchNumeric(s: string) returns (i: nat, m: Option<(nat, nat)>)
    ensures i <= |s| && NumericPass(s, 0) == s[..i] + NumericPass(s, i)
    ensures if i < |s| then m.Some? && m == NumericAt(s, i) else m.None?
  {
    i, m := 0, None;
    while i < |s|
      invariant i <= |s| && m.None? && forall k :: 0 <= k < i ==> NumericAt(s, k).None?
    {
      m := NumericAt(s, i);
      if m.Some? {
        break;
      }
      i := i + 1;
    }
    NoMatchBefore(s, 0, i);
    assert s[0..i] == s[..i];
  }

  lemma RewriteOne(out: string, rest: string, i: nat, r: (nat, nat))
    requires i < |rest| && NumericAt(rest, i) == Some(r)
    ensures (out + (rest[..i] + NumericText(rest, i, r))) + NumericPass(rest[r.1..], 0)
            == out + (rest[..i] + NumericPass(rest, i))
  {
    Assoc(rest[..i], NumericText(rest, i, r), NumericPass(rest[r.1..], 0));
    Assoc(out, rest[..i] + NumericText(rest, i, r), NumericPass(rest[r.1..], 0));
  }

  method RewriteNumeric(s: string) returns (out: string)
    ensures out == NumericPass(s, 0)
  {
    out := "";
    var rest := s;
    var i, m := SearchNumeric(rest);
    while m.Some?
      invariant 0 <= i <= |rest| && NumericPass(rest, 0) == rest[..i] + NumericPass(rest, i)
      invariant if i < |rest| then m.Some? && m == NumericAt(rest, i) else m.None?
      invariant out + NumericPass(rest, 0) == NumericPass(s, 0)
      decreases |rest|
    {
      RewriteOne(out, rest, i, m.value);
      out := out + (rest[..i] + NumericText(rest, i, m.value));
      rest := rest[m.value.1..];
      i, m := SearchNumeric(rest);
    }
    assert NumericPass(rest, i) == "" && rest[..i] + "" == rest;
    out := out + rest;
  }

  method HyphenParts(t: string) returns (parts: seq<string>)
    ensures parts == Parts(t, "")
  {
    parts := [];
    var p := "";
    for i := 0 to |t|
      invariant parts + Parts(t[i..], p) == Parts(t, "")
    {
      assert t[i..][0] == t[i] && t[i..][1..] == t[i+1..];
      if t[i] == '-' {
        if p != "" {
          parts := parts + [p];
        }
        p := "";
      } else {
        p := p + [t[i]];
      }
    }
    assert t[|t|..] == "";
    if p != "" {
      parts := parts + [p];
    }
  }

  /** Push a word, or the parts of it. */
  method Push(v: Vocabulary, tok: seq<string>, t: string) returns (more: seq<string>)
    ensures more == tok + if t == "" then [] else Pushed(v, t)
  {
    if t == "" {
      return tok;
    }
    if '-' in t {
      var parts := HyphenParts(t);
      var splittable := |parts| > 1;
      for i := 0 to |parts|
        invariant splittable == (|parts| > 1 && forall k :: 0 <= k < i ==> Num(v, parts[k]) || Sep(v, parts[k]))
      {
        if !Num(v, parts[i]) && !Sep(v, parts[i]) {
          splittable := false;
          break;
        }
      }
      if splittable {
        return tok + parts;
      }
    }
    more := tok + [t];
  }

  lemma {:induction false} PushConcat(v: Vocabulary, a: seq<string>, b: seq<string>)
    ensures PushAll(v, a + b) == PushAll(v, a) + PushAll(v, b)
    decreases |a|
  {
    if a == [] {
      assert a + b == b;
    } else {
      assert (a + b)[1..] == a[1..] + b;
      PushConcat(v, a[1..], b);
    }
  }

  lemma PushEmit(v: Vocabulary, cur: string)
    ensures PushAll(v, Emit(cur)) == if cur == "" then [] else Pushed(v, cur)
  {
    if cur != "" {
      assert [cur][1..] == [];
    }
  }

  lemma PushedSpace(v: Vocabulary, tok: seq<string>, cur: string, rest: string)
    requires rest != "" && IsSpace(rest[0])
    ensures tok + PushAll(v, Split(rest, cur))
            == (tok + if cur == "" then [] else Pushed(v, cur)) + PushAll(v, Split(rest[1..], ""))
  {
    PushConcat(v, Emit(cur), Split(rest[1..], ""));
    PushEmit(v, cur);
  }

  method Tokenise(v: Vocabulary, text: string) returns (tok: seq<string>)
    ensures tok == Tokens(v, text)
  {
    tok := [];
    var cur := "";
    assert text[0..] == text;
    for i := 0 to |text|
      invariant tok + PushAll(v, Split(text[i..], cur)) == Tokens(v, text)
    {
      ghost var rest := text[i..];
      assert rest[0] == text[i] && rest[1..] == text[i+1..];
      if IsSpace(text[i]) {
        PushedSpace(v, tok, cur, rest);
        tok := Push(v, tok, cur);
        cur := "";
      } else {
        cur := cur + [text[i]];
      }
    }
    assert text[|text|..] == "";
    PushEmit(v, cur);
    tok := Push(v, tok, cur);
  }

  method JoinAll(ws: seq<string>) returns (res: string)
    ensures res == Join(ws)
  {
    res := "";
    for i := 0 to |ws|
      invariant res == Join(ws[..i])
    {
      assert ws[..i+1] == ws[..i] + [ws[i]];
      if i > 0 {
        JoinConcat(ws[..i], [ws[i]]);
        res := res + " ";
      }
      res := res + ws[i];
    }
    assert ws[..|ws|] == ws;
  }

  method NormalizeSpokenFrequency(v: Vocabulary, text: string) returns (r: Option<string>)
    ensures r == if Overflows(v, text) then None else Some(Normalised(v, text))
  {
    var res0 := ReplaceEach(text, "decimal to ", "decimal 2 ");
    res0 := ReplaceEach(res0, "decimal too ", "decimal 2 ");
    res0 := RewriteNumeric(res0);
    var tok := Tokenise(v, res0);
    var threw, out := CollapseTokens(Vhf(v), tok);
    if threw {
      return None;
    }
    var res := JoinAll(out);
    r := Some(res);
  }

  // ── Letters only ever disappear ─────────────────────────────────────────────

  function Letters(s: string): nat {
    if s == "" then 0 else (if IsLetter(s[0]) then 1 else 0) + Letters(s[1..])
  }

  function LettersAll(ws: seq<string>): nat {
    if ws == [] then 0 else Letters(ws[0]) + LettersAll(ws[1..])
  }

  lemma {:induction false} LettersConcat(a: string, b: string)
    ensures Letters(a + b) == Letters(a) + Letters(b)
    decreases |a|
  {
    if a == "" {
      assert a + b == b;
    } else {
      assert (a + b)[1..] == a[1..] + b;
      LettersConcat(a[1..], b);
    }
  }

  lemma {:induction false} LettersAllConcat(a: seq<string>, b: seq<string>)
    ensures LettersAll(a + b) == LettersAll(a) + LettersAll(b)
    decreases |a|
  {
    if a == [] {
      assert a + b == b;
    } else {
      assert (a + b)[1..] == a[1..] + b;
      LettersAllConcat(a[1..], b);
    }
  }

  lemma {:induction false} LettersJoin(ws: seq<string>)
    ensures Letters(Join(ws)) == LettersAll(ws)
    decreases |ws|
  {
    if |ws| == 1 {
      assert LettersAll(ws[1..]) == 0;
    } else if |ws| > 1 {
      LettersConcat(ws[0] + " ", Join(ws[1..]));
      LettersConcat(ws[0], " ");
      assert Letters(" ") == 0 by { assert " "[1..] == ""; }
      LettersJoin(ws[1..]);
    }
  }

  lemma LettersEmit(p: string)
    ensures LettersAll(Emit(p)) == Letters(p)
  {
    if p != "" {
      assert [p][1..] == [];
    }
  }

  lemma LettersSnoc(p: string, c: char)
    ensures Letters(p + [c]) == Letters(p) + if IsLetter(c) then 1 else 0
  {
    LettersConcat(p, [c]);
    assert [c][1..] == "";
  }

  lemma {:induction false} LettersSplit(s: string, cur: string)
    ensures LettersAll(Split(s, cur)) == Letters(cur) + Letters(s)
    decreases |s|
  {
    LettersEmit(cur);
    if s != "" {
      if IsSpace(s[0]) {
        LettersSplit(s[1..], "");
        LettersAllConcat(Emit(cur), Split(s[1..], ""));
      } else {
        LettersSplit(s[1..], cur + [s[0]]);
        LettersSnoc(cur, s[0]);
      }
    }
  }

  lemma {:induction false} LettersParts(t: string, p: string)
    ensures LettersAll(Parts(t, p)) == Letters(p) + Letters(t)
    decreases |t|
  {
    LettersEmit(p);
    if t != "" {
      if t[0] == '-' {
        LettersParts(t[1..], "");
        LettersAllConcat(Emit(p), Parts(t[1..], ""));
      } else {
        LettersParts(t[1..], p + [t[0]]);
        LettersSnoc(p, t[0]);
      }
    }
  }

  lemma {:induction false} LettersPush(v: Vocabulary, ws: seq<string>)
    ensures LettersAll(PushAll(v, ws)) == LettersAll(ws)
    decreases |ws|
  {
    if ws != [] {
      LettersPush(v, ws[1..]);
      LettersAllConcat(Pushed(v, ws[0]), PushAll(v, ws[1..]));
      LettersParts(ws[0], "");
      assert [ws[0]][1..] == [];
    }
  }

  lemma {:induction false} LettersDigits(s: string)
    requires AllDigits(s)
    ensures Letters(s) == 0
    decreases |s|
  {
    if s != "" {
      LettersDigits(s[1..]);
    }
  }

  lemma LettersDotted(w: string, f: string)
    requires AllDigits(w) && AllDigits(f)
    ensures Letters(w + "." + f) == 0
  {
    LettersConcat(w + ".", f);
    LettersConcat(w, ".");
    LettersDigits(w);
    LettersDigits(f);
    assert "."[1..] == "";
  }

  lemma LettersCompact(v: Vocabulary, whole: seq<string>, frac: seq<string>)
    ensures Letters(Compact(v, whole, frac)) == 0
  {
    LettersDotted(Numeral(Megahertz(v, whole)), Padded(RunDigits(v, NormAll(frac))));
  }

  lemma LettersReplaced(lex: Lexicon<string>, out: seq<string>, rest: seq<string>)
    requires Letters(lex.compact(Whole(lex, out), Frac(lex, rest))) == 0
    ensures LettersAll(Replaced(lex, out, rest)) <= LettersAll(out)
    ensures LettersAll(After(lex, rest)) <= LettersAll(rest)
  {
    LettersAllConcat(Kept(lex, out), [lex.compact(Whole(lex, out), Frac(lex, rest))]);
    LettersAllConcat(Kept(lex, out), Whole(lex, out));
    assert Kept(lex, out) + Whole(lex, out) == out;
    LettersAllConcat(Frac(lex, rest), After(lex, rest));
    assert Frac(lex, rest) + After(lex, rest) == rest;
  }

  lemma {:induction false} LettersCollapse(v: Vocabulary, out: seq<string>, toks: seq<string>)
    ensures LettersAll(Collapse(Vhf(v), out, toks)) <= LettersAll(out) + LettersAll(toks)
    decreases |toks|
  {
    if toks != [] {
      if Vhf(v).sep(toks[0]) && Collapses(Vhf(v), out, toks[1..]) {
        LettersCompact(v, Whole(Vhf(v), out), Frac(Vhf(v), toks[1..]));
        LettersReplaced(Vhf(v), out, toks[1..]);
        LettersCollapse(v, Replaced(Vhf(v), out, toks[1..]), After(Vhf(v), toks[1..]));
      } else {
        LettersCollapse(v, out + [toks[0]], toks[1..]);
        LettersAllConcat(out, [toks[0]]);
        assert [toks[0]][1..] == [];
      }
    }
  }

  /** Everything after the two textual repairs keeps the number of letters or lowers it. */
  lemma LettersNormalised(v: Vocabulary, text: string)
    ensures Letters(Normalised(v, text)) <= Letters(PrePass(text))
  {
    var ws := Split(PrePass(text), "");
    LettersSplit(PrePass(text), "");
    LettersPush(v, ws);
    LettersCollapse(v, [], PushAll(v, ws));
    LettersJoin(Collapse(Vhf(v), [], PushAll(v, ws)));
  }

  lemma {:induction false} LettersReplaceAll(s: string, from: string, to: string)
    requires from != "" && Letters(to) < Letters(from)
    ensures ReplaceAll(s, from, to) == s || Letters(ReplaceAll(s, from, to)) < Letters(s)
    decreases |s|
  {
    if |s| >= |from| {
      if s[..|from|] == from {
        LettersReplaceAll(s[|from|..], from, to);
        assert s == from + s[|from|..];
        LettersConcat(from, s[|from|..]);
        LettersConcat(to, ReplaceAll(s[|from|..], from, to));
      } else {
        LettersReplaceAll(s[1..], from, to);
        assert s == [s[0]] + s[1..];
        LettersConcat([s[0]], s[1..]);
        LettersConcat([s[0]], ReplaceAll(s[1..], from, to));
      }
    }
  }

  lemma LettersSlices(s: string, i: nat, j: nat)
    requires i <= j <= |s|
    ensures Letters(s[i..]) == Letters(s[i..j]) + Letters(s[j..])
  {
    assert s[i..] == s[i..j] + s[j..];
    LettersConcat(s[i..j], s[j..]);
  }

  lemma DecimalHasLetters(s: string, i: nat)
    requires DecimalAt(s, i)
    ensures Letters(s[i..i+7]) > 0
  {
    assert LowerAll(s[i..i+7])[0] == 'd';
    assert Lower(s[i..i+7][0]) == 'd';
  }

  lemma NumericLosesLetters(s: string, i: nat)
    requires i <= |s| && NumericAt(s, i).Some?
    ensures var r := NumericAt(s, i).value;
            Letters(NumericText(s, i, r)) + Letters(s[r.1..]) < Letters(s[i..])
  {
    var r := NumericAt(s, i).value;
    var d := SkipGap(s, i + 3);
    LettersDotted(s[i..i+3], Padded(DigitsIn(s[r.0..r.1])));
    DecimalHasLetters(s, d);
    LettersSlices(s, i, d);
    LettersSlices(s, d, d + 7);
    LettersSlices(s, d + 7, r.1);
  }

  lemma NumericKeepsOne(s: string, i: nat)
    requires i < |s| && NumericAt(s, i).None?
    ensures NumericPass(s, i) == [s[i]] + NumericPass(s, i + 1) && s[i..] == [s[i]] + s[i+1..]
    ensures Letters(NumericPass(s, i)) == Letters([s[i]]) + Letters(NumericPass(s, i + 1))
    ensures Letters(s[i..]) == Letters([s[i]]) + Letters(s[i+1..])
  {
    assert s[i..] == [s[i]] + s[i+1..];
    LettersConcat([s[i]], s[i+1..]);
    LettersConcat([s[i]], NumericPass(s, i + 1));
  }

  lemma NumericDropsHere(s: string, i: nat)
    requires i <= |s| && NumericAt(s, i).Some?
    ensures Letters(NumericPass(s, i)) < Letters(s[i..])
    decreases |s| - i, 0
  {
    var r := NumericAt(s, i).value;
    NumericLosesLetters(s, i);
    LettersNumericPass(s[r.1..], 0);
    assert s[r.1..][0..] == s[r.1..];
    LettersConcat(NumericText(s, i, r), NumericPass(s[r.1..], 0));
  }

  lemma {:induction false} LettersNumericPass(s: string, i: nat)
    requires i <= |s|
    ensures NumericPass(s, i) == s[i..] || Letters(NumericPass(s, i)) < Letters(s[i..])
    decreases |s| - i, 1
  {
    if i < |s| {
      if NumericAt(s, i).None? {
        LettersNumericPass(s, i + 1);
        NumericKeepsOne(s, i);
      } else {
        NumericDropsHere(s, i);
      }
    }
  }

  lemma {:induction false} NoLetters(s: string)
    requires forall i :: 0 <= i < |s| ==> !IsLetter(s[i])
    ensures Letters(s) == 0
    decreases |s|
  {
    if s != "" {
      NoLetters(s[1..]);
    }
  }

  lemma HasLetter(s: string, i: nat)
    requires i < |s| && IsLetter(s[i])
    ensures Letters(s) > 0
  {
    LettersSlices(s, 0, i);
    assert s[0..] == s;
  }

  lemma FewerLetters(a: string, b: string, c: string, i: nat)
    requires (forall k :: 0 <= k < |b| ==> !IsLetter(b[k])) && i < |c| && IsLetter(c[i])
    ensures Letters(a + b) < Letters(a + c)
  {
    LettersConcat(a, b);
    LettersConcat(a, c);
    NoLetters(b);
    HasLetter(c, i);
  }

  lemma LettersOfTo()
    ensures Letters("decimal 2 ") < Letters("decimal to ")
  {
    FewerLetters("decimal", " 2 ", " to ", 1);
    assert "decimal" + " 2 " == "decimal 2 " && "decimal" + " to " == "decimal to ";
  }

  lemma LettersOfToo()
    ensures Letters("decimal 2 ") < Letters("decimal too ")
  {
    FewerLetters("decimal", " 2 ", " too ", 1);
    assert "decimal" + " 2 " == "decimal 2 " && "decimal" + " too " == "decimal too ";
  }

  /** The repairs change nothing, or remove letters. */
  lemma LettersPrePass(s: string)
    ensures PrePass(s) == s || Letters(PrePass(s)) < Letters(s)
  {
    var one := ReplaceAll(s, "decimal to ", "decimal 2 ");
    LettersOfTo();
    LettersOfToo();
    LettersReplaceAll(s, "decimal to ", "decimal 2 ");
    LettersReplaceAll(one, "decimal too ", "decimal 2 ");
    LettersNumericPass(Repaired(s), 0);
    assert Repaired(s)[0..] == Repaired(s);
  }
}
