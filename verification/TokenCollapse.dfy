/**
 * The rewriting core of the frequency normaliser, for any lexicon of number words and separators:
 * a run of numbers, a separator and another run become one token when the first run is in band.
 */
module TokenCollapse {
  import opened Options
  import opened Text

  datatype Lexicon<!T> = Lexicon(
    num: T -> bool,
    sep: T -> bool,
    fits: seq<T> -> bool,
    inBand: seq<T> -> bool,
    compact: (seq<T>, seq<T>) -> T)

  /** No token is both a number and a separator, and what is written for a frequency is neither. */
  ghost predicate Lawful<T(!new)>(lex: Lexicon<T>) {
    && (forall t :: !(lex.num(t) && lex.sep(t)))
    && (forall w, f :: lex.inBand(w) ==> !lex.num(lex.compact(w, f)) && !lex.sep(lex.compact(w, f)))
  }

  /** How many numbers end, or start, the sequence. */
  function Trail<T>(lex: Lexicon<T>, s: seq<T>): (k: nat)
    ensures k <= |s|
    ensures forall i :: |s| - k <= i < |s| ==> lex.num(s[i])
    ensures k < |s| ==> !lex.num(s[|s| - k - 1])
  {
    if s == [] || !lex.num(s[|s|-1]) then 0 else 1 + Trail(lex, s[..|s|-1])
  }

  function Lead<T>(lex: Lexicon<T>, s: seq<T>): (k: nat)
    ensures k <= |s|
    ensures forall i :: 0 <= i < k ==> lex.num(s[i])
    ensures k < |s| ==> !lex.num(s[k])
  {
    if s == [] || !lex.num(s[0]) then 0 else 1 + Lead(lex, s[1..])
  }

  function Kept<T>(lex: Lexicon<T>, out: seq<T>): seq<T> { out[..|out| - Trail(lex, out)] }
  function Whole<T>(lex: Lexicon<T>, out: seq<T>): seq<T> { out[|out| - Trail(lex, out)..] }
  function Frac<T>(lex: Lexicon<T>, rest: seq<T>): seq<T> { rest[..Lead(lex, rest)] }
  function After<T>(lex: Lexicon<T>, rest: seq<T>): seq<T> { rest[Lead(lex, rest)..] }

  /** The separator between `out` and `rest` has numbers on both sides. */
  predicate Between<T>(lex: Lexicon<T>, out: seq<T>, rest: seq<T>) {
    Trail(lex, out) > 0 && Lead(lex, rest) > 0
  }

  predicate Collapses<T>(lex: Lexicon<T>, out: seq<T>, rest: seq<T>) {
    Between(lex, out, rest) && lex.inBand(Whole(lex, out))
  }

  /** The stack after the separator before `rest` was collapsed. */
  function Replaced<T>(lex: Lexicon<T>, out: seq<T>, rest: seq<T>): seq<T> {
    Kept(lex, out) + [lex.compact(Whole(lex, out), Frac(lex, rest))]
  }

  /** `out` is the stack of tokens already written, `toks` what is still to be read. */
  function Collapse<T>(lex: Lexicon<T>, out: seq<T>, toks: seq<T>): seq<T>
    decreases |toks|
  {
    if toks == [] then out
    else if lex.sep(toks[0]) && Collapses(lex, out, toks[1..]) then
      Collapse(lex, Replaced(lex, out, toks[1..]), After(lex, toks[1..]))
    else Collapse(lex, out + [toks[0]], toks[1..])
  }

  /** True when one of the runs that are read does not fit the integer it is read into. */
  predicate Throws<T>(lex: Lexicon<T>, out: seq<T>, toks: seq<T>)
    decreases |toks|
  {
    if toks == [] then false
    else if lex.sep(toks[0]) && Between(lex, out, toks[1..])
            && !(lex.fits(Whole(lex, out)) && lex.fits(Frac(lex, toks[1..]))) then true
    else if lex.sep(toks[0]) && Collapses(lex, out, toks[1..]) then
      Throws(lex, Replaced(lex, out, toks[1..]), After(lex, toks[1..]))
    else Throws(lex, out + [toks[0]], toks[1..])
  }

  // ── The loop ────────────────────────────────────────────────────────────────

  /** Pop the numbers that end the stack. */
  method PopWhole<T>(lex: Lexicon<T>, out: seq<T>) returns (kept: seq<T>, whole: seq<T>)
    ensures kept == Kept(lex, out) && whole == Whole(lex, out)
  {
    kept, whole := out, [];
    while kept != [] && lex.num(kept[|kept|-1])
      invariant kept + whole == out
      invariant |whole| + Trail(lex, kept) == Trail(lex, out)
    {
      whole := [kept[|kept|-1]] + whole;
      kept := kept[..|kept|-1];
    }
  }

  /** The end of the numbers that start at `from`. */
  method EndOfRun<T>(lex: Lexicon<T>, toks: seq<T>, from: nat) returns (f: nat)
    requires from <= |toks|
    ensures f == from + Lead(lex, toks[from..]) <= |toks|
  {
    f := from;
    while f < |toks| && lex.num(toks[f])
      invariant from <= f <= |toks|
      invariant f - from + Lead(lex, toks[f..]) == Lead(lex, toks[from..])
    {
      f := f + 1;
    }
  }

  /** The loop over the tokens, with the stack it pushes to and pops from. */
  method CollapseTokens<T>(lex: Lexicon<T>, toks: seq<T>) returns (threw: bool, out: seq<T>)
    ensures threw == Throws(lex, [], toks)
    ensures !threw ==> out == Collapse(lex, [], toks)
  {
    threw, out := false, [];
    var i := 0;
    while i < |toks|
      invariant 0 <= i <= |toks|
      invariant Throws(lex, [], toks) == Throws(lex, out, toks[i..])
      invariant Collapse(lex, [], toks) == Collapse(lex, out, toks[i..])
    {
      ghost var rest := toks[i..][1..];
      assert rest == toks[i+1..];
      if !lex.sep(toks[i]) {
        out, i := out + [toks[i]], i + 1;
      } else {
        var kept, whole := PopWhole(lex, out);
        var f := EndOfRun(lex, toks, i + 1);
        var frac := toks[i+1..f];
        assert frac == Frac(lex, rest) && toks[f..] == After(lex, rest);
        if whole == [] || frac == [] {
          out, i := out + [toks[i]], i + 1;
        } else if !lex.fits(whole) || !lex.fits(frac) {
          return true, out;
        } else if !lex.inBand(whole) {
          out, i := out + [toks[i]], i + 1;
        } else {
          out, i := kept + [lex.compact(whole, frac)], f;
        }
      }
    }
  }

  // ── Normal form ─────────────────────────────────────────────────────────────

  /** The separator at `j`, if it is one, does not belong to a spoken frequency. */
  predicate Settled<T>(lex: Lexicon<T>, s: seq<T>, j: nat)
    requires j < |s|
  {
    lex.sep(s[j]) ==> !Collapses(lex, s[..j], s[j+1..])
  }

  /** Every separator left with numbers on both sides has a whole part outside the band. */
  ghost predicate NormalForm<T>(lex: Lexicon<T>, s: seq<T>) {
    forall j :: 0 <= j < |s| ==> Settled(lex, s, j)
  }

  lemma {:induction false} LeadThrough<T(!new)>(lex: Lexicon<T>, a: seq<T>, b: seq<T>)
    requires forall i :: 0 <= i < |a| ==> lex.num(a[i])
    ensures Lead(lex, a + b) == |a| + Lead(lex, b)
    decreases |a|
  {
    if a == [] {
      assert a + b == b;
    } else {
      assert (a + b)[1..] == a[1..] + b;
      LeadThrough(lex, a[1..], b);
    }
  }

  /** The separators already on the stack are settled in what is written and still to be read. */
  ghost predicate StackSettled<T>(lex: Lexicon<T>, out: seq<T>, toks: seq<T>) {
    forall j :: 0 <= j < |out| ==> Settled(lex, out + toks, j)
  }

  lemma ReplacedSettled<T(!new)>(lex: Lexicon<T>, out: seq<T>, toks: seq<T>, j: nat)
    requires toks != [] && lex.sep(toks[0]) && Collapses(lex, out, toks[1..])
    requires Lawful(lex) && StackSettled(lex, out, toks)
    requires j <= |Kept(lex, out)|
    ensures Settled(lex, Replaced(lex, out, toks[1..]) + After(lex, toks[1..]), j)
  {
    var kept, x := Kept(lex, out), lex.compact(Whole(lex, out), Frac(lex, toks[1..]));
    var s, t := out + toks, kept + [x] + After(lex, toks[1..]);
    if j < |kept| {
      assert Settled(lex, s, j);
      assert s[..j] == kept[..j] == t[..j] && t[j] == s[j];
      assert t[j+1..][0] == if j + 1 < |kept| then s[j+1] else x;
    } else {
      assert t[j] == x;
    }
  }

  lemma {:induction false} CollapseSettles<T(!new)>(lex: Lexicon<T>, out: seq<T>, toks: seq<T>)
    requires Lawful(lex) && StackSettled(lex, out, toks)
    ensures NormalForm(lex, Collapse(lex, out, toks))
    decreases |toks|
  {
    if toks == [] {
      assert out + toks == out;
    } else if lex.sep(toks[0]) && Collapses(lex, out, toks[1..]) {
      var out1, rest1 := Replaced(lex, out, toks[1..]), After(lex, toks[1..]);
      forall j | 0 <= j < |out1|
        ensures Settled(lex, out1 + rest1, j)
      {
        ReplacedSettled(lex, out, toks, j);
      }
      CollapseSettles(lex, out1, rest1);
    } else {
      var s := out + toks;
      assert out + [toks[0]] + toks[1..] == s;
      assert s[..|out|] == out && s[|out|+1..] == toks[1..];
      CollapseSettles(lex, out + [toks[0]], toks[1..]);
    }
  }

  lemma {:induction false} NormalFormIsKept<T(!new)>(lex: Lexicon<T>, out: seq<T>, toks: seq<T>)
    requires NormalForm(lex, out + toks)
    ensures Collapse(lex, out, toks) == out + toks
    decreases |toks|
  {
    if toks == [] {
      assert out + toks == out;
    } else {
      var s := out + toks;
      assert s[|out|] == toks[0] && s[..|out|] == out && s[|out|+1..] == toks[1..];
      assert Settled(lex, s, |out|);
      assert out + [toks[0]] + toks[1..] == s;
      NormalFormIsKept(lex, out + [toks[0]], toks[1..]);
    }
  }

  /** The result is in normal form, and the normal forms are exactly the texts that stay as they are. */
  lemma CollapseReachesNormalForm<T(!new)>(lex: Lexicon<T>, toks: seq<T>)
    requires Lawful(lex)
    ensures NormalForm(lex, Collapse(lex, [], toks))
    ensures Collapse(lex, [], toks) == toks <==> NormalForm(lex, toks)
  {
    assert [] + toks == toks;
    CollapseSettles(lex, [], toks);
    if NormalForm(lex, toks) {
      NormalFormIsKept(lex, [], toks);
    }
  }

  /** Collapsing twice is collapsing once; the parser relies on it by normalising twice. */
  lemma CollapseIsIdempotent<T(!new)>(lex: Lexicon<T>, toks: seq<T>)
    requires Lawful(lex)
    ensures Collapse(lex, [], Collapse(lex, [], toks)) == Collapse(lex, [], toks)
  {
    CollapseReachesNormalForm(lex, toks);
    CollapseReachesNormalForm(lex, Collapse(lex, [], toks));
  }

  // ── Undoing ─────────────────────────────────────────────────────────────────

  lemma CollapseStep<T(!new)>(lex: Lexicon<T>, out: seq<T>, t: T, rest: seq<T>)
    ensures Collapse(lex, out, [t] + rest) ==
            if lex.sep(t) && Collapses(lex, out, rest) then Collapse(lex, Replaced(lex, out, rest), After(lex, rest))
            else Collapse(lex, out + [t], rest)
  {
    assert ([t] + rest)[1..] == rest;
  }

  /** A written token, and the tokens that it stands for. */
  datatype Piece<T> = Plain(t: T) | Frequency(whole: seq<T>, sep: T, frac: seq<T>)

  function Written<T>(lex: Lexicon<T>, p: Piece<T>): T {
    match p case Plain(t) => t case Frequency(w, _, f) => lex.compact(w, f)
  }

  function Source<T>(p: Piece<T>): seq<T> {
    match p case Plain(t) => [t] case Frequency(w, s, f) => w + [s] + f
  }

  function WrittenAll<T>(lex: Lexicon<T>, ps: seq<Piece<T>>): seq<T> {
    if ps == [] then [] else WrittenAll(lex, ps[..|ps|-1]) + [Written(lex, ps[|ps|-1])]
  }

  function SourceAll<T>(ps: seq<Piece<T>>): seq<T> {
    if ps == [] then [] else SourceAll(ps[..|ps|-1]) + Source(ps[|ps|-1])
  }

  /** A frequency piece is a run of numbers in band, a separator and a run of numbers. */
  ghost predicate Genuine<T>(lex: Lexicon<T>, p: Piece<T>) {
    p.Frequency? ==>
      && p.whole != [] && p.frac != [] && lex.inBand(p.whole) && lex.sep(p.sep)
      && (forall i :: 0 <= i < |p.whole| ==> lex.num(p.whole[i]))
      && (forall i :: 0 <= i < |p.frac| ==> lex.num(p.frac[i]))
  }

  lemma PoppedOne<T(!new)>(lex: Lexicon<T>, out: seq<T>)
    requires out != [] && lex.num(out[|out|-1])
    ensures var init := out[..|out|-1]; Kept(lex, out) == Kept(lex, init) && Whole(lex, out) == Whole(lex, init) + [out[|out|-1]]
  {}

  lemma PoppedNone<T(!new)>(lex: Lexicon<T>, out: seq<T>)
    requires out == [] || !lex.num(out[|out|-1])
    ensures Kept(lex, out) == out && Whole(lex, out) == []
  {}

  /** The last piece, when it was written as a number: it stands for itself. */
  lemma NumberPiece<T(!new)>(lex: Lexicon<T>, ps: seq<Piece<T>>)
    requires Lawful(lex) && AllGenuine(lex, ps) && WrittenAll(lex, ps) != []
    requires lex.num(WrittenAll(lex, ps)[|WrittenAll(lex, ps)|-1])
    ensures var init, out := ps[..|ps|-1], WrittenAll(lex, ps);
            && ps != [] && AllGenuine(lex, init) && WrittenAll(lex, init) == out[..|out|-1]
            && SourceAll(ps) == SourceAll(init) + [out[|out|-1]]
  {
    assert Genuine(lex, ps[|ps|-1]);
  }

  /** The numbers on top of the stack were never written by a collapse. */
  lemma {:induction false} PopPieces<T(!new)>(lex: Lexicon<T>, ps: seq<Piece<T>>, out: seq<T>)
    returns (kept: seq<Piece<T>>)
    requires Lawful(lex) && WrittenAll(lex, ps) == out
    requires AllGenuine(lex, ps)
    ensures WrittenAll(lex, kept) == Kept(lex, out)
    ensures SourceAll(ps) == SourceAll(kept) + Whole(lex, out)
    ensures AllGenuine(lex, kept)
    decreases |ps|
  {
    if out == [] || !lex.num(out[|out|-1]) {
      kept := ps;
      PoppedNone(lex, out);
    } else {
      NumberPiece(lex, ps);
      PoppedOne(lex, out);
      kept := PopPieces(lex, ps[..|ps|-1], out[..|out|-1]);
    }
  }

  lemma SourceSnoc<T(!new)>(lex: Lexicon<T>, ps: seq<Piece<T>>, p: Piece<T>)
    ensures SourceAll(ps + [p]) == SourceAll(ps) + Source(p)
    ensures WrittenAll(lex, ps + [p]) == WrittenAll(lex, ps) + [Written(lex, p)]
  {
    assert (ps + [p])[..|ps|] == ps;
  }

  lemma Regroup<T(!new)>(a: seq<T>, w: seq<T>, s: T, f: seq<T>, r: seq<T>)
    ensures (a + (w + [s] + f)) + r == (a + w) + ([s] + (f + r))
  {}

  ghost predicate AllGenuine<T>(lex: Lexicon<T>, ps: seq<Piece<T>>) {
    forall i :: 0 <= i < |ps| ==> Genuine(lex, ps[i])
  }

  /** The pieces after one collapse. */
  lemma CollapsePieces<T(!new)>(lex: Lexicon<T>, ps: seq<Piece<T>>, out: seq<T>, sep: T, rest: seq<T>)
    returns (qs: seq<Piece<T>>)
    requires Lawful(lex) && WrittenAll(lex, ps) == out && lex.sep(sep) && Collapses(lex, out, rest)
    requires AllGenuine(lex, ps)
    ensures WrittenAll(lex, qs) == Replaced(lex, out, rest)
    ensures SourceAll(qs) + After(lex, rest) == SourceAll(ps) + ([sep] + rest)
    ensures AllGenuine(lex, qs)
  {
    GenuineFrequency(lex, out, sep, rest);
    var p := Frequency(Whole(lex, out), sep, Frac(lex, rest));
    var kept := PopPieces(lex, ps, out);
    SourceSnoc(lex, kept, p);
    qs := kept + [p];
    RegroupPiece(SourceAll(kept), p, After(lex, rest));
  }

  lemma GenuineFrequency<T(!new)>(lex: Lexicon<T>, out: seq<T>, sep: T, rest: seq<T>)
    requires lex.sep(sep) && Collapses(lex, out, rest)
    ensures Genuine(lex, Frequency(Whole(lex, out), sep, Frac(lex, rest)))
    ensures Frac(lex, rest) + After(lex, rest) == rest
  {}

  lemma RegroupPiece<T(!new)>(a: seq<T>, p: Piece<T>, r: seq<T>)
    requires p.Frequency?
    ensures (a + Source(p)) + r == (a + p.whole) + ([p.sep] + (p.frac + r))
  {
    Regroup(a, p.whole, p.sep, p.frac, r);
  }

  /** A token that stands for itself. */
  lemma PlainPushed<T(!new)>(lex: Lexicon<T>, ps: seq<Piece<T>>, t: T, rest: seq<T>)
    requires AllGenuine(lex, ps)
    ensures AllGenuine(lex, ps + [Plain(t)]) && WrittenAll(lex, ps + [Plain(t)]) == WrittenAll(lex, ps) + [t]
    ensures SourceAll(ps + [Plain(t)]) + rest == SourceAll(ps) + ([t] + rest)
  {
    SourceSnoc(lex, ps, Plain(t));
    Shift(SourceAll(ps), t, rest);
  }

  lemma Shift<T(!new)>(a: seq<T>, t: T, rest: seq<T>)
    ensures (a + [t]) + rest == a + ([t] + rest)
  {}

  /** Putting back what each written token stands for gives the input, in order. */
  lemma {:induction false} CollapseCanBeUndone<T(!new)>(lex: Lexicon<T>, ps: seq<Piece<T>>, out: seq<T>, toks: seq<T>)
    returns (qs: seq<Piece<T>>)
    requires Lawful(lex) && WrittenAll(lex, ps) == out
    requires AllGenuine(lex, ps)
    ensures WrittenAll(lex, qs) == Collapse(lex, out, toks)
    ensures SourceAll(qs) == SourceAll(ps) + toks
    ensures AllGenuine(lex, qs)
    decreases |toks|
  {
    if toks == [] {
      qs := ps;
    } else {
      var t, rest := toks[0], toks[1..];
      HeadAndTail(toks);
      CollapseStep(lex, out, t, rest);
      if lex.sep(t) && Collapses(lex, out, rest) {
        var more := CollapsePieces(lex, ps, out, t, rest);
        qs := CollapseCanBeUndone(lex, more, Replaced(lex, out, rest), After(lex, rest));
      } else {
        PlainPushed(lex, ps, t, rest);
        qs := CollapseCanBeUndone(lex, ps + [Plain(t)], out + [t], rest);
      }
    }
  }

  // ── Speaking ────────────────────────────────────────────────────────────────

  /** How a written frequency is spoken; `None` for every other token. */
  type Speech<!T> = T -> Option<Piece<T>>

  /** What is spoken is a frequency that can be read back. */
  ghost predicate Faithful<T(!new)>(lex: Lexicon<T>, say: Speech<T>) {
    forall t :: say(t).Some? ==> say(t).value.Frequency? && Genuine(lex, say(t).value)
  }

  /** Every frequency said as the one token that is written for it. */
  function Plainly<T>(lex: Lexicon<T>, say: Speech<T>): Speech<T> {
    t => match say(t) case None => None case Some(p) => Some(Plain(Written(lex, p)))
  }

  function Say<T>(say: Speech<T>, t: T): seq<T> {
    match say(t) case None => [t] case Some(p) => Source(p)
  }

  function SayAll<T>(say: Speech<T>, toks: seq<T>): seq<T> {
    if toks == [] then [] else Say(say, toks[0]) + SayAll(say, toks[1..])
  }

  /** A spoken frequency follows no number, separator or frequency, and no number follows it. */
  ghost predicate Delimited<T>(lex: Lexicon<T>, say: Speech<T>, toks: seq<T>) {
    forall i, j :: 0 <= i < j < |toks| && j == i + 1 ==>
      && (say(toks[j]).Some? ==> !lex.num(toks[i]) && !lex.sep(toks[i]) && say(toks[i]).None?)
      && (say(toks[i]).Some? ==> !lex.num(toks[j]))
  }

  /** The run that starts a text is spoken as it is written. */
  lemma {:induction false} SpokenRun<T(!new)>(lex: Lexicon<T>, say: Speech<T>, rest: seq<T>)
    requires Delimited(lex, say, rest) && (rest != [] ==> say(rest[0]).None?)
    ensures Lead(lex, SayAll(say, rest)) == Lead(lex, rest)
    ensures Frac(lex, SayAll(say, rest)) == Frac(lex, rest)
    ensures After(lex, SayAll(say, rest)) == SayAll(say, After(lex, rest))
    ensures Lead(lex, rest) > 0 && After(lex, rest) != [] ==> say(After(lex, rest)[0]).None?
    decreases |rest|
  {
    if rest != [] {
      var x, tail := rest[0], rest[1..];
      assert rest == [x] + tail && SayAll(say, rest) == [x] + SayAll(say, tail);
      RunStep(lex, x, tail);
      RunStep(lex, x, SayAll(say, tail));
      if lex.num(x) {
        assert tail != [] ==> rest[1] == tail[0];
        SpokenRun(lex, say, tail);
      }
    }
  }

  lemma RunStep<T(!new)>(lex: Lexicon<T>, x: T, s: seq<T>)
    ensures lex.num(x) ==>
      Lead(lex, [x] + s) == 1 + Lead(lex, s) && Frac(lex, [x] + s) == [x] + Frac(lex, s) && After(lex, [x] + s) == After(lex, s)
    ensures !lex.num(x) ==> Lead(lex, [x] + s) == 0 && Frac(lex, [x] + s) == [] && After(lex, [x] + s) == [x] + s
  {
    assert ([x] + s)[1..] == s;
  }

  lemma {:induction false} PushRun<T(!new)>(lex: Lexicon<T>, out: seq<T>, w: seq<T>, rest: seq<T>)
    requires Lawful(lex) && forall i :: 0 <= i < |w| ==> lex.num(w[i])
    ensures Collapse(lex, out, w + rest) == Collapse(lex, out + w, rest)
    ensures Trail(lex, out) == 0 ==> Trail(lex, out + w) == |w|
    decreases |w|
  {
    if w == [] {
      assert w + rest == rest && out + w == out;
    } else {
      var init, x := w[..|w|-1], w[|w|-1];
      assert w + rest == init + ([x] + rest) && out + w == (out + init) + [x];
      PushRun(lex, out, init, [x] + rest);
      assert ([x] + rest)[1..] == rest;
      assert (out + w)[..|out + w|-1] == out + init;
    }
  }

  lemma SpokenFrequencyCollapses<T(!new)>(lex: Lexicon<T>, say: Speech<T>, out: seq<T>, t: T, rest: seq<T>)
    requires Lawful(lex) && Faithful(lex, say) && say(t).Some?
    requires Trail(lex, out) == 0 && Lead(lex, rest) == 0
    ensures Collapse(lex, out, Say(say, t) + rest) == Collapse(lex, out + [Written(lex, say(t).value)], rest)
  {
    var p := say(t).value;
    var tail := p.frac + rest;
    assert Say(say, t) + rest == p.whole + ([p.sep] + tail);
    PushRun(lex, out, p.whole, [p.sep] + tail);
    LeadThrough(lex, p.frac, rest);
    assert ([p.sep] + tail)[1..] == tail;
    assert Whole(lex, out + p.whole) == p.whole && Kept(lex, out + p.whole) == out;
    assert Frac(lex, tail) == p.frac && After(lex, tail) == rest;
  }

  /** A token that is spoken as it stands, and what its separator sees. */
  lemma SaidPlainly<T(!new)>(lex: Lexicon<T>, say: Speech<T>, t: T, rest: seq<T>)
    requires Delimited(lex, say, [t] + rest) && say(t).None?
    ensures SayAll(say, [t] + rest) == [t] + SayAll(say, rest)
    ensures ([t] + SayAll(say, rest))[0] == t && ([t] + SayAll(say, rest))[1..] == SayAll(say, rest)
    ensures lex.sep(t) ==>
      && Lead(lex, SayAll(say, rest)) == Lead(lex, rest) && Frac(lex, SayAll(say, rest)) == Frac(lex, rest)
      && After(lex, SayAll(say, rest)) == SayAll(say, After(lex, rest))
      && (Lead(lex, rest) > 0 && After(lex, rest) != [] ==> say(After(lex, rest)[0]).None?)
  {
    var toks := [t] + rest;
    assert toks[1..] == rest;
    assert Delimited(lex, say, rest) by {
      assert forall i :: 0 <= i < |rest| ==> rest[i] == toks[i+1];
    }
    if lex.sep(t) {
      assert rest != [] ==> toks[1] == rest[0];
      SpokenRun(lex, say, rest);
    }
  }

  /** A frequency that starts a text without others. */
  lemma SaidFirst<T(!new)>(lex: Lexicon<T>, say: Speech<T>, t: T, p: Piece<T>, rest: seq<T>)
    requires say(t) == Some(p) && Written(lex, p) == t && forall i :: 0 <= i < |rest| ==> say(rest[i]).None?
    ensures SayAll(say, [t] + rest) == Source(p) + rest
    ensures SayAll(Plainly(lex, say), [t] + rest) == [t] + rest
  {
    SayNothing(say, rest);
    SayNothing(Plainly(lex, say), rest);
    assert ([t] + rest)[1..] == rest;
  }

  /** What is said as it is. */
  lemma {:induction false} SayNothing<T(!new)>(say: Speech<T>, ts: seq<T>)
    requires forall i :: 0 <= i < |ts| ==> say(ts[i]).None?
    ensures SayAll(say, ts) == ts
    decreases |ts|
  {
    if ts != [] {
      SayNothing(say, ts[1..]);
    }
  }

  /** A frequency said as one token. */
  lemma SaidAsWritten<T(!new)>(lex: Lexicon<T>, say: Speech<T>, out: seq<T>, t: T, rest: seq<T>)
    requires Lawful(lex) && Faithful(lex, say) && say(t).Some?
    ensures var w := Written(lex, say(t).value);
            && SayAll(Plainly(lex, say), [t] + rest) == [w] + SayAll(Plainly(lex, say), rest)
            && Collapse(lex, out, [w] + SayAll(Plainly(lex, say), rest)) ==
               Collapse(lex, out + [w], SayAll(Plainly(lex, say), rest))
            && Throws(lex, out, [w] + SayAll(Plainly(lex, say), rest)) ==
               Throws(lex, out + [w], SayAll(Plainly(lex, say), rest))
            && Trail(lex, out + [w]) == 0
  {
    assert ([t] + rest)[1..] == rest;
    CollapseStep(lex, out, Written(lex, say(t).value), SayAll(Plainly(lex, say), rest));
    ThrowsStep(lex, out, Written(lex, say(t).value), SayAll(Plainly(lex, say), rest));
  }

  /** Any other token is said as it is, and its separator sees the same run after it either way. */
  lemma SaidEitherWay<T(!new)>(lex: Lexicon<T>, say: Speech<T>, t: T, rest: seq<T>)
    requires Delimited(lex, say, [t] + rest) && say(t).None?
    ensures var x, y := SayAll(say, rest), SayAll(Plainly(lex, say), rest);
            && SayAll(say, [t] + rest) == [t] + x && SayAll(Plainly(lex, say), [t] + rest) == [t] + y
    ensures lex.sep(t) ==>
      var x, y, more := SayAll(say, rest), SayAll(Plainly(lex, say), rest), After(lex, rest);
      && Alike(lex, rest, x) && Alike(lex, rest, y)
      && After(lex, x) == SayAll(say, more) && After(lex, y) == SayAll(Plainly(lex, say), more)
      && (Lead(lex, rest) > 0 && more != [] ==> say(more[0]).None?)
  {
    SaidPlainly(lex, say, t, rest);
    SaidPlainly(lex, Plainly(lex, say), t, rest);
  }

  /** The same run starts both. */
  ghost predicate Alike<T>(lex: Lexicon<T>, x: seq<T>, y: seq<T>) {
    Lead(lex, x) == Lead(lex, y) && Frac(lex, x) == Frac(lex, y)
  }

  lemma AlikeCollapses<T(!new)>(lex: Lexicon<T>, out: seq<T>, t: T, x: seq<T>, y: seq<T>)
    requires lex.sep(t) ==> Alike(lex, x, y)
    requires if lex.sep(t) && Collapses(lex, out, x)
             then Collapse(lex, Replaced(lex, out, x), After(lex, x)) == Collapse(lex, Replaced(lex, out, x), After(lex, y))
             else Collapse(lex, out + [t], x) == Collapse(lex, out + [t], y)
    ensures Collapse(lex, out, [t] + x) == Collapse(lex, out, [t] + y)
  {
    CollapseStep(lex, out, t, x);
    CollapseStep(lex, out, t, y);
  }

  lemma {:induction false} DelimitedTail<T(!new)>(lex: Lexicon<T>, say: Speech<T>, toks: seq<T>, k: nat)
    requires Delimited(lex, say, toks) && k <= |toks|
    ensures Delimited(lex, say, toks[k..])
  {
    assert forall i :: 0 <= i < |toks| - k ==> toks[k..][i] == toks[k + i];
  }

  /** The collapse makes the same of spoken frequencies as of written ones, when they are delimited. */
  lemma {:induction false} SpeakingIsHeard<T(!new)>(lex: Lexicon<T>, say: Speech<T>, out: seq<T>, toks: seq<T>)
    requires Lawful(lex) && Faithful(lex, say) && Delimited(lex, say, toks)
    requires toks != [] && say(toks[0]).Some? ==> Trail(lex, out) == 0
    ensures Collapse(lex, out, SayAll(say, toks)) == Collapse(lex, out, SayAll(Plainly(lex, say), toks))
    decreases |toks|
  {
    if toks != [] {
      var t, rest := toks[0], toks[1..];
      HeadAndTail(toks);
      DelimitedTail(lex, say, toks, 1);
      if say(t).Some? {
        SpokenLead(lex, say, rest);
        SpokenFrequencyCollapses(lex, say, out, t, SayAll(say, rest));
        SaidAsWritten(lex, say, out, t, rest);
        SpeakingIsHeard(lex, say, out + [Written(lex, say(t).value)], rest);
      } else {
        SaidEitherWay(lex, say, t, rest);
        if lex.sep(t) && Collapses(lex, out, rest) {
          DelimitedTail(lex, say, rest, Lead(lex, rest));
          SpeakingIsHeard(lex, say, Replaced(lex, out, rest), After(lex, rest));
        } else {
          SpeakingIsHeard(lex, say, out + [t], rest);
        }
        AlikeCollapses(lex, out, t, SayAll(say, rest), SayAll(Plainly(lex, say), rest));
      }
    }
  }

  /** After a spoken frequency the next word is no number. */
  lemma SpokenLead<T(!new)>(lex: Lexicon<T>, say: Speech<T>, rest: seq<T>)
    requires rest != [] ==> !lex.num(rest[0]) && say(rest[0]).None?
    ensures Lead(lex, SayAll(say, rest)) == 0
  {
    if rest != [] {
      assert SayAll(say, rest)[0] == rest[0];
    }
  }

  /** The runs that are spoken for a token can be read. */
  ghost predicate Fitting<T(!new)>(lex: Lexicon<T>, say: Speech<T>) {
    forall t :: say(t).Some? && say(t).value.Frequency? ==> lex.fits(say(t).value.whole) && lex.fits(say(t).value.frac)
  }

  lemma {:induction false} PushRunThrows<T(!new)>(lex: Lexicon<T>, out: seq<T>, w: seq<T>, rest: seq<T>)
    requires Lawful(lex) && forall i :: 0 <= i < |w| ==> lex.num(w[i])
    ensures Throws(lex, out, w + rest) == Throws(lex, out + w, rest)
    decreases |w|
  {
    if w == [] {
      assert w + rest == rest && out + w == out;
    } else {
      var init, x := w[..|w|-1], w[|w|-1];
      assert w + rest == init + ([x] + rest) && out + w == (out + init) + [x];
      PushRunThrows(lex, out, init, [x] + rest);
      assert ([x] + rest)[1..] == rest;
    }
  }

  lemma SpokenFrequencyThrows<T(!new)>(lex: Lexicon<T>, say: Speech<T>, out: seq<T>, t: T, rest: seq<T>)
    requires Lawful(lex) && Faithful(lex, say) && Fitting(lex, say) && say(t).Some?
    requires Trail(lex, out) == 0 && Lead(lex, rest) == 0
    ensures Throws(lex, out, Say(say, t) + rest) == Throws(lex, out + [Written(lex, say(t).value)], rest)
  {
    var p := say(t).value;
    var tail := p.frac + rest;
    assert Say(say, t) + rest == p.whole + ([p.sep] + tail);
    PushRunThrows(lex, out, p.whole, [p.sep] + tail);
    PushRun(lex, out, p.whole, [p.sep] + tail);
    LeadThrough(lex, p.frac, rest);
    assert ([p.sep] + tail)[1..] == tail;
    assert Whole(lex, out + p.whole) == p.whole && Kept(lex, out + p.whole) == out;
    assert Frac(lex, tail) == p.frac && After(lex, tail) == rest;
  }

  /** A run around the separator does not fit. */
  predicate Misfits<T>(lex: Lexicon<T>, out: seq<T>, rest: seq<T>) {
    Between(lex, out, rest) && !(lex.fits(Whole(lex, out)) && lex.fits(Frac(lex, rest)))
  }

  lemma ThrowsStep<T(!new)>(lex: Lexicon<T>, out: seq<T>, t: T, rest: seq<T>)
    ensures Throws(lex, out, [t] + rest) ==
            if lex.sep(t) && Misfits(lex, out, rest) then true
            else if lex.sep(t) && Collapses(lex, out, rest) then Throws(lex, Replaced(lex, out, rest), After(lex, rest))
            else Throws(lex, out + [t], rest)
  {
    assert ([t] + rest)[1..] == rest;
  }

  /** A separator sees the run after it, and no more. */
  lemma AlikeThrows<T(!new)>(lex: Lexicon<T>, out: seq<T>, t: T, x: seq<T>, y: seq<T>)
    requires lex.sep(t) ==> Alike(lex, x, y)
    requires Throws(lex, out + [t], x) == Throws(lex, out + [t], y)
    requires lex.sep(t) && Collapses(lex, out, x) ==>
      Throws(lex, Replaced(lex, out, x), After(lex, x)) == Throws(lex, Replaced(lex, out, x), After(lex, y))
    ensures Throws(lex, out, [t] + x) == Throws(lex, out, [t] + y)
  {
    ThrowsStep(lex, out, t, x);
    ThrowsStep(lex, out, t, y);
  }

  /** Speaking never makes a text unreadable, nor readable. */
  lemma {:induction false} SpeakingThrowsNothing<T(!new)>(lex: Lexicon<T>, say: Speech<T>, out: seq<T>, toks: seq<T>)
    requires Lawful(lex) && Faithful(lex, say) && Fitting(lex, say) && Delimited(lex, say, toks)
    requires toks != [] && say(toks[0]).Some? ==> Trail(lex, out) == 0
    ensures Throws(lex, out, SayAll(say, toks)) == Throws(lex, out, SayAll(Plainly(lex, say), toks))
    decreases |toks|
  {
    if toks != [] {
      var t, rest := toks[0], toks[1..];
      HeadAndTail(toks);
      DelimitedTail(lex, say, toks, 1);
      if say(t).Some? {
        SpokenLead(lex, say, rest);
        SpokenFrequencyThrows(lex, say, out, t, SayAll(say, rest));
        SaidAsWritten(lex, say, out, t, rest);
        SpeakingThrowsNothing(lex, say, out + [Written(lex, say(t).value)], rest);
      } else {
        SaidEitherWay(lex, say, t, rest);
        SpeakingThrowsNothing(lex, say, out + [t], rest);
        if lex.sep(t) && Collapses(lex, out, rest) {
          DelimitedTail(lex, say, rest, Lead(lex, rest));
          SpeakingThrowsNothing(lex, say, Replaced(lex, out, rest), After(lex, rest));
        }
        AlikeThrows(lex, out, t, SayAll(say, rest), SayAll(Plainly(lex, say), rest));
      }
    }
  }
}
