/** Character classes, splitting on white space and joining with single spaces. */
module Text {

  /** A sequence is its first element and the rest. */
  lemma HeadAndTail<T>(s: seq<T>)
    requires s != []
    ensures s == [s[0]] + s[1..]
  {}

  /** A slice is its first element and the rest. */
  lemma SliceHead<T>(s: seq<T>, i: nat, j: nat)
    requires i < j <= |s|
    ensures s[i..j] == [s[i]] + s[i+1..j]
  {}

  /** Concatenation is associative. */
  lemma Assoc<T>(a: seq<T>, b: seq<T>, c: seq<T>)
    ensures (a + b) + c == a + (b + c)
  {}

  /** A sequence is its front and its last element. */
  lemma FrontAndLast<T>(s: seq<T>)
    requires s != []
    ensures s == s[..|s|-1] + [s[|s|-1]]
  {}

  predicate IsSpace(c: char) { c in {' ', '\t', '\n', '\r', 11 as char, 12 as char} }
  predicate IsDigit(c: char) { '0' <= c <= '9' }
  predicate IsLetter(c: char) { 'a' <= c <= 'z' || 'A' <= c <= 'Z' }
  predicate IsAlnum(c: char) { IsDigit(c) || IsLetter(c) }

  function Lower(c: char): char {
    if 'A' <= c <= 'Z' then c - 'A' + 'a' else c
  }

  function LowerAll(s: string): (r: string)
    ensures |r| == |s|
  {
    if s == "" then "" else [Lower(s[0])] + LowerAll(s[1..])
  }

  lemma LowerAllAt(s: string, i: nat)
    requires i < |s|
    ensures LowerAll(s)[i] == Lower(s[i])
  {
    if i > 0 {
      LowerAllAt(s[1..], i - 1);
    }
  }

  predicate IsWord(w: string) {
    w != "" && forall i :: 0 <= i < |w| ==> !IsSpace(w[i])
  }

  predicate AllWords(ws: seq<string>) {
    forall i :: 0 <= i < |ws| ==> IsWord(ws[i])
  }

  function Emit(cur: string): seq<string> {
    if cur == "" then [] else [cur]
  }

  /** The space-separated words of `s`; `cur` is the word being read. */
  function Split(s: string, cur: string): seq<string> {
    if s == "" then Emit(cur)
    else if IsSpace(s[0]) then Emit(cur) + Split(s[1..], "")
    else Split(s[1..], cur + [s[0]])
  }

  function Join(ws: seq<string>): string {
    if ws == [] then ""
    else if |ws| == 1 then ws[0]
    else ws[0] + " " + Join(ws[1..])
  }

  lemma {:induction false} SplitThroughWord(w: string, rest: string, cur: string)
    requires forall i :: 0 <= i < |w| ==> !IsSpace(w[i])
    ensures Split(w + rest, cur) == Split(rest, cur + w)
    decreases |w|
  {
    if w == "" {
      assert w + rest == rest && cur + w == cur;
    } else {
      assert (w + rest)[1..] == w[1..] + rest;
      assert cur + w == (cur + [w[0]]) + w[1..];
      SplitThroughWord(w[1..], rest, cur + [w[0]]);
    }
  }

  /** Splitting gives back exactly the words that were joined. */
  lemma {:induction false} SplitJoin(ws: seq<string>)
    requires AllWords(ws)
    ensures Split(Join(ws), "") == ws
    decreases |ws|
  {
    if |ws| == 1 {
      SplitThroughWord(ws[0], "", "");
      assert ws[0] + "" == ws[0] && "" + ws[0] == ws[0];
    } else if |ws| > 1 {
      var rest := " " + Join(ws[1..]);
      assert Join(ws) == ws[0] + rest;
      SplitThroughWord(ws[0], rest, "");
      assert "" + ws[0] == ws[0] && rest[1..] == Join(ws[1..]);
      SplitJoin(ws[1..]);
    }
  }

  lemma {:induction false} SplitGivesWords(s: string, cur: string)
    requires forall i :: 0 <= i < |cur| ==> !IsSpace(cur[i])
    ensures AllWords(Split(s, cur))
    decreases |s|
  {
    if s != "" {
      if IsSpace(s[0]) {
        SplitGivesWords(s[1..], "");
      } else {
        SplitGivesWords(s[1..], cur + [s[0]]);
      }
    }
  }

  lemma {:induction false} JoinConcat(a: seq<string>, b: seq<string>)
    requires a != [] && b != []
    ensures Join(a + b) == Join(a) + " " + Join(b)
    decreases |a|
  {
    assert (a + b)[1..] == a[1..] + b;
    if |a| > 1 {
      JoinConcat(a[1..], b);
    }
  }

  // ── Decimal numerals ────────────────────────────────────────────────────────

  function DigitChar(d: nat): char
    requires d < 10
  {
    '0' + d as char
  }

  function DigitValue(c: char): nat
    requires IsDigit(c)
  {
    (c - '0') as nat
  }

  predicate AllDigits(s: string) {
    forall i :: 0 <= i < |s| ==> IsDigit(s[i])
  }

  /** `std::to_string`. */
  function Numeral(n: nat): (s: string)
    ensures s != "" && AllDigits(s)
  {
    if n < 10 then [DigitChar(n)] else Numeral(n / 10) + [DigitChar(n % 10)]
  }

  /** `std::stoi` on a digit string, without its range check. */
  function NumberOf(s: string): nat
    requires AllDigits(s)
  {
    if s == "" then 0 else 10 * NumberOf(s[..|s|-1]) + DigitValue(s[|s|-1])
  }

  lemma {:induction false} NumberOfNumeral(n: nat)
    ensures NumberOf(Numeral(n)) == n
  {
    if n >= 10 {
      NumberOfNumeral(n / 10);
      var s := Numeral(n);
      assert s[..|s|-1] == Numeral(n / 10);
    } else {
      assert [DigitChar(n)][..0] == "";
    }
  }
}
