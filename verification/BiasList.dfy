/** The phrases sent along with a recording: joined, split again, and encoded without white space. */
module BiasList {
  import opened Text

  const MAX_ENTRIES := 100

  // ── Splitting ───────────────────────────────────────────────────────────────

  function TrimLeft(s: string): string {
    if s != "" && IsSpace(s[0]) then TrimLeft(s[1..]) else s
  }

  function TrimRight(s: string): string {
    if s != "" && IsSpace(s[|s|-1]) then TrimRight(s[..|s|-1]) else s
  }

  function Trim(s: string): string {
    TrimRight(TrimLeft(s))
  }

  /** The pieces between commas; `cur` is the piece being read. */
  function Pieces(s: string, cur: string): seq<string> {
    if s == "" then [cur]
    else if s[0] == ',' then [cur] + Pieces(s[1..], "")
    else Pieces(s[1..], cur + [s[0]])
  }

  /** One piece more: trimmed, unless it is empty or known, or the list is full. */
  function Kept(out: seq<string>, piece: string): seq<string> {
    if Trim(piece) == "" || |out| >= MAX_ENTRIES || Trim(piece) in out then out else out + [Trim(piece)]
  }

  function KeptAll(out: seq<string>, pieces: seq<string>): seq<string>
    decreases |pieces|
  {
    if pieces == [] then out else KeptAll(Kept(out, pieces[0]), pieces[1..])
  }

  function SplitContext(s: string): seq<string> {
    KeptAll([], Pieces(s, ""))
  }

  method Flush(out: seq<string>, s: string, lo: nat, hi: nat) returns (more: seq<string>)
    requires lo <= hi <= |s|
    ensures more == Kept(out, s[lo..hi])
  {
    var a, b := lo, hi;
    while a < b && IsSpace(s[a])
      invariant lo <= a <= b == hi
      invariant TrimLeft(s[lo..hi]) == TrimLeft(s[a..b])
    {
      assert s[a..b][1..] == s[a+1..b];
      a := a + 1;
    }
    while b > a && IsSpace(s[b-1])
      invariant a <= b <= hi
      invariant TrimRight(s[a..hi]) == TrimRight(s[a..b])
    {
      assert s[a..b][..|s[a..b]|-1] == s[a..b-1];
      b := b - 1;
    }
    if b <= a || |out| >= MAX_ENTRIES {
      return out;
    }
    var tok := s[a..b];
    if tok in out {
      return out;
    }
    more := out + [tok];
  }

  method SplitList(s: string) returns (out: seq<string>)
    ensures out == SplitContext(s)
  {
    out := [];
    var lo := 0;
    for i := 0 to |s|
      invariant 0 <= lo <= i
      invariant KeptAll(out, Pieces(s[i..], s[lo..i])) == SplitContext(s)
    {
      assert s[i..][0] == s[i] && s[i..][1..] == s[i+1..];
      if s[i] == ',' {
        var piece := s[lo..i];
        assert ([piece] + Pieces(s[i+1..], ""))[1..] == Pieces(s[i+1..], "");
        out := Flush(out, s, lo, i);
        lo := i + 1;
        assert s[lo..i+1] == "";
      } else {
        assert s[lo..i] + [s[i]] == s[lo..i+1];
      }
    }
    assert s[|s|..] == "" && [s[lo..|s|]][1..] == [];
    out := Flush(out, s, lo, |s|);
  }

  // ── Joining ─────────────────────────────────────────────────────────────────

  function JoinWith(sep: string, ps: seq<string>): string {
    if ps == [] then "" else if |ps| == 1 then ps[0] else ps[0] + sep + JoinWith(sep, ps[1..])
  }

  method JoinList(ps: seq<string>) returns (s: string)
    ensures s == JoinWith(", ", ps)
  {
    s := "";
    for i := 0 to |ps|
      invariant s == JoinWith(", ", ps[..i])
    {
      JoinSnoc(", ", ps[..i], ps[i]);
      assert ps[..i+1] == ps[..i] + [ps[i]];
      if i > 0 {
        s := s + ", ";
      }
      s := s + ps[i];
    }
    assert ps[..|ps|] == ps;
  }

  lemma {:induction false} JoinSnoc(sep: string, ps: seq<string>, p: string)
    ensures JoinWith(sep, ps + [p]) == JoinWith(sep, ps) + (if ps == [] then "" else sep) + p
    decreases |ps|
  {
    if ps == [] {
      assert ps + [p] == [p];
    } else {
      assert (ps + [p])[1..] == ps[1..] + [p];
      JoinSnoc(sep, ps[1..], p);
    }
  }

  predicate CommaFree(p: string) {
    forall i :: 0 <= i < |p| ==> p[i] != ','
  }

  predicate Trimmed(p: string) {
    p != "" && !IsSpace(p[0]) && !IsSpace(p[|p|-1])
  }

  /** What the bias list is made of. */
  predicate PhraseList(ps: seq<string>) {
    && |ps| <= MAX_ENTRIES
    && (forall i :: 0 <= i < |ps| ==> Trimmed(ps[i]) && CommaFree(ps[i]))
    && (forall i, j :: 0 <= i < j < |ps| ==> ps[i] != ps[j])
  }

  lemma {:induction false} PiecesThrough(p: string, rest: string, cur: string)
    requires CommaFree(p)
    ensures Pieces(p + rest, cur) == Pieces(rest, cur + p)
    decreases |p|
  {
    if p == "" {
      assert p + rest == rest && cur + p == cur;
    } else {
      assert (p + rest)[1..] == p[1..] + rest && cur + p == (cur + [p[0]]) + p[1..];
      PiecesThrough(p[1..], rest, cur + [p[0]]);
    }
  }

  /** The pieces of a joined list, each after the blank of the separator. */
  function Prefixed(blank: string, ps: seq<string>): seq<string> {
    if ps == [] then [] else [blank + ps[0]] + Prefixed(blank, ps[1..])
  }

  lemma {:induction false} PiecesOfJoin(blank: string, ps: seq<string>, cur: string)
    requires ps != [] && CommaFree(blank) && forall i :: 0 <= i < |ps| ==> CommaFree(ps[i])
    ensures Pieces(JoinWith("," + blank, ps), cur) == [cur + ps[0]] + Prefixed(blank, ps[1..])
    decreases |ps|
  {
    if |ps| == 1 {
      assert ps[0] + "" == ps[0];
      PiecesThrough(ps[0], "", cur);
    } else {
      var rest := JoinWith("," + blank, ps[1..]);
      var tail := blank + rest;
      assert JoinWith("," + blank, ps) == ps[0] + ("," + tail) && ("," + tail)[1..] == tail;
      PiecesThrough(ps[0], "," + tail, cur);
      PiecesThrough(blank, rest, "");
      assert "" + blank == blank;
      PiecesOfJoin(blank, ps[1..], blank);
    }
  }

  lemma TrimOfTrimmed(p: string)
    requires Trimmed(p)
    ensures Trim(p) == p && Trim(" " + p) == p
  {
    assert (" " + p)[1..] == p;
  }

  lemma {:induction false} KeepPrefixed(out: seq<string>, blank: string, ps: seq<string>)
    requires PhraseList(out + ps) && (blank == "" || blank == " ")
    ensures KeptAll(out, Prefixed(blank, ps)) == out + ps
    decreases |ps|
  {
    if ps == [] {
      assert out + ps == out;
    } else {
      var p, rest := ps[0], Prefixed(blank, ps[1..]);
      assert (out + ps)[|out|] == p && blank + p == (if blank == "" then p else " " + p);
      TrimOfTrimmed(p);
      assert p !in out by {
        forall i | 0 <= i < |out|
          ensures out[i] != p
        {
          assert (out + ps)[i] == out[i];
        }
      }
      assert out + ps == (out + [p]) + ps[1..];
      assert Prefixed(blank, ps)[1..] == rest;
      KeepPrefixed(out + [p], blank, ps[1..]);
    }
  }

  /** Splitting gives back the list that was joined. */
  lemma SplitOfJoin(ps: seq<string>)
    requires PhraseList(ps)
    ensures SplitContext(JoinWith(", ", ps)) == ps
  {
    if ps == [] {
      assert [""][1..] == [] && Trim("") == "";
    } else {
      PiecesOfJoin(" ", ps, "");
      assert "," + " " == ", " && "" + ps[0] == ps[0];
      var rest := Prefixed(" ", ps[1..]);
      assert ([ps[0]] + rest)[1..] == rest;
      TrimOfTrimmed(ps[0]);
      assert [] + [ps[0]] == [ps[0]] && [ps[0]] + ps[1..] == ps;
      KeepPrefixed([ps[0]], " ", ps[1..]);
    }
  }

  // ── Underscores ─────────────────────────────────────────────────────────────

  /** `t` is what has been written, `pending` whether white space has just been passed. */
  function Underscored(p: string, t: string, pending: bool): string {
    if p == "" then t
    else if IsSpace(p[0]) then Underscored(p[1..], t, true)
    else Underscored(p[1..], t + (if pending && t != "" then "_" else "") + [p[0]], false)
  }

  function Encoded(p: string): string {
    Underscored(p, "", false)
  }

  method Encode(p: string) returns (t: string)
    ensures t == Encoded(p)
  {
    t := "";
    var ps := false;
    for i := 0 to |p|
      invariant Underscored(p[i..], t, ps) == Encoded(p)
    {
      assert p[i..][0] == p[i] && p[i..][1..] == p[i+1..];
      if IsSpace(p[i]) {
        ps := true;
      } else {
        assert t + "" == t;
        if ps && t != "" {
          t := t + "_";
        }
        ps := false;
        t := t + [p[i]];
      }
    }
    assert p[|p|..] == "";
  }

  /** The transcript's underscores become spaces. */
  function Unmasked(s: string): (r: string)
    ensures |r| == |s| && forall i :: 0 <= i < |s| ==> r[i] == if s[i] == '_' then ' ' else s[i]
  {
    if s == "" then "" else [if s[0] == '_' then ' ' else s[0]] + Unmasked(s[1..])
  }

  /** No underscore, and white space only as single inner spaces. */
  predicate CleanPhrase(p: string) {
    forall i :: 0 <= i < |p| ==> CleanAt(p, i)
  }

  predicate CleanAt(p: string, i: nat)
    requires i < |p|
  {
    p[i] != '_' && (IsSpace(p[i]) ==> p[i] == ' ' && 0 < i < |p| - 1 && !IsSpace(p[i+1]))
  }

  predicate NoSpace(s: string) {
    forall i :: 0 <= i < |s| ==> !IsSpace(s[i])
  }

  lemma {:induction false} EncodedHasNoSpace(p: string, t: string, pending: bool)
    requires NoSpace(t)
    ensures NoSpace(Underscored(p, t, pending))
    decreases |p|
  {
    if p != "" {
      if IsSpace(p[0]) {
        EncodedHasNoSpace(p[1..], t, true);
      } else {
        EncodedHasNoSpace(p[1..], t + (if pending && t != "" then "_" else "") + [p[0]], false);
      }
    }
  }

  lemma UnmaskedConcat(a: string, b: string)
    ensures Unmasked(a + b) == Unmasked(a) + Unmasked(b)
  {}

  /** Unmasking what is written gives the phrase read so far. */
  lemma {:induction false} CleanSurvives(p: string, i: nat, t: string, pending: bool)
    requires CleanPhrase(p) && i <= |p|
    requires Unmasked(t) + (if pending then " " else "") == p[..i]
    requires pending ==> t != "" && i < |p| && !IsSpace(p[i])
    ensures Unmasked(Underscored(p[i..], t, pending)) == p
    decreases |p| - i
  {
    var rest := p[i..];
    if i == |p| {
      assert rest == "" && p[..i] == p && Unmasked(t) + "" == Unmasked(t);
    } else {
      assert CleanAt(p, i);
      assert rest[0] == p[i] && rest[1..] == p[i+1..] && p[..i+1] == p[..i] + [p[i]];
      if IsSpace(p[i]) {
        assert !pending && i > 0 && Unmasked(t) + "" == Unmasked(t) == p[..i];
        assert p[..i+1] == p[..i] + " ";
        CleanSurvives(p, i + 1, t, true);
      } else {
        var sep := if pending && t != "" then "_" else "";
        UnmaskedConcat(t + sep, [p[i]]);
        UnmaskedConcat(t, sep);
        assert Unmasked("_") == " " && Unmasked([p[i]]) == [p[i]];
        CleanSurvives(p, i + 1, t + sep + [p[i]], false);
      }
    }
  }

  /** An underscore that was written stands between two characters of the phrase. */
  predicate SeparatorsInside(t: string) {
    forall i :: 0 <= i < |t| && t[i] == '_' ==> 0 < i < |t| - 1 && t[i+1] != '_'
  }

  lemma {:induction false} EncodedSeparators(p: string, t: string, pending: bool)
    requires (forall i :: 0 <= i < |p| ==> p[i] != '_') && SeparatorsInside(t)
    ensures SeparatorsInside(Underscored(p, t, pending))
    decreases |p|
  {
    if p != "" {
      if IsSpace(p[0]) {
        EncodedSeparators(p[1..], t, true);
      } else {
        EncodedSeparators(p[1..], t + (if pending && t != "" then "_" else "") + [p[0]], false);
      }
    }
  }

  /** A phrase survives the encoding exactly when it is clean, and what is sent never contains white space. */
  lemma UnderscoreRoundTrip(p: string)
    ensures NoSpace(Encoded(p))
    ensures Unmasked(Encoded(p)) == p <==> CleanPhrase(p)
  {
    EncodedHasNoSpace(p, "", false);
    if CleanPhrase(p) {
      assert p[0..] == p && p[..0] == "";
      CleanSurvives(p, 0, "", false);
    }
    if Unmasked(Encoded(p)) == p {
      EncodedSeparators(p, "", false);
      forall i | 0 <= i < |p|
        ensures CleanAt(p, i)
      {
        if IsSpace(p[i]) {
          assert Encoded(p)[i] == '_';
        }
      }
    }
  }

  // ── The field that is sent ──────────────────────────────────────────────────

  lemma {:induction false} PlainStays(p: string, t: string)
    requires NoSpace(p)
    ensures Underscored(p, t, false) == t + p
    decreases |p|
  {
    if p == "" {
      assert t + p == t;
    } else {
      assert t + "" + [p[0]] == t + [p[0]] && (t + [p[0]]) + p[1..] == t + p;
      PlainStays(p[1..], t + [p[0]]);
    }
  }

  function Appended(field: string, item: string): string {
    if item == "" then field else field + (if field == "" then "" else ",") + item
  }

  function Field(ps: seq<string>): string {
    if ps == [] then "" else Appended(Field(ps[..|ps|-1]), Encoded(ps[|ps|-1]))
  }

  /** `build_bias_field` with the underscore encoding: phrases without white space go in as they are. */
  method BuildBiasField(ps: seq<string>) returns (field: string)
    ensures field == Field(ps)
  {
    field := "";
    for i := 0 to |ps|
      invariant field == Field(ps[..i])
    {
      assert ps[..i+1][..i] == ps[..i];
      var item := ps[i];
      if NoSpace(item) {
        PlainStays(item, "");
        assert "" + item == item;
      } else {
        item := Encode(ps[i]);
      }
      if item != "" {
        if field != "" {
          field := field + ",";
        } else {
          assert field + "" == field;
        }
        field := field + item;
      }
    }
    assert ps[..|ps|] == ps;
  }

  lemma {:induction false} EncodedSnoc(ps: seq<string>, p: string)
    ensures EncodedAll(ps + [p]) == EncodedAll(ps) + [Encoded(p)]
    decreases |ps|
  {
    if ps == [] {
      assert ps + [p] == [p];
    } else {
      assert (ps + [p])[1..] == ps[1..] + [p];
      EncodedSnoc(ps[1..], p);
    }
  }

  lemma {:induction false} FieldIsJoin(ps: seq<string>)
    requires forall i :: 0 <= i < |ps| ==> Encoded(ps[i]) != ""
    ensures Field(ps) == JoinWith(",", EncodedAll(ps)) && (ps != [] ==> Field(ps) != "")
    decreases |ps|
  {
    if ps != [] {
      var init, p := ps[..|ps|-1], ps[|ps|-1];
      FieldIsJoin(init);
      EncodedSnoc(init, p);
      assert ps == init + [p];
      JoinSnoc(",", EncodedAll(init), Encoded(p));
      assert EncodedAll(init) == [] <==> init == [];
    }
  }

  lemma CleanIsNotEmpty(p: string)
    requires CleanPhrase(p) && p != ""
    ensures Encoded(p) != ""
  {
    UnderscoreRoundTrip(p);
  }

  function EncodedAll(ps: seq<string>): seq<string> {
    if ps == [] then [] else [Encoded(ps[0])] + EncodedAll(ps[1..])
  }

  function UnmaskedAll(ps: seq<string>): seq<string> {
    if ps == [] then [] else [Unmasked(ps[0])] + UnmaskedAll(ps[1..])
  }

  lemma {:induction false} EncodedCommaFree(p: string, t: string, pending: bool)
    requires CommaFree(p) && CommaFree(t)
    ensures CommaFree(Underscored(p, t, pending))
    decreases |p|
  {
    if p != "" {
      if IsSpace(p[0]) {
        EncodedCommaFree(p[1..], t, true);
      } else {
        EncodedCommaFree(p[1..], t + (if pending && t != "" then "_" else "") + [p[0]], false);
      }
    }
  }

  lemma {:induction false} EncodedListCommaFree(ps: seq<string>)
    requires forall i :: 0 <= i < |ps| ==> CommaFree(ps[i])
    ensures |EncodedAll(ps)| == |ps| && forall i :: 0 <= i < |ps| ==> CommaFree(EncodedAll(ps)[i])
    decreases |ps|
  {
    if ps != [] {
      EncodedCommaFree(ps[0], "", false);
      EncodedListCommaFree(ps[1..]);
    }
  }

  lemma {:induction false} NoBlank(ps: seq<string>)
    ensures Prefixed("", ps) == ps
    decreases |ps|
  {
    if ps != [] {
      NoBlank(ps[1..]);
      assert "" + ps[0] == ps[0];
    }
  }

  lemma {:induction false} CleanListSurvives(ps: seq<string>)
    requires forall i :: 0 <= i < |ps| ==> CleanPhrase(ps[i])
    ensures UnmaskedAll(EncodedAll(ps)) == ps
    decreases |ps|
  {
    if ps != [] {
      UnderscoreRoundTrip(ps[0]);
      CleanListSurvives(ps[1..]);
    }
  }

  /** The comma-separated field holds one item for every phrase, and each item reads as its phrase. */
  lemma FieldRoundTrip(ps: seq<string>)
    requires ps != [] && forall i :: 0 <= i < |ps| ==> ps[i] != "" && CommaFree(ps[i]) && CleanPhrase(ps[i])
    ensures Pieces(Field(ps), "") == EncodedAll(ps) && UnmaskedAll(Pieces(Field(ps), "")) == ps
  {
    var es := EncodedAll(ps);
    forall i | 0 <= i < |ps|
      ensures Encoded(ps[i]) != ""
    {
      CleanIsNotEmpty(ps[i]);
    }
    FieldIsJoin(ps);
    EncodedListCommaFree(ps);
    PiecesOfField(es);
    CleanListSurvives(ps);
  }

  lemma PiecesOfField(es: seq<string>)
    requires es != [] && forall i :: 0 <= i < |es| ==> CommaFree(es[i])
    ensures Pieces(JoinWith(",", es), "") == es
  {
    PiecesOfJoin("", es, "");
    assert "," + "" == "," && "" + es[0] == es[0];
    NoBlank(es[1..]);
    HeadAndTail(es);
  }
}
