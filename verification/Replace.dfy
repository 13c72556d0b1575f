/** Replacing every occurrence of a text, left to right, never inside what was just put in. */
module Replace {

  /** Every occurrence of `from`, leftmost first, becomes `to`. */
  function ReplaceAll(s: string, from: string, to: string): string
    requires from != ""
  {
    if |s| < |from| then s
    else if s[..|from|] == from then to + ReplaceAll(s[|from|..], from, to)
    else [s[0]] + ReplaceAll(s[1..], from, to)
  }

  predicate Occurs(s: string, from: string, i: nat) {
    i + |from| <= |s| && s[i..i + |from|] == from
  }

  lemma SliceOf(s: string, i: nat, k: string, n: nat)
    requires Occurs(s, k, i) && n < |k|
    ensures s[i + n] == k[n]
  {
    assert s[i..i + |k|][n] == k[n];
  }

  /** `std::string::find`: the first occurrence at or after `pos`, the length when there is none. */
  method Find(s: string, from: string, pos: nat) returns (q: nat)
    requires from != "" && pos <= |s|
    ensures pos <= q <= |s|
    ensures forall i :: pos <= i < q ==> !Occurs(s, from, i)
    ensures q < |s| ==> Occurs(s, from, q)
  {
    q := pos;
    while q < |s| && !(q + |from| <= |s| && s[q..q + |from|] == from)
      invariant pos <= q <= |s|
      invariant forall i :: pos <= i < q ==> !Occurs(s, from, i)
    {
      q := q + 1;
    }
  }

  lemma {:induction false} NothingBefore(s: string, from: string, to: string, pos: nat, q: nat)
    requires from != "" && pos <= q <= |s| && forall i :: pos <= i < q ==> !Occurs(s, from, i)
    ensures ReplaceAll(s[pos..], from, to) == s[pos..q] + ReplaceAll(s[q..], from, to)
    decreases q - pos
  {
    var t := s[pos..];
    if pos == q {
      assert s[pos..q] == "";
    } else if |t| < |from| {
      assert t == s[pos..q] + s[q..];
    } else {
      assert !Occurs(s, from, pos);
      assert t[..|from|] == s[pos..pos + |from|] && t[1..] == s[pos+1..];
      NothingBefore(s, from, to, pos + 1, q);
      assert s[pos..q] == [s[pos]] + s[pos+1..q];
    }
  }

  /** What is put together when everything before `pos` is done. */
  function Done(s: string, from: string, to: string, pos: nat): string
    requires from != "" && pos <= |s|
  {
    s[..pos] + ReplaceAll(s[pos..], from, to)
  }

  lemma SkipToNext(s: string, from: string, to: string, pos: nat, q: nat)
    requires from != "" && pos <= q <= |s| && forall i :: pos <= i < q ==> !Occurs(s, from, i)
    ensures Done(s, from, to, pos) == Done(s, from, to, q)
  {
    NothingBefore(s, from, to, pos, q);
    assert s[..q] == s[..pos] + s[pos..q];
  }

  lemma PutIn(s: string, from: string, to: string, pos: nat)
    requires from != "" && Occurs(s, from, pos)
    ensures var t := s[..pos] + to + s[pos + |from|..];
            Done(t, from, to, pos + |to|) == Done(s, from, to, pos)
  {
    var t, tail := s[..pos] + to + s[pos + |from|..], s[pos + |from|..];
    assert s[pos..][..|from|] == from && s[pos..][|from|..] == tail;
    assert t[pos + |to|..] == tail && t[..pos + |to|] == s[..pos] + to;
  }

  /** The find-and-replace loop on a string that is rewritten in place. */
  method ReplaceEach(s: string, from: string, to: string) returns (res: string)
    requires from != ""
    ensures res == ReplaceAll(s, from, to)
  {
    res := s;
    assert s[0..] == s;
    var pos := Find(res, from, 0);
    SkipToNext(res, from, to, 0, pos);
    while pos < |res|
      invariant 0 <= pos <= |res| && (pos < |res| ==> Occurs(res, from, pos))
      invariant Done(res, from, to, pos) == ReplaceAll(s, from, to)
      decreases |res| - pos
    {
      PutIn(res, from, to, pos);
      var after := pos + |to|;
      res := res[..pos] + to + res[pos + |from|..];
      pos := Find(res, from, after);
      SkipToNext(res, from, to, after, pos);
    }
  }
}
