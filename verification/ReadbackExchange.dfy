/** The dialog with several clearances owed: read back one at a time, or all in one transmission. */
module ReadbackExchange {
  import opened Options
  import opened Text
  import opened AtcTypes
  import opened DialogSpec
  import ReadbackQueue
  import opened TokenCollapse
  import FrequencyWords
  import opened FrequencyNormaliser
  import opened FrequencyTwice
  import opened FrequencyRoundTrip
  import opened ReadbackTokens
  import opened ReadbackItems
  import opened ReadbackSpeech
  import opened ReadbackHearing
  import opened ReadbackTogether
  import ReadbackVerdict
  import ReadbackVerifier

  // ── The joined text ─────────────────────────────────────────────────────────

  function Texts(cs: seq<seq<Item>>): (q: seq<string>)
    requires forall i :: 0 <= i < |cs| ==> ItemsOk(cs[i])
    ensures |q| == |cs| && forall i :: 0 <= i < |cs| ==> q[i] == Utterance(cs[i], Written)
  {
    if cs == [] then [] else Texts(cs[..|cs|-1]) + [Utterance(cs[|cs|-1], Written)]
  }

  /** Clearances that can be written one after the other. */
  predicate Sayable(v: Vocabulary, lx: Lexis, cs: seq<seq<Item>>)
    ensures Sayable(v, lx, cs) ==> forall i :: 0 <= i < |cs| ==> ItemsOk(cs[i])
  {
    && (forall i :: 0 <= i < |cs| ==> TextItems(v, lx, cs[i]) && Definite(cs[i]))
    && Spaced(Flat(cs))
  }

  lemma {:induction false} FlatItems(v: Vocabulary, lx: Lexis, cs: seq<seq<Item>>)
    requires forall i :: 0 <= i < |cs| ==> TextItems(v, lx, cs[i])
    ensures TextItems(v, lx, Flat(cs))
    decreases |cs|
  {
    if cs != [] {
      FlatItems(v, lx, cs[..|cs|-1]);
    }
  }

  lemma {:induction false} SplitAtSpace(a: string, b: string, cur: string)
    ensures Split(a + (" " + b), cur) == Split(a, cur) + Split(b, "")
    decreases |a|
  {
    if a == "" {
      assert "" + (" " + b) == " " + b && (" " + b)[1..] == b;
    } else {
      assert (a + (" " + b))[0] == a[0] && (a + (" " + b))[1..] == a[1..] + (" " + b);
      if IsSpace(a[0]) {
        SplitAtSpace(a[1..], b, "");
      } else {
        SplitAtSpace(a[1..], b, cur + [a[0]]);
      }
    }
  }

  lemma SplitAtTwoSpaces(a: string, b: string)
    ensures Split(a + "  " + b, "") == Split(a, "") + Split(b, "")
  {
    assert a + "  " + b == a + (" " + (" " + b)) && "" + (" " + b) == " " + b;
    SplitAtSpace(a, " " + b, "");
    SplitAtSpace("", b, "");
  }

  lemma DecimalInside(a: string, b: string, p: nat)
    requires DecimalAt(a + (" " + b), p)
    ensures DecimalAt(a, p) || (p > |a| && DecimalAt(b, p - |a| - 1))
  {
    var s := a + (" " + b);
    assert s[|a|] == ' ';
    if p <= |a| < p + 7 {
      DecimalIsLetters(s, p, |a| - p);
    } else if p + 7 <= |a| {
      assert s[p..p+7] == a[p..p+7];
    } else {
      assert s[p..p+7] == b[p - |a| - 1..p - |a| + 6];
    }
  }

  lemma SpaceSeparates(a: string, b: string)
    requires !HasDecimal(a) && !HasDecimal(b)
    ensures !HasDecimal(a + (" " + b))
  {
    var s := a + (" " + b);
    forall p: nat | p <= |s|
      ensures !DecimalAt(s, p)
    {
      if DecimalAt(s, p) {
        DecimalInside(a, b, p);
      }
    }
  }

  lemma TwoSpacesSeparate(a: string, b: string)
    requires !HasDecimal(a) && !HasDecimal(b)
    ensures !HasDecimal(a + "  " + b)
  {
    assert a + "  " + b == a + (" " + (" " + b)) && "" + (" " + b) == " " + b;
    ShortHasNoDecimal("");
    SpaceSeparates("", b);
    SpaceSeparates(a, " " + b);
  }

  lemma {:induction false} JoinHasNoDecimal(ws: seq<string>)
    requires forall i :: 0 <= i < |ws| ==> !HasDecimal(ws[i])
    ensures !HasDecimal(Join(ws))
    decreases |ws|
  {
    if ws == [] {
      ShortHasNoDecimal("");
    } else if |ws| > 1 {
      JoinHasNoDecimal(ws[1..]);
      SpaceSeparates(ws[0], Join(ws[1..]));
      assert Join(ws) == ws[0] + (" " + Join(ws[1..]));
    }
  }

  lemma {:induction false} WordsConcat(a: seq<Item>, b: seq<Item>, form: Form)
    requires ItemsOk(a) && ItemsOk(b)
    ensures Words(a + b, form) == Words(a, form) + Words(b, form)
    decreases |a|
  {
    if a == [] {
      assert a + b == b;
    } else {
      assert (a + b)[0] == a[0] && (a + b)[1..] == a[1..] + b;
      WordsConcat(a[1..], b, form);
      Assoc(WordsOf(a[0], form), Words(a[1..], form), Words(b, form));
    }
  }

  lemma OneText(v: Vocabulary, lx: Lexis, items: seq<Item>)
    requires Laws(v, lx) && TextItems(v, lx, items) && Spaced(items)
    ensures var t := Utterance(items, Written); Split(t, "") == Words(items, Written) && !HasDecimal(t)
  {
    NormalisedUtterance(v, lx, items, Written);
    SplitJoin(Words(items, Written));
    TextWords(v, lx, items, Written);
    forall i | 0 <= i < |Words(items, Written)|
      ensures !HasDecimal(Words(items, Written)[i])
    {
      assert GoodWord(v, Words(items, Written)[i]);
    }
    JoinHasNoDecimal(Words(items, Written));
  }

  /** The joined text has the words of all clearances, and "decimal" nowhere. */
  lemma {:induction false} JoinedWords(v: Vocabulary, lx: Lexis, cs: seq<seq<Item>>)
    requires Laws(v, lx) && Sayable(v, lx, cs) && ItemsOk(Flat(cs))
    ensures var s := ReadbackQueue.Join(Texts(cs)); Split(s, "") == Words(Flat(cs), Written) && !HasDecimal(s)
    decreases |cs|
  {
    if cs == [] {
      ShortHasNoDecimal("");
    } else {
      var init, last := cs[..|cs|-1], cs[|cs|-1];
      SpacedParts(Flat(init), last);
      FlatItems(v, lx, init);
      JoinedWords(v, lx, init);
      OneText(v, lx, last);
      WordsConcat(Flat(init), last, Written);
      JoinedTwo(ReadbackQueue.Join(Texts(init)), Utterance(last, Written));
      JoinOneMore(Texts(init), Utterance(last, Written));
    }
  }

  lemma JoinOneMore(q: seq<string>, t: string)
    ensures ReadbackQueue.Join(q + [t]) == (if ReadbackQueue.Join(q) == "" then "" else ReadbackQueue.Join(q) + "  ") + t
  {
    assert (q + [t])[..|q|] == q;
  }

  lemma JoinedTwo(head: string, t: string)
    requires !HasDecimal(head) && !HasDecimal(t)
    ensures var s := (if head == "" then "" else head + "  ") + t;
            Split(s, "") == Split(head, "") + Split(t, "") && !HasDecimal(s)
  {
    if head == "" {
      assert "" + t == t;
    } else {
      SplitAtTwoSpaces(head, t);
      TwoSpacesSeparate(head, t);
    }
  }

  /** The verifier hears the joined text as the items of all clearances. */
  lemma JoinedHeard(v: Vocabulary, lx: Lexis, cs: seq<seq<Item>>)
    requires Laws(v, lx) && Sayable(v, lx, cs) && TextItems(v, lx, Flat(cs))
    ensures VerifierTokens(v, lx, ReadbackQueue.Join(Texts(cs))) == ReadbackItems.Heard(Flat(cs), Written)
  {
    var s, ws := ReadbackQueue.Join(Texts(cs)), Words(Flat(cs), Written);
    JoinedWords(v, lx, cs);
    QuietIsUntouched(s);
    UntouchedIsKept(s);
    TextWords(v, lx, Flat(cs), Written);
    PlainWordsStay(v, ws);
    NormalisedUtterance(v, lx, Flat(cs), Written);
    SplitJoin(ws);
    HearItems(v, lx, Flat(cs), Written);
  }

  lemma PlainWordsStay(v: Vocabulary, ws: seq<string>)
    requires FrequencyWords.Sensible(v) && GoodWords(v, ws)
    ensures Collapse(FrequencyWords.Vhf(v), [], PushAll(v, ws)) == ws
  {
    assert AllStay(v, ws);
    PushStaying(v, ws);
    NoSeparatorIsNormal(v, ws);
    FrequencyWords.VhfIsLawful(v);
    CollapseReachesNormalForm(FrequencyWords.Vhf(v), ws);
  }

  // ── The queue ───────────────────────────────────────────────────────────────

  lemma {:induction false} UnsettledConcat(verifier: Verifier, a: seq<string>, b: seq<string>, ok: set<Field>)
    ensures ReadbackQueue.Unsettled(verifier, a + b, ok) == ReadbackQueue.Unsettled(verifier, a, ok) + ReadbackQueue.Unsettled(verifier, b, ok)
    decreases |a|
  {
    if a == [] {
      assert a + b == b;
    } else {
      assert (a + b)[0] == a[0] && (a + b)[1..] == a[1..] + b;
      UnsettledConcat(verifier, a[1..], b, ok);
    }
  }

  lemma {:induction false} SameUnsettled(verifier: Verifier, q: seq<string>, a: set<Field>, b: set<Field>)
    requires forall i :: 0 <= i < |q| ==> (ReadbackQueue.Settled(verifier, a, q[i]) <==> ReadbackQueue.Settled(verifier, b, q[i]))
    ensures ReadbackQueue.Unsettled(verifier, q, a) == ReadbackQueue.Unsettled(verifier, q, b)
    decreases |q|
  {
    if q != [] {
      SameUnsettled(verifier, q[1..], a, b);
    }
  }

  lemma {:induction false} NothingSettled(verifier: Verifier, q: seq<string>)
    ensures ReadbackQueue.Unsettled(verifier, q, {}) == q
    decreases |q|
  {
    if q != [] {
      NothingSettled(verifier, q[1..]);
    }
  }

  /** Fields that only the clearance at `k` names take that one out of the queue, and no other. */
  lemma CreditedAt(verifier: Verifier, q: seq<string>, k: nat, ok: set<Field>)
    requires k < |q| && verifier.fields(q[k]) != {}
    requires forall j :: 0 <= j < |q| && j != k ==> verifier.fields(q[j]) !! verifier.fields(q[k])
    ensures ReadbackQueue.Unsettled(verifier, q, ok + verifier.fields(q[k])) == ReadbackQueue.Unsettled(verifier, q[..k] + q[k+1..], ok)
  {
    Around(q, k);
    CreditedBetween(verifier, q[..k], q[k], q[k+1..], ok);
  }

  lemma CreditedBetween(verifier: Verifier, a: seq<string>, t: string, b: seq<string>, ok: set<Field>)
    requires verifier.fields(t) != {}
    requires forall i :: 0 <= i < |a| ==> verifier.fields(a[i]) !! verifier.fields(t)
    requires forall i :: 0 <= i < |b| ==> verifier.fields(b[i]) !! verifier.fields(t)
    ensures ReadbackQueue.Unsettled(verifier, (a + [t]) + b, ok + verifier.fields(t)) == ReadbackQueue.Unsettled(verifier, a + b, ok)
  {
    var more := ok + verifier.fields(t);
    UnsettledThree(verifier, a, t, b, more);
    SettledByItsFields(verifier, t, ok);
    OthersUnsettled(verifier, a, ok, verifier.fields(t));
    OthersUnsettled(verifier, b, ok, verifier.fields(t));
    UnsettledConcat(verifier, a, b, ok);
    EmptyMiddle(ReadbackQueue.Unsettled(verifier, a, ok), ReadbackQueue.Unsettled(verifier, b, ok));
  }

  lemma SettledByItsFields(verifier: Verifier, t: string, ok: set<Field>)
    requires verifier.fields(t) != {}
    ensures ReadbackQueue.Unsettled(verifier, [t], ok + verifier.fields(t)) == []
  {
    ReadbackVerifier.OneUnsettled(verifier, t, ok + verifier.fields(t));
  }

  lemma EmptyMiddle<T>(a: seq<T>, b: seq<T>)
    ensures (a + []) + b == a + b
  {}

  lemma UnsettledThree(verifier: Verifier, a: seq<string>, t: string, b: seq<string>, ok: set<Field>)
    ensures ReadbackQueue.Unsettled(verifier, (a + [t]) + b, ok)
            == (ReadbackQueue.Unsettled(verifier, a, ok) + ReadbackQueue.Unsettled(verifier, [t], ok)) + ReadbackQueue.Unsettled(verifier, b, ok)
  {
    UnsettledConcat(verifier, a + [t], b, ok);
    UnsettledConcat(verifier, a, [t], ok);
  }

  lemma OthersUnsettled(verifier: Verifier, q: seq<string>, ok: set<Field>, more: set<Field>)
    requires forall i :: 0 <= i < |q| ==> verifier.fields(q[i]) !! more
    ensures ReadbackQueue.Unsettled(verifier, q, ok + more) == ReadbackQueue.Unsettled(verifier, q, ok)
  {
    forall i | 0 <= i < |q|
      ensures ReadbackQueue.Settled(verifier, ok + more, q[i]) <==> ReadbackQueue.Settled(verifier, ok, q[i])
    {}
    SameUnsettled(verifier, q, ok + more, ok);
  }

  // ── The exchange ────────────────────────────────────────────────────────────

  /** These texts are owed. */
  predicate Owed(o: Obligations, q: seq<string>) {
    o.flag && o.pending == q && o.text == ReadbackQueue.Join(q)
  }

  lemma FieldsOfText(v: Vocabulary, lx: Lexis, items: seq<Item>)
    requires Laws(v, lx) && TextItems(v, lx, items) && Spaced(items)
    ensures FieldsPresent(v, lx, Utterance(items, Written)) == FieldsOf(items)
  {
    UtteranceHeard(v, lx, items, Written);
    FieldsHeard(items, Written);
    if Utterance(items, Written) == "" {
      NothingSaid(v, lx, items, Written);
    }
  }

  lemma FieldsOfEach(v: Vocabulary, lx: Lexis, cs: seq<seq<Item>>, i: nat)
    requires Laws(v, lx) && Sayable(v, lx, cs) && i < |cs|
    ensures FieldsPresent(v, lx, Texts(cs)[i]) == FieldsOf(cs[i])
  {
    SpacedEach(cs, i);
    FieldsOfText(v, lx, cs[i]);
  }

  lemma SlotsOfText(verifier: Verifier, text: string, items: seq<Item>)
    requires verifier.fields(text) == FieldsOf(items)
    ensures ReadbackQueue.Slots(verifier, text) == SlotsOf(items)
  {}

  /** In a disciplined queue no two clearances share a slot. */
  lemma QueueIsIndependent(verifier: Verifier, q: seq<string>, cs: seq<seq<Item>>)
    requires |q| == |cs| && ReadbackQueue.QueueOk(verifier, q)
    requires forall i :: 0 <= i < |cs| ==> Fine(cs[i]) && verifier.fields(q[i]) == FieldsOf(cs[i])
    ensures Independent(cs)
  {
    forall i, j | 0 <= i < j < |cs|
      ensures SlotsOf(cs[i]) !! SlotsOf(cs[j])
    {
      SlotsOfText(verifier, q[i], cs[i]);
      SlotsOfText(verifier, q[j], cs[j]);
      assert ReadbackQueue.Slots(verifier, q[i]) !! ReadbackQueue.Slots(verifier, q[j]);
    }
  }

  lemma QueueOfTexts(v: Vocabulary, lx: Lexis, cs: seq<seq<Item>>)
    requires Laws(v, lx) && Sayable(v, lx, cs)
    requires ReadbackQueue.QueueOk(ReadbackVerifier.TheVerifier(v, lx), Texts(cs))
    ensures Independent(cs)
    ensures forall i :: 0 <= i < |cs| ==> ReadbackVerifier.TheVerifier(v, lx).fields(Texts(cs)[i]) == FieldsOf(cs[i])
  {
    var verifier := ReadbackVerifier.TheVerifier(v, lx);
    forall i | 0 <= i < |cs|
      ensures Fine(cs[i]) && verifier.fields(Texts(cs)[i]) == FieldsOf(cs[i])
    {
      FieldsOfEach(v, lx, cs, i);
    }
    QueueIsIndependent(verifier, Texts(cs), cs);
  }

  lemma DistinctFields(a: seq<Item>, b: seq<Item>)
    requires SlotsOf(a) !! SlotsOf(b)
    ensures FieldsOf(a) !! FieldsOf(b)
  {
    forall f | f in FieldsOf(a)
      ensures f !in FieldsOf(b)
    {
      assert SlotOf(f) in SlotsOf(a) && SlotOf(f) !in SlotsOf(b);
    }
  }

  /** What the pilot says of one clearance matches, in the text of all, exactly its fields. */
  lemma MatchedOfOne(v: Vocabulary, lx: Lexis, cs: seq<seq<Item>>, k: nat, form: Form)
    requires Laws(v, lx) && Sayable(v, lx, cs) && Independent(cs) && k < |cs| && FieldsOf(cs[k]) != {}
    ensures MatchedFields(v, lx, ReadbackQueue.Join(Texts(cs)), Utterance(cs[k], form)) == FieldsOf(cs[k])
  {
    FlatItems(v, lx, cs);
    SpacedEach(cs, k);
    JoinedHeard(v, lx, cs);
    UtteranceHeard(v, lx, cs[k], form);
    MatchedIsThatClearance(cs, k, form);
    NotSilent(v, lx, cs[k], form);
    JoinedNotSilent(v, lx, cs, k);
  }

  lemma NotSilent(v: Vocabulary, lx: Lexis, items: seq<Item>, form: Form)
    requires Laws(v, lx) && TextItems(v, lx, items) && Spaced(items) && FieldsOf(items) != {}
    ensures Utterance(items, form) != ""
  {
    if Utterance(items, form) == "" {
      NothingSaid(v, lx, items, form);
    }
  }

  lemma SplitNothing()
    ensures Split("", "") == []
  {}

  lemma JoinedNotSilent(v: Vocabulary, lx: Lexis, cs: seq<seq<Item>>, k: nat)
    requires Laws(v, lx) && Sayable(v, lx, cs) && TextItems(v, lx, Flat(cs)) && k < |cs| && FieldsOf(cs[k]) != {}
    ensures ReadbackQueue.Join(Texts(cs)) != ""
  {
    JoinedWords(v, lx, cs);
    FlatAround(cs, k);
    assert Flat(cs) != [];
    SplitNothing();
  }

  /**
   * One at a time: reading back one of the outstanding clearances, in any wording and any order,
   * retires that one and no other that was not settled already.
   */
  lemma OneReadBackRetiresThatOne(v: Vocabulary, lx: Lexis, cs: seq<seq<Item>>, k: nat, form: Form, o: Obligations)
    requires Laws(v, lx) && Sayable(v, lx, cs) && k < |cs| && FieldsOf(cs[k]) != {}
    requires Owed(o, Texts(cs)) && ReadbackQueue.QueueOk(ReadbackVerifier.TheVerifier(v, lx), Texts(cs))
    ensures var verifier, others := ReadbackVerifier.TheVerifier(v, lx), Texts(cs)[..k] + Texts(cs)[k+1..];
            var after := Credited(verifier, o, Utterance(cs[k], form));
            && after.pending == ReadbackQueue.Unsettled(verifier, others, o.ok)
            && (o.ok == {} ==> after.pending == others)
  {
    var verifier, q := ReadbackVerifier.TheVerifier(v, lx), Texts(cs);
    QueueOfTexts(v, lx, cs);
    MatchedOfOne(v, lx, cs, k, form);
    forall j | 0 <= j < |q| && j != k
      ensures verifier.fields(q[j]) !! verifier.fields(q[k])
    {
      DistinctFields(cs[j], cs[k]);
    }
    CreditedAt(verifier, q, k, o.ok);
    NothingSettled(verifier, q[..k] + q[k+1..]);
  }

  /** What is left in the queue once every field of all clearances is credited names no field. */
  lemma {:induction false} OnlyFieldlessLeft(verifier: Verifier, q: seq<string>, ok: set<Field>)
    requires forall i :: 0 <= i < |q| ==> verifier.fields(q[i]) <= ok
    requires forall i :: 0 < i < |q| ==> verifier.fields(q[i]) != {}
    ensures ReadbackQueue.Unsettled(verifier, q, ok) == if q != [] && verifier.fields(q[0]) == {} then [q[0]] else []
    decreases |q|
  {
    if q != [] {
      OnlyFieldlessLeft(verifier, q[1..], ok);
    }
  }

  lemma FieldlessIsRight(v: Vocabulary, lx: Lexis, cl: string, rb: string)
    requires FieldsPresent(v, lx, cl) == {}
    ensures ReadbackVerifier.TheVerifier(v, lx).check(cl, rb) == []
  {
    if cl != "" && rb != "" {
      NothingNamed(VerifierTokens(v, lx, cl), VerifierTokens(v, lx, rb));
    }
    assert Check(v, lx, cl, rb) == [];
  }

  /** In one transmission: reading back all outstanding clearances ends the exchange at once. */
  lemma AllReadBackTogether(v: Vocabulary, lx: Lexis, cs: seq<seq<Item>>, form: Form, d: Dialog)
    requires Laws(v, lx) && Sayable(v, lx, cs) && TextItems(v, lx, Flat(cs))
    requires Owed(d.r.owed, Texts(cs)) && ReadbackQueue.QueueOk(ReadbackVerifier.TheVerifier(v, lx), Texts(cs))
    ensures var verifier, raw := ReadbackVerifier.TheVerifier(v, lx), Utterance(Flat(cs), form);
            !AsksAgain(verifier, d, raw) && AcceptReadback(verifier, d, raw) == d.(r := RbClear(d.r))
  {
    var verifier, q, raw := ReadbackVerifier.TheVerifier(v, lx), Texts(cs), Utterance(Flat(cs), form);
    QueueOfTexts(v, lx, cs);
    MatchedOfAll(v, lx, cs, form);
    AllCredited(verifier, q, cs, d.r.owed.ok);
    if q != [] && verifier.fields(q[0]) == {} {
      FieldlessIsRight(v, lx, q[0], raw);
      StillOwedAfterAll(verifier, d.r.owed, q, raw);
    } else {
      StillOwedAfterAll(verifier, d.r.owed, q, raw);
    }
    NothingStillOwed(verifier, d, raw);
  }

  lemma AllCredited(verifier: Verifier, q: seq<string>, cs: seq<seq<Item>>, ok: set<Field>)
    requires Independent(cs) && ReadbackQueue.QueueOk(verifier, q)
    requires |q| == |cs| && forall i :: 0 <= i < |cs| ==> verifier.fields(q[i]) == FieldsOf(cs[i])
    ensures ReadbackQueue.Unsettled(verifier, q, ok + FieldsOf(Flat(cs)))
            == if q != [] && verifier.fields(q[0]) == {} then [q[0]] else []
  {
    forall i | 0 <= i < |q|
      ensures verifier.fields(q[i]) <= ok + FieldsOf(Flat(cs))
    {
      FieldsOfAll(cs, i);
    }
    OnlyFieldlessLeft(verifier, q, ok + FieldsOf(Flat(cs)));
  }

  lemma NothingStillOwed(verifier: Verifier, d: Dialog, raw: string)
    requires StillOwed(verifier, d.r.owed, raw) == []
    ensures !AsksAgain(verifier, d, raw) && AcceptReadback(verifier, d, raw) == d.(r := RbClear(d.r))
  {}

  lemma MatchedOfAll(v: Vocabulary, lx: Lexis, cs: seq<seq<Item>>, form: Form)
    requires Laws(v, lx) && Sayable(v, lx, cs) && TextItems(v, lx, Flat(cs))
    ensures MatchedFields(v, lx, ReadbackQueue.Join(Texts(cs)), Utterance(Flat(cs), form)) == FieldsOf(Flat(cs))
  {
    JoinedHeard(v, lx, cs);
    UtteranceHeard(v, lx, Flat(cs), form);
    FlatDefinite(cs);
    AllMatched(Flat(cs), form);
    if FieldsOf(Flat(cs)) != {} {
      NotSilent(v, lx, Flat(cs), form);
      JoinedWords(v, lx, cs);
      SplitNothing();
    }
  }

  lemma StillOwedAfterAll(verifier: Verifier, o: Obligations, q: seq<string>, raw: string)
    requires Owed(o, q)
    requires ReadbackQueue.Unsettled(verifier, q, o.ok + verifier.matched(o.text, raw))
             == if q != [] && verifier.fields(q[0]) == {} then [q[0]] else []
    requires q != [] && verifier.fields(q[0]) == {} ==> verifier.check(q[0], raw) == []
    ensures StillOwed(verifier, o, raw) == []
  {
    if q != [] {
      ReadbackVerifier.JoinOne(q[0]);
    }
  }
}
