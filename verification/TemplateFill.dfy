/** `atc_templates::fill`: placeholders are replaced key by key, in the order of the map. */
module TemplateFill {
  import opened Replace

  datatype Var = Var(key: string, value: string)

  function Placeholder(key: string): string {
    "{" + key + "}"
  }

  /** One key after the other. */
  function Filled(text: string, vars: seq<Var>): string {
    if vars == [] then text
    else ReplaceAll(Filled(text, vars[..|vars|-1]), Placeholder(vars[|vars|-1].key), vars[|vars|-1].value)
  }

  /** Terminates for every template and every list of variables. */
  method Fill(text: string, vars: seq<Var>) returns (result: string)
    ensures result == Filled(text, vars)
  {
    result := text;
    for i := 0 to |vars|
      invariant result == Filled(text, vars[..i])
    {
      assert vars[..i+1][..i] == vars[..i];
      result := ReplaceEach(result, Placeholder(vars[i].key), vars[i].value);
    }
    assert vars[..|vars|] == vars;
  }

  // ── Templates ───────────────────────────────────────────────────────────────

  datatype Part = Literal(text: string) | Slot(name: string)

  function TextOf(p: Part): string {
    match p case Literal(t) => t case Slot(n) => Placeholder(n)
  }

  function Text(ps: seq<Part>): string {
    if ps == [] then "" else TextOf(ps[0]) + Text(ps[1..])
  }

  predicate BraceFree(s: string) {
    forall i :: 0 <= i < |s| ==> s[i] != '{' && s[i] != '}'
  }

  predicate PartOk(p: Part) {
    match p case Literal(t) => BraceFree(t) case Slot(n) => BraceFree(n)
  }

  predicate PartsOk(ps: seq<Part>) {
    forall i :: 0 <= i < |ps| ==> PartOk(ps[i])
  }

  /** Names without braces, each once; the values may be anything. */
  predicate VarsOk(vars: seq<Var>) {
    && (forall i :: 0 <= i < |vars| ==> BraceFree(vars[i].key))
    && (forall i, j :: 0 <= i < j < |vars| ==> vars[i].key != vars[j].key)
  }

  /** Every slot is replaced at once by the value of its name; a slot without a value stays. */
  function Substituted(ps: seq<Part>, vars: map<string, string>): seq<Part> {
    if ps == [] then []
    else
      [if ps[0].Slot? && ps[0].name in vars then Literal(vars[ps[0].name]) else ps[0]] + Substituted(ps[1..], vars)
  }

  function AsMap(vars: seq<Var>): map<string, string> {
    if vars == [] then map[] else AsMap(vars[..|vars|-1])[vars[|vars|-1].key := vars[|vars|-1].value]
  }

  // ── One key ─────────────────────────────────────────────────────────────────

  /** Text without an opening brace is passed over. */
  lemma {:induction false} PassOver(s: string, rest: string, from: string, to: string)
    requires from != "" && from[0] == '{' && forall i :: 0 <= i < |s| ==> s[i] != '{'
    ensures ReplaceAll(s + rest, from, to) == s + ReplaceAll(rest, from, to)
    decreases |s|
  {
    if s == "" {
      assert s + rest == rest;
    } else {
      var t := s + rest;
      assert t[1..] == s[1..] + rest && t[0] == s[0];
      PassOver(s[1..], rest, from, to);
      assert |t| >= |from| ==> t[..|from|][0] == s[0];
      if |t| < |from| {
        assert |rest| < |from|;
      }
    }
  }

  lemma SameSlot(key: string, rest: string, to: string)
    ensures ReplaceAll(Placeholder(key) + rest, Placeholder(key), to) == to + ReplaceAll(rest, Placeholder(key), to)
  {
    var from, t := Placeholder(key), Placeholder(key) + rest;
    assert t[..|from|] == from && t[|from|..] == rest;
  }

  /** Another name's slot does not start with the placeholder. */
  lemma OtherName(key: string, name: string, rest: string)
    requires BraceFree(key) && BraceFree(name) && key != name
    ensures var t := Placeholder(name) + rest;
            |t| >= |Placeholder(key)| ==> t[..|Placeholder(key)|] != Placeholder(key)
  {
    var from, t := Placeholder(key), Placeholder(name) + rest;
    if |name| == |key| {
      var i :| 0 <= i < |key| && key[i] != name[i];
      assert from[i + 1] == key[i] && t[i + 1] == name[i];
    } else if |name| < |key| {
      assert t[|name| + 1] == '}' && from[|name| + 1] == key[|name|];
    } else {
      assert t[|key| + 1] == name[|key|] && from[|key| + 1] == '}';
    }
  }

  lemma OtherSlot(key: string, name: string, rest: string, to: string)
    requires BraceFree(key) && BraceFree(name) && key != name
    ensures ReplaceAll(Placeholder(name) + rest, Placeholder(key), to)
            == Placeholder(name) + ReplaceAll(rest, Placeholder(key), to)
  {
    var from, t := Placeholder(key), Placeholder(name) + rest;
    var tail := name + "}";
    assert t == "{" + (tail + rest) && t[1..] == tail + rest;
    OtherName(key, name, rest);
    PassOver(tail, rest, from, to);
    assert Placeholder(name) == "{" + tail;
    if |t| < |from| {
      assert |rest| < |from|;
    } else {
      assert ReplaceAll(t, from, to) == [t[0]] + ReplaceAll(tail + rest, from, to);
    }
  }

  // ── Placeholders that form out of values ────────────────────────────────────

  /** `a` ends with the opening brace and the first `n` characters of a placeholder. */
  predicate Opens(a: string, key: string, n: nat) {
    n <= |key| && |a| > n && a[|a|-n-1..] == "{" + key[..n]
  }

  /** `b` starts with the last `m` characters of a placeholder and its closing brace. */
  predicate Closes(b: string, key: string, m: nat) {
    m <= |key| && |b| > m && b[..m+1] == key[|key|-m..] + "}"
  }

  /** The placeholder of `key` stands in one of the values, or begins in one and ends in one. */
  ghost predicate Forms(key: string, values: set<string>) {
    || (exists v, i :: v in values && 0 <= i <= |v| && Occurs(v, Placeholder(key), i))
    || (exists a, b, n: nat, m: nat :: a in values && b in values && n + m <= |key| && Opens(a, key, n) && Closes(b, key, m))
  }

  function Values(vars: seq<Var>): set<string> {
    set v | v in vars :: v.value
  }

  function Others(vars: seq<Var>, key: string): set<string> {
    set v | v in vars && v.key != key :: v.value
  }

  /** No name's placeholder forms out of the values of the other names, unless its value is that placeholder. */
  ghost predicate NothingForms(vars: seq<Var>) {
    forall v :: v in vars ==> v.value == Placeholder(v.key) || !Forms(v.key, Others(vars, v.key))
  }

  /** A text whose braces are those of slots and of values. */
  predicate Piece(p: Part, values: set<string>) {
    match p case Literal(t) => BraceFree(t) || t in values case Slot(n) => BraceFree(n)
  }

  predicate Pieces(ps: seq<Part>, values: set<string>) {
    forall i :: 0 <= i < |ps| ==> Piece(ps[i], values)
  }

  predicate StartsWith(s: string, t: string) {
    |s| >= |t| && s[..|t|] == t
  }

  lemma StartsInside(u: string, rest: string, k: string)
    requires StartsWith(u + rest, k) && |u| <= |k|
    ensures u == k[..|u|] && StartsWith(rest, k[|u|..])
  {
    var t := u + rest;
    assert t[..|k|][..|u|] == u && t[..|k|][|u|..] == rest[..|k|-|u|];
  }

  lemma StartsWithin(u: string, rest: string, k: string)
    requires StartsWith(u + rest, k) && |u| >= |k|
    ensures StartsWith(u, k)
  {
    assert (u + rest)[..|k|] == u[..|k|];
  }

  lemma SlotStartsAnew(name: string, rest: string, end: string)
    requires end != "" && end[0] != '{'
    ensures !StartsWith(Placeholder(name) + rest, end)
  {
    var s := Placeholder(name) + rest;
    assert |s| >= |end| ==> s[..|end|][0] == '{';
  }

  lemma EndOfEnd(key: string, j: nat, n: nat)
    requires j + n <= |key|
    ensures (key[j..] + "}")[n..] == key[j+n..] + "}"
  {}

  lemma EndCloses(u: string, key: string, j: nat)
    requires j <= |key| && StartsWith(u, key[j..] + "}")
    ensures Closes(u, key, |key| - j) && '}' in u
  {
    var m := |key| - j;
    assert key[|key|-m..] == key[j..] && u[m] == '}';
  }

  /** What goes on with the end of a placeholder has a value that closes it. */
  lemma {:induction false} RestCloses(ps: seq<Part>, values: set<string>, key: string, j: nat) returns (b: string, m: nat)
    requires Pieces(ps, values) && BraceFree(key) && j <= |key| && StartsWith(Text(ps), key[j..] + "}")
    ensures b in values && m <= |key| - j && Closes(b, key, m)
    decreases |ps|
  {
    var end := key[j..] + "}";
    assert ps != [] && end[0] != '{';
    var u, rest := TextOf(ps[0]), Text(ps[1..]);
    if ps[0].Slot? {
      SlotStartsAnew(ps[0].name, rest, end);
      assert false;
    } else if |u| < |end| {
      StartsInside(u, rest, end);
      EndOfEnd(key, j, |u|);
      b, m := RestCloses(ps[1..], values, key, j + |u|);
    } else {
      StartsWithin(u, rest, end);
      EndCloses(u, key, j);
      b, m := u, |key| - j;
    }
  }

  /** A placeholder that starts in a literal or a value forms out of values. */
  lemma StartingForms(t: string, ps: seq<Part>, values: set<string>, key: string, i: nat)
    requires (BraceFree(t) || t in values) && Pieces(ps, values) && BraceFree(key) && i < |t|
    requires Occurs(t + Text(ps), Placeholder(key), i)
    ensures Forms(key, values)
  {
    var from, s := Placeholder(key), t + Text(ps);
    SliceOf(s, i, from, 0);
    assert s[i] == t[i] == '{';
    assert t in values;
    if i + |from| <= |t| {
      assert s[i..i + |from|] == t[i..i + |from|];
      assert Occurs(t, from, i);
    } else {
      Crossing(t, Text(ps), from, i);
      var n := |t| - i - 1;
      assert from[..n+1] == "{" + key[..n] && from[n+1..] == key[n..] + "}";
      var b, m := RestCloses(ps, values, key, n);
      assert Opens(t, key, n);
    }
  }

  lemma Crossing(t: string, rest: string, from: string, i: nat)
    requires i < |t| < i + |from| && Occurs(t + rest, from, i)
    ensures t[i..] == from[..|t|-i] && StartsWith(rest, from[|t|-i..])
  {
    var s := t + rest;
    assert s[i..i + |from|] == t[i..] + rest[..i + |from| - |t|];
    assert (t[i..] + rest[..i + |from| - |t|])[..|t|-i] == t[i..];
  }

  /** A text in which no placeholder starts is passed over. */
  lemma PassBy(t: string, rest: string, from: string, to: string)
    requires from != "" && forall i :: 0 <= i < |t| ==> !Occurs(t + rest, from, i)
    ensures ReplaceAll(t + rest, from, to) == t + ReplaceAll(rest, from, to)
  {
    var s := t + rest;
    NothingBefore(s, from, to, 0, |t|);
    assert s[0..] == s && s[..|t|] == t && s[|t|..] == rest;
  }

  lemma {:induction false} OneKey(ps: seq<Part>, values: set<string>, key: string, to: string)
    requires Pieces(ps, values) && BraceFree(key) && !Forms(key, values)
    ensures ReplaceAll(Text(ps), Placeholder(key), to) == Text(Substituted(ps, map[key := to]))
    decreases |ps|
  {
    if ps != [] {
      var rest := Text(ps[1..]);
      OneKey(ps[1..], values, key, to);
      assert Substituted(ps, map[key := to])[1..] == Substituted(ps[1..], map[key := to]);
      match ps[0]
      case Literal(t) =>
        forall i | 0 <= i < |t|
          ensures !Occurs(t + rest, Placeholder(key), i)
        {
          if Occurs(t + rest, Placeholder(key), i) {
            StartingForms(t, ps[1..], values, key, i);
          }
        }
        PassBy(t, rest, Placeholder(key), to);
      case Slot(n) =>
        if n == key {
          SameSlot(key, rest, to);
        } else {
          OtherSlot(key, n, rest, to);
        }
    }
  }

  /** A placeholder that stands for itself changes nothing. */
  lemma {:induction false} ReplacedByItself(s: string, from: string)
    requires from != ""
    ensures ReplaceAll(s, from, from) == s
    decreases |s|
  {
    if |s| >= |from| {
      if s[..|from|] == from {
        ReplacedByItself(s[|from|..], from);
      } else {
        ReplacedByItself(s[1..], from);
      }
    }
  }

  lemma {:induction false} SubstitutedByItself(ps: seq<Part>, key: string)
    ensures Text(Substituted(ps, map[key := Placeholder(key)])) == Text(ps)
    decreases |ps|
  {
    if ps != [] {
      SubstitutedByItself(ps[1..], key);
      assert Substituted(ps, map[key := Placeholder(key)])[1..] == Substituted(ps[1..], map[key := Placeholder(key)]);
    }
  }

  // ── All keys ────────────────────────────────────────────────────────────────

  lemma {:induction false} SubstitutedPieces(ps: seq<Part>, vars: map<string, string>, values: set<string>)
    requires PartsOk(ps) && forall k :: k in vars ==> vars[k] in values
    ensures Pieces(Substituted(ps, vars), values)
    decreases |ps|
  {
    if ps != [] {
      SubstitutedPieces(ps[1..], vars, values);
    }
  }

  lemma {:induction false} OneMoreKey(ps: seq<Part>, vars: map<string, string>, key: string, value: string)
    requires key !in vars
    ensures Substituted(Substituted(ps, vars), map[key := value]) == Substituted(ps, vars[key := value])
    decreases |ps|
  {
    if ps != [] {
      OneMoreKey(ps[1..], vars, key, value);
    }
  }

  lemma {:induction false} AsMapFacts(vars: seq<Var>)
    requires VarsOk(vars)
    ensures forall v :: v in vars ==> v.key in AsMap(vars) && AsMap(vars)[v.key] == v.value
    ensures forall k :: k in AsMap(vars) ==> Var(k, AsMap(vars)[k]) in vars
    decreases |vars|
  {
    if vars != [] {
      var init, last := vars[..|vars|-1], vars[|vars|-1];
      AsMapFacts(init);
      forall v | v in vars
        ensures v == last || (v in init && v.key != last.key)
      {}
      assert last in vars && forall v :: v in init ==> v in vars;
    }
  }

  lemma FormsOfMore(key: string, few: set<string>, more: set<string>)
    requires few <= more && Forms(key, few)
    ensures Forms(key, more)
  {}

  /** No name's placeholder forms out of the values that are put in before its own, unless its value is that
      placeholder. */
  ghost predicate NothingFormsInOrder(vars: seq<Var>) {
    forall j :: 0 <= j < |vars| ==> vars[j].value == Placeholder(vars[j].key) || !Forms(vars[j].key, Values(vars[..j]))
  }

  /** What does not form out of all values does not form out of those put in so far. */
  lemma NothingFormsEarlier(vars: seq<Var>)
    requires VarsOk(vars) && NothingForms(vars)
    ensures NothingFormsInOrder(vars)
  {
    forall j | 0 <= j < |vars|
      ensures vars[j].value == Placeholder(vars[j].key) || !Forms(vars[j].key, Values(vars[..j]))
    {
      var v := vars[j];
      assert v in vars;
      EarlierAreOthers(vars, j);
      if Forms(v.key, Values(vars[..j])) {
        FormsOfMore(v.key, Values(vars[..j]), Others(vars, v.key));
      }
    }
  }

  lemma EarlierAreOthers(vars: seq<Var>, j: nat)
    requires VarsOk(vars) && j < |vars|
    ensures Values(vars[..j]) <= Others(vars, vars[j].key)
  {
    forall u | u in vars[..j]
      ensures u in vars && u.key != vars[j].key
    {}
  }

  lemma InOrderBefore(vars: seq<Var>, n: nat)
    requires VarsOk(vars) && NothingFormsInOrder(vars) && n <= |vars|
    ensures VarsOk(vars[..n]) && NothingFormsInOrder(vars[..n])
  {
    forall j | 0 <= j < n
      ensures vars[..n][..j] == vars[..j] && vars[..n][j] == vars[j]
    {}
  }

  /** In one order: key by key, in place, is the same as all at once. */
  lemma {:induction false} FillInOrder(ps: seq<Part>, vars: seq<Var>)
    requires PartsOk(ps) && VarsOk(vars) && NothingFormsInOrder(vars)
    ensures Filled(Text(ps), vars) == Text(Substituted(ps, AsMap(vars)))
    decreases |vars|
  {
    if vars == [] {
      NothingSubstituted(ps);
    } else {
      var init, v := vars[..|vars|-1], vars[|vars|-1];
      InOrderBefore(vars, |vars| - 1);
      FillInOrder(ps, init);
      AsMapFacts(init);
      var done := Substituted(ps, AsMap(init));
      SubstitutedPieces(ps, AsMap(init), Values(init));
      NewKey(init, v);
      OneMoreKey(ps, AsMap(init), v.key, v.value);
      LastKey(done, Values(init), v);
    }
  }

  lemma NewKey(init: seq<Var>, v: Var)
    requires VarsOk(init + [v])
    ensures v.key !in AsMap(init)
  {
    var vars := init + [v];
    assert VarsOk(init) by {
      assert forall i :: 0 <= i < |init| ==> vars[i] == init[i];
    }
    AsMapFacts(init);
    forall u | u in init
      ensures u.key != v.key
    {
      var i :| 0 <= i < |init| && init[i] == u;
      assert vars[i] == u && vars[|init|] == v;
    }
  }

  /** In any order, when nothing forms at all. */
  lemma FillIsSubstitution(ps: seq<Part>, vars: seq<Var>)
    requires PartsOk(ps) && VarsOk(vars) && NothingForms(vars)
    ensures Filled(Text(ps), vars) == Text(Substituted(ps, AsMap(vars)))
  {
    NothingFormsEarlier(vars);
    FillInOrder(ps, vars);
  }

  lemma LastKey(ps: seq<Part>, values: set<string>, v: Var)
    requires Pieces(ps, values) && BraceFree(v.key)
    requires v.value == Placeholder(v.key) || !Forms(v.key, values)
    ensures ReplaceAll(Text(ps), Placeholder(v.key), v.value) == Text(Substituted(ps, map[v.key := v.value]))
  {
    if v.value == Placeholder(v.key) {
      ReplacedByItself(Text(ps), v.value);
      SubstitutedByItself(ps, v.key);
    } else {
      OneKey(ps, values, v.key, v.value);
    }
  }

  lemma {:induction false} NothingSubstituted(ps: seq<Part>)
    ensures Substituted(ps, map[]) == ps
    decreases |ps|
  {
    if ps != [] {
      NothingSubstituted(ps[1..]);
    }
  }

  lemma SameMembers(a: seq<Var>, b: seq<Var>)
    requires multiset(a) == multiset(b)
    ensures forall v :: v in a <==> v in b
  {
    forall v: Var
      ensures v in a <==> v in b
    {
      assert v in multiset(a) <==> v in multiset(b);
    }
  }

  lemma SameMap(a: seq<Var>, b: seq<Var>)
    requires VarsOk(a) && VarsOk(b) && forall v :: v in a <==> v in b
    ensures AsMap(a) == AsMap(b)
  {
    AsMapFacts(a);
    AsMapFacts(b);
    forall k
      ensures k in AsMap(a) <==> k in AsMap(b)
      ensures k in AsMap(a) && k in AsMap(b) ==> AsMap(a)[k] == AsMap(b)[k]
    {
      if k in AsMap(a) {
        assert Var(k, AsMap(a)[k]) in b;
      }
      if k in AsMap(b) {
        assert Var(k, AsMap(b)[k]) in a;
      }
    }
  }

  lemma SameForming(a: seq<Var>, b: seq<Var>)
    requires NothingForms(a) && forall v :: v in a <==> v in b
    ensures NothingForms(b)
  {
    forall v | v in b
      ensures v.value == Placeholder(v.key) || !Forms(v.key, Others(b, v.key))
    {
      assert v in a && Others(a, v.key) == Others(b, v.key);
    }
  }

  /** When nothing forms the order of the keys does not matter. */
  lemma KeyOrderIsIrrelevant(ps: seq<Part>, a: seq<Var>, b: seq<Var>)
    requires PartsOk(ps) && VarsOk(a) && VarsOk(b) && multiset(a) == multiset(b) && NothingForms(a)
    ensures Filled(Text(ps), a) == Filled(Text(ps), b)
  {
    SameMembers(a, b);
    SameMap(a, b);
    SameForming(a, b);
    FillIsSubstitution(ps, a);
    FillIsSubstitution(ps, b);
  }

  lemma BothBracesInside(t: string, key: string, i: nat)
    requires Occurs(t, Placeholder(key), i)
    ensures '{' in t && '}' in t
  {
    SliceOf(t, i, Placeholder(key), 0);
    SliceOf(t, i, Placeholder(key), |key| + 1);
  }

  lemma BothBracesBetween(a: string, b: string, key: string, n: nat, m: nat)
    requires Opens(a, key, n) && Closes(b, key, m)
    ensures '{' in a && '}' in b
  {
    assert a[|a|-n-1..][0] == '{' && b[..m+1][m] == '}';
  }

  /** Nothing forms out of values of which none has an opening brace, or none a closing one. */
  lemma OneKindOfBraceIsSafe(vars: seq<Var>, brace: char)
    requires VarsOk(vars) && (brace == '{' || brace == '}')
    requires forall v :: v in vars ==> brace !in v.value
    ensures NothingForms(vars)
  {
    forall v | v in vars
      ensures !Forms(v.key, Others(vars, v.key))
    {
      forall t, i: nat | t in Others(vars, v.key) && Occurs(t, Placeholder(v.key), i)
        ensures false
      {
        BothBracesInside(t, v.key, i);
      }
      forall a, b, n: nat, m: nat
        | a in Others(vars, v.key) && b in Others(vars, v.key) && Opens(a, v.key, n) && Closes(b, v.key, m)
        ensures false
      {
        BothBracesBetween(a, b, v.key, n, m);
      }
    }
  }

  // ── When something forms ────────────────────────────────────────────────────

  lemma {:induction false} FirstOccurrence(s: string, from: string, i: nat) returns (j: nat)
    requires Occurs(s, from, i)
    ensures Occurs(s, from, j) && forall k :: 0 <= k < j ==> !Occurs(s, from, k)
    decreases i
  {
    if k :| 0 <= k < i && Occurs(s, from, k) {
      j := FirstOccurrence(s, from, k);
    } else {
      j := i;
    }
  }

  lemma {:induction false} LengthMoves(s: string, from: string, to: string)
    requires from != ""
    ensures |to| >= |from| ==> |ReplaceAll(s, from, to)| >= |s|
    ensures |to| <= |from| ==> |ReplaceAll(s, from, to)| <= |s|
    decreases |s|
  {
    if |s| >= |from| {
      if s[..|from|] == from {
        LengthMoves(s[|from|..], from, to);
      } else {
        LengthMoves(s[1..], from, to);
      }
    }
  }

  /** Replacing something that stands in a text by something else changes the text. */
  lemma ReplaceChanges(s: string, from: string, to: string, i: nat)
    requires from != "" && from != to && Occurs(s, from, i)
    ensures ReplaceAll(s, from, to) != s
  {
    var j := FirstOccurrence(s, from, i);
    var after := s[j + |from|..];
    NothingBefore(s, from, to, 0, j);
    assert s[0..] == s && s[0..j] == s[..j] && s[j..][..|from|] == from && s[j..][|from|..] == after;
    var r := ReplaceAll(s, from, to);
    assert r == s[..j] + (to + ReplaceAll(after, from, to));
    LengthMoves(after, from, to);
    if |to| == |from| {
      assert r[j..j + |from|] == to && s[j..j + |from|] == from;
    }
  }

  predicate Named(ps: seq<Part>, key: string) {
    Slot(key) in ps
  }

  lemma {:induction false} NothingNamed(ps: seq<Part>, key: string, to: string)
    requires !Named(ps, key)
    ensures Substituted(ps, map[key := to]) == ps
    decreases |ps|
  {
    if ps != [] {
      assert ps[0] in ps;
      NothingNamed(ps[1..], key, to);
    }
  }

  /** An unnamed key leaves a template as it is. */
  lemma UnnamedKey(ps: seq<Part>, v: Var)
    requires PartsOk(ps) && BraceFree(v.key) && !Named(ps, v.key)
    ensures ReplaceAll(Text(ps), Placeholder(v.key), v.value) == Text(ps)
  {
    OneKey(ps, {}, v.key, v.value);
    NothingNamed(ps, v.key, v.value);
  }

  /** Keys that a template does not name leave it as it is. */
  lemma {:induction false} UnnamedKeys(ps: seq<Part>, vars: seq<Var>)
    requires PartsOk(ps) && VarsOk(vars) && forall v :: v in vars ==> !Named(ps, v.key)
    ensures Filled(Text(ps), vars) == Text(ps)
    decreases |vars|
  {
    if vars != [] {
      var init, v := vars[..|vars|-1], vars[|vars|-1];
      assert v in vars && forall u :: u in init ==> u in vars;
      UnnamedKeys(ps, init);
      UnnamedKey(ps, v);
    }
  }

  lemma FilledMore(text: string, vars: seq<Var>, v: Var)
    ensures Filled(text, vars + [v]) == ReplaceAll(Filled(text, vars), Placeholder(v.key), v.value)
  {
    assert (vars + [v])[..|vars|] == vars;
  }

  lemma WithoutOne<T>(s: seq<T>, i: nat)
    requires i < |s|
    ensures multiset(s[..i] + s[i+1..]) + multiset{s[i]} == multiset(s)
  {
    assert s == s[..i] + ([s[i]] + s[i+1..]);
  }

  lemma OtherKeys(vars: seq<Var>, i: nat)
    requires VarsOk(vars) && i < |vars|
    ensures var rest := vars[..i] + vars[i+1..];
            VarsOk(rest) && forall j :: 0 <= j < |rest| ==> rest[j] in vars && rest[j].key != vars[i].key
  {
    var rest := vars[..i] + vars[i+1..];
    forall j | 0 <= j < |rest|
      ensures rest[j] == vars[if j < i then j else j + 1]
    {}
  }

  /** Take one variable out. */
  lemma TakeOut(vars: seq<Var>, v: Var) returns (rest: seq<Var>)
    requires VarsOk(vars) && v in vars
    ensures VarsOk(rest) && multiset(rest) + multiset{v} == multiset(vars)
    ensures forall u :: u in rest <==> u in vars && u != v
    ensures forall u :: u in rest ==> u.key != v.key
  {
    var i :| 0 <= i < |vars| && vars[i] == v;
    rest := vars[..i] + vars[i+1..];
    WithoutOne(vars, i);
    OtherKeys(vars, i);
    forall u | u in vars && u != v
      ensures u in rest
    {
      assert u in multiset(vars);
    }
  }

  /** The order matters for some template. */
  ghost predicate OrderMatters(vars: seq<Var>) {
    exists ps, a, b :: PartsOk(ps) && multiset(a) == multiset(vars) && multiset(b) == multiset(vars)
                       && Filled(Text(ps), a) != Filled(Text(ps), b)
  }

  lemma OneSlot(name: string)
    ensures Text([Slot(name)]) == Placeholder(name)
  {
    assert Text([]) == "" && [Slot(name)][1..] == [];
  }

  lemma TwoMore(text: string, rest: seq<Var>, a: Var, b: Var)
    ensures Filled(text, (rest + [a]) + [b])
            == ReplaceAll(ReplaceAll(Filled(text, rest), Placeholder(a.key), a.value), Placeholder(b.key), b.value)
  {
    FilledMore(text, rest, a);
    FilledMore(text, rest + [a], b);
  }

  /** Two orders that give different results for a template. */
  lemma Differ(vars: seq<Var>, ps: seq<Part>, a: seq<Var>, b: seq<Var>)
    requires PartsOk(ps) && multiset(a) == multiset(vars) && multiset(b) == multiset(vars)
    requires Filled(Text(ps), a) != Filled(Text(ps), b)
    ensures OrderMatters(vars)
  {}

  // ── A placeholder between two values ────────────────────────────────────────

  /** The template in which `t` stands between the values of `a` and `b`. */
  function Bridge(a: string, t: string, b: string): seq<Part> {
    [Slot(a), Literal(t), Slot(b)]
  }

  lemma BridgeText(a: string, t: string, b: string)
    ensures Text(Bridge(a, t, b)) == Placeholder(a) + (t + Placeholder(b))
    ensures Text([Literal(t), Slot(b)]) == t + Placeholder(b)
  {
    OneSlot(b);
    assert Bridge(a, t, b)[1..] == [Literal(t), Slot(b)] && [Literal(t), Slot(b)][1..] == [Slot(b)];
  }

  /** Where a placeholder starts before one, it stands in the value. */
  lemma StandsInValue(x: string, t: string, b: string, i: nat)
    requires BraceFree(t) && BraceFree(b) && i < |x + t| && Occurs((x + t) + Placeholder(b), Placeholder(b), i)
    ensures Occurs(x, Placeholder(b), i)
  {
    var from, s := Placeholder(b), (x + t) + Placeholder(b);
    assert s[|x + t|] == '{' && forall j :: |x| <= j < |x + t| ==> s[j] == t[j - |x|];
    SliceOf(s, i, from, |from| - 1);
    if |x + t| < i + |from| {
      SliceOf(s, i, from, |x + t| - i);
    }
    assert x[i..i + |from|] == s[i..i + |from|];
  }

  lemma FirstPutIn(a: Var, t: string, b: string)
    requires BraceFree(a.key) && BraceFree(b) && BraceFree(t) && a.key != b
    ensures ReplaceAll(Text(Bridge(a.key, t, b)), Placeholder(a.key), a.value) == (a.value + t) + Placeholder(b)
  {
    BridgeText(a.key, t, b);
    SameSlot(a.key, t + Placeholder(b), a.value);
    UnnamedKey([Literal(t), Slot(b)], a);
    assert a.value + (t + Placeholder(b)) == (a.value + t) + Placeholder(b);
  }

  lemma SecondPutIn(x: string, t: string, b: Var)
    requires BraceFree(t) && BraceFree(b.key) && forall j :: 0 <= j <= |x| ==> !Occurs(x, Placeholder(b.key), j)
    ensures ReplaceAll((x + t) + Placeholder(b.key), Placeholder(b.key), b.value) == (x + t) + b.value
  {
    var s := (x + t) + Placeholder(b.key);
    forall i | 0 <= i < |x + t|
      ensures !Occurs(s, Placeholder(b.key), i)
    {
      if Occurs(s, Placeholder(b.key), i) {
        StandsInValue(x, t, b.key, i);
      }
    }
    PassBy(x + t, Placeholder(b.key), Placeholder(b.key), b.value);
    ReplaceWhole(Placeholder(b.key), b.value);
  }

  lemma BridgeFilledTwice(a: Var, t: string)
    requires BraceFree(a.key) && BraceFree(t)
    ensures ReplaceAll(Text(Bridge(a.key, t, a.key)), Placeholder(a.key), a.value) == (a.value + t) + a.value
  {
    BridgeText(a.key, t, a.key);
    SameSlot(a.key, t + Placeholder(a.key), a.value);
    PassOver(t, Placeholder(a.key), Placeholder(a.key), a.value);
    ReplaceWhole(Placeholder(a.key), a.value);
    assert a.value + (t + a.value) == (a.value + t) + a.value;
  }

  /** The placeholder stands where the values meet. */
  lemma BridgeHolds(a: string, b: string, key: string, n: nat, m: nat)
    requires n + m <= |key| && Opens(a, key, n) && Closes(b, key, m)
    ensures Occurs((a + key[n..|key|-m]) + b, Placeholder(key), |a| - n - 1)
  {
    var t, i := key[n..|key|-m], |a| - n - 1;
    var s := (a + t) + b;
    assert s[i..i + |key| + 2] == (a[i..] + t) + b[..m+1];
    assert key == (key[..n] + t) + key[|key|-m..];
    assert Placeholder(key) == (("{" + key[..n]) + t) + (key[|key|-m..] + "}");
  }

  lemma ThreeMore(text: string, rest: seq<Var>, a: Var, b: Var, c: Var)
    ensures Filled(text, ((rest + [a]) + [b]) + [c])
            == ReplaceAll(ReplaceAll(ReplaceAll(Filled(text, rest), Placeholder(a.key), a.value), Placeholder(b.key), b.value),
                          Placeholder(c.key), c.value)
  {
    TwoMore(text, rest, a, b);
    FilledMore(text, (rest + [a]) + [b], c);
  }

  /** The key that forms, filled in after the values that form it, and before them. */
  lemma LastOrFirst(vars: seq<Var>, ps: seq<Part>, rest: seq<Var>, a: Var, b: Var, k: Var, one: string, whole: string)
    requires PartsOk(ps) && multiset(rest) + multiset{a} + multiset{b} + multiset{k} == multiset(vars)
    requires Filled(Text(ps), rest) == Text(ps) && ReplaceAll(Text(ps), Placeholder(k.key), k.value) == Text(ps)
    requires ReplaceAll(Text(ps), Placeholder(a.key), a.value) == one
    requires ReplaceAll(one, Placeholder(b.key), b.value) == whole
    requires ReplaceAll(whole, Placeholder(k.key), k.value) != whole
    ensures OrderMatters(vars)
  {
    ThreeMore(Text(ps), rest, a, b, k);
    ThreeMore(Text(ps), rest, k, a, b);
    Differ(vars, ps, ((rest + [a]) + [b]) + [k], ((rest + [k]) + [a]) + [b]);
  }

  lemma BridgeOfOthers(rest: seq<Var>, a: string, t: string, b: string)
    requires VarsOk(rest) && BraceFree(a) && BraceFree(t) && BraceFree(b)
    requires forall v :: v in rest ==> v.key != a && v.key != b
    ensures Filled(Text(Bridge(a, t, b)), rest) == Text(Bridge(a, t, b))
  {
    UnnamedKeys(Bridge(a, t, b), rest);
  }

  lemma FilledOne(text: string, v: Var)
    ensures Filled(text, [v]) == ReplaceAll(text, Placeholder(v.key), v.value)
  {
    FilledMore(text, [], v);
    assert [] + [v] == [v];
  }

  lemma BridgeChanges(a: string, b: string, k: Var, n: nat, m: nat)
    requires k.value != Placeholder(k.key) && n + m <= |k.key| && Opens(a, k.key, n) && Closes(b, k.key, m)
    ensures var whole := (a + k.key[n..|k.key|-m]) + b; ReplaceAll(whole, Placeholder(k.key), k.value) != whole
  {
    BridgeHolds(a, b, k.key, n, m);
    ReplaceChanges((a + k.key[n..|k.key|-m]) + b, Placeholder(k.key), k.value, |a| - n - 1);
  }

  /** Two values of other names that a placeholder begins and ends in. */
  lemma BetweenMatters(vars: seq<Var>, a: Var, b: Var, k: Var, n: nat, m: nat)
    requires VarsOk(vars) && a in vars && b in vars && k in vars && a.key != k.key && b.key != k.key && a.key != b.key
    requires k.value != Placeholder(k.key) && n + m <= |k.key| && Opens(a.value, k.key, n) && Closes(b.value, k.key, m)
    requires forall j :: 0 <= j <= |a.value| ==> !Occurs(a.value, Placeholder(b.key), j)
    ensures OrderMatters(vars)
  {
    var t := k.key[n..|k.key|-m];
    var ps := Bridge(a.key, t, b.key);
    var rest := TakeOut(vars, k);
    rest := TakeOut(rest, b);
    rest := TakeOut(rest, a);
    BridgeOfOthers(rest, a.key, t, b.key);
    BridgeOfOthers([k], a.key, t, b.key);
    FilledOne(Text(ps), k);
    FirstPutIn(a, t, b.key);
    SecondPutIn(a.value, t, b);
    BridgeChanges(a.value, b.value, k, n, m);
    LastOrFirst(vars, ps, rest, a, b, k, (a.value + t) + Placeholder(b.key), (a.value + t) + b.value);
  }

  lemma LastOrFirstOfTwo(vars: seq<Var>, ps: seq<Part>, rest: seq<Var>, a: Var, k: Var, whole: string)
    requires PartsOk(ps) && multiset(rest) + multiset{a} + multiset{k} == multiset(vars)
    requires Filled(Text(ps), rest) == Text(ps) && ReplaceAll(Text(ps), Placeholder(k.key), k.value) == Text(ps)
    requires ReplaceAll(Text(ps), Placeholder(a.key), a.value) == whole
    requires ReplaceAll(whole, Placeholder(k.key), k.value) != whole
    ensures OrderMatters(vars)
  {
    TwoMore(Text(ps), rest, a, k);
    TwoMore(Text(ps), rest, k, a);
    Differ(vars, ps, (rest + [a]) + [k], (rest + [k]) + [a]);
  }

  /** One value that a placeholder both begins and ends in. */
  lemma BetweenItselfMatters(vars: seq<Var>, a: Var, k: Var, n: nat, m: nat)
    requires VarsOk(vars) && a in vars && k in vars && a.key != k.key
    requires k.value != Placeholder(k.key) && n + m <= |k.key| && Opens(a.value, k.key, n) && Closes(a.value, k.key, m)
    ensures OrderMatters(vars)
  {
    var t := k.key[n..|k.key|-m];
    var ps := Bridge(a.key, t, a.key);
    var rest := TakeOut(vars, k);
    rest := TakeOut(rest, a);
    BridgeOfOthers(rest, a.key, t, a.key);
    BridgeOfOthers([k], a.key, t, a.key);
    FilledOne(Text(ps), k);
    BridgeFilledTwice(a, t);
    BridgeChanges(a.value, a.value, k, n, m);
    LastOrFirstOfTwo(vars, ps, rest, a, k, (a.value + t) + a.value);
  }

  /** A value with another name's placeholder in it. */
  lemma InsideMatters(vars: seq<Var>, a: Var, k: Var, i: nat)
    requires VarsOk(vars) && a in vars && k in vars && a.key != k.key
    requires k.value != Placeholder(k.key) && Occurs(a.value, Placeholder(k.key), i)
    ensures OrderMatters(vars)
  {
    var more := TakeOut(vars, k);
    var rest := TakeOut(more, a);
    var ps, text := [Slot(a.key)], Placeholder(a.key);
    assert PartsOk(ps);
    OneSlot(a.key);
    UnnamedKeys(ps, rest);
    UnnamedKey(ps, k);
    ReplaceWhole(text, a.value);
    ReplaceChanges(a.value, Placeholder(k.key), k.value, i);
    LastOrFirstOfTwo(vars, ps, rest, a, k, a.value);
  }

  /** A value that closes a placeholder is none itself. */
  lemma CloserIsNoPlaceholder(b: string, key: string, own: string, m: nat)
    requires BraceFree(key) && Closes(b, key, m)
    ensures b != Placeholder(own)
  {
    assert b[0] == b[..m+1][0];
  }

  lemma FormingMatters(vars: seq<Var>, k: Var)
    requires VarsOk(vars) && k in vars && k.value != Placeholder(k.key) && Forms(k.key, Others(vars, k.key))
    ensures OrderMatters(vars)
  {
    if s, i: nat :| s in Others(vars, k.key) && i <= |s| && Occurs(s, Placeholder(k.key), i) {
      var a :| a in vars && a.key != k.key && a.value == s;
      InsideMatters(vars, a, k, i);
    } else {
      var s, t, n: nat, m: nat :| s in Others(vars, k.key) && t in Others(vars, k.key) && n + m <= |k.key|
                                  && Opens(s, k.key, n) && Closes(t, k.key, m);
      var a :| a in vars && a.key != k.key && a.value == s;
      var b :| b in vars && b.key != k.key && b.value == t;
      if a.key == b.key {
        assert a == b;
        BetweenItselfMatters(vars, a, k, n, m);
      } else if j: nat :| j <= |a.value| && Occurs(a.value, Placeholder(b.key), j) {
        CloserIsNoPlaceholder(b.value, k.key, b.key, m);
        InsideMatters(vars, a, b, j);
      } else {
        BetweenMatters(vars, a, b, k, n, m);
      }
    }
  }

  lemma OrderedOk(a: seq<Var>, b: seq<Var>)
    requires VarsOk(a) && multiset(a) == multiset(b)
    ensures VarsOk(b)
  {
    SameMembers(a, b);
    forall i, j | 0 <= i < j < |b|
      ensures b[i].key != b[j].key
    {
      if b[i].key == b[j].key {
        assert b[i] in a && b[j] in a;
        assert b[i] == b[j];
        TwiceInMultiset(b, i, j);
        OnceInMultiset(a, b[i]);
      }
    }
    forall i | 0 <= i < |b|
      ensures BraceFree(b[i].key)
    {
      assert b[i] in a;
    }
  }

  lemma TwiceInMultiset(b: seq<Var>, i: nat, j: nat)
    requires i < j < |b| && b[i] == b[j]
    ensures multiset(b)[b[i]] >= 2
  {
    assert b == b[..j] + ([b[j]] + b[j+1..]);
    assert b[i] in b[..j] && b[..j][i] == b[i];
    assert multiset(b) == multiset(b[..j]) + (multiset{b[j]} + multiset(b[j+1..]));
  }

  lemma OnceInMultiset(a: seq<Var>, v: Var)
    requires VarsOk(a) && v in a
    ensures multiset(a)[v] == 1
  {
    var rest := TakeOut(a, v);
    assert v !in rest;
  }

  /** Exactly when the order of the keys does not matter, over all templates and all orders. */
  lemma OrderMattersExactlyWhenSomethingForms(vars: seq<Var>)
    requires VarsOk(vars)
    ensures OrderMatters(vars) <==> !NothingForms(vars)
  {
    if OrderMatters(vars) && NothingForms(vars) {
      var ps, a, b :| PartsOk(ps) && multiset(a) == multiset(vars) && multiset(b) == multiset(vars)
                      && Filled(Text(ps), a) != Filled(Text(ps), b);
      OrderedOk(vars, a);
      OrderedOk(vars, b);
      KeyOrderIsIrrelevant(ps, vars, a);
      KeyOrderIsIrrelevant(ps, vars, b);
    }
    if !NothingForms(vars) {
      var k :| k in vars && k.value != Placeholder(k.key) && Forms(k.key, Others(vars, k.key));
      FormingMatters(vars, k);
    }
  }

  // ── One order ───────────────────────────────────────────────────────────────

  /** Up to every stage the text is the template with the values so far put in at once. */
  ghost predicate EveryStageSubstitutes(vars: seq<Var>) {
    forall ps, n: nat :: PartsOk(ps) && n <= |vars| ==>
      Filled(Text(ps), vars[..n]) == Text(Substituted(ps, AsMap(vars[..n])))
  }

  lemma {:induction false} FirstForming(vars: seq<Var>, j: nat) returns (i: nat)
    requires j < |vars| && vars[j].value != Placeholder(vars[j].key) && Forms(vars[j].key, Values(vars[..j]))
    ensures i < |vars| && vars[i].value != Placeholder(vars[i].key) && Forms(vars[i].key, Values(vars[..i]))
    ensures NothingFormsInOrder(vars[..i])
    decreases j
  {
    if k: nat :| k < j && vars[k].value != Placeholder(vars[k].key) && Forms(vars[k].key, Values(vars[..k])) {
      i := FirstForming(vars, k);
    } else {
      i := j;
      forall k | 0 <= k < i
        ensures vars[..i][k] == vars[k] && vars[..i][..k] == vars[..k]
      {}
    }
  }

  /** A template in which the values put in so far make the placeholder of another key. */
  ghost predicate Makes(ps: seq<Part>, vars: seq<Var>, k: Var) {
    PartsOk(ps) && !Named(ps, k.key)
    && ReplaceAll(Text(Substituted(ps, AsMap(vars))), Placeholder(k.key), k.value) != Text(Substituted(ps, AsMap(vars)))
  }

  lemma ValueOf(vars: seq<Var>, value: string) returns (a: Var)
    requires VarsOk(vars) && value in Values(vars)
    ensures a in vars && a.value == value && a.key in AsMap(vars) && AsMap(vars)[a.key] == value && BraceFree(a.key)
  {
    a :| a in vars && a.value == value;
    AsMapFacts(vars);
  }

  lemma SlotPutIn(vars: map<string, string>, a: string)
    requires a in vars
    ensures Text(Substituted([Slot(a)], vars)) == vars[a]
  {
    assert [Slot(a)][1..] == [];
    assert Substituted([Slot(a)], vars) == [Literal(vars[a])];
    assert [Literal(vars[a])][1..] == [] && vars[a] + "" == vars[a];
  }

  lemma BridgePutIn(vars: map<string, string>, a: string, t: string, b: string)
    requires a in vars && b in vars
    ensures Text(Substituted(Bridge(a, t, b), vars)) == (vars[a] + t) + vars[b]
  {
    var ps := Bridge(a, t, b);
    assert ps[1..] == [Literal(t), Slot(b)] && ps[1..][1..] == [Slot(b)] && ps[1..][1..][1..] == [];
    var put := [Literal(vars[a]), Literal(t), Literal(vars[b])];
    assert Substituted([Slot(b)], vars) == [Literal(vars[b])] by { assert [Slot(b)][1..] == []; }
    assert Substituted([Literal(t), Slot(b)], vars) == [Literal(t)] + [Literal(vars[b])];
    assert Substituted(ps, vars) == [Literal(vars[a])] + ([Literal(t)] + [Literal(vars[b])]) == put;
    ThreeLiterals(vars[a], t, vars[b]);
  }

  lemma ThreeLiterals(a: string, t: string, b: string)
    ensures Text([Literal(a), Literal(t), Literal(b)]) == (a + t) + b
  {
    var put := [Literal(a), Literal(t), Literal(b)];
    assert put[1..] == [Literal(t), Literal(b)] && put[1..][1..] == [Literal(b)] && put[1..][1..][1..] == [];
    assert Text([Literal(b)]) == b + "" && Text([Literal(t), Literal(b)]) == t + (b + "");
    assert a + (t + (b + "")) == (a + t) + b;
  }

  lemma InsideMakes(vars: seq<Var>, k: Var, a: Var, i: nat)
    requires VarsOk(vars) && a in vars && a.key != k.key && BraceFree(a.key)
    requires a.key in AsMap(vars) && AsMap(vars)[a.key] == a.value
    requires k.value != Placeholder(k.key) && Occurs(a.value, Placeholder(k.key), i)
    ensures Makes([Slot(a.key)], vars, k)
  {
    SlotPutIn(AsMap(vars), a.key);
    ReplaceChanges(a.value, Placeholder(k.key), k.value, i);
  }

  lemma BetweenMakes(vars: seq<Var>, k: Var, a: Var, b: Var, n: nat, m: nat)
    requires VarsOk(vars) && BraceFree(k.key) && BraceFree(a.key) && BraceFree(b.key) && a.key != k.key && b.key != k.key
    requires a.key in AsMap(vars) && AsMap(vars)[a.key] == a.value && b.key in AsMap(vars) && AsMap(vars)[b.key] == b.value
    requires k.value != Placeholder(k.key) && n + m <= |k.key| && Opens(a.value, k.key, n) && Closes(b.value, k.key, m)
    ensures Makes(Bridge(a.key, k.key[n..|k.key|-m], b.key), vars, k)
  {
    BridgePutIn(AsMap(vars), a.key, k.key[n..|k.key|-m], b.key);
    BridgeChanges(a.value, b.value, k, n, m);
  }

  lemma FormingMakes(vars: seq<Var>, k: Var) returns (ps: seq<Part>)
    requires VarsOk(vars) && BraceFree(k.key) && k.value != Placeholder(k.key) && Forms(k.key, Values(vars))
    requires forall v :: v in vars ==> v.key != k.key
    ensures Makes(ps, vars, k)
  {
    if s, i: nat :| s in Values(vars) && i <= |s| && Occurs(s, Placeholder(k.key), i) {
      var a := ValueOf(vars, s);
      ps := [Slot(a.key)];
      InsideMakes(vars, k, a, i);
    } else {
      var s, t, n: nat, m: nat :| s in Values(vars) && t in Values(vars) && n + m <= |k.key|
                                  && Opens(s, k.key, n) && Closes(t, k.key, m);
      var a := ValueOf(vars, s);
      var b := ValueOf(vars, t);
      ps := Bridge(a.key, k.key[n..|k.key|-m], b.key);
      BetweenMakes(vars, k, a, b, n, m);
    }
  }

  /** At the stage of a key that forms, some template is no longer what substitution makes of it. */
  lemma StageDiffers(vars: seq<Var>, i: nat)
    requires VarsOk(vars) && i < |vars| && NothingFormsInOrder(vars[..i])
    requires vars[i].value != Placeholder(vars[i].key) && Forms(vars[i].key, Values(vars[..i]))
    ensures !EveryStageSubstitutes(vars)
  {
    var init, k := vars[..i], vars[i];
    assert vars[..i+1] == init + [k];
    var ps := FormingMakes(init, k);
    FillInOrder(ps, init);
    FilledMore(Text(ps), init, k);
    LaterUnnamed(ps, init, k);
    assert Filled(Text(ps), vars[..i+1]) != Text(Substituted(ps, AsMap(vars[..i+1])));
  }

  lemma LaterUnnamed(ps: seq<Part>, init: seq<Var>, k: Var)
    requires VarsOk(init + [k]) && !Named(ps, k.key)
    ensures Substituted(ps, AsMap(init + [k])) == Substituted(ps, AsMap(init))
  {
    assert (init + [k])[..|init|] == init;
    NewKey(init, k);
    UnnamedMore(ps, AsMap(init), k.key, k.value);
  }

  lemma {:induction false} UnnamedMore(ps: seq<Part>, vars: map<string, string>, key: string, value: string)
    requires !Named(ps, key) && key !in vars
    ensures Substituted(ps, vars[key := value]) == Substituted(ps, vars)
    decreases |ps|
  {
    if ps != [] {
      assert ps[0] in ps;
      UnnamedMore(ps[1..], vars, key, value);
    }
  }

  /** Exactly when filling in one given order is substitution, stage by stage, over all templates. */
  lemma SubstitutesExactlyWhenNothingFormsEarlier(vars: seq<Var>)
    requires VarsOk(vars)
    ensures EveryStageSubstitutes(vars) <==> NothingFormsInOrder(vars)
  {
    if NothingFormsInOrder(vars) {
      forall ps, n: nat | PartsOk(ps) && n <= |vars|
        ensures Filled(Text(ps), vars[..n]) == Text(Substituted(ps, AsMap(vars[..n])))
      {
        InOrderBefore(vars, n);
        FillInOrder(ps, vars[..n]);
      }
    } else {
      var j: nat :| j < |vars| && vars[j].value != Placeholder(vars[j].key) && Forms(vars[j].key, Values(vars[..j]));
      var i := FirstForming(vars, j);
      StageDiffers(vars, i);
    }
  }

  /** For one: a value that is the placeholder of another name is filled in turn, or not. */
  lemma OrderMattersWithBraces(a: string, b: string, x: string)
    requires BraceFree(a) && BraceFree(b) && BraceFree(x) && a != b
    ensures Filled(Placeholder(a), [Var(a, Placeholder(b)), Var(b, x)]) == x
    ensures Filled(Placeholder(a), [Var(b, x), Var(a, Placeholder(b))]) == Placeholder(b)
  {
    var va, vb, text := Var(a, Placeholder(b)), Var(b, x), Placeholder(a);
    TwoMore(text, [], va, vb);
    TwoMore(text, [], vb, va);
    assert ([] + [va]) + [vb] == [va, vb] && ([] + [vb]) + [va] == [vb, va];
    ReplaceWhole(text, Placeholder(b));
    ReplaceWhole(Placeholder(b), x);
    OneSlot(a);
    UnnamedKey([Slot(a)], vb);
  }

  lemma ReplaceWhole(from: string, to: string)
    requires from != ""
    ensures ReplaceAll(from, from, to) == to
  {
    assert from[..|from|] == from && from[|from|..] == "";
    assert to + "" == to;
  }
}
