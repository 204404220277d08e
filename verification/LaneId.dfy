/** Lane ids derived from an agent's identity: a kebab-case base and, if that is taken, the
    least free numeric suffix. Lower-casing is a parameter. */
module LaneId {
  import opened Prelude

  predicate IsUpper(c: char) { 'A' <= c <= 'Z' }

  /** Lower-case letter or digit. */
  predicate IsAlnum(c: char) { 'a' <= c <= 'z' || '0' <= c <= '9' }

  /** A hyphen between a lower-case letter or digit and a following capital. */
  function Hyphenate(s: string): string {
    if s == "" then ""
    else
      var n := |s| - 1;
      Hyphenate(s[..n]) + (if n > 0 && IsAlnum(s[n - 1]) && IsUpper(s[n]) then "-" else "") + [s[n]]
  }

  /** Every run of other characters becomes one hyphen. */
  function Squeeze(s: string): string {
    if s == "" then ""
    else
      var n := |s| - 1;
      if IsAlnum(s[n]) then Squeeze(s[..n]) + [s[n]]
      else if n > 0 && !IsAlnum(s[n - 1]) then Squeeze(s[..n])
      else Squeeze(s[..n]) + "-"
  }

  function TrimLeft(s: string): string { if s != "" && s[0] == '-' then TrimLeft(s[1..]) else s }

  function TrimRight(s: string): string { if s != "" && s[|s| - 1] == '-' then TrimRight(s[..|s| - 1]) else s }

  function Base(lower: string -> string, identity: string): string {
    TrimRight(TrimLeft(Squeeze(lower(Hyphenate(identity)))))
  }

  /** `base`, `base-2`, `base-3`, … */
  function Candidate(base: string, k: nat): string { if k <= 1 then base else base + "-" + Decimal(k) }

  /** The first candidate that is free, no later than one past the number of taken ids. */
  ghost predicate IsDerived(base: string, used: set<string>, id: string) {
    exists k :: 1 <= k <= |used| + 1 && id == Candidate(base, k) && AllTaken(base, used, k) && id !in used
  }

  ghost predicate AllTaken(base: string, used: set<string>, k: nat) {
    forall j :: 1 <= j < k ==> Candidate(base, j) in used
  }

  /** The loop ends: each turn has found another taken id. */
  method DeriveLaneId(lower: string -> string, identity: string, occupied: seq<string>) returns (id: string)
    ensures IsDerived(Base(lower, identity), ToSet(occupied), id)
    ensures id !in occupied
  {
    var base := Base(lower, identity);
    var used := ToSet(occupied);
    id := base;
    var suffix := 2;
    while id in used
      invariant suffix >= 2 && id == Candidate(base, suffix - 1) && AllTaken(base, used, suffix - 1)
      decreases |used| + 2 - suffix
    {
      FewerThanTaken(base, used, suffix);
      id := base + "-" + Decimal(suffix);
      suffix := suffix + 1;
    }
    FewerThanTaken(base, used, suffix - 1);
  }

  // ---- the suffix ----

  lemma {:induction false} DecimalNotEmpty(n: nat)
    ensures |Decimal(n)| >= 1 && (n >= 10 ==> |Decimal(n)| >= 2)
  {
    if n >= 10 { DecimalNotEmpty(n / 10); }
  }

  lemma {:induction false} DecimalIsInjective(a: nat, b: nat)
    requires Decimal(a) == Decimal(b)
    ensures a == b
  {
    DecimalNotEmpty(a);
    DecimalNotEmpty(b);
    var x, y := Decimal(a), Decimal(b);
    assert x[|x| - 1] == y[|y| - 1] && a % 10 == b % 10;
    if a >= 10 {
      assert Decimal(a / 10) == x[..|x| - 1];
      assert Decimal(b / 10) == y[..|y| - 1];
      DecimalIsInjective(a / 10, b / 10);
    }
  }

  lemma CandidatesDiffer(base: string, j: nat, k: nat)
    requires 1 <= j < k
    ensures Candidate(base, j) != Candidate(base, k)
  {
    if j > 1 && Candidate(base, j) == Candidate(base, k) {
      assert Candidate(base, j)[|base| + 1..] == Decimal(j);
      assert Candidate(base, k)[|base| + 1..] == Decimal(k);
      DecimalIsInjective(j, k);
    }
  }

  /** Pigeonhole: k - 1 different candidates cannot be taken by fewer ids. */
  lemma {:induction false} FewerThanTaken(base: string, used: set<string>, k: nat)
    requires k >= 1 && AllTaken(base, used, k)
    ensures k - 1 <= |used|
    decreases k
  {
    if k > 1 {
      var last := Candidate(base, k - 1);
      forall j | 1 <= j < k - 1 ensures Candidate(base, j) in used - {last} { CandidatesDiffer(base, j, k - 1); }
      FewerThanTaken(base, used - {last}, k - 1);
    }
  }

  // ---- the base: words joined by single hyphens ----

  /** The maximal runs of lower-case letters and digits. */
  function Words(s: string): (words: seq<string>)
    ensures s != "" && IsAlnum(s[|s| - 1]) ==> words != []
  {
    if s == "" then []
    else
      var n := |s| - 1;
      var before := Words(s[..n]);
      if !IsAlnum(s[n]) then before
      else if n > 0 && IsAlnum(s[n - 1]) then before[..|before| - 1] + [before[|before| - 1] + [s[n]]]
      else before + [[s[n]]]
  }

  function Join(words: seq<string>): string {
    if words == [] then ""
    else if |words| == 1 then words[0]
    else Join(words[..|words| - 1]) + "-" + words[|words| - 1]
  }

  function Hyphen(yes: bool): string { if yes then "-" else "" }

  predicate OtherAt(s: string, first: bool) { s != "" && !IsAlnum(s[if first then 0 else |s| - 1]) }

  ghost function Joined(s: string): string {
    if Words(s) == [] then Hyphen(s != "") else Hyphen(OtherAt(s, true)) + Join(Words(s)) + Hyphen(OtherAt(s, false))
  }

  lemma {:induction false} SqueezeJoins(s: string)
    ensures Squeeze(s) == Joined(s)
  {
    if s != "" {
      var n := |s| - 1;
      SqueezeJoins(s[..n]);
      if !IsAlnum(s[n]) {
        OtherComes(s[..n], s[n]);
      } else if n > 0 && IsAlnum(s[n - 1]) {
        WordGrows(s[..n], s[n]);
      } else {
        WordBegins(s[..n], s[n]);
      }
      assert s == s[..n] + [s[n]];
    }
  }

  lemma OtherComes(s: string, c: char)
    requires !IsAlnum(c)
    ensures Joined(s + [c]) == if s != "" && !IsAlnum(s[|s| - 1]) then Joined(s) else Joined(s) + "-"
  {
    assert (s + [c])[..|s|] == s;
    assert s != "" ==> OtherAt(s + [c], true) == OtherAt(s, true);
  }

  lemma WordsGrow(s: string, c: char)
    requires s != "" && IsAlnum(s[|s| - 1]) && IsAlnum(c)
    ensures Words(s) != []
    ensures Words(s + [c]) == Words(s)[..|Words(s)| - 1] + [Words(s)[|Words(s)| - 1] + [c]]
  {
    assert (s + [c])[..|s|] == s && (s + [c])[|s| - 1] == s[|s| - 1];
  }

  lemma WordGrows(s: string, c: char)
    requires s != "" && IsAlnum(s[|s| - 1]) && IsAlnum(c)
    ensures Joined(s + [c]) == Joined(s) + [c]
  {
    var t, words := s + [c], Words(s);
    WordsGrow(s, c);
    assert OtherAt(t, true) == OtherAt(s, true) && !OtherAt(t, false) && !OtherAt(s, false);
    assert words == words[..|words| - 1] + [words[|words| - 1]];
    JoinLonger(words[..|words| - 1], words[|words| - 1], [c]);
    ConcatIsAssociative(Hyphen(OtherAt(s, true)), Join(words), [c]);
  }

  lemma WordBegins(s: string, c: char)
    requires IsAlnum(c) && (s != "" ==> !IsAlnum(s[|s| - 1]))
    ensures Joined(s + [c]) == Joined(s) + [c]
  {
    assert (s + [c])[..|s|] == s;
    WordsAreWords(s);
    assert s != "" ==> OtherAt(s + [c], true) == OtherAt(s, true);
    if Words(s) != [] {
      JoinMore(Words(s), [c]);
      ConcatIsAssociative(Hyphen(OtherAt(s, true)), Join(Words(s)), "-");
      ConcatIsAssociative(Hyphen(OtherAt(s, true)), Join(Words(s)) + "-", [c]);
    }
  }

  lemma JoinMore(words: seq<string>, word: string)
    requires words != []
    ensures Join(words + [word]) == Join(words) + "-" + word
  {
    assert (words + [word])[..|words|] == words;
  }

  lemma JoinLonger(init: seq<string>, last: string, more: string)
    ensures Join(init + [last + more]) == Join(init + [last]) + more
  {
    if init == [] {
      assert init + [last + more] == [last + more] && init + [last] == [last];
    } else {
      JoinMore(init, last);
      JoinMore(init, last + more);
      ConcatIsAssociative(Join(init) + "-", last, more);
    }
  }

  predicate IsWord(w: string) { w != "" && forall i :: 0 <= i < |w| ==> IsAlnum(w[i]) }

  lemma {:induction false} WordsAreWords(s: string)
    ensures forall w :: w in Words(s) ==> IsWord(w)
    ensures Words(s) == [] <==> forall i :: 0 <= i < |s| ==> !IsAlnum(s[i])
  {
    if s != "" {
      var n := |s| - 1;
      WordsAreWords(s[..n]);
      assert forall i :: 0 <= i < n ==> s[i] == s[..n][i];
      var before := Words(s[..n]);
      if before != [] { assert IsWord(before[|before| - 1]); }
      forall w | w in Words(s) ensures IsWord(w) {
        if w in before { assert IsWord(w); }
      }
    }
  }

  predicate ValidChars(s: string) { forall i :: 0 <= i < |s| ==> IsAlnum(s[i]) || s[i] == '-' }

  /** Accepted by the configuration: `^[a-z0-9][a-z0-9-]*$`. */
  predicate ValidLaneId(s: string) { s != "" && IsAlnum(s[0]) && ValidChars(s) }

  lemma {:induction false} JoinIsValid(words: seq<string>)
    requires forall w :: w in words ==> IsWord(w)
    ensures words != [] ==> ValidLaneId(Join(words)) && IsAlnum(Join(words)[|Join(words)| - 1])
  {
    if |words| > 0 { assert IsWord(words[|words| - 1]); }
    if |words| > 1 { JoinIsValid(words[..|words| - 1]); }
  }

  lemma TrimsLead(lead: bool, rest: string)
    requires rest != "" && IsAlnum(rest[0])
    ensures TrimLeft(Hyphen(lead) + rest) == rest
  {
    if lead {
      assert (Hyphen(lead) + rest)[1..] == rest;
    } else {
      assert Hyphen(lead) + rest == rest;
    }
  }

  lemma TrimsTrail(body: string, trail: bool)
    requires body != "" && IsAlnum(body[|body| - 1])
    ensures TrimRight(body + Hyphen(trail)) == body
  {
    if trail {
      assert (body + Hyphen(trail))[..|body|] == body;
    } else {
      assert body + Hyphen(trail) == body;
    }
  }

  /** The replace chain computes the words of the lowered, hyphenated identity, joined. */
  lemma BaseIsJoinedWords(lower: string -> string, identity: string)
    ensures Base(lower, identity) == Join(Words(lower(Hyphenate(identity))))
  {
    var s := lower(Hyphenate(identity));
    SqueezeJoins(s);
    WordsAreWords(s);
    JoinIsValid(Words(s));
    if Words(s) == [] {
      assert TrimLeft(Hyphen(s != "")) == "";
    } else {
      var body := Join(Words(s));
      ConcatIsAssociative(Hyphen(OtherAt(s, true)), body, Hyphen(OtherAt(s, false)));
      TrimsLead(OtherAt(s, true), body + Hyphen(OtherAt(s, false)));
      TrimsTrail(body, OtherAt(s, false));
    }
  }

  lemma {:induction false} DecimalIsDigits(n: nat)
    ensures ValidChars(Decimal(n))
  {
    if n >= 10 { DecimalIsDigits(n / 10); }
  }

  lemma CandidateIsValid(base: string, k: nat)
    ensures ValidLaneId(Candidate(base, k)) <==> ValidLaneId(base)
  {
    DecimalIsDigits(k);
    var id := Candidate(base, k);
    assert k > 1 && base == "" ==> id[0] == '-';
    assert forall i :: 0 <= i < |base| ==> id[i] == base[i];
  }

  /** The derived id is free, and valid exactly when the lowered identity has a letter a-z
      or a digit. */
  lemma DerivedIsValid(lower: string -> string, identity: string, used: set<string>, id: string)
    requires IsDerived(Base(lower, identity), used, id)
    ensures id !in used
    ensures ValidLaneId(id) <==> exists i :: 0 <= i < |lower(Hyphenate(identity))| && IsAlnum(lower(Hyphenate(identity))[i])
  {
    var s := lower(Hyphenate(identity));
    BaseIsJoinedWords(lower, identity);
    WordsAreWords(s);
    JoinIsValid(Words(s));
    var k :| 1 <= k && id == Candidate(Base(lower, identity), k);
    CandidateIsValid(Base(lower, identity), k);
  }

  /** There is only one right answer. */
  lemma DerivedIsUnique(base: string, used: set<string>, a: string, b: string)
    requires IsDerived(base, used, a) && IsDerived(base, used, b)
    ensures a == b
  {
    var j :| 1 <= j <= |used| + 1 && a == Candidate(base, j) && AllTaken(base, used, j) && a !in used;
    var k :| 1 <= k <= |used| + 1 && b == Candidate(base, k) && AllTaken(base, used, k) && b !in used;
  }

  // ---- plain ASCII identities ----

  predicate IsAscii(s: string) { forall i :: 0 <= i < |s| ==> s[i] < 128 as char }

  function LowerAscii(c: char): char { if IsUpper(c) then c - 'A' + 'a' else c }

  ghost predicate LowersAscii(lower: string -> string) {
    forall s :: IsAscii(s) ==> |lower(s)| == |s| && forall i :: 0 <= i < |s| ==> lower(s)[i] == LowerAscii(s[i])
  }

  lemma {:induction false} HyphenateKeeps(s: string, i: nat) returns (j: nat)
    requires i < |s| && IsAscii(s)
    ensures IsAscii(Hyphenate(s)) && j < |Hyphenate(s)| && Hyphenate(s)[j] == s[i]
  {
    var n := |s| - 1;
    if i == n {
      j := |Hyphenate(s)| - 1;
      if n > 0 { var rest := HyphenateKeeps(s[..n], 0); }
    } else {
      j := HyphenateKeeps(s[..n], i);
    }
  }

  lemma LoweredLetter(lower: string -> string, s: string, j: nat)
    requires LowersAscii(lower) && IsAscii(s) && j < |s| && (IsAlnum(s[j]) || IsUpper(s[j]))
    ensures |lower(s)| == |s| && IsAlnum(lower(s)[j])
  {
    assert lower(s)[j] == LowerAscii(s[j]);
  }

  /** An ASCII identity that has a letter or a digit always gets a valid lane id. */
  lemma AsciiIdentityIsValid(lower: string -> string, identity: string, i: nat, used: set<string>, id: string)
    requires LowersAscii(lower) && IsAscii(identity) && i < |identity| && (IsAlnum(identity[i]) || IsUpper(identity[i]))
    requires IsDerived(Base(lower, identity), used, id)
    ensures ValidLaneId(id)
  {
    var j := HyphenateKeeps(identity, i);
    LoweredLetter(lower, Hyphenate(identity), j);
    DerivedIsValid(lower, identity, used, id);
  }
}
