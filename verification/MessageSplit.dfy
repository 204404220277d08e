/** How a long reply is cut into messages of at most 2000 units: at the last newline in
    reach, which is dropped, or else hard at the limit. */
module MessageSplit {
  import opened Prelude

  const LIMIT: nat := 2_000
  const SHORTEST: nat := 1_000

  /** `text.lastIndexOf("\n", from)`, -1 for none. */
  function LastNewline(text: string, from: int): (i: int)
    requires from < |text|
    ensures -1 <= i && (i >= 0 ==> i <= from && text[i] == '\n')
    ensures forall k :: i < k <= from && 0 <= k ==> text[k] != '\n'
    decreases from + 1
  {
    if from < 0 then -1 else if text[from] == '\n' then from else LastNewline(text, from - 1)
  }

  /** The cut: at the last newline in reach; hard, only if there is none from 1000 on. */
  function Boundary(text: string): (b: nat)
    requires |text| > LIMIT
    ensures 1_000 <= b <= 2_000
    ensures forall k :: b < k <= LIMIT ==> text[k] != '\n'
    ensures text[b] != '\n' ==> b == LIMIT && forall k :: SHORTEST <= k <= LIMIT ==> text[k] != '\n'
  {
    var i := LastNewline(text, LIMIT);
    if i < SHORTEST then LIMIT else i
  }

  function DropNewline(text: string): string { if text != "" && text[0] == '\n' then text[1..] else text }

  function Rest(text: string): string
    requires |text| > LIMIT
  {
    DropNewline(text[Boundary(text)..])
  }

  function SplitLong(text: string): seq<string>
    decreases |text|
  {
    if |text| > LIMIT then [text[..Boundary(text)]] + SplitLong(Rest(text))
    else if text == "" then []
    else [text]
  }

  function Split(text: string): seq<string> { if |text| <= LIMIT then [text] else SplitLong(text) }

  /** The loop shrinks what remains; it ends because every cut takes at least 1000 units. */
  method Chunks(text: string) returns (result: seq<string>)
    ensures result == Split(text)
  {
    if |text| <= LIMIT { return [text]; }
    result := [];
    var remaining := text;
    while |remaining| > LIMIT
      invariant result + SplitLong(remaining) == SplitLong(text)
      decreases |remaining|
    {
      var boundary := LastNewline(remaining, LIMIT);
      if boundary < SHORTEST { boundary := LIMIT; }
      SplitsOff(result, remaining);
      result := result + [remaining[..boundary]];
      remaining := DropNewline(remaining[boundary..]);
    }
    if remaining != "" { result := result + [remaining]; }
  }

  lemma SplitsOff(result: seq<string>, text: string)
    requires |text| > LIMIT
    ensures result + SplitLong(text) == result + [text[..Boundary(text)]] + SplitLong(Rest(text)) && |Rest(text)| < |text|
  {
    ConcatIsAssociative(result, [text[..Boundary(text)]], SplitLong(Rest(text)));
  }

  // ---- nothing is lost but the newline at a cut ----

  /** What stood between each chunk and the next; after the last chunk, what was dropped. */
  function Separators(text: string): seq<string>
    decreases |text|
  {
    if |text| > LIMIT then [if text[Boundary(text)] == '\n' then "\n" else ""] + Separators(Rest(text))
    else if text == "" then []
    else [""]
  }

  function Rejoin(chunks: seq<string>, separators: seq<string>): string
    requires |chunks| == |separators|
  {
    if chunks == [] then "" else chunks[0] + separators[0] + Rejoin(chunks[1..], separators[1..])
  }

  predicate IsSeparator(s: string) { s == "" || s == "\n" }

  /** A chunk that is not the last has 1000 to 2000 units, and all 2000 if nothing was
      dropped behind it. */
  ghost predicate CutWell(chunk: string, separator: string) {
    1_000 <= |chunk| <= 2_000 && IsSeparator(separator) && (separator == "" ==> |chunk| == LIMIT)
  }

  ghost predicate LastWell(chunk: string, separator: string) {
    0 < |chunk| <= LIMIT && (separator != "" ==> CutWell(chunk, separator))
  }

  ghost predicate AllWell(chunks: seq<string>, separators: seq<string>) {
    |chunks| == |separators| && forall i :: 0 <= i < |chunks| ==>
      if i < |chunks| - 1 then CutWell(chunks[i], separators[i]) else LastWell(chunks[i], separators[i])
  }

  lemma CutIsWell(text: string)
    requires |text| > LIMIT
    ensures var b := Boundary(text);
      CutWell(text[..b], if text[b] == '\n' then "\n" else "") && text == text[..b] + (if text[b] == '\n' then "\n" else "") + Rest(text)
  {
    var b := Boundary(text);
    assert text == text[..b] + text[b..] && text[b..][0] == text[b];
    if text[b] == '\n' { assert text[b..] == "\n" + Rest(text); }
  }

  lemma {:induction false} LongSplitRejoins(text: string)
    ensures |SplitLong(text)| == |Separators(text)| && Rejoin(SplitLong(text), Separators(text)) == text
    ensures AllWell(SplitLong(text), Separators(text))
    decreases |text|
  {
    if |text| > LIMIT {
      CutIsWell(text);
      var rest := Rest(text);
      LongSplitRejoins(rest);
      var b := Boundary(text);
      var chunks, separators := SplitLong(text), Separators(text);
      assert chunks[1..] == SplitLong(rest) && separators[1..] == Separators(rest);
      forall i | 1 <= i < |chunks|
        ensures if i < |chunks| - 1 then CutWell(chunks[i], separators[i]) else LastWell(chunks[i], separators[i])
      {
        assert chunks[i] == SplitLong(rest)[i - 1] && separators[i] == Separators(rest)[i - 1];
      }
    } else if text != "" {
      assert text + "" + "" == text;
    }
  }

  /** For every text: the chunks with their separators put back are the text; each chunk is
      at most 2000 units, all but the last at least 1000, none empty unless the text is;
      a separator is one newline or nothing, and nothing only behind a full chunk. */
  lemma SplitRejoins(text: string)
    ensures text == "" ==> Split(text) == [""]
    ensures text != "" ==>
      AllWell(Split(text), Separators(text)) && Rejoin(Split(text), Separators(text)) == text
    ensures forall i :: 0 <= i < |Split(text)| ==> |Split(text)[i]| <= 2_000 && (text != "" ==> Split(text)[i] != "")
  {
    LongSplitRejoins(text);
  }

  /** What the last cut of a long text cuts. */
  function LastCut(text: string): (last: string)
    requires |text| > LIMIT
    ensures |last| > LIMIT && |Rest(last)| <= LIMIT
    decreases |text|
  {
    if |Rest(text)| > LIMIT then LastCut(Rest(text)) else text
  }

  lemma LastChunk(text: string)
    requires |text| > LIMIT && |Rest(text)| <= LIMIT
    ensures Rest(text) == "" <==> text[Boundary(text)..] == "\n"
    ensures SplitLong(Rest(text)) == if Rest(text) == "" then [] else [Rest(text)]
    ensures Separators(text) == [if text[Boundary(text)] == '\n' then "\n" else ""] + (if Rest(text) == "" then [] else [""])
  {
    var left := text[Boundary(text)..];
    assert left[0] == text[Boundary(text)];
    if Rest(text) == "" { assert left == [left[0]]; }
  }

  /** A newline is dropped for good, behind the last chunk, exactly when it is all that the
      last cut of the text leaves. */
  lemma {:induction false} TrailingNewlineIsDropped(text: string)
    requires |text| > LIMIT
    ensures Separators(text) != [] && Split(text) != []
    ensures Separators(text)[|Separators(text)| - 1] == "\n" <==> LastCut(text)[Boundary(LastCut(text))..] == "\n"
    ensures Split(text)[|Split(text)| - 1] ==
      if LastCut(text)[Boundary(LastCut(text))..] == "\n" then LastCut(text)[..Boundary(LastCut(text))] else Rest(LastCut(text))
    decreases |text|
  {
    var rest := Rest(text);
    assert SplitLong(text) == [text[..Boundary(text)]] + SplitLong(rest);
    if |rest| > LIMIT {
      TrailingNewlineIsDropped(rest);
    } else {
      LastChunk(text);
    }
  }
}
