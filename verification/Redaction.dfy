/**
  * Masking known secret formats: each rule in turn replaces its leftmost non-overlapping
  * matches. What a rule matches is a parameter, except for the storage-key rule.
  */
module Redaction {
  import opened Options

  /** The mask: the word in guillemets. */
  const MASK: string := "\U{00AB}redacted\U{00BB}"

  /** A match that starts where it was looked for: up to `kept` it is kept, from there to `end` masked. */
  datatype Match = Match(kept: nat, end: nat)

  datatype Rule = Rule(name: string, find: (string, nat) -> Option<Match>)

  predicate Fits(text: string, i: nat, m: Match) {
    i <= m.kept <= m.end <= |text| && i < m.end
  }

  /** A regular expression that never matches the empty text. */
  ghost predicate Sound(r: Rule) {
    forall text: string, i: nat :: i < |text| && r.find(text, i).Some? ==> Fits(text, i, r.find(text, i).value)
  }

  // ---------------------------------------------------------------------------- one pass

  datatype Hit = Hit(start: nat, found: Match)

  /** The leftmost matches from `i` on, none starting inside another. */
  ghost function Hits(r: Rule, text: string, i: nat): seq<Hit>
    requires Sound(r)
    decreases |text| - i
  {
    if i >= |text| then []
    else if r.find(text, i).None? then Hits(r, text, i + 1)
    else
      var m := r.find(text, i).value;
      [Hit(i, m)] + Hits(r, text, m.end)
  }

  /** The hits lie between `from` and `to`, one after the other. */
  predicate InOrder(hits: seq<Hit>, from: nat, to: nat) {
    hits != [] ==>
      && from <= hits[0].start <= hits[0].found.kept <= hits[0].found.end <= to
      && hits[0].start < hits[0].found.end
      && InOrder(hits[1..], hits[0].found.end, to)
  }

  /**
    * What "leftmost, non-overlapping" means: the hits follow one another, every hit is a
    * match where it stands, and wherever the rule matches there is a hit around it.
    */
  ghost predicate LeftmostNonOverlapping(r: Rule, text: string, from: nat, hits: seq<Hit>) {
    && InOrder(hits, from, |text|)
    && (forall h :: h in hits ==> r.find(text, h.start) == Some(h.found))
    && (forall i: nat :: from <= i < |text| && r.find(text, i).Some? ==> Covered(hits, i))
  }

  ghost predicate Covered(hits: seq<Hit>, i: nat) {
    exists h :: h in hits && h.start <= i < h.found.end
  }

  lemma {:induction false} HitsAreLeftmost(r: Rule, text: string, i: nat)
    requires Sound(r)
    ensures LeftmostNonOverlapping(r, text, i, Hits(r, text, i))
    decreases |text| - i
  {
    if i < |text| {
      var found := r.find(text, i);
      if found.None? {
        HitsAreLeftmost(r, text, i + 1);
      } else {
        HitsAreLeftmost(r, text, found.value.end);
        FirstThenRest(r, text, Hit(i, found.value), Hits(r, text, found.value.end));
      }
    }
  }

  lemma FirstThenRest(r: Rule, text: string, h: Hit, rest: seq<Hit>)
    requires h.start < |text| && r.find(text, h.start) == Some(h.found) && Fits(text, h.start, h.found)
    requires LeftmostNonOverlapping(r, text, h.found.end, rest)
    ensures LeftmostNonOverlapping(r, text, h.start, [h] + rest)
  {
    var hits := [h] + rest;
    assert hits[0] == h && hits[1..] == rest;
    forall i: nat | h.start <= i < |text| && r.find(text, i).Some?
      ensures Covered(hits, i)
    {
      if i < h.found.end {
        assert h in hits;
      } else {
        var g :| g in rest && g.start <= i < g.found.end;
        assert g in hits;
      }
    }
  }

  lemma {:induction false} InOrderFrom(hits: seq<Hit>, from: nat, to: nat, h: Hit)
    requires InOrder(hits, from, to) && h in hits
    ensures from <= h.start <= h.found.end <= to
    decreases |hits|
  {
    if h != hits[0] {
      InOrderFrom(hits[1..], hits[0].found.end, to, h);
    }
  }

  /** Where nothing matches no hit begins. */
  lemma NothingBegins(r: Rule, text: string, i: nat, hits: seq<Hit>)
    requires LeftmostNonOverlapping(r, text, i, hits) && i < |text| && r.find(text, i).None?
    ensures LeftmostNonOverlapping(r, text, i + 1, hits)
  {
    assert hits != [] ==> hits[0] in hits;
  }

  /** There is only one such list of hits. */
  lemma {:induction false} LeftmostIsUnique(r: Rule, text: string, i: nat, hits: seq<Hit>)
    requires Sound(r) && LeftmostNonOverlapping(r, text, i, hits)
    ensures hits == Hits(r, text, i)
    decreases |text| - i
  {
    if i < |text| {
      hide LeftmostNonOverlapping;
      if r.find(text, i).None? {
        NothingBegins(r, text, i, hits);
        LeftmostIsUnique(r, text, i + 1, hits);
      } else {
        FirstIsThere(r, text, i, hits);
        TailIsLeftmost(r, text, hits);
        LeftmostIsUnique(r, text, hits[0].found.end, hits[1..]);
        assert hits == [hits[0]] + hits[1..];
      }
    }
  }

  lemma FirstIsThere(r: Rule, text: string, i: nat, hits: seq<Hit>)
    requires Sound(r) && LeftmostNonOverlapping(r, text, i, hits) && i < |text| && r.find(text, i).Some?
    ensures hits != [] && hits[0] == Hit(i, r.find(text, i).value)
  {
    assert Covered(hits, i);
    var h :| h in hits && h.start <= i < h.found.end;
    assert hits[0] in hits;
    if h != hits[0] {
      InOrderFrom(hits[1..], hits[0].found.end, |text|, h);
    }
  }

  lemma TailIsLeftmost(r: Rule, text: string, hits: seq<Hit>)
    requires hits != [] && LeftmostNonOverlapping(r, text, hits[0].start, hits)
    ensures LeftmostNonOverlapping(r, text, hits[0].found.end, hits[1..])
  {
    var h, rest := hits[0], hits[1..];
    assert forall g :: g in rest ==> g in hits;
    forall i: nat | h.found.end <= i < |text| && r.find(text, i).Some?
      ensures Covered(rest, i)
    {
      assert Covered(hits, i);
      var g :| g in hits && g.start <= i < g.found.end;
      assert g == h || g in rest;
    }
  }

  // ----------------------------------------------------------------------- gaps and masks

  /** A text cut along the hits: what is between them, and each hit as its kept prefix and its secret. */
  datatype Piece = Gap(text: string) | Secret(prefix: string, secret: string)

  function Original(pieces: seq<Piece>): string {
    if pieces == [] then ""
    else (match pieces[0] case Gap(t) => t case Secret(l, s) => l + s) + Original(pieces[1..])
  }

  function Masked(pieces: seq<Piece>): string {
    if pieces == [] then ""
    else (match pieces[0] case Gap(t) => t case Secret(l, _) => l + MASK) + Masked(pieces[1..])
  }

  function Secrets(pieces: seq<Piece>): nat {
    if pieces == [] then 0 else (if pieces[0].Secret? then 1 else 0) + Secrets(pieces[1..])
  }

  /** The text from `from` on, where the next hit is looked for at `i`. */
  ghost function Pieces(r: Rule, text: string, from: nat, i: nat): (pieces: seq<Piece>)
    requires Sound(r) && from <= i <= |text|
    ensures Original(pieces) == text[from..] && Secrets(pieces) == |Hits(r, text, i)|
    decreases |text| - i
  {
    if i == |text| then [Gap(text[from..])]
    else if r.find(text, i).None? then Pieces(r, text, from, i + 1)
    else
      var m := r.find(text, i).value;
      assert text[from..] == text[from..i] + (text[i..m.kept] + text[m.kept..m.end] + text[m.end..]);
      var rest := Pieces(r, text, m.end, m.end);
      var hit := Secret(text[i..m.kept], text[m.kept..m.end]);
      assert Original([hit] + rest) == text[i..m.kept] + text[m.kept..m.end] + Original(rest);
      assert ([Gap(text[from..i])] + ([hit] + rest))[1..] == [hit] + rest;
      [Gap(text[from..i])] + ([hit] + rest)
  }

  /** The text cut at given places. */
  function Cut(text: string, from: nat, hits: seq<Hit>): seq<Piece>
    requires from <= |text| && InOrder(hits, from, |text|)
    decreases |hits|
  {
    if hits == [] then [Gap(text[from..])]
    else
      var h := hits[0];
      [Gap(text[from..h.start]), Secret(text[h.start..h.found.kept], text[h.found.kept..h.found.end])]
      + Cut(text, h.found.end, hits[1..])
  }

  /** The secrets are exactly the leftmost matches and the gaps exactly what is between them. */
  lemma {:induction false} PiecesFollowHits(r: Rule, text: string, from: nat, i: nat)
    requires Sound(r) && from <= i <= |text|
    ensures InOrder(Hits(r, text, i), from, |text|)
    ensures Pieces(r, text, from, i) == Cut(text, from, Hits(r, text, i))
    decreases |text| - i
  {
    if i < |text| {
      var found := r.find(text, i);
      if found.None? {
        PiecesFollowHits(r, text, from, i + 1);
      } else {
        PiecesFollowHits(r, text, found.value.end, found.value.end);
        assert Hits(r, text, i)[1..] == Hits(r, text, found.value.end);
      }
    }
  }

  /** `pat.sub` with the counting callback. */
  method Substitute(r: Rule, text: string) returns (out: string, hits: nat)
    requires Sound(r)
    ensures out == Masked(Pieces(r, text, 0, 0)) && hits == |Hits(r, text, 0)|
  {
    hide Original, Secrets, InOrder;
    var from: nat, i: nat := 0, 0;
    out, hits := "", 0;
    while i < |text|
      invariant from <= i <= |text|
      invariant out + Masked(Pieces(r, text, from, i)) == Masked(Pieces(r, text, 0, 0))
      invariant hits + |Hits(r, text, i)| == |Hits(r, text, 0)|
    {
      var found := r.find(text, i);
      if found.None? {
        i := i + 1;
      } else {
        var m := found.value;
        MaskedHit(r, text, from, i);
        Regroup(out, text[from..i], text[i..m.kept] + MASK, Masked(Pieces(r, text, m.end, m.end)));
        out := out + text[from..i] + (text[i..m.kept] + MASK);
        hits := hits + 1;
        from, i := m.end, m.end;
      }
    }
    assert Masked([Gap(text[from..])]) == text[from..];
    out := out + text[from..];
  }

  lemma Regroup(a: string, b: string, c: string, d: string)
    ensures a + (b + (c + d)) == a + b + c + d
  {
  }

  lemma MaskedHit(r: Rule, text: string, from: nat, i: nat)
    requires Sound(r) && from <= i < |text| && r.find(text, i).Some?
    ensures var m := r.find(text, i).value;
            && Fits(text, i, m)
            && Masked(Pieces(r, text, from, i))
                 == text[from..i] + ((text[i..m.kept] + MASK) + Masked(Pieces(r, text, m.end, m.end)))
  {
    var m := r.find(text, i).value;
    var rest := Pieces(r, text, m.end, m.end);
    var hit := Secret(text[i..m.kept], text[m.kept..m.end]);
    assert Pieces(r, text, from, i) == [Gap(text[from..i])] + ([hit] + rest);
    assert ([Gap(text[from..i])] + ([hit] + rest))[1..] == [hit] + rest;
    assert ([hit] + rest)[1..] == rest;
  }

  lemma {:induction false} NothingToHit(r: Rule, text: string, i: nat)
    requires Sound(r) && forall j: nat :: i <= j < |text| ==> r.find(text, j).None?
    ensures Hits(r, text, i) == []
    decreases |text| - i
  {
    if i < |text| {
      NothingToHit(r, text, i + 1);
    }
  }

  /** A pass without hits changes nothing. */
  lemma {:induction false} NoHitsNoChange(r: Rule, text: string, from: nat, i: nat)
    requires Sound(r) && from <= i <= |text| && Hits(r, text, i) == []
    ensures Masked(Pieces(r, text, from, i)) == text[from..]
    decreases |text| - i
  {
    if i == |text| {
      assert Masked([Gap(text[from..])]) == text[from..];
    } else {
      NoHitsNoChange(r, text, from, i + 1);
    }
  }

  // --------------------------------------------------------------------- the storage-key rule

  predicate Base64(c: char) {
    'A' <= c <= 'Z' || 'a' <= c <= 'z' || '0' <= c <= '9' || c == '+' || c == '/'
  }

  const KEY_LENGTH: nat := 86

  /** 86 base64 characters and two equals signs, not preceded by a base64 character. */
  predicate StorageKeyAt(text: string, i: nat) {
    && i + KEY_LENGTH + 2 <= |text|
    && (i > 0 ==> !Base64(text[i - 1]))
    && (forall j :: i <= j < i + KEY_LENGTH ==> Base64(text[j]))
    && text[i + KEY_LENGTH] == '=' && text[i + KEY_LENGTH + 1] == '='
  }

  function StorageKey(): (r: Rule)
    ensures Sound(r)
  {
    Rule("storage_key", (text: string, i: nat) =>
      if StorageKeyAt(text, i) then Some(Match(i, i + KEY_LENGTH + 2)) else None)
  }

  predicate NoStorageKey(text: string) {
    forall i: nat :: i < |text| ==> !StorageKeyAt(text, i)
  }

  /** A key around a mask lies before it or after it: the guillemets are in neither part of a key. */
  lemma KeyAvoidsMask(gap: string, rest: string, i: nat)
    requires StorageKeyAt(gap + (MASK + rest), i)
    ensures i + KEY_LENGTH + 2 <= |gap| || i >= |gap| + |MASK|
  {
    var out := gap + (MASK + rest);
    var open, close := |gap|, |gap| + |MASK| - 1;
    assert out[open] == MASK[0] && out[close] == MASK[|MASK| - 1];
    assert !Base64(MASK[0]) && !Base64(MASK[|MASK| - 1]);
  }

  lemma KeyAfterMask(gap: string, rest: string, i: nat)
    requires StorageKeyAt(gap + (MASK + rest), i) && i >= |gap| + |MASK|
    ensures StorageKeyAt(rest, i - |gap| - |MASK|)
  {
    var out := gap + (MASK + rest);
    var n := |gap| + |MASK|;
    assert forall j :: 0 <= j < |rest| ==> out[n + j] == rest[j];
    var k := i - n;
    forall j | k <= j < k + KEY_LENGTH
      ensures Base64(rest[j])
    {
      assert out[n + j] == rest[j];
    }
    if k > 0 {
      assert out[n + (k - 1)] == rest[k - 1];
    }
    assert out[n + (k + KEY_LENGTH)] == rest[k + KEY_LENGTH];
    assert out[n + (k + KEY_LENGTH + 1)] == rest[k + KEY_LENGTH + 1];
  }

  /** A key in a gap is a key of the original text: before the gap is nothing, or the end of a key. */
  lemma KeyInGap(text: string, from: nat, to: nat, tail: string, i: nat)
    requires from <= to <= |text| && (from > 0 ==> !Base64(text[from - 1]))
    requires StorageKeyAt(text[from..to] + tail, i) && i + KEY_LENGTH + 2 <= to - from
    ensures StorageKeyAt(text, from + i)
  {
    var out := text[from..to] + tail;
    assert forall j :: 0 <= j < to - from ==> out[j] == text[from + j];
    forall j | from + i <= j < from + i + KEY_LENGTH
      ensures Base64(text[j])
    {
      assert out[j - from] == text[from + (j - from)];
    }
    if i > 0 {
      assert out[i - 1] == text[from + (i - 1)];
    }
    assert out[i + KEY_LENGTH] == text[from + (i + KEY_LENGTH)];
    assert out[i + KEY_LENGTH + 1] == text[from + (i + KEY_LENGTH + 1)];
  }

  lemma {:induction false} PassRemovesKeys(text: string, from: nat, i: nat)
    requires from <= i <= |text| && (from > 0 ==> !Base64(text[from - 1]))
    requires forall j: nat :: from <= j < i ==> !StorageKeyAt(text, j)
    ensures NoStorageKey(Masked(Pieces(StorageKey(), text, from, i)))
    decreases |text| - i
  {
    var r := StorageKey();
    if i == |text| {
      LastGapHasNoKey(text, from);
    } else if !StorageKeyAt(text, i) {
      PassRemovesKeys(text, from, i + 1);
    } else {
      var end := i + KEY_LENGTH + 2;
      assert r.find(text, i) == Some(Match(i, end));
      PassRemovesKeys(text, end, end);
      MaskedHit(r, text, from, i);
      var gap, rest := text[from..i], Masked(Pieces(r, text, end, end));
      assert text[i..i] + MASK == MASK;
      assert Masked(Pieces(r, text, from, i)) == gap + (MASK + rest);
      forall k: nat | k < |gap + (MASK + rest)|
        ensures !StorageKeyAt(gap + (MASK + rest), k)
      {
        if StorageKeyAt(gap + (MASK + rest), k) {
          KeyAvoidsMask(gap, rest, k);
          if k >= |gap| + |MASK| {
            KeyAfterMask(gap, rest, k);
          } else {
            KeyInGap(text, from, i, MASK + rest, k);
          }
        }
      }
    }
  }

  lemma LastGapHasNoKey(text: string, from: nat)
    requires from <= |text| && (from > 0 ==> !Base64(text[from - 1]))
    requires forall j: nat :: from <= j < |text| ==> !StorageKeyAt(text, j)
    ensures NoStorageKey(Masked([Gap(text[from..])]))
  {
    assert Masked([Gap(text[from..])]) == text[from..|text|] + "";
    forall k: nat | k < |text[from..]|
      ensures !StorageKeyAt(text[from..|text|] + "", k)
    {
      if StorageKeyAt(text[from..|text|] + "", k) {
        KeyInGap(text, from, |text|, "", k);
      }
    }
  }

  /**
    * After its pass no storage key is left, so passing again finds nothing and changes nothing; and a
    * text without storage keys is left as it is.
    */
  lemma StorageKeyPass(text: string)
    ensures var out := Masked(Pieces(StorageKey(), text, 0, 0));
            && NoStorageKey(out)
            && Hits(StorageKey(), out, 0) == []
            && Masked(Pieces(StorageKey(), out, 0, 0)) == out
            && (NoStorageKey(text) ==> out == text)
  {
    if NoStorageKey(text) {
      NothingToHit(StorageKey(), text, 0);
      NoHitsNoChange(StorageKey(), text, 0, 0);
      assert text[0..] == text;
    }
    PassRemovesKeys(text, 0, 0);
    var out := Masked(Pieces(StorageKey(), text, 0, 0));
    NothingToHit(StorageKey(), out, 0);
    NoHitsNoChange(StorageKey(), out, 0, 0);
    assert out[0..] == out;
  }

  lemma {:induction false} InOrderSplits(hits: seq<Hit>, h: Hit, from: nat, to: nat)
    requires InOrder(hits + [h], from, to)
    ensures from <= h.start <= h.found.kept <= h.found.end <= to && InOrder(hits, from, h.start) && InOrder([h], from, to)
    decreases |hits|
  {
    if hits != [] {
      assert (hits + [h])[1..] == hits[1..] + [h];
      InOrderSplits(hits[1..], h, hits[0].found.end, to);
    }
  }

  lemma {:induction false} InOrderWithin(hits: seq<Hit>, from: nat, to: nat, further: nat)
    requires InOrder(hits, from, to) && to <= further
    ensures InOrder(hits, from, further)
    decreases |hits|
  {
    if hits != [] {
      InOrderWithin(hits[1..], hits[0].found.end, to, further);
    }
  }

  /**
    * What masking does to a hit: everything up to its kept part stays as the hits before it left it,
    * the mask takes the place of its secret, and what follows it is untouched.
    */
  lemma {:induction false} MaskLast(text: string, from: nat, hits: seq<Hit>, h: Hit)
    requires from <= |text| && InOrder(hits + [h], from, |text|)
    ensures h.found.kept <= h.found.end <= |text| && from <= h.found.kept && InOrder(hits, from, h.found.kept)
    ensures Masked(Cut(text, from, hits + [h])) ==
              Masked(Cut(text[..h.found.kept], from, hits)) + MASK + text[h.found.end..]
    decreases |hits|
  {
    hide Masked, Cut;
    InOrderSplits(hits, h, from, |text|);
    InOrderWithin(hits, from, h.start, h.found.kept);
    if hits == [] {
      assert hits + [h] == [h];
      MaskOne(text, from, h);
    } else {
      var g, head, tail := hits[0], text[..h.found.kept], text[h.found.end..];
      assert (hits + [h])[1..] == hits[1..] + [h] && (hits + [h])[0] == g;
      MaskLast(text, g.found.end, hits[1..], h);
      MaskedCut(text, from, hits + [h]);
      MaskedCut(head, from, hits);
      assert head[from..g.start] == text[from..g.start] && head[g.start..g.found.kept] == text[g.start..g.found.kept];
      RegroupMasks(text[from..g.start], text[g.start..g.found.kept], Masked(Cut(head, g.found.end, hits[1..])), tail);
    }
  }

  lemma RegroupMasks(a: string, b: string, c: string, d: string)
    ensures a + (b + MASK + (c + MASK + d)) == a + (b + MASK + c) + MASK + d
  {
  }

  lemma MaskOne(text: string, from: nat, h: Hit)
    requires from <= |text| && InOrder([h], from, |text|)
    ensures Masked(Cut(text, from, [h])) == Masked(Cut(text[..h.found.kept], from, [])) + MASK + text[h.found.end..]
  {
    MaskedCut(text, from, [h]);
    var a, b, d := text[from..h.start], text[h.start..h.found.kept], text[h.found.end..];
    assert a + b == text[..h.found.kept][from..];
    assert Masked([Gap(d)]) == d && Masked([Gap(a + b)]) == a + b;
    assert a + (b + MASK + d) == a + b + MASK + d;
  }

  lemma MaskedCut(text: string, from: nat, hits: seq<Hit>)
    requires from <= |text| && hits != [] && InOrder(hits, from, |text|)
    ensures var h := hits[0];
            Masked(Cut(text, from, hits)) ==
              text[from..h.start] + (text[h.start..h.found.kept] + MASK + Masked(Cut(text, h.found.end, hits[1..])))
  {
    var h := hits[0];
    var gap, hit := Gap(text[from..h.start]), Secret(text[h.start..h.found.kept], text[h.found.kept..h.found.end]);
    var rest := Cut(text, h.found.end, hits[1..]);
    assert Cut(text, from, hits) == [gap] + ([hit] + rest);
    assert ([gap] + ([hit] + rest))[1..] == [hit] + rest && ([hit] + rest)[1..] == rest;
  }

  // ---------------------------------------------------------------------------- all rules

  ghost predicate AllSound(rules: seq<Rule>) {
    forall k :: 0 <= k < |rules| ==> Sound(rules[k])
  }

  datatype Outcome = Outcome(text: string, hits: nat)

  /** Each rule works on what the ones before it left. */
  ghost function Redacted(rules: seq<Rule>, text: string): Outcome
    requires AllSound(rules)
    decreases |rules|
  {
    if rules == [] then Outcome(text, 0)
    else
      var front := rules[..|rules| - 1];
      var before := Redacted(front, text);
      var r := rules[|rules| - 1];
      Outcome(Masked(Pieces(r, before.text, 0, 0)), before.hits + |Hits(r, before.text, 0)|)
  }

  function Total(hits: seq<seq<Hit>>): nat {
    if hits == [] then 0 else Total(hits[..|hits| - 1]) + |hits[|hits| - 1]|
  }

  /** From each text to the next, exactly the leftmost non-overlapping matches of the rule are masked. */
  ghost predicate Stages(rules: seq<Rule>, texts: seq<string>, hits: seq<seq<Hit>>) {
    && |texts| == |rules| + 1 && |hits| == |rules|
    && forall k :: 0 <= k < |rules| ==>
         LeftmostNonOverlapping(rules[k], texts[k], 0, hits[k]) && texts[k + 1] == Masked(Cut(texts[k], 0, hits[k]))
  }

  /** `text` is what the rules, each applied to what the ones before it left, make of `input` with `n` hits in all. */
  ghost predicate RedactsTo(rules: seq<Rule>, input: string, text: string, n: nat) {
    exists texts, hits :: Stages(rules, texts, hits) && texts[0] == input && texts[|rules|] == text && Total(hits) == n
  }

  lemma StagesGrow(rules: seq<Rule>, input: string, text: string, n: nat, r: Rule)
    requires Sound(r) && RedactsTo(rules, input, text, n)
    ensures RedactsTo(rules + [r], input, Masked(Pieces(r, text, 0, 0)), n + |Hits(r, text, 0)|)
  {
    hide LeftmostNonOverlapping, Cut, Masked, Pieces, Hits;
    var texts, hits :| Stages(rules, texts, hits) && texts[0] == input && texts[|rules|] == text && Total(hits) == n;
    HitsAreLeftmost(r, text, 0);
    PiecesFollowHits(r, text, 0, 0);
    var more, out := hits + [Hits(r, text, 0)], texts + [Masked(Pieces(r, text, 0, 0))];
    assert more[..|hits|] == hits;
    assert Stages(rules + [r], out, more);
  }

  method RedactText(rules: seq<Rule>, input: string) returns (text: string, hits: nat)
    requires AllSound(rules)
    ensures RedactsTo(rules, input, text, hits)
    ensures rules != [] && rules[|rules| - 1] == StorageKey() ==> NoStorageKey(text)
    ensures Outcome(text, hits) == Redacted(rules, input)
  {
    hide RedactsTo, Pieces, Masked, Hits, NoStorageKey;
    text, hits := input, 0;
    NothingYet(input);
    for k := 0 to |rules|
      invariant RedactsTo(rules[..k], input, text, hits)
      invariant k > 0 && rules[k - 1] == StorageKey() ==> NoStorageKey(text)
      invariant Outcome(text, hits) == Redacted(rules[..k], input)
    {
      var n;
      assert rules[..k + 1] == rules[..k] + [rules[k]];
      StagesGrow(rules[..k], input, text, hits, rules[k]);
      StorageKeyPass(text);
      text, n := Substitute(rules[k], text);
      hits := hits + n;
      assert rules[..k + 1][..k] == rules[..k];
    }
    assert rules[..|rules|] == rules;
  }

  lemma NothingYet(input: string)
    ensures RedactsTo([], input, input, 0)
  {
    assert Stages([], [input], []);
  }

  /** No hit in any rule: the text comes back as it was. */
  lemma {:induction false} CleanTextIsKept(rules: seq<Rule>, text: string)
    requires AllSound(rules) && Redacted(rules, text).hits == 0
    ensures Redacted(rules, text).text == text
    decreases |rules|
  {
    if rules != [] {
      CleanTextIsKept(rules[..|rules| - 1], text);
      NoHitsNoChange(rules[|rules| - 1], text, 0, 0);
    }
  }

  datatype ExecResult = ExecResult(exitCode: int, stdout: string, stderr: string, truncated: bool)

  /** Both streams are redacted; everything else, and a result without secrets, is kept. */
  method RedactResult(rules: seq<Rule>, result: ExecResult) returns (r: ExecResult)
    requires AllSound(rules)
    ensures r == result.(stdout := r.stdout, stderr := r.stderr)
    ensures result.stdout != "" ==> exists n: nat :: RedactsTo(rules, result.stdout, r.stdout, n)
    ensures result.stderr != "" ==> exists n: nat :: RedactsTo(rules, result.stderr, r.stderr, n)
    ensures rules != [] && rules[|rules| - 1] == StorageKey() ==> NoStorageKey(r.stdout) && NoStorageKey(r.stderr)
    ensures (result.stdout == "" ==> r.stdout == "") && (result.stderr == "" ==> r.stderr == "")
  {
    var out, err, ho, he := result.stdout, result.stderr, 0, 0;
    if out != "" {
      out, ho := RedactText(rules, out);
    }
    if err != "" {
      err, he := RedactText(rules, err);
    }
    if ho + he > 0 {
      return result.(stdout := out, stderr := err);
    }
    if result.stdout != "" {
      CleanTextIsKept(rules, result.stdout);
    }
    if result.stderr != "" {
      CleanTextIsKept(rules, result.stderr);
    }
    return result;
  }
}
