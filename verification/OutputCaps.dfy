/**
  * The two output caps: the sandbox manager caps text, the worker caps raw bytes. Both cut
  * at a byte, possibly inside a character, and decode what is left.
  */
module OutputCaps {
  import opened Utf8

  datatype Capped = Capped(text: seq<CodePoint>, truncated: bool)

  function SandboxCap(max: nat, text: seq<CodePoint>): Capped {
    var raw := Encode(text);
    if |raw| <= max then Capped(text, false) else Capped(Decode(raw[..max]), true)
  }

  function WorkerCap(max: nat, raw: seq<Byte>): Capped {
    if |raw| <= max then Capped(Decode(raw), false) else Capped(Decode(raw[..max]), true)
  }

  /** The text with its lone surrogates replaced, as encoding sees it. */
  function Clean(text: seq<CodePoint>): (clean: seq<CodePoint>)
    ensures |clean| == |text| && Scalar(clean)
    ensures forall i :: 0 <= i < |text| ==> clean[i] == Replaced(text[i])
    ensures clean == text <==> Scalar(text)
  {
    seq(|text|, i requires 0 <= i < |text| => Replaced(text[i]))
  }

  lemma {:induction false} CleanEncodesTheSame(text: seq<CodePoint>)
    ensures Encode(Clean(text)) == Encode(text)
  {
    if text != [] {
      assert Clean(text)[1..] == Clean(text[1..]);
      CleanEncodesTheSame(text[1..]);
    }
  }

  lemma RoundTrip(text: seq<CodePoint>)
    ensures Decode(Encode(text)) == Clean(text)
  {
    CleanEncodesTheSame(text);
    DecodeAfterEncode(Clean(text), []);
    assert Encode(Clean(text)) + [] == Encode(text);
    assert Clean(text) + Decode([]) == Clean(text);
  }

  /**
    * The caps agree on a text and its encoding exactly when the text is cut or can be
    * encoded as it is: an uncut text with lone surrogates keeps them in the sandbox cap only.
    */
  lemma CapsAgreeIff(max: nat, text: seq<CodePoint>)
    ensures SandboxCap(max, text) == WorkerCap(max, Encode(text)) <==> |Encode(text)| > max || Scalar(text)
  {
    RoundTrip(text);
  }

  // ------------------------------------------------------------------ what a cut leaves

  function Size(c: CodePoint): (n: nat)
    ensures 1 <= n <= 4
  {
    |EncodeChar(Replaced(c))|
  }

  /** How many whole characters fit into `max` bytes. */
  function Fitting(text: seq<CodePoint>, max: nat): (n: nat)
    ensures n <= |text|
    decreases |text|
  {
    if text == [] || Size(text[0]) > max then 0 else 1 + Fitting(text[1..], max - Size(text[0]))
  }

  lemma {:induction false} FittingIsGreatest(text: seq<CodePoint>, max: nat)
    ensures var n := Fitting(text, max);
            |Encode(text[..n])| <= max && (n < |text| ==> |Encode(text[..n + 1])| > max)
    decreases |text|
  {
    if text != [] {
      var size := Size(text[0]);
      if size <= max {
        var n := Fitting(text[1..], max - size);
        FittingIsGreatest(text[1..], max - size);
        EncodeTake(text, n + 1);
        if n + 1 < |text| {
          EncodeTake(text, n + 2);
        }
      } else {
        EncodeTake(text, 1);
      }
    }
  }

  lemma EncodeTake(text: seq<CodePoint>, n: nat)
    requires 1 <= n <= |text|
    ensures Encode(text[..n]) == EncodeChar(Replaced(text[0])) + Encode(text[1..][..n - 1])
  {
    assert text[..n][1..] == text[1..][..n - 1];
  }

  /** A character cut short decodes to one replacement character. */
  lemma CutCharacter(c: CodePoint, k: nat)
    requires !Surrogate(c) && 1 <= k < |EncodeChar(c)|
    ensures Decode(EncodeChar(c)[..k]) == [REPLACEMENT]
  {
    var part := EncodeChar(c)[..k];
    assert Span(part) == k && Announced(part[0]) > k;
    assert part[k..] == [];
  }

  lemma CutAfterFirst(text: seq<CodePoint>, max: nat)
    requires text != [] && Scalar(text) && |EncodeChar(text[0])| <= max <= |Encode(text)|
    ensures var n := |EncodeChar(text[0])|;
            Decode(Encode(text)[..max]) == [text[0]] + Decode(Encode(text[1..])[..max - n])
  {
    var first, rest := EncodeChar(text[0]), Encode(text[1..]);
    var tail := rest[..max - |first|];
    assert (first + rest)[..max] == first + tail;
    EncodedSpan(text[0], tail);
    CharRoundTrip(text[0], tail);
    DecodeFirst(first, text[0], tail);
  }

  /** Decoding the first `max` bytes gives the characters that fit, and one replacement character for a torn one. */
  predicate CutsRight(text: seq<CodePoint>, max: nat)
    requires max <= |Encode(text)|
  {
    var whole := text[..Fitting(text, max)];
    Decode(Encode(text)[..max]) == whole + Torn(|Encode(whole)|, max)
  }

  function Torn(used: nat, max: nat): seq<CodePoint> {
    if used == max then [] else [REPLACEMENT]
  }

  lemma ScalarSize(text: seq<CodePoint>)
    requires text != [] && Scalar(text)
    ensures Size(text[0]) == |EncodeChar(text[0])| && Encode(text) == EncodeChar(text[0]) + Encode(text[1..])
    ensures Scalar(text[1..])
  {
    assert !Surrogate(text[0]);
  }

  /** The first character fits: the rest is cut by what is left. */
  lemma CutLater(text: seq<CodePoint>, max: nat)
    requires text != [] && Scalar(text) && Size(text[0]) <= max <= |Encode(text)|
    requires max - Size(text[0]) <= |Encode(text[1..])| && CutsRight(text[1..], max - Size(text[0]))
    ensures CutsRight(text, max)
  {
    hide Encode, Decode, EncodeChar, Scalar;
    ScalarSize(text);
    var size, rest := Size(text[0]), text[1..];
    var m := Fitting(rest, max - size);
    CutAfterFirst(text, max);
    EncodeTake(text, m + 1);
    FirstAndRest(text, m, Torn(|Encode(rest[..m])|, max - size));
    assert Torn(|Encode(text[..m + 1])|, max) == Torn(|Encode(rest[..m])|, max - size);
  }

  lemma FirstAndRest(text: seq<CodePoint>, m: nat, tail: seq<CodePoint>)
    requires m < |text|
    ensures [text[0]] + (text[1..][..m] + tail) == text[..m + 1] + tail
  {
    assert text[..m + 1] == [text[0]] + text[1..][..m];
  }

  /** The first character does not fit: nothing is left, or a torn character. */
  lemma CutAtOnce(text: seq<CodePoint>, max: nat)
    requires text != [] && Scalar(text) && max < Size(text[0]) && max <= |Encode(text)|
    ensures CutsRight(text, max)
  {
    ScalarSize(text);
    var first := EncodeChar(text[0]);
    assert (first + Encode(text[1..]))[..max] == first[..max];
    assert text[..0] == [] && |Encode(text[..0])| == 0;
    if max > 0 {
      CutCharacter(text[0], max);
    }
    assert [] + Torn(0, max) == Torn(0, max);
  }

  lemma {:induction false} CutText(text: seq<CodePoint>, max: nat)
    requires Scalar(text) && max <= |Encode(text)|
    ensures CutsRight(text, max)
    decreases |text|
  {
    if text == [] {
      assert CutsRight([], 0);
    } else {
      ScalarSize(text);
      if Size(text[0]) <= max {
        CutText(text[1..], max - Size(text[0]));
        CutLater(text, max);
      } else {
        CutAtOnce(text, max);
      }
    }
  }

  lemma {:induction false} EncodeAppend(a: seq<CodePoint>, b: seq<CodePoint>)
    ensures Encode(a + b) == Encode(a) + Encode(b)
  {
    if a == [] {
      assert a + b == b;
    } else {
      assert (a + b)[1..] == a[1..] + b;
      EncodeAppend(a[1..], b);
    }
  }

  lemma CleanPrefix(text: seq<CodePoint>, n: nat)
    requires n <= |text|
    ensures Encode(Clean(text)[..n]) == Encode(text[..n])
  {
    assert Clean(text)[..n] == Clean(text[..n]);
    CleanEncodesTheSame(text[..n]);
  }

  lemma TornSize(text: seq<CodePoint>)
    ensures |Encode(text + [REPLACEMENT])| == |Encode(text)| + 3
  {
    EncodeAppend(text, [REPLACEMENT]);
    assert Encode([REPLACEMENT]) == EncodeChar(REPLACEMENT) + [];
  }

  /** The cut of a clean text, measured. */
  lemma CutIsMeasured(clean: seq<CodePoint>, max: nat)
    requires Scalar(clean) && max < |Encode(clean)|
    ensures var n := Fitting(clean, max);
            && n < |clean| && |Encode(clean[..n])| <= max < |Encode(clean[..n + 1])|
            && Decode(Encode(clean)[..max]) == clean[..n] + (if |Encode(clean[..n])| == max then [] else [REPLACEMENT])
            && |Encode(Decode(Encode(clean)[..max]))| <= max + 2
  {
    FittingIsGreatest(clean, max);
    CutText(clean, max);
    assert clean[..|clean|] == clean;
    var whole := clean[..Fitting(clean, max)];
    TornSize(whole);
    assert whole + [] == whole;
  }

  /**
    * What a truncated output is: the most whole characters that fit, followed by one
    * U+FFFD exactly when the cut tore a character; at most two bytes over the limit.
    */
  lemma TruncationIsAPrefix(max: nat, text: seq<CodePoint>)
    requires SandboxCap(max, text).truncated
    ensures var out := SandboxCap(max, text).text;
            var n := Fitting(Clean(text), max);
            && n < |text| && |Encode(text[..n])| <= max < |Encode(text[..n + 1])|
            && out == Clean(text)[..n] + (if |Encode(text[..n])| == max then [] else [REPLACEMENT])
            && |Encode(out)| <= max + 2
  {
    CleanEncodesTheSame(text);
    CutIsMeasured(Clean(text), max);
    CleanPrefix(text, Fitting(Clean(text), max));
    CleanPrefix(text, Fitting(Clean(text), max) + 1);
  }

  // ------------------------------------------------------------------------ exec results

  datatype Report = Report(stdout: seq<CodePoint>, stderr: seq<CodePoint>, truncated: bool)

  /**
    * `out` is what `max` bytes leave of `text`: the text itself if it fits, and otherwise the
    * most whole characters that fit, with one U+FFFD after them if the cut tore a character.
    */
  ghost predicate LeftBy(max: nat, text: seq<CodePoint>, out: seq<CodePoint>) {
    if |Encode(text)| <= max then out == text
    else exists n: nat :: n < |text| && CutAt(max, text, n, out)
  }

  predicate CutAt(max: nat, text: seq<CodePoint>, n: nat, out: seq<CodePoint>)
    requires n < |text|
  {
    && |Encode(text[..n])| <= max < |Encode(text[..n + 1])|
    && out == Clean(text)[..n] + (if |Encode(text[..n])| == max then [] else [REPLACEMENT])
  }

  /** The report of an executor on two texts: whether anything was cut, and what is left. */
  ghost predicate Reports(max: nat, stdout: seq<CodePoint>, stderr: seq<CodePoint>, hint: seq<CodePoint>, r: Report) {
    && (r.truncated <==> |Encode(stdout)| > max || |Encode(stderr)| > max)
    && LeftBy(max, stderr, r.stderr)
    && (if r.truncated then exists out :: LeftBy(max, stdout, out) && r.stdout == out + hint else r.stdout == stdout)
  }

  lemma CapLeaves(max: nat, text: seq<CodePoint>)
    ensures LeftBy(max, text, SandboxCap(max, text).text)
    ensures |Encode(text)| > max ==> |Encode(SandboxCap(max, text).text)| <= max + 2
  {
    if SandboxCap(max, text).truncated {
      TruncationIsAPrefix(max, text);
      assert CutAt(max, text, Fitting(Clean(text), max), SandboxCap(max, text).text);
    }
  }

  lemma HintedSize(max: nat, text: seq<CodePoint>, hint: seq<CodePoint>)
    ensures |Encode(SandboxCap(max, text).text)| <= max + 2
    ensures |Encode(SandboxCap(max, text).text + hint)| <= max + 2 + |Encode(hint)|
  {
    CapLeaves(max, text);
    EncodeAppend(SandboxCap(max, text).text, hint);
  }

  /** The sandbox executor: each stream keeps to its limit, and the hint comes on top where something was cut. */
  method SandboxExec(max: nat, stdout: seq<CodePoint>, stderr: seq<CodePoint>, hint: seq<CodePoint>) returns (r: Report)
    ensures Reports(max, stdout, stderr, hint, r)
    ensures |Encode(r.stderr)| <= max + 2 && |Encode(r.stdout)| <= max + 2 + (if r.truncated then |Encode(hint)| else 0)
  {
    var out := SandboxCap(max, stdout);
    var err := SandboxCap(max, stderr);
    CapLeaves(max, stdout);
    CapLeaves(max, stderr);
    HintedSize(max, stdout, hint);
    HintedSize(max, stderr, hint);
    var text := out.text;
    if out.truncated || err.truncated {
      text := text + hint;
    }
    r := Report(text, err.text, out.truncated || err.truncated);
  }

  // ------------------------------------------------------------------- arbitrary bytes

  /** A decoded character encodes to at most three bytes for each byte it was read from. */
  lemma CharGrowth(bytes: seq<Byte>)
    requires bytes != []
    ensures |EncodeChar(DecodeChar(bytes))| <= 3 * Span(bytes)
  {
  }

  lemma {:induction false} DecodeGrowth(bytes: seq<Byte>)
    ensures |Encode(Decode(bytes))| <= 3 * |bytes|
    decreases |bytes|
  {
    if bytes != [] {
      CharGrowth(bytes);
      DecodeGrowth(bytes[Span(bytes)..]);
    }
  }

  lemma CapGrowth(max: nat, raw: seq<Byte>, hint: seq<CodePoint>)
    ensures |Encode(WorkerCap(max, raw).text)| <= 3 * max
    ensures |Encode(WorkerCap(max, raw).text + hint)| <= 3 * max + |Encode(hint)|
  {
    DecodeGrowth(raw);
    if |raw| > max {
      DecodeGrowth(raw[..max]);
    }
    EncodeAppend(WorkerCap(max, raw).text, hint);
  }

  lemma EncodedLeaves(max: nat, text: seq<CodePoint>)
    requires Scalar(text)
    ensures LeftBy(max, text, WorkerCap(max, Encode(text)).text)
  {
    CapsAgreeIff(max, text);
    CapLeaves(max, text);
  }

  /**
    * The worker: on output that encodes two texts it reports what the sandbox executor reports
    * on the texts; on any bytes it says truly whether something was cut, and replacement
    * characters make a stream at most three times as long as its limit.
    */
  method WorkerExec(max: nat, stdout: seq<Byte>, stderr: seq<Byte>, hint: seq<CodePoint>) returns (r: Report)
    ensures r.truncated <==> |stdout| > max || |stderr| > max
    ensures forall out, err :: Scalar(out) && Scalar(err) && Encode(out) == stdout && Encode(err) == stderr
              ==> Reports(max, out, err, hint, r)
    ensures |Encode(r.stderr)| <= 3 * max && |Encode(r.stdout)| <= 3 * max + (if r.truncated then |Encode(hint)| else 0)
  {
    var out := WorkerCap(max, stdout);
    var err := WorkerCap(max, stderr);
    CapGrowth(max, stdout, hint);
    CapGrowth(max, stderr, hint);
    var text := out.text;
    if out.truncated || err.truncated {
      text := text + hint;
    }
    r := Report(text, err.text, out.truncated || err.truncated);
    WorkerReports(max, stdout, stderr, hint, r);
  }

  lemma WorkerReports(max: nat, stdout: seq<Byte>, stderr: seq<Byte>, hint: seq<CodePoint>, r: Report)
    requires r.truncated <==> |stdout| > max || |stderr| > max
    requires r.stderr == WorkerCap(max, stderr).text
    requires r.stdout == if r.truncated then WorkerCap(max, stdout).text + hint else WorkerCap(max, stdout).text
    ensures forall out, err :: Scalar(out) && Scalar(err) && Encode(out) == stdout && Encode(err) == stderr
              ==> Reports(max, out, err, hint, r)
  {
    forall out, err | Scalar(out) && Scalar(err) && Encode(out) == stdout && Encode(err) == stderr
      ensures Reports(max, out, err, hint, r)
    {
      EncodedLeaves(max, out);
      EncodedLeaves(max, err);
    }
  }

  /** Only one report fits: an executor that cuts elsewhere, or puts the hint elsewhere, does not report so. */
  lemma OneReport(max: nat, stdout: seq<CodePoint>, stderr: seq<CodePoint>, hint: seq<CodePoint>, a: Report, b: Report)
    requires Reports(max, stdout, stderr, hint, a) && Reports(max, stdout, stderr, hint, b)
    ensures a == b
  {
    forall out, other | LeftBy(max, stdout, out) && LeftBy(max, stdout, other)
      ensures out == other
    {
      LeftIsOne(max, stdout, out, other);
    }
    LeftIsOne(max, stderr, a.stderr, b.stderr);
  }

  lemma LeftIsOne(max: nat, text: seq<CodePoint>, a: seq<CodePoint>, b: seq<CodePoint>)
    requires LeftBy(max, text, a) && LeftBy(max, text, b)
    ensures a == b
  {
    if |Encode(text)| > max {
      var m: nat :| m < |text| && CutAt(max, text, m, a);
      var n: nat :| n < |text| && CutAt(max, text, n, b);
      if m < n {
        PrefixFits(text, m + 1, n);
      } else if n < m {
        PrefixFits(text, n + 1, m);
      }
    }
  }

  lemma PrefixFits(text: seq<CodePoint>, m: nat, n: nat)
    requires m <= n <= |text|
    ensures |Encode(text[..m])| <= |Encode(text[..n])|
  {
    EncodeAppend(text[..m], text[m..n]);
    assert text[..m] + text[m..n] == text[..n];
  }

  /** What both executors put together from their two caps. */
  function Hinted(out: Capped, err: Capped, hint: seq<CodePoint>): Report {
    Report(if out.truncated || err.truncated then out.text + hint else out.text, err.text, out.truncated || err.truncated)
  }

  /** A command whose output can be encoded is reported the same by both backends, and rightly. */
  lemma BackendsReportTheSame(max: nat, stdout: seq<CodePoint>, stderr: seq<CodePoint>, hint: seq<CodePoint>)
    requires Scalar(stdout) && Scalar(stderr)
    ensures Hinted(SandboxCap(max, stdout), SandboxCap(max, stderr), hint)
         == Hinted(WorkerCap(max, Encode(stdout)), WorkerCap(max, Encode(stderr)), hint)
    ensures Reports(max, stdout, stderr, hint, Hinted(SandboxCap(max, stdout), SandboxCap(max, stderr), hint))
  {
    CapsAgreeIff(max, stdout);
    CapsAgreeIff(max, stderr);
    CapLeaves(max, stdout);
    CapLeaves(max, stderr);
  }

  /** And so it is for any two executors that keep to their contracts. */
  lemma ExecutorsAgree(max: nat, stdout: seq<CodePoint>, stderr: seq<CodePoint>, hint: seq<CodePoint>, a: Report, b: Report)
    requires Scalar(stdout) && Scalar(stderr) && Reports(max, stdout, stderr, hint, a)
    requires forall out, err :: Scalar(out) && Scalar(err) && Encode(out) == Encode(stdout) && Encode(err) == Encode(stderr)
               ==> Reports(max, out, err, hint, b)
    ensures a == b
  {
    OneReport(max, stdout, stderr, hint, a, b);
  }
}
