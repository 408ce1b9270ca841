/** Dollar-quoting a payload: the tag writer, and what the scanner's tag reader and closer search make of its text. */
module DollarQuote {
  import opened Wrappers
  import opened SqlScanner
  import opened ScannedStream

  const DRAWS := 16

  predicate Contains(s: string, p: string) {
    exists k: nat :: k <= |s| && StartsWith(s, k, p)
  }

  function Written(tag: string, payload: string): string {
    Closer(tag) + payload + Closer(tag)
  }

  ghost predicate NoCloserIn(text: string, lo: nat, hi: nat, tag: string) {
    forall k: nat :: lo <= k < hi ==> !StartsWith(text, k, Closer(tag))
  }

  /** The reader's whole view of a text: a tag, and its first closer at the very end, around `payload`. */
  ghost predicate ReadsAs(alnum: AlnumTest, text: string, tag: string, payload: string) {
    var n := |Closer(tag)|;
    && DollarTagAt(alnum, text, 0) == Some(tag)
    && 2 * n <= |text| && text[n..|text| - n] == payload
    && StartsWith(text, |text| - n, Closer(tag))
    && NoCloserIn(text, n, |text| - n, tag)
  }

  /** Draws until a tag is not in the payload, at most sixteen times; the random digits are a parameter. */
  method QuoteTag(payload: string, draws: seq<string>) returns (tag: Option<string>)
    requires |draws| == DRAWS
    ensures tag.None? <==> forall i :: 0 <= i < DRAWS ==> Contains(payload, "e" + draws[i])
    ensures tag.Some? ==>
              exists i :: 0 <= i < DRAWS && tag.value == "e" + draws[i] && !Contains(payload, "e" + draws[i])
                          && forall k :: 0 <= k < i ==> Contains(payload, "e" + draws[k])
  {
    for i := 0 to DRAWS
      invariant forall k :: 0 <= k < i ==> Contains(payload, "e" + draws[k])
    {
      var candidate := "e" + draws[i];
      var at := Find(payload, candidate, 0);
      if at == -1 { return Some(candidate); }
      assert StartsWith(payload, at, candidate);
    }
    return None;
  }

  /** `Written(tag, payload)` stands in `text` from `i` on. */
  ghost predicate WrittenAt(text: string, i: nat, tag: string, payload: string) {
    i + |Written(tag, payload)| <= |text| && text[i..i + |Written(tag, payload)|] == Written(tag, payload)
  }

  /** Two closers around the payload, character by character. */
  ghost predicate Framed(text: string, i: nat, tag: string, payload: string) {
    var n := |tag| + 2;
    && i + n + |payload| + n <= |text|
    && text[i] == '$' == text[i + n - 1] == text[i + n + |payload|] == text[i + n + |payload| + n - 1]
    && (forall k :: 0 <= k < |tag| ==> text[i + 1 + k] == tag[k] == text[i + (n + |payload|) + (1 + k)])
    && (forall k :: 0 <= k < |payload| ==> text[i + n + k] == payload[k])
  }

  lemma WrittenIsFramed(tag: string, payload: string)
    ensures Framed(Written(tag, payload), 0, tag, payload)
  {
    var w, c, n := Written(tag, payload), Closer(tag), |tag| + 2;
    var m := n + |payload|;
    assert w == c + (payload + c);
    forall k | 0 <= k < n ensures w[k] == c[k] == w[m + k] {
      assert w[m + k] == (payload + c)[|payload| + k];
    }
    forall k | 0 <= k < |tag| ensures w[1 + k] == tag[k] == w[m + (1 + k)] {
      assert c[1 + k] == tag[k];
    }
  }

  lemma WrittenChars(text: string, i: nat, tag: string, payload: string)
    requires WrittenAt(text, i, tag, payload)
    ensures Framed(text, i, tag, payload)
  {
    var w := Written(tag, payload);
    WrittenIsFramed(tag, payload);
    assert forall k :: 0 <= k < |w| ==> text[i + k] == text[i..i + |w|][k] == w[k];
  }

  lemma TagIsRead(alnum: AlnumTest, text: string, i: nat, tag: string, payload: string)
    requires WrittenAt(text, i, tag, payload) && CleanTag(alnum, tag)
    ensures DollarTagAt(alnum, text, i) == Some(tag)
  {
    PunctuationIsNotIdent(alnum);
    WrittenChars(text, i, tag, payload);
    forall k | i + 1 <= k < i + 1 + |tag| ensures IsIdentChar(alnum, text[k]) {
      assert text[i + 1 + (k - i - 1)] == tag[k - i - 1];
    }
    TagEndIsUnique(alnum, text, i + 1, i + 1 + |tag|);
    assert text[i + 1..i + 1 + |tag|] == tag;
  }

  /** A closer before the last one can reach no further than the first dollar sign of the last one. */
  lemma EarlierCloserIsInside(alnum: AlnumTest, text: string, i: nat, tag: string, payload: string, k: nat)
    requires WrittenAt(text, i, tag, payload) && CleanTag(alnum, tag) && k < |payload|
    requires StartsWith(text, i + |tag| + 2 + k, Closer(tag))
    ensures StartsWith(payload + "$", k, Closer(tag))
  {
    PunctuationIsNotIdent(alnum);
    WrittenChars(text, i, tag, payload);
    var n := |tag| + 2;
    var start := i + n + k;
    var last := k + n - 1;
    assert text[start + (n - 1)] == Closer(tag)[n - 1] == '$';
    assert last <= |payload|;
    forall d | 0 <= d < n ensures (payload + "$")[k + d] == Closer(tag)[d] {
      assert text[start + d] == Closer(tag)[d];
      if k + d < |payload| {
        assert text[i + n + (k + d)] == payload[k + d];
      }
    }
  }

  lemma InsideCloserIsEarlier(text: string, i: nat, tag: string, payload: string, k: nat)
    requires WrittenAt(text, i, tag, payload) && StartsWith(payload + "$", k, Closer(tag))
    ensures k < |payload| && StartsWith(text, i + |tag| + 2 + k, Closer(tag))
  {
    WrittenChars(text, i, tag, payload);
    var n := |tag| + 2;
    forall d | 0 <= d < n ensures text[i + n + k + d] == Closer(tag)[d] {
      assert (payload + "$")[k + d] == Closer(tag)[d];
      if k + d < |payload| {
        assert text[i + n + (k + d)] == payload[k + d];
      }
    }
  }

  lemma LastCloser(text: string, i: nat, tag: string, payload: string)
    requires WrittenAt(text, i, tag, payload)
    ensures StartsWith(text, i + |tag| + 2 + |payload|, Closer(tag))
  {
    WrittenChars(text, i, tag, payload);
    var start := i + |tag| + 2 + |payload|;
    forall d | 0 <= d < |tag| + 2 ensures text[start + d] == Closer(tag)[d] {
      if 0 < d <= |tag| {
        assert text[start + 1 + (d - 1)] == tag[d - 1];
      }
    }
  }

  lemma NoEarlierCloser(alnum: AlnumTest, text: string, i: nat, tag: string, payload: string)
    requires WrittenAt(text, i, tag, payload) && CleanTag(alnum, tag)
    ensures NoCloserIn(text, i + |tag| + 2, i + |tag| + 2 + |payload|, tag) <==> !Contains(payload + "$", Closer(tag))
  {
    var body := i + |tag| + 2;
    if k: nat :| k <= |payload + "$"| && StartsWith(payload + "$", k, Closer(tag)) {
      InsideCloserIsEarlier(text, i, tag, payload, k);
      assert StartsWith(text, body + k, Closer(tag));
    } else {
      forall k: nat | body <= k < body + |payload| ensures !StartsWith(text, k, Closer(tag)) {
        if StartsWith(text, k, Closer(tag)) {
          EarlierCloserIsInside(alnum, text, i, tag, payload, k - body);
        }
      }
    }
  }

  lemma WrittenHasPayload(tag: string, payload: string)
    ensures var text, n := Written(tag, payload), |tag| + 2;
            WrittenAt(text, 0, tag, payload) && |text| - n == n + |payload| && text[n..|text| - n] == payload
  {
    var text, n := Written(tag, payload), |tag| + 2;
    assert text[0..0 + |text|] == text;
    assert text == Closer(tag) + (payload + Closer(tag));
  }

  /** The reader takes exactly the payload back if and only if the payload does not close its own quote. */
  lemma RoundTripIsExact(alnum: AlnumTest, tag: string, payload: string)
    requires CleanTag(alnum, tag)
    ensures ReadsAs(alnum, Written(tag, payload), tag, payload) <==> !Contains(payload + "$", Closer(tag))
  {
    var text, lo, hi := Written(tag, payload), |tag| + 2, |tag| + 2 + |payload|;
    WrittenHasPayload(tag, payload);
    assert DollarTagAt(alnum, text, 0) == Some(tag) by { TagIsRead(alnum, text, 0, tag, payload); }
    assert StartsWith(text, hi, Closer(tag)) by { LastCloser(text, 0, tag, payload); }
    assert ReadsAs(alnum, text, tag, payload) <==> NoCloserIn(text, lo, hi, tag);
    NoEarlierCloser(alnum, text, 0, tag, payload);
    assert 0 + |tag| + 2 == lo && 0 + |tag| + 2 + |payload| == hi;
  }

  lemma FreshTagClosesNothing(tag: string, payload: string)
    requires !Contains(payload, tag)
    ensures !Contains(payload + "$", Closer(tag))
  {
    if k: nat :| k <= |payload + "$"| && StartsWith(payload + "$", k, Closer(tag)) {
      forall d | 0 <= d < |tag| ensures payload[k + 1 + d] == tag[d] {
        assert (payload + "$")[k + (1 + d)] == Closer(tag)[1 + d];
      }
      assert StartsWith(payload, k + 1, tag);
    }
  }

  /** What the writer's guard buys: with a tag that is not in the payload the reader gets the payload back. */
  lemma RoundTrip(alnum: AlnumTest, tag: string, payload: string)
    requires CleanTag(alnum, tag) && !Contains(payload, tag)
    ensures ReadsAs(alnum, Written(tag, payload), tag, payload)
  {
    FreshTagClosesNothing(tag, payload);
    RoundTripIsExact(alnum, tag, payload);
  }

  lemma QuoteOpens(alnum: AlnumTest, text: string, i: nat, tag: string, payload: string)
    requires WrittenAt(text, i, tag, payload) && CleanTag(alnum, tag) && ModeAt(alnum, text, i) == Code
    ensures Spans(alnum, text, i, i + |tag| + 2, DollarBody(tag))
  {
    TagIsRead(alnum, text, i, tag, payload);
    assert text[i] == '$' by { WrittenChars(text, i, tag, payload); }
    EnterDollarQuote(alnum, text, i, tag);
  }

  lemma QuoteRunsOn(alnum: AlnumTest, text: string, i: nat, tag: string, payload: string)
    requires WrittenAt(text, i, tag, payload) && CleanTag(alnum, tag) && !Contains(payload + "$", Closer(tag))
    requires Spans(alnum, text, i, i + |tag| + 2, DollarBody(tag))
    ensures Spans(alnum, text, i, i + |tag| + 2 + |payload|, DollarBody(tag))
  {
    NoEarlierCloser(alnum, text, i, tag, payload);
    AdvanceBody(alnum, text, i, i + |tag| + 2, i + |tag| + 2 + |payload|, tag);
  }

  /** The lexer takes a payload that does not close its own quote for one span, wherever in code it stands. */
  lemma QuoteIsOneSpan(alnum: AlnumTest, text: string, i: nat, tag: string, payload: string)
    requires WrittenAt(text, i, tag, payload) && CleanTag(alnum, tag) && !Contains(payload + "$", Closer(tag))
    requires ModeAt(alnum, text, i) == Code
    ensures Spans(alnum, text, i, i + |Written(tag, payload)|, Code)
  {
    QuoteOpens(alnum, text, i, tag, payload);
    QuoteRunsOn(alnum, text, i, tag, payload);
    LastCloser(text, i, tag, payload);
    LeaveDollarQuote(alnum, text, i, i + |tag| + 2 + |payload|, tag);
  }

  // ---------------------------------------------------------------- in a statement

  /** A dollar sign in code with nothing but identifier characters after it: one more dollar sign would make a tag. */
  ghost predicate OpenDollar(alnum: AlnumTest, head: string) {
    exists i :: 0 <= i < |head| && IsOpenDollar(alnum, head, i)
  }

  predicate IsOpenDollar(alnum: AlnumTest, head: string, i: nat)
    requires i < |head|
  {
    ModeAt(alnum, head, i) == Code && head[i] == '$' && TagEnd(alnum, head, i + 1) == |head|
  }

  lemma BlankSettles(alnum: AlnumTest, head: string)
    requires head == "" || head[|head| - 1] in {' ', '\n'}
    ensures !OpenDollar(alnum, head)
  {
    PunctuationIsNotIdent(alnum);
  }

  lemma {:induction false} BodyRunsOut(alnum: AlnumTest, a: string, i: nat, tag: string)
    requires i <= |a| < i + |Closer(tag)| && ModeAt(alnum, a, i) == DollarBody(tag)
    ensures ModeAt(alnum, a, |a|) == DollarBody(tag)
    decreases |a| - i
  {
    if i < |a| {
      assert !StartsWith(a, i, Closer(tag));
      BodyRunsOut(alnum, a, i + 1, tag);
    }
  }

  lemma TagBeforeDollar(alnum: AlnumTest, a: string, b: string, i: nat)
    requires At(b, 0, '$') && i < |a| && !(a[i] == '$' && TagEnd(alnum, a, i + 1) == |a|)
    ensures DollarTagAt(alnum, a + b, i) == DollarTagAt(alnum, a, i)
  {
    if a[i] == '$' {
      var e := TagEnd(alnum, a, i + 1);
      TagEndIsUnique(alnum, a + b, i + 1, e);
      assert (a + b)[i + 1..e] == a[i + 1..e];
    }
  }

  lemma OpensBeforeDollar(alnum: AlnumTest, a: string, b: string, i: nat)
    requires At(b, 0, '$') && i < |a| && ModeAt(alnum, a, i) == Code && !IsOpenDollar(alnum, a, i)
    ensures Opens(alnum, a + b, i) == Opens(alnum, a, i)
  {
    TagBeforeDollar(alnum, a, b, i);
  }

  lemma CloserBeforeDollar(alnum: AlnumTest, a: string, b: string, i: nat, tag: string)
    requires i < |a| && ModeAt(alnum, a, i) == DollarBody(tag) && EndsInCode(alnum, a)
    ensures StartsWith(a + b, i, Closer(tag)) == StartsWith(a, i, Closer(tag))
  {
    if i + |Closer(tag)| > |a| {
      BodyRunsOut(alnum, a, i, tag);
    }
  }

  lemma StepBeforeDollar(alnum: AlnumTest, a: string, b: string, i: nat)
    requires At(b, 0, '$') && EndsInCode(alnum, a) && i < |a| && !IsOpenDollar(alnum, a, i)
    ensures Step(alnum, a + b, i, ModeAt(alnum, a, i)) == Step(alnum, a, i, ModeAt(alnum, a, i))
  {
    var m := ModeAt(alnum, a, i);
    ModesAreSound(alnum, a, i);
    if m == Code {
      OpensBeforeDollar(alnum, a, b, i);
    } else if m.DollarBody? {
      CloserBeforeDollar(alnum, a, b, i, m.tag);
    } else {
      assert i + 1 == |a| ==> ModeAt(alnum, a, i + 1) == Code;
    }
  }

  /** Text that ends in code is lexed as it is before a dollar sign, up to the first dollar sign it leaves open. */
  lemma {:induction false} ModesBeforeDollar(alnum: AlnumTest, a: string, b: string, i: nat)
    requires At(b, 0, '$') && EndsInCode(alnum, a) && i <= |a|
    requires forall k :: 0 <= k < i ==> !IsOpenDollar(alnum, a, k)
    ensures ModeAt(alnum, a + b, i) == ModeAt(alnum, a, i)
  {
    if i > 0 {
      ModesBeforeDollar(alnum, a, b, i - 1);
      StepBeforeDollar(alnum, a, b, i - 1);
    }
  }

  lemma EmitBeforeDollar(alnum: AlnumTest, a: string, b: string, i: nat)
    requires At(b, 0, '$') && EndsInCode(alnum, a) && !OpenDollar(alnum, a) && i < |a|
    ensures Emit(alnum, a + b, i) == Emit(alnum, a, i)
  {
    ModesBeforeDollar(alnum, a, b, i);
    if ModeAt(alnum, a, i) == Code {
      OpensBeforeDollar(alnum, a, b, i);
    }
  }

  lemma QuoteStands(head: string, tag: string, payload: string, tail: string)
    ensures WrittenAt(head + Written(tag, payload) + tail, |head|, tag, payload)
  {
    var w := Written(tag, payload);
    assert (head + w + tail)[|head|..|head| + |w|] == w;
  }

  lemma CodeBeforeQuote(alnum: AlnumTest, head: string, w: string, tail: string)
    requires EndsInCode(alnum, head) && !OpenDollar(alnum, head) && At(w, 0, '$')
    ensures ModeAt(alnum, head + w + tail, |head|) == Code
  {
    assert head + w + tail == head + (w + tail) && At(w + tail, 0, '$');
    ModesBeforeDollar(alnum, head, w + tail, |head|);
  }

  /** The payload's text in the statement is one blanked span, and code follows it. */
  lemma QuoteInStatement(alnum: AlnumTest, head: string, tag: string, payload: string, tail: string)
    requires EndsInCode(alnum, head) && !OpenDollar(alnum, head) && CleanTag(alnum, tag) && !Contains(payload, tag)
    ensures var w := Written(tag, payload); Spans(alnum, head + w + tail, |head|, |head + w|, Code)
  {
    var text := head + Written(tag, payload) + tail;
    CodeBeforeQuote(alnum, head, Written(tag, payload), tail);
    QuoteStands(head, tag, payload, tail);
    FreshTagClosesNothing(tag, payload);
    QuoteIsOneSpan(alnum, text, |head|, tag, payload);
  }

  lemma HeadInStatement(alnum: AlnumTest, head: string, tag: string, payload: string, tail: string)
    requires EndsInCode(alnum, head) && !OpenDollar(alnum, head)
    ensures var text := head + Written(tag, payload) + tail;
            forall i :: 0 <= i < |head| ==> Emit(alnum, text, i) == Emit(alnum, head, i)
  {
    var rest := Written(tag, payload) + tail;
    assert head + Written(tag, payload) + tail == head + rest;
    forall i | 0 <= i < |head| ensures Emit(alnum, head + rest, i) == Emit(alnum, head, i) {
      EmitBeforeDollar(alnum, head, rest, i);
    }
  }

  lemma TailInStatement(alnum: AlnumTest, head: string, tag: string, payload: string, tail: string)
    requires EndsInCode(alnum, head) && !OpenDollar(alnum, head) && CleanTag(alnum, tag) && !Contains(payload, tag)
    ensures var front := head + Written(tag, payload);
            forall i :: 0 <= i < |tail| ==> Emit(alnum, front + tail, |front| + i) == Emit(alnum, tail, i)
  {
    var front := head + Written(tag, payload);
    QuoteInStatement(alnum, head, tag, payload, tail);
    assert front[|front| - 1] == '$';
    PunctuationIsNotIdent(alnum);
    forall i | 0 <= i < |tail| ensures Emit(alnum, front + tail, |front| + i) == Emit(alnum, tail, i) {
      EmitsOfSecond(alnum, front, tail, i);
    }
  }

  lemma StatementIsScanned(alnum: AlnumTest, head: string, tag: string, payload: string, tail: string)
    requires EndsInCode(alnum, head) && !OpenDollar(alnum, head) && CleanTag(alnum, tag) && !Contains(payload, tag)
    ensures var w := Written(tag, payload);
            Scan(alnum, head + w + tail) == Scan(alnum, head) + Blanked(w) + Scan(alnum, tail)
  {
    var w := Written(tag, payload);
    var text := head + w + tail;
    HeadInStatement(alnum, head, tag, payload, tail);
    QuoteInStatement(alnum, head, tag, payload, tail);
    TailInStatement(alnum, head, tag, payload, tail);
    forall i | 0 <= i < |text|
      ensures Emit(alnum, text, i) == (Scan(alnum, head) + Blanked(w) + Scan(alnum, tail))[i]
    {
      if |head + w| <= i {
        assert Emit(alnum, text, |head + w| + (i - |head + w|)) == Emit(alnum, tail, i - |head + w|);
      } else if |head| <= i {
        assert text[i] == w[i - |head|];
      }
    }
  }

  /** Written into a statement, after lines that end in code, the payload is blanked, and the statement's own text
      before and after it is lexed as it was without it. */
  lemma PayloadStaysInItsQuote(
      alnum: AlnumTest, before: string, head: string, tag: string, payload: string, tail: string)
    requires Lines(before) && EndsInCode(alnum, before)
    requires EndsInCode(alnum, head) && !OpenDollar(alnum, head)
    requires CleanTag(alnum, tag) && !Contains(payload, tag)
    ensures Scan(alnum, before + (head + Written(tag, payload) + tail))
         == Scan(alnum, before) + (Scan(alnum, head) + Blanked(Written(tag, payload)) + Scan(alnum, tail))
  {
    ScanAppends(alnum, before, head + Written(tag, payload) + tail);
    StatementIsScanned(alnum, head, tag, payload, tail);
  }

  ghost predicate Separates(alnum: AlnumTest, head: string, tag: string, payload: string, tail: string) {
    Scan(alnum, head + Written(tag, payload) + tail)
      == Scan(alnum, head) + Blanked(Written(tag, payload)) + Scan(alnum, tail)
  }

  lemma OpenDollarSwallows(alnum: AlnumTest, head: string, tag: string, payload: string, tail: string)
    requires EndsInCode(alnum, head) && OpenDollar(alnum, head)
    ensures !Separates(alnum, head, tag, payload, tail)
  {
    var i :| 0 <= i < |head| && IsOpenDollar(alnum, head, i);
    var rest := Written(tag, payload) + tail;
    var text := head + Written(tag, payload) + tail;
    assert text == head + rest && At(rest, 0, '$');
    PunctuationIsNotIdent(alnum);
    ModesBeforeDollar(alnum, head, rest, i);
    TagEndIsUnique(alnum, text, i + 1, |head|);
    assert Emit(alnum, text, i) == ' ' && Emit(alnum, head, i) == '$';
    assert Scan(alnum, text)[i] == ' ';
    assert (Scan(alnum, head) + Blanked(Written(tag, payload)) + Scan(alnum, tail))[i] == '$';
  }

  /** That an open dollar sign is the only thing that can go wrong: a statement whose text before the payload ends in
      code keeps every payload apart if and only if it leaves no dollar sign open. */
  lemma SeparationIsExact(alnum: AlnumTest, head: string)
    requires EndsInCode(alnum, head)
    ensures !OpenDollar(alnum, head) <==>
              forall tag, payload, tail :: CleanTag(alnum, tag) && !Contains(payload, tag) ==>
                Separates(alnum, head, tag, payload, tail)
  {
    if OpenDollar(alnum, head) {
      assert CleanTag(alnum, "_") && !Contains("", "_");
      OpenDollarSwallows(alnum, head, "_", "", "");
    } else {
      forall tag, payload, tail | CleanTag(alnum, tag) && !Contains(payload, tag)
        ensures Separates(alnum, head, tag, payload, tail)
      {
        StatementIsScanned(alnum, head, tag, payload, tail);
      }
    }
  }

  // ---------------------------------------------------------------- statements of plain text and literals

  predicate OpensNone(text: string, k: nat)
    requires k < |text|
  {
    && text[k] !in {'\'', '\"', '$'}
    && !(text[k] == '-' && At(text, k + 1, '-')) && !(text[k] == '/' && At(text, k + 1, '*'))
  }

  /** Text that opens nothing, whatever stands behind it. */
  predicate Quiet(text: string) {
    && text != "" && text[|text| - 1] !in {'E', 'e', '-', '/'}
    && forall k :: 0 <= k < |text| ==> OpensNone(text, k)
  }

  /** Quiet text and literals by turns, up to the place of the payload. */
  function StatementHead(parts: seq<(string, string)>, last: string): string {
    if parts == [] then last else parts[0].0 + (Quote(parts[0].1) + StatementHead(parts[1..], last))
  }

  predicate PlainParts(parts: seq<(string, string)>, last: string) {
    Quiet(last) && forall i :: 0 <= i < |parts| ==> Quiet(parts[i].0) && '\'' !in parts[i].1
  }

  lemma {:induction false} QuietIsCode(alnum: AlnumTest, text: string, i: nat, j: nat)
    requires i <= j <= |text| && ModeAt(alnum, text, i) == Code
    requires forall k :: i <= k < j ==> OpensNone(text, k)
    requires i < j && (text[j - 1] == 'E' || text[j - 1] == 'e') ==> !At(text, j, '\'')
    ensures ModeAt(alnum, text, j) == Code
    decreases j - i
  {
    if i < j {
      assert OpensNone(text, i) && (i + 1 < j ==> OpensNone(text, i + 1));
      assert !OpensEscape(alnum, text, i);
      assert Opens(alnum, text, i).None?;
      QuietIsCode(alnum, text, i + 1, j);
    }
  }

  lemma QuietStandsIn(text: string, i: nat, p: string)
    requires Quiet(p) && StartsWith(text, i, p)
    ensures forall k :: i <= k < i + |p| ==> OpensNone(text, k)
  {
    forall k | i <= k < i + |p| ensures OpensNone(text, k) {
      assert text[i + (k - i)] == p[k - i] && OpensNone(p, k - i);
      if k + 1 < i + |p| {
        assert text[i + (k - i + 1)] == p[k - i + 1];
      }
    }
  }

  lemma HeadStarts(parts: seq<(string, string)>, last: string)
    requires PlainParts(parts, last)
    ensures StatementHead(parts, last) != "" && StatementHead(parts, last)[0] != '\''
  {
    var first := if parts == [] then last else parts[0].0;
    assert OpensNone(first, 0);
  }

  lemma LiteralEnds(alnum: AlnumTest, text: string, i: nat, literal: string)
    requires i <= |text| && ModeAt(alnum, text, i) == Code && StartsWith(text, i, Quote(literal)) && '\'' !in literal
    requires i > 0 && text[i - 1] !in {'E', 'e'} && !At(text, i + |Quote(literal)|, '\'')
    ensures ModeAt(alnum, text, i + |Quote(literal)|) == Code
  {
    var j := i + 1 + |literal|;
    assert text[i + 0] == Quote(literal)[0] && text[i + (1 + |literal|)] == Quote(literal)[1 + |literal|];
    forall k | i + 1 <= k < j ensures text[k] != '\'' {
      assert text[i + (k - i)] == Quote(literal)[k - i] == literal[k - i - 1];
    }
    QuotedEnds(alnum, text, i + 1, j);
  }

  lemma StartsInTurn(text: string, i: nat, a: string, b: string)
    requires StartsWith(text, i, a + b)
    ensures StartsWith(text, i, a) && StartsWith(text, i + |a|, b)
  {
    forall k | 0 <= k < |a| ensures text[i + k] == a[k] {
      assert (a + b)[k] == a[k];
    }
    forall k | 0 <= k < |b| ensures text[i + |a| + k] == b[k] {
      assert (a + b)[|a| + k] == b[k] && text[i + (|a| + k)] == (a + b)[|a| + k];
    }
  }

  lemma QuietRunsOn(alnum: AlnumTest, text: string, i: nat, p: string)
    requires Quiet(p) && StartsWith(text, i, p) && ModeAt(alnum, text, i) == Code
    ensures ModeAt(alnum, text, i + |p|) == Code && text[i + |p| - 1] !in {'E', 'e'}
  {
    assert text[i + (|p| - 1)] == p[|p| - 1];
    QuietStandsIn(text, i, p);
    QuietIsCode(alnum, text, i, i + |p|);
  }

  /** One literal between quiet text and what follows. */
  lemma LiteralRunsOn(alnum: AlnumTest, text: string, i: nat, literal: string, rest: string)
    requires i <= |text| && ModeAt(alnum, text, i) == Code && StartsWith(text, i, Quote(literal) + rest)
    requires '\'' !in literal && i > 0 && text[i - 1] !in {'E', 'e'} && rest != "" && rest[0] != '\''
    ensures ModeAt(alnum, text, i + |Quote(literal)|) == Code && StartsWith(text, i + |Quote(literal)|, rest)
  {
    StartsInTurn(text, i, Quote(literal), rest);
    assert text[i + |Quote(literal)| + 0] == rest[0];
    LiteralEnds(alnum, text, i, literal);
  }

  lemma {:induction false} HeadEndsInCode(alnum: AlnumTest, text: string, i: nat, parts: seq<(string, string)>,
                                          last: string)
    requires StartsWith(text, i, StatementHead(parts, last)) && i + |StatementHead(parts, last)| == |text|
    requires PlainParts(parts, last) && ModeAt(alnum, text, i) == Code
    ensures EndsInCode(alnum, text)
    decreases |parts|
  {
    if parts == [] {
      QuietRunsOn(alnum, text, i, last);
    } else {
      var p, literal, rest := parts[0].0, parts[0].1, StatementHead(parts[1..], last);
      HeadStarts(parts[1..], last);
      StartsInTurn(text, i, p, Quote(literal) + rest);
      QuietRunsOn(alnum, text, i, p);
      LiteralRunsOn(alnum, text, i + |p|, literal, rest);
      HeadEndsInCode(alnum, text, i + |p| + |Quote(literal)|, parts[1..], last);
    }
  }

  /** A statement whose text before the payload is quiet text and literals, up to a blank, keeps every payload apart: it
      need not be scanned to know. */
  lemma PlainStatementSeparates(
      alnum: AlnumTest, parts: seq<(string, string)>, last: string, tag: string, payload: string, tail: string)
    requires PlainParts(parts, last) && last[|last| - 1] in {' ', '\n'}
    requires CleanTag(alnum, tag) && !Contains(payload, tag)
    ensures Separates(alnum, StatementHead(parts, last), tag, payload, tail)
  {
    var head := StatementHead(parts, last);
    HeadEndsInCode(alnum, head, 0, parts, last);
    LastIsLast(parts, last);
    BlankSettles(alnum, head);
    StatementIsScanned(alnum, head, tag, payload, tail);
  }

  lemma {:induction false} LastIsLast(parts: seq<(string, string)>, last: string)
    requires last != ""
    ensures var head := StatementHead(parts, last); head != "" && head[|head| - 1] == last[|last| - 1]
  {
    if parts != [] {
      LastIsLast(parts[1..], last);
    }
  }
}
