/** The scanned language as a grammar: plain characters, comments that nest, strings and dollar quotes, each with its
    text. The scan keeps the plain characters and blanks the rest. */
module SqlGrammar {
  import opened Wrappers
  import opened SqlScanner
  import opened ScannedStream
  import opened DollarQuote

  // ---------------------------------------------------------------- comments

  /** What stands in a comment: runs of text, and comments. */
  datatype Body = End | Run(text: string, rest: Body) | Inner(inner: Body, rest: Body)

  function BodyText(b: Body): string
    decreases b, 0
  {
    match b
    case End => ""
    case Run(text, rest) => text + BodyText(rest)
    case Inner(inner, rest) => CommentText(inner) + BodyText(rest)
  }

  function CommentText(b: Body): string
    decreases b, 1
  {
    "/*" + (BodyText(b) + "*/")
  }

  /** Neither delimiter begins in the run, not even with the character behind it. */
  predicate NoDelimiter(run: string, next: Option<char>) {
    forall k :: 0 <= k < |run| ==> !DelimiterAt(run, next, k)
  }

  predicate DelimiterAt(run: string, next: Option<char>, k: nat)
    requires k < |run|
  {
    var c := if k + 1 < |run| then Some(run[k + 1]) else next;
    (run[k] == '/' && c == Some('*')) || (run[k] == '*' && c == Some('/'))
  }

  function FirstOf(b: Body, end: Option<char>): Option<char> {
    match b
    case End => end
    case Run(text, _) => if text == "" then end else Some(text[0])
    case Inner(_, _) => Some('/')
  }

  /** Runs are runs; `end` is the character behind the body. */
  predicate ProperBody(b: Body, end: Option<char>) {
    match b
    case End => true
    case Run(text, rest) => text != "" && NoDelimiter(text, FirstOf(rest, end)) && ProperBody(rest, end)
    case Inner(inner, rest) => ProperBody(inner, Some('*')) && ProperBody(rest, end)
  }

  /** Comments that are opened one in the other and never closed. */
  function OpenText(bodies: seq<Body>): string {
    if bodies == [] then "" else "/*" + (BodyText(bodies[0]) + OpenText(bodies[1..]))
  }

  predicate ProperOpen(bodies: seq<Body>) {
    forall i :: 0 <= i < |bodies| ==> ProperBody(bodies[i], if i + 1 < |bodies| then Some('/') else None)
  }

  predicate Follows(text: string, i: nat, c: Option<char>) {
    match c
    case None => i == |text|
    case Some(d) => At(text, i, d)
  }

  lemma {:induction false} RunRuns(alnum: AlnumTest, text: string, i: nat, j: nat, d: nat, run: string,
                                   next: Option<char>)
    requires d > 0 && Spans(alnum, text, i, j, BlockComment(d)) && StartsWith(text, j, run)
    requires NoDelimiter(run, next) && Follows(text, j + |run|, next)
    ensures Spans(alnum, text, i, j + |run|, BlockComment(d))
    decreases |run|
  {
    if run != "" {
      assert text[j + 0] == run[0] && (|run| > 1 ==> text[j + 1] == run[1]);
      assert !DelimiterAt(run, next, 0);
      Advance(alnum, text, i, j, BlockComment(d));
      forall k | 0 <= k < |run[1..]| ensures text[j + 1 + k] == run[1..][k] {
        assert text[j + (k + 1)] == run[k + 1];
      }
      assert NoDelimiter(run[1..], next) by {
        forall k | 0 <= k < |run[1..]| ensures !DelimiterAt(run[1..], next, k) {
          assert !DelimiterAt(run, next, k + 1);
        }
      }
      RunRuns(alnum, text, i, j + 1, d, run[1..], next);
    }
  }

  lemma OpensComment(alnum: AlnumTest, text: string, i: nat, j: nat, d: nat)
    requires Spans(alnum, text, i, j, if d == 0 then Code else BlockComment(d)) && StartsWith(text, j, "/*")
    ensures Spans(alnum, text, i, j + 2, BlockComment(d + 1))
  {
    assert text[j + 0] == "/*"[0] && text[j + 1] == "/*"[1];
    Advance(alnum, text, i, j, if d == 0 then Code else BlockComment(d));
    Advance(alnum, text, i, j + 1, BlockSecond(d + 1));
  }

  lemma ClosesComment(alnum: AlnumTest, text: string, i: nat, j: nat, d: nat)
    requires d > 0 && Spans(alnum, text, i, j, BlockComment(d)) && StartsWith(text, j, "*/")
    ensures Spans(alnum, text, i, j + 2, if d == 1 then Code else BlockComment((d - 1) as nat))
  {
    assert text[j + 0] == "*/"[0] && text[j + 1] == "*/"[1];
    Advance(alnum, text, i, j, BlockComment(d));
    Advance(alnum, text, i, j + 1, BlockSecond(d - 1));
  }

  lemma {:induction false} BodyRuns(alnum: AlnumTest, text: string, i: nat, j: nat, d: nat, b: Body, end: Option<char>)
    requires d > 0 && Spans(alnum, text, i, j, BlockComment(d)) && StartsWith(text, j, BodyText(b))
    requires ProperBody(b, end) && Follows(text, j + |BodyText(b)|, end)
    ensures Spans(alnum, text, i, j + |BodyText(b)|, BlockComment(d))
    decreases b, 0
  {
    match b
    case End =>
    case Run(run, rest) =>
      StartsInTurn(text, j, run, BodyText(rest));
      FirstFollows(text, j + |run|, rest, end);
      RunRuns(alnum, text, i, j, d, run, FirstOf(rest, end));
      BodyRuns(alnum, text, i, j + |run|, d, rest, end);
    case Inner(inner, rest) =>
      StartsInTurn(text, j, CommentText(inner), BodyText(rest));
      CommentRuns(alnum, text, i, j, d, inner);
      BodyRuns(alnum, text, i, j + |CommentText(inner)|, d, rest, end);
  }

  lemma FirstFollows(text: string, i: nat, b: Body, end: Option<char>)
    requires StartsWith(text, i, BodyText(b)) && ProperBody(b, end) && Follows(text, i + |BodyText(b)|, end)
    ensures Follows(text, i, FirstOf(b, end))
  {
    if b != End {
      var all := BodyText(b);
      if b.Inner? {
        assert all == CommentText(b.inner) + BodyText(b.rest);
      } else {
        assert all == b.text + BodyText(b.rest);
      }
      assert text[i + 0] == all[0];
    }
  }

  /** A comment in a comment, at any depth. */
  lemma {:induction false} CommentRuns(alnum: AlnumTest, text: string, i: nat, j: nat, d: nat, b: Body)
    requires Spans(alnum, text, i, j, if d == 0 then Code else BlockComment(d))
    requires StartsWith(text, j, CommentText(b)) && ProperBody(b, Some('*'))
    ensures Spans(alnum, text, i, j + |CommentText(b)|, if d == 0 then Code else BlockComment(d))
    decreases b, 1
  {
    StartsInTurn(text, j, "/*", BodyText(b) + "*/");
    StartsInTurn(text, j + 2, BodyText(b), "*/");
    OpensComment(alnum, text, i, j, d);
    assert text[j + 2 + |BodyText(b)| + 0] == "*/"[0];
    BodyRuns(alnum, text, i, j + 2, d + 1, b, Some('*'));
    ClosesComment(alnum, text, i, j + 2 + |BodyText(b)|, d + 1);
  }

  /** A comment met in code is blanked throughout, with all comments in it, and code goes on right behind it. */
  lemma CommentIsBlank(alnum: AlnumTest, text: string, i: nat, b: Body)
    requires i <= |text| && ModeAt(alnum, text, i) == Code
    requires StartsWith(text, i, CommentText(b)) && ProperBody(b, Some('*'))
    ensures Spans(alnum, text, i, i + |CommentText(b)|, Code)
  {
    CommentRuns(alnum, text, i, i, 0, b);
  }

  lemma {:induction false} OpenRuns(alnum: AlnumTest, text: string, i: nat, j: nat, d: nat, bodies: seq<Body>)
    requires Spans(alnum, text, i, j, if d == 0 then Code else BlockComment(d)) && ProperOpen(bodies)
    requires StartsWith(text, j, OpenText(bodies)) && j + |OpenText(bodies)| == |text|
    ensures bodies == [] || Spans(alnum, text, i, |text|, BlockComment(d + |bodies|))
    decreases |bodies|
  {
    if bodies != [] {
      var b, rest := bodies[0], OpenText(bodies[1..]);
      StartsInTurn(text, j, "/*", BodyText(b) + rest);
      StartsInTurn(text, j + 2, BodyText(b), rest);
      OpensComment(alnum, text, i, j, d);
      if |bodies| > 1 {
        assert rest[0] == '/' && text[j + 2 + |BodyText(b)| + 0] == rest[0];
      }
      BodyRuns(alnum, text, i, j + 2, d + 1, b, if |bodies| > 1 then Some('/') else None);
      assert ProperOpen(bodies[1..]) by {
        assert forall k :: 0 <= k < |bodies[1..]| ==> bodies[1..][k] == bodies[k + 1];
      }
      OpenRuns(alnum, text, i, j + 2 + |BodyText(b)|, d + 1, bodies[1..]);
    }
  }

  /** A comment that is not closed, or in which one is not, blanks all that follows. */
  lemma OpenCommentIsBlank(alnum: AlnumTest, text: string, i: nat, bodies: seq<Body>)
    requires i <= |text| && ModeAt(alnum, text, i) == Code && bodies != [] && ProperOpen(bodies)
    requires StartsWith(text, i, OpenText(bodies)) && i + |OpenText(bodies)| == |text|
    ensures forall k :: i <= k < |text| ==> !IsCode(alnum, text, k)
  {
    OpenRuns(alnum, text, i, i, 0, bodies);
  }

  // ---------------------------------------------------------------- strings, quoted names and line comments

  /** The words with each quote written twice. */
  function Doubled(words: string, q: char): string {
    if words == "" then ""
    else if words[0] == q then [q, q] + Doubled(words[1..], q)
    else [words[0]] + Doubled(words[1..], q)
  }

  function QuotedText(q: char, words: string): string {
    [q] + (Doubled(words, q) + [q])
  }

  /** A character of an escape string: one that stands for itself, one behind a backslash, or a quote written twice. */
  datatype Unit = One(c: char) | Slashed(c: char) | Twice

  function UnitText(u: Unit): string {
    match u
    case One(c) => [c]
    case Slashed(c) => ['\\', c]
    case Twice => "''"
  }

  function UnitsText(us: seq<Unit>): string {
    if us == [] then "" else UnitText(us[0]) + UnitsText(us[1..])
  }

  predicate ProperUnits(us: seq<Unit>) {
    forall k :: 0 <= k < |us| ==> us[k].One? ==> us[k].c !in {'\\', '\''}
  }

  function EscapeText(e: char, us: seq<Unit>): string {
    [e, '\''] + (UnitsText(us) + "'")
  }

  lemma {:induction false} DoubledRuns(alnum: AlnumTest, text: string, i: nat, j: nat, q: char, words: string)
    requires Spans(alnum, text, i, j, Quoted(q)) && StartsWith(text, j, Doubled(words, q))
    ensures Spans(alnum, text, i, j + |Doubled(words, q)|, Quoted(q))
    decreases |words|
  {
    if words != "" {
      var all, rest := Doubled(words, q), Doubled(words[1..], q);
      var first := if words[0] == q then [q, q] else [words[0]];
      StartsInTurn(text, j, first, rest);
      assert text[j + 0] == first[0];
      Advance(alnum, text, i, j, Quoted(q));
      if words[0] == q {
        assert text[j + 1] == first[1];
        Advance(alnum, text, i, j + 1, QuotedSecond(q));
      }
      DoubledRuns(alnum, text, i, j + |first|, q, words[1..]);
    }
  }

  /** A string or quoted name met in code is blanked to its closing quote, doubled quotes and all. */
  lemma QuotedIsBlank(alnum: AlnumTest, text: string, i: nat, q: char, words: string)
    requires i <= |text| && ModeAt(alnum, text, i) == Code && q in {'\'', '\"'}
    requires StartsWith(text, i, QuotedText(q, words)) && !At(text, i + |QuotedText(q, words)|, q)
    ensures Spans(alnum, text, i, i + |QuotedText(q, words)|, Code)
  {
    StartsInTurn(text, i, [q], Doubled(words, q) + [q]);
    StartsInTurn(text, i + 1, Doubled(words, q), [q]);
    assert text[i + 0] == [q][0];
    Advance(alnum, text, i, i, Code);
    DoubledRuns(alnum, text, i, i + 1, q, words);
    var j := i + 1 + |Doubled(words, q)|;
    assert text[j + 0] == [q][0];
    Advance(alnum, text, i, j, Quoted(q));
  }

  /** One that is not closed blanks all that follows. */
  lemma OpenQuotedIsBlank(alnum: AlnumTest, text: string, i: nat, q: char, words: string)
    requires i <= |text| && ModeAt(alnum, text, i) == Code && q in {'\'', '\"'}
    requires StartsWith(text, i, [q] + Doubled(words, q)) && i + |[q] + Doubled(words, q)| == |text|
    ensures forall k :: i <= k < |text| ==> !IsCode(alnum, text, k)
  {
    StartsInTurn(text, i, [q], Doubled(words, q));
    assert text[i + 0] == [q][0];
    Advance(alnum, text, i, i, Code);
    DoubledRuns(alnum, text, i, i + 1, q, words);
  }

  lemma UnitRuns(alnum: AlnumTest, text: string, i: nat, j: nat, u: Unit)
    requires Spans(alnum, text, i, j, EscapeString) && StartsWith(text, j, UnitText(u))
    requires u.One? ==> u.c !in {'\\', '\''}
    ensures Spans(alnum, text, i, j + |UnitText(u)|, EscapeString)
  {
    assert text[j + 0] == UnitText(u)[0];
    Advance(alnum, text, i, j, EscapeString);
    if |UnitText(u)| == 2 {
      assert text[j + 1] == UnitText(u)[1];
      Advance(alnum, text, i, j + 1, EscapeSecond);
    }
  }

  lemma {:induction false} UnitsRun(alnum: AlnumTest, text: string, i: nat, j: nat, us: seq<Unit>)
    requires Spans(alnum, text, i, j, EscapeString) && StartsWith(text, j, UnitsText(us)) && ProperUnits(us)
    ensures Spans(alnum, text, i, j + |UnitsText(us)|, EscapeString)
    decreases |us|
  {
    if us != [] {
      StartsInTurn(text, j, UnitText(us[0]), UnitsText(us[1..]));
      UnitRuns(alnum, text, i, j, us[0]);
      UnitsRun(alnum, text, i, j + |UnitText(us[0])|, us[1..]);
    }
  }

  predicate StartsEscape(alnum: AlnumTest, text: string, i: nat, e: char) {
    e in {'E', 'e'} && (i == 0 || (i <= |text| && !alnum(text[i - 1]) && text[i - 1] != '_'))
  }

  lemma EscapeOpens(alnum: AlnumTest, text: string, i: nat, e: char)
    requires i <= |text| && ModeAt(alnum, text, i) == Code
    requires StartsWith(text, i, [e, '\'']) && StartsEscape(alnum, text, i, e)
    ensures Spans(alnum, text, i, i + 2, EscapeString)
  {
    assert text[i + 0] == [e, '\''][0] && text[i + 1] == [e, '\''][1];
    Advance(alnum, text, i, i, Code);
    Advance(alnum, text, i, i + 1, EscapeSecond);
  }

  /** An escape string met in code is blanked to its closing quote; a backslash takes the next character with it. */
  lemma EscapeIsBlank(alnum: AlnumTest, text: string, i: nat, e: char, us: seq<Unit>)
    requires i <= |text| && ModeAt(alnum, text, i) == Code && ProperUnits(us) && StartsEscape(alnum, text, i, e)
    requires StartsWith(text, i, EscapeText(e, us)) && !At(text, i + |EscapeText(e, us)|, '\'')
    ensures Spans(alnum, text, i, i + |EscapeText(e, us)|, Code)
  {
    StartsInTurn(text, i, [e, '\''], UnitsText(us) + "'");
    StartsInTurn(text, i + 2, UnitsText(us), "'");
    EscapeOpens(alnum, text, i, e);
    UnitsRun(alnum, text, i, i + 2, us);
    var j := i + 2 + |UnitsText(us)|;
    assert text[j + 0] == "'"[0];
    Advance(alnum, text, i, j, EscapeString);
  }

  /** One that is not closed, a last backslash included, blanks all that follows. */
  lemma OpenEscapeIsBlank(alnum: AlnumTest, text: string, i: nat, e: char, us: seq<Unit>, slash: bool)
    requires i <= |text| && ModeAt(alnum, text, i) == Code && ProperUnits(us) && StartsEscape(alnum, text, i, e)
    requires var last := if slash then "\\" else "";
             StartsWith(text, i, [e, '\''] + (UnitsText(us) + last)) && i + 2 + |UnitsText(us)| + |last| == |text|
    ensures forall k :: i <= k < |text| ==> !IsCode(alnum, text, k)
  {
    var last := if slash then "\\" else "";
    OpenEscapeStands(text, i, e, us, last);
    EscapeRuns(alnum, text, i, e, us);
  }

  lemma OpenEscapeStands(text: string, i: nat, e: char, us: seq<Unit>, last: string)
    requires StartsWith(text, i, [e, '\''] + (UnitsText(us) + last))
    ensures StartsWith(text, i, [e, '\'']) && StartsWith(text, i + 2, UnitsText(us))
  {
    StartsInTurn(text, i, [e, '\''], UnitsText(us) + last);
    StartsInTurn(text, i + 2, UnitsText(us), last);
  }

  lemma EscapeRuns(alnum: AlnumTest, text: string, i: nat, e: char, us: seq<Unit>)
    requires i <= |text| && ModeAt(alnum, text, i) == Code && ProperUnits(us) && StartsEscape(alnum, text, i, e)
    requires StartsWith(text, i, [e, '\'']) && StartsWith(text, i + 2, UnitsText(us))
    ensures Spans(alnum, text, i, i + 2 + |UnitsText(us)|, EscapeString)
  {
    EscapeOpens(alnum, text, i, e);
    UnitsRun(alnum, text, i, i + 2, us);
  }

  lemma {:induction false} WordsRun(alnum: AlnumTest, text: string, i: nat, j: nat, end: nat)
    requires Spans(alnum, text, i, j, LineComment) && j < end <= |text|
    requires forall k :: j <= k < end ==> text[k] != '\n'
    requires end == |text| || text[end] == '\n'
    ensures forall k :: i <= k < end ==> !IsCode(alnum, text, k)
    ensures end < |text| ==> ModeAt(alnum, text, end) == Code
    decreases end - j
  {
    Advance(alnum, text, i, j, LineComment);
    if j + 1 < end {
      WordsRun(alnum, text, i, j + 1, end);
    }
  }

  /** A line comment met in code is blanked up to its newline, where code goes on. */
  lemma LineIsBlank(alnum: AlnumTest, text: string, i: nat, words: string)
    requires i <= |text| && ModeAt(alnum, text, i) == Code && '\n' !in words
    requires StartsWith(text, i, "--" + words) && (i + 2 + |words| == |text| || At(text, i + 2 + |words|, '\n'))
    ensures forall k :: i <= k < i + 2 + |words| ==> !IsCode(alnum, text, k)
    ensures i + 2 + |words| < |text| ==> ModeAt(alnum, text, i + 2 + |words|) == Code
  {
    StartsInTurn(text, i, "--", words);
    assert text[i + 0] == "--"[0] && text[i + 1] == "--"[1];
    Advance(alnum, text, i, i, Code);
    forall k | i + 1 <= k < i + 2 + |words| ensures text[k] != '\n' {
      if k >= i + 2 { assert text[i + 2 + (k - i - 2)] == words[k - i - 2]; }
    }
    WordsRun(alnum, text, i, i + 1, i + 2 + |words|);
  }

  // ---------------------------------------------------------------- whole texts

  datatype Token =
    | Kept(c: char)
    | Line(words: string)
    | Remark(body: Body)
    | Name(quote: char, words: string)
    | Escaped(letter: char, units: seq<Unit>)
    | Dollars(tag: string, payload: string)

  /** What a text may end in without closing it. */
  datatype Tail =
    | Nothing
    | OpenRemark(bodies: seq<Body>)
    | OpenName(quote: char, words: string)
    | OpenEscaped(letter: char, units: seq<Unit>, slash: bool)
    | OpenDollars(tag: string, payload: string)

  function TokenText(t: Token): string {
    match t
    case Kept(c) => [c]
    case Line(words) => "--" + words
    case Remark(body) => CommentText(body)
    case Name(q, words) => QuotedText(q, words)
    case Escaped(e, us) => EscapeText(e, us)
    case Dollars(tag, payload) => Written(tag, payload)
  }

  function TailText(t: Tail): string {
    match t
    case Nothing => ""
    case OpenRemark(bodies) => OpenText(bodies)
    case OpenName(q, words) => [q] + Doubled(words, q)
    case OpenEscaped(e, us, slash) => [e, '\''] + (UnitsText(us) + if slash then "\\" else "")
    case OpenDollars(tag, payload) => Closer(tag) + payload
  }

  /** The token stands at `i`: its text is there, and what is around it does not make it another. */
  ghost predicate Reads(alnum: AlnumTest, text: string, i: nat, t: Token) {
    && i < |text| && StartsWith(text, i, TokenText(t))
    && var end := i + |TokenText(t)|;
       match t
       case Kept(c) =>
         && c !in {'\'', '\"'} && !StartsWith(text, i, "--") && !StartsWith(text, i, "/*")
         && !(At(text, i + 1, '\'') && StartsEscape(alnum, text, i, c))
         && (forall tag :: CleanTag(alnum, tag) ==> !StartsWith(text, i, Closer(tag)))
       case Line(words) => '\n' !in words && (end == |text| || At(text, end, '\n'))
       case Remark(body) => ProperBody(body, Some('*'))
       case Name(q, _) => q in {'\'', '\"'} && !At(text, end, q)
       case Escaped(e, us) => ProperUnits(us) && StartsEscape(alnum, text, i, e) && !At(text, end, '\'')
       case Dollars(tag, payload) => CleanTag(alnum, tag) && !Contains(payload + "$", Closer(tag))
  }

  ghost predicate EndsIn(alnum: AlnumTest, text: string, i: nat, t: Tail) {
    && i + |TailText(t)| == |text| && StartsWith(text, i, TailText(t))
    && match t
       case Nothing => true
       case OpenRemark(bodies) => bodies != [] && ProperOpen(bodies)
       case OpenName(q, _) => q in {'\'', '\"'}
       case OpenEscaped(e, us, _) => ProperUnits(us) && StartsEscape(alnum, text, i, e)
       case OpenDollars(tag, payload) => CleanTag(alnum, tag) && !Contains(payload, Closer(tag))
  }

  /** Where a text goes on behind a token, if that stands there. */
  ghost function Behind(alnum: AlnumTest, text: string): (nat, Token) -> Option<nat> {
    (i: nat, t: Token) => if Reads(alnum, text, i, t) then Some(i + |TokenText(t)|) else None
  }

  /** Going on token by token from `i`, one comes to `end`. */
  ghost predicate Leads(behind: (nat, Token) -> Option<nat>, i: nat, ts: seq<Token>, end: nat)
    decreases |ts|
  {
    if ts == [] then i == end else behind(i, ts[0]).Some? && Leads(behind, behind(i, ts[0]).value, ts[1..], end)
  }

  /** The text is these tokens and this end. */
  ghost predicate IsRead(alnum: AlnumTest, text: string, ts: seq<Token>, tail: Tail) {
    exists end :: Leads(Behind(alnum, text), 0, ts, end) && EndsIn(alnum, text, end, tail)
  }

  function Output(t: Token): string {
    if t.Kept? then [t.c] else Blanked(TokenText(t))
  }

  function Outputs(ts: seq<Token>): string {
    if ts == [] then "" else Output(ts[0]) + Outputs(ts[1..])
  }

  lemma KeptIsCode(alnum: AlnumTest, text: string, i: nat, c: char)
    requires Reads(alnum, text, i, Kept(c)) && ModeAt(alnum, text, i) == Code
    ensures IsCode(alnum, text, i) && text[i] == c && ModeAt(alnum, text, i + 1) == Code
  {
    assert text[i + 0] == [c][0];
    assert At(text, i, '-') && At(text, i + 1, '-') ==> StartsWith(text, i, "--");
    assert At(text, i, '/') && At(text, i + 1, '*') ==> StartsWith(text, i, "/*");
    TagStands(alnum, text, i);
  }

  lemma TagStands(alnum: AlnumTest, text: string, i: nat)
    ensures DollarTagAt(alnum, text, i).Some? ==>
              var tag := DollarTagAt(alnum, text, i).value;
              CleanTag(alnum, tag) && StartsWith(text, i, Closer(tag))
  {
  }

  lemma OpenDollarsAreBlank(alnum: AlnumTest, text: string, i: nat, tag: string, payload: string)
    requires i <= |text| && ModeAt(alnum, text, i) == Code && CleanTag(alnum, tag)
    requires EndsIn(alnum, text, i, OpenDollars(tag, payload))
    ensures forall k :: i <= k < |text| ==> !IsCode(alnum, text, k)
  {
    var body := i + |tag| + 2;
    StartsInTurn(text, i, Closer(tag), payload);
    CloserOpens(alnum, text, i, tag);
    forall k | body <= k < |text| ensures !StartsWith(text, k, Closer(tag)) {
      if StartsWith(text, k, Closer(tag)) {
        forall d | 0 <= d < |Closer(tag)| ensures payload[k - body + d] == Closer(tag)[d] {
          assert text[k + d] == Closer(tag)[d] && text[body + (k - body + d)] == payload[k - body + d];
        }
        assert StartsWith(payload, k - body, Closer(tag));
      }
    }
    AdvanceBody(alnum, text, i, body, |text|, tag);
  }

  lemma CloserOpens(alnum: AlnumTest, text: string, i: nat, tag: string)
    requires i < |text| && ModeAt(alnum, text, i) == Code && CleanTag(alnum, tag) && StartsWith(text, i, Closer(tag))
    ensures Spans(alnum, text, i, i + |tag| + 2, DollarBody(tag))
  {
    PunctuationIsNotIdent(alnum);
    assert text[i + 0] == Closer(tag)[0] && text[i + (1 + |tag|)] == Closer(tag)[1 + |tag|];
    forall k | i + 1 <= k < i + 1 + |tag| ensures text[k] == tag[k - i - 1] {
      assert text[i + (k - i)] == Closer(tag)[k - i];
    }
    TagEndIsUnique(alnum, text, i + 1, i + 1 + |tag|);
    assert text[i + 1..i + 1 + |tag|] == tag;
    EnterDollarQuote(alnum, text, i, tag);
  }

  lemma StandsIsWritten(text: string, i: nat, tag: string, payload: string)
    requires StartsWith(text, i, Written(tag, payload))
    ensures WrittenAt(text, i, tag, payload)
  {
    var w := Written(tag, payload);
    forall k | 0 <= k < |w| ensures text[i..i + |w|][k] == w[k] {
      assert text[i..i + |w|][k] == text[i + k];
    }
  }

  /** Blank up to `end`, and code goes on there. */
  ghost predicate BlankTo(alnum: AlnumTest, text: string, i: nat, end: nat) {
    && end <= |text| && (forall k :: i <= k < end ==> !IsCode(alnum, text, k))
    && (end < |text| ==> ModeAt(alnum, text, end) == Code)
  }

  lemma DollarsAreBlank(alnum: AlnumTest, text: string, i: nat, tag: string, payload: string)
    requires i < |text| && ModeAt(alnum, text, i) == Code && CleanTag(alnum, tag)
    requires StartsWith(text, i, Written(tag, payload)) && !Contains(payload + "$", Closer(tag))
    ensures BlankTo(alnum, text, i, i + |Written(tag, payload)|)
  {
    StandsIsWritten(text, i, tag, payload);
    QuoteIsOneSpan(alnum, text, i, tag, payload);
  }

  lemma SpansBlank(alnum: AlnumTest, text: string, i: nat, end: nat)
    ensures Spans(alnum, text, i, end, Code) ==> BlankTo(alnum, text, i, end)
  {
  }

  /** A token that is not kept is blanked, and the text goes on in code behind it. */
  lemma TokenIsBlank(alnum: AlnumTest, text: string, i: nat, t: Token)
    requires Reads(alnum, text, i, t) && ModeAt(alnum, text, i) == Code && !t.Kept?
    ensures BlankTo(alnum, text, i, i + |TokenText(t)|)
  {
    SpansBlank(alnum, text, i, i + |TokenText(t)|);
    match t
    case Line(words) => LineIsBlank(alnum, text, i, words);
    case Remark(body) => CommentIsBlank(alnum, text, i, body);
    case Name(q, words) => QuotedIsBlank(alnum, text, i, q, words);
    case Escaped(e, us) => EscapeIsBlank(alnum, text, i, e, us);
    case Dollars(tag, payload) => DollarsAreBlank(alnum, text, i, tag, payload);
  }

  lemma TailIsBlank(alnum: AlnumTest, text: string, i: nat, t: Tail)
    requires EndsIn(alnum, text, i, t) && (i < |text| ==> ModeAt(alnum, text, i) == Code)
    ensures forall k :: i <= k < |text| ==> !IsCode(alnum, text, k)
  {
    match t
    case Nothing =>
    case OpenRemark(bodies) => OpenCommentIsBlank(alnum, text, i, bodies);
    case OpenName(q, words) => OpenQuotedIsBlank(alnum, text, i, q, words);
    case OpenEscaped(e, us, slash) => OpenEscapeIsBlank(alnum, text, i, e, us, slash);
    case OpenDollars(tag, payload) => OpenDollarsAreBlank(alnum, text, i, tag, payload);
  }

  /** From `i` on the scan is `out`. */
  ghost predicate ScannedAs(alnum: AlnumTest, text: string, i: nat, out: string) {
    i + |out| <= |text| && forall k :: 0 <= k < |out| ==> Emit(alnum, text, i + k) == out[k]
  }

  lemma ScannedInTurn(alnum: AlnumTest, text: string, i: nat, a: string, b: string)
    requires ScannedAs(alnum, text, i, a) && ScannedAs(alnum, text, i + |a|, b)
    ensures ScannedAs(alnum, text, i, a + b)
  {
    forall k | 0 <= k < |a + b| ensures Emit(alnum, text, i + k) == (a + b)[k] {
      if k >= |a| { assert Emit(alnum, text, i + |a| + (k - |a|)) == b[k - |a|]; }
    }
  }

  lemma TailIsScanned(alnum: AlnumTest, text: string, i: nat, t: Tail)
    requires i <= |text| && (i < |text| ==> ModeAt(alnum, text, i) == Code)
    ensures EndsIn(alnum, text, i, t) ==>
              i + |TailText(t)| == |text| && ScannedAs(alnum, text, i, Blanked(TailText(t)))
  {
    if EndsIn(alnum, text, i, t) {
      TailIsBlank(alnum, text, i, t);
      BlankIsScanned(alnum, text, i, TailText(t));
    }
  }

  lemma OutputIsAsLong(t: Token)
    ensures |Output(t)| == |TokenText(t)|
  {
  }

  lemma TokenIsScanned(alnum: AlnumTest, text: string, i: nat, t: Token)
    requires i <= |text| && (i < |text| ==> ModeAt(alnum, text, i) == Code)
    ensures |Output(t)| == |TokenText(t)|
    ensures Reads(alnum, text, i, t) ==>
              && ScannedAs(alnum, text, i, Output(t))
              && (i + |TokenText(t)| < |text| ==> ModeAt(alnum, text, i + |TokenText(t)|) == Code)
  {
    OutputIsAsLong(t);
    if Reads(alnum, text, i, t) {
      if t.Kept? {
        KeptIsCode(alnum, text, i, t.c);
      } else {
        TokenIsBlank(alnum, text, i, t);
        BlankIsScanned(alnum, text, i, TokenText(t));
      }
    }
  }

  lemma BlankIsScanned(alnum: AlnumTest, text: string, i: nat, s: string)
    requires StartsWith(text, i, s) && forall k :: i <= k < i + |s| ==> !IsCode(alnum, text, k)
    ensures ScannedAs(alnum, text, i, Blanked(s))
  {
    forall k | 0 <= k < |s| ensures Emit(alnum, text, i + k) == Blanked(s)[k] {
      assert text[i + k] == s[k];
    }
  }

  /** The scan is `out` so far, and code goes on. */
  ghost predicate Reached(alnum: AlnumTest, text: string, out: string) {
    ScannedAs(alnum, text, 0, out) && (|out| < |text| ==> ModeAt(alnum, text, |out|) == Code)
  }

  /** What one token adds. */
  lemma OneMoreScanned(alnum: AlnumTest, text: string, out: string, t: Token)
    ensures Reached(alnum, text, out) && Reads(alnum, text, |out|, t) ==> Reached(alnum, text, out + Output(t))
  {
    if Reached(alnum, text, out) {
      TokenIsScanned(alnum, text, |out|, t);
      if ScannedAs(alnum, text, |out|, Output(t)) {
        ScannedInTurn(alnum, text, 0, out, Output(t));
      }
    }
  }

  /** What the end adds. */
  lemma EndIsScanned(alnum: AlnumTest, text: string, out: string, tail: Tail)
    ensures Reached(alnum, text, out) && EndsIn(alnum, text, |out|, tail) ==>
              Scan(alnum, text) == out + Blanked(TailText(tail))
  {
    if Reached(alnum, text, out) && EndsIn(alnum, text, |out|, tail) {
      TailIsScanned(alnum, text, |out|, tail);
      var all := out + Blanked(TailText(tail));
      ScannedInTurn(alnum, text, 0, out, Blanked(TailText(tail)));
      forall k | 0 <= k < |text| ensures Scan(alnum, text)[k] == all[k] {
        assert Emit(alnum, text, 0 + k) == all[k];
      }
    }
  }

  lemma OneMoreOutput(out: string, ts: seq<Token>)
    requires ts != []
    ensures out + Output(ts[0]) + Outputs(ts[1..]) == out + Outputs(ts)
  {
  }

  /** What one token keeps, a reading keeps. */
  lemma {:induction false} ReadingKeeps(behind: (nat, Token) -> Option<nat>, reached: string -> bool, out: string,
                                        ts: seq<Token>, end: nat)
    requires reached(out) && Leads(behind, |out|, ts, end)
    requires forall o: string, t: Token :: reached(o) && behind(|o|, t).Some? ==>
               behind(|o|, t).value == |o + Output(t)| && reached(o + Output(t))
    ensures reached(out + Outputs(ts)) && |out + Outputs(ts)| == end
    decreases |ts|
  {
    if ts == [] {
      assert out + Outputs(ts) == out;
    } else {
      ReadingKeeps(behind, reached, out + Output(ts[0]), ts[1..], end);
      OneMoreOutput(out, ts);
    }
  }

  lemma ReachedAtEnd(alnum: AlnumTest, text: string, ts: seq<Token>, end: nat)
    requires Leads(Behind(alnum, text), 0, ts, end)
    ensures Reached(alnum, text, Outputs(ts)) && |Outputs(ts)| == end
  {
    var reached := (o: string) => Reached(alnum, text, o);
    forall o: string, t: Token | reached(o) && Behind(alnum, text)(|o|, t).Some?
      ensures Behind(alnum, text)(|o|, t).value == |o + Output(t)| && reached(o + Output(t))
    {
      OneMoreScanned(alnum, text, o, t);
      OutputIsAsLong(t);
    }
    ReadingKeeps(Behind(alnum, text), reached, "", ts, end);
    assert "" + Outputs(ts) == Outputs(ts);
  }

  /** However a text is read, the scan keeps its plain characters and blanks its comments, strings, names and quotes,
      closed or not. */
  lemma ScanIsTheReading(alnum: AlnumTest, text: string, ts: seq<Token>, tail: Tail)
    requires IsRead(alnum, text, ts, tail)
    ensures Scan(alnum, text) == Outputs(ts) + Blanked(TailText(tail))
  {
    var end :| Leads(Behind(alnum, text), 0, ts, end) && EndsIn(alnum, text, end, tail);
    ReachedAtEnd(alnum, text, ts, end);
    EndIsScanned(alnum, text, Outputs(ts), tail);
  }
}
