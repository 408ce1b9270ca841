/** Every text is a text of the grammar. */
module SqlReading {
  import opened Wrappers
  import opened SqlScanner
  import opened ScannedStream
  import opened DollarQuote
  import opened SqlGrammar

  lemma StandsInTurn(text: string, i: nat, a: string, b: string)
    requires StartsWith(text, i, a) && StartsWith(text, i + |a|, b)
    ensures StartsWith(text, i, a + b)
  {
    forall k | 0 <= k < |a + b| ensures text[i + k] == (a + b)[k] {
      if k >= |a| { assert text[i + |a| + (k - |a|)] == b[k - |a|]; }
    }
  }

  // ---------------------------------------------------------------- comments

  /** A comment's body from `j` on: closed by the delimiter behind it, or open to the end of the text, with the open
      comments in it. */
  datatype Found = Found(body: Body, closed: bool, open: seq<Body>)

  function EndOf(f: Found): Option<char> {
    if f.closed then Some('*') else if f.open == [] then None else Some('/')
  }

  ghost predicate Finds(text: string, j: nat, f: Found) {
    && StartsWith(text, j, BodyText(f.body)) && ProperBody(f.body, EndOf(f))
    && var end := j + |BodyText(f.body)|;
       if f.closed then f.open == [] && StartsWith(text, end, "*/")
       else ProperOpen(f.open) && StartsWith(text, end, OpenText(f.open)) && end + |OpenText(f.open)| == |text|
  }

  lemma FindsEnd(text: string, j: nat, f: Found)
    requires Finds(text, j, f)
    ensures Follows(text, j + |BodyText(f.body)|, EndOf(f))
  {
    var end := j + |BodyText(f.body)|;
    if f.closed {
      assert text[end + 0] == "*/"[0];
    } else if f.open != [] {
      assert text[end + 0] == OpenText(f.open)[0];
    }
  }

  /** One character of a comment before what was found behind it. */
  lemma FindsOneMore(text: string, j: nat, f: Found) returns (g: Found)
    requires j < |text| && Finds(text, j + 1, f) && !StartsWith(text, j, "/*") && !StartsWith(text, j, "*/")
    ensures Finds(text, j, g)
  {
    var run := [text[j]];
    g := f.(body := Run(run, f.body));
    StandsInTurn(text, j, run, BodyText(f.body));
    FindsEnd(text, j + 1, f);
    FirstFollows(text, j + 1, f.body, EndOf(f));
    var next := FirstOf(f.body, EndOf(f));
    assert At(text, j, '/') && At(text, j + 1, '*') ==> StartsWith(text, j, "/*");
    assert At(text, j, '*') && At(text, j + 1, '/') ==> StartsWith(text, j, "*/");
    assert !DelimiterAt(run, next, 0);
  }

  /** A closed comment before what was found behind it. */
  lemma FindsInner(text: string, j: nat, inner: Found, f: Found) returns (g: Found)
    requires StartsWith(text, j, "/*") && Finds(text, j + 2, inner) && inner.closed
    requires Finds(text, j + 2 + |BodyText(inner.body)| + 2, f)
    ensures Finds(text, j, g)
  {
    g := f.(body := Inner(inner.body, f.body));
    StandsInTurn(text, j + 2, BodyText(inner.body), "*/");
    StandsInTurn(text, j, "/*", BodyText(inner.body) + "*/");
    StandsInTurn(text, j, CommentText(inner.body), BodyText(f.body));
  }

  /** An open comment. */
  lemma FindsOpen(text: string, j: nat, inner: Found) returns (g: Found)
    requires StartsWith(text, j, "/*") && Finds(text, j + 2, inner) && !inner.closed
    ensures Finds(text, j, g) && !g.closed && g.open == [inner.body] + inner.open
  {
    var open := [inner.body] + inner.open;
    g := Found(End, false, open);
    assert open[1..] == inner.open;
    StandsInTurn(text, j + 2, BodyText(inner.body), OpenText(inner.open));
    StandsInTurn(text, j, "/*", BodyText(inner.body) + OpenText(inner.open));
    assert OpenText(open) == "/*" + (BodyText(inner.body) + OpenText(inner.open));
    forall k | 0 <= k < |open| ensures ProperBody(open[k], if k + 1 < |open| then Some('/') else None) {
      if k > 0 { assert open[k] == inner.open[k - 1]; }
    }
  }

  lemma {:induction false} FindBody(text: string, j: nat) returns (f: Found)
    requires j <= |text|
    ensures Finds(text, j, f)
    decreases |text| - j
  {
    if j == |text| {
      f := Found(End, false, []);
    } else if StartsWith(text, j, "*/") {
      f := Found(End, true, []);
    } else if StartsWith(text, j, "/*") {
      var inner := FindBody(text, j + 2);
      if inner.closed {
        var rest := FindBody(text, j + 2 + |BodyText(inner.body)| + 2);
        f := FindsInner(text, j, inner, rest);
      } else {
        f := FindsOpen(text, j, inner);
      }
    } else {
      var rest := FindBody(text, j + 1);
      f := FindsOneMore(text, j, rest);
    }
  }

  // ---------------------------------------------------------------- strings, names and lines

  lemma {:induction false} FindWords(text: string, j: nat, q: char) returns (words: string)
    requires j <= |text|
    ensures StartsWith(text, j, Doubled(words, q))
    ensures var end := j + |Doubled(words, q)|; end == |text| || (text[end] == q && !At(text, end + 1, q))
    decreases |text| - j
  {
    if j == |text| || (text[j] == q && !At(text, j + 1, q)) {
      words := "";
    } else {
      var first := if text[j] == q then [q, q] else [text[j]];
      var rest := FindWords(text, j + |first|, q);
      words := [text[j]] + rest;
      assert words[1..] == rest;
      StandsInTurn(text, j, first, Doubled(rest, q));
    }
  }

  lemma {:induction false} FindUnits(text: string, j: nat) returns (us: seq<Unit>)
    requires j <= |text|
    ensures StartsWith(text, j, UnitsText(us)) && ProperUnits(us)
    ensures var end := j + |UnitsText(us)|;
            || end == |text| || (text[end] == '\'' && !At(text, end + 1, '\''))
            || (text[end] == '\\' && end + 1 == |text|)
    decreases |text| - j
  {
    if j == |text| || (text[j] == '\'' && !At(text, j + 1, '\'')) || (text[j] == '\\' && j + 1 == |text|) {
      us := [];
    } else {
      var u := if text[j] == '\'' then Twice else if text[j] == '\\' then Slashed(text[j + 1]) else One(text[j]);
      var rest := FindUnits(text, j + |UnitText(u)|);
      us := [u] + rest;
      assert us[1..] == rest;
      UnitStands(text, j, u);
      StandsInTurn(text, j, UnitText(u), UnitsText(rest));
    }
  }

  lemma UnitStands(text: string, j: nat, u: Unit)
    requires j < |text|
    requires match u
             case One(c) => text[j] == c
             case Slashed(c) => j + 1 < |text| && text[j] == '\\' && text[j + 1] == c
             case Twice => At(text, j, '\'') && At(text, j + 1, '\'')
    ensures StartsWith(text, j, UnitText(u))
  {
  }

  lemma {:induction false} FindLine(text: string, j: nat) returns (words: string)
    requires j <= |text|
    ensures StartsWith(text, j, words) && '\n' !in words && (j + |words| == |text| || text[j + |words|] == '\n')
    decreases |text| - j
  {
    if j == |text| || text[j] == '\n' {
      words := "";
    } else {
      var rest := FindLine(text, j + 1);
      words := [text[j]] + rest;
      StandsInTurn(text, j, [text[j]], rest);
    }
  }

  /** The first closer from `j` on, or the end. */
  lemma {:induction false} FindCloser(text: string, j: nat, closer: string) returns (k: nat)
    requires j <= |text|
    ensures j <= k <= |text| && (k < |text| ==> StartsWith(text, k, closer))
    ensures forall n :: j <= n < k ==> !StartsWith(text, n, closer)
    decreases |text| - j
  {
    if j == |text| || StartsWith(text, j, closer) {
      k := j;
    } else {
      k := FindCloser(text, j + 1, closer);
    }
  }

  // ---------------------------------------------------------------- one token, and all of them

  /** A token to go on with, or the end of the text. */
  datatype Next = Token(token: SqlGrammar.Token) | Rest(tail: Tail)

  ghost predicate GoesOn(alnum: AlnumTest, text: string, i: nat, n: Next) {
    match n
    case Token(t) => Reads(alnum, text, i, t)
    case Rest(t) => EndsIn(alnum, text, i, t)
  }

  lemma NextComment(alnum: AlnumTest, text: string, i: nat) returns (n: Next)
    requires StartsWith(text, i, "/*")
    ensures GoesOn(alnum, text, i, n)
  {
    var inner := FindBody(text, i + 2);
    if inner.closed {
      StandsInTurn(text, i + 2, BodyText(inner.body), "*/");
      StandsInTurn(text, i, "/*", BodyText(inner.body) + "*/");
      n := Token(Remark(inner.body));
    } else {
      var g := FindsOpen(text, i, inner);
      n := Rest(OpenRemark(g.open));
    }
  }

  lemma NameReads(alnum: AlnumTest, text: string, i: nat, q: char, words: string)
    requires i < |text| && text[i] == q && q in {'\'', '\"'} && StartsWith(text, i + 1, Doubled(words, q))
    requires var end := i + 1 + |Doubled(words, q)|; At(text, end, q) && !At(text, end + 1, q)
    ensures Reads(alnum, text, i, Name(q, words))
  {
    StandsInTurn(text, i + 1, Doubled(words, q), [q]);
    StandsInTurn(text, i, [q], Doubled(words, q) + [q]);
  }

  lemma NameEnds(alnum: AlnumTest, text: string, i: nat, q: char, words: string)
    requires i < |text| && text[i] == q && q in {'\'', '\"'} && StartsWith(text, i + 1, Doubled(words, q))
    requires i + 1 + |Doubled(words, q)| == |text|
    ensures EndsIn(alnum, text, i, OpenName(q, words))
  {
    StandsInTurn(text, i, [q], Doubled(words, q));
  }

  lemma NextName(alnum: AlnumTest, text: string, i: nat) returns (n: Next)
    requires i < |text| && text[i] in {'\'', '\"'}
    ensures GoesOn(alnum, text, i, n) && n != Rest(Nothing)
  {
    var words := FindWords(text, i + 1, text[i]);
    if i + 1 + |Doubled(words, text[i])| == |text| {
      NameEnds(alnum, text, i, text[i], words);
      n := Rest(OpenName(text[i], words));
    } else {
      NameReads(alnum, text, i, text[i], words);
      n := Token(Name(text[i], words));
    }
  }

  lemma EscapedReads(alnum: AlnumTest, text: string, i: nat, us: seq<Unit>)
    requires i < |text| && StartsEscape(alnum, text, i, text[i]) && ProperUnits(us)
    requires var t := Escaped(text[i], us);
             StartsWith(text, i, TokenText(t)) && !At(text, i + |TokenText(t)|, '\'')
    ensures Reads(alnum, text, i, Escaped(text[i], us))
  {
  }

  lemma EscapeStands(text: string, i: nat, us: seq<Unit>)
    requires i + 1 < |text| && text[i + 1] == '\''
    requires StartsWith(text, i + 2, UnitsText(us)) && At(text, i + 2 + |UnitsText(us)|, '\'')
    ensures var t := Escaped(text[i], us);
            StartsWith(text, i, TokenText(t)) && |TokenText(t)| == 3 + |UnitsText(us)|
  {
    StandsInTurn(text, i + 2, UnitsText(us), "'");
    StandsInTurn(text, i, [text[i], '\''], UnitsText(us) + "'");
  }

  lemma EscapedEnds(alnum: AlnumTest, text: string, i: nat, us: seq<Unit>, slash: bool)
    requires i < |text| && StartsEscape(alnum, text, i, text[i]) && ProperUnits(us)
    requires var t := OpenEscaped(text[i], us, slash);
             StartsWith(text, i, TailText(t)) && i + |TailText(t)| == |text|
    ensures EndsIn(alnum, text, i, OpenEscaped(text[i], us, slash))
  {
  }

  lemma OpenEscapeIsThere(text: string, i: nat, us: seq<Unit>, slash: bool)
    requires i + 1 < |text| && text[i + 1] == '\'' && StartsWith(text, i + 2, UnitsText(us))
    requires var end := i + 2 + |UnitsText(us)|;
             if slash then At(text, end, '\\') && end + 1 == |text| else end == |text|
    ensures var t := OpenEscaped(text[i], us, slash);
            StartsWith(text, i, TailText(t)) && i + |TailText(t)| == |text|
  {
    StandsInTurn(text, i + 2, UnitsText(us), if slash then "\\" else "");
    StandsInTurn(text, i, [text[i], '\''], UnitsText(us) + if slash then "\\" else "");
  }

  lemma NextEscaped(alnum: AlnumTest, text: string, i: nat) returns (n: Next)
    requires i + 1 < |text| && text[i + 1] == '\'' && StartsEscape(alnum, text, i, text[i])
    ensures GoesOn(alnum, text, i, n) && n != Rest(Nothing)
  {
    var us := FindUnits(text, i + 2);
    var end := i + 2 + |UnitsText(us)|;
    if end < |text| && text[end] == '\'' {
      EscapeStands(text, i, us);
      EscapedReads(alnum, text, i, us);
      n := Token(Escaped(text[i], us));
    } else {
      OpenEscapeIsThere(text, i, us, end < |text|);
      EscapedEnds(alnum, text, i, us, end < |text|);
      n := Rest(OpenEscaped(text[i], us, end < |text|));
    }
  }

  lemma NextDollars(alnum: AlnumTest, text: string, i: nat, tag: string) returns (n: Next)
    requires i < |text| && CleanTag(alnum, tag) && StartsWith(text, i, Closer(tag))
    ensures GoesOn(alnum, text, i, n)
  {
    var body := i + |Closer(tag)|;
    var k := FindCloser(text, body, Closer(tag));
    var payload := text[body..k];
    StandsInTurn(text, i, Closer(tag), payload);
    if k == |text| {
      n := Rest(OpenDollars(tag, payload));
      forall d: nat | d <= |payload| ensures !StartsWith(payload, d, Closer(tag)) {
        if StartsWith(payload, d, Closer(tag)) { InPayloadIsInText(text, body, k, d, Closer(tag)); }
      }
    } else {
      StandsInTurn(text, i, Closer(tag) + payload, Closer(tag));
      StandsIsWritten(text, i, tag, payload);
      NoEarlierCloser(alnum, text, i, tag, payload);
      n := Token(Dollars(tag, payload));
    }
  }

  lemma InPayloadIsInText(text: string, body: nat, k: nat, d: nat, closer: string)
    requires body <= k <= |text| && StartsWith(text[body..k], d, closer)
    ensures StartsWith(text, body + d, closer)
  {
    forall n | 0 <= n < |closer| ensures text[body + d + n] == closer[n] {
      assert text[body..k][d + n] == closer[n];
    }
  }

  lemma NextLine(alnum: AlnumTest, text: string, i: nat) returns (n: Next)
    requires StartsWith(text, i, "--")
    ensures GoesOn(alnum, text, i, n)
  {
    var words := FindLine(text, i + 2);
    StandsInTurn(text, i, "--", words);
    n := Token(Line(words));
  }

  lemma NextOf(alnum: AlnumTest, text: string, i: nat) returns (n: Next)
    requires i <= |text|
    ensures GoesOn(alnum, text, i, n) && (i < |text| ==> n != Rest(Nothing))
  {
    if i == |text| {
      n := Rest(Nothing);
    } else if StartsWith(text, i, "--") {
      n := NextLine(alnum, text, i);
    } else if StartsWith(text, i, "/*") {
      n := NextComment(alnum, text, i);
    } else if At(text, i + 1, '\'') && StartsEscape(alnum, text, i, text[i]) {
      n := NextEscaped(alnum, text, i);
    } else if text[i] in {'\'', '\"'} {
      n := NextName(alnum, text, i);
    } else if tag :| CleanTag(alnum, tag) && StartsWith(text, i, Closer(tag)) {
      n := NextDollars(alnum, text, i, tag);
    } else {
      n := Token(Kept(text[i]));
    }
  }

  // ---------------------------------------------------------------- readings

  /** Where some token always leads on, or the end is near, the end is reached. */
  lemma {:induction false} SomeReading(behind: (nat, SqlGrammar.Token) -> Option<nat>, ends: nat -> bool, i: nat,
                                       size: nat)
    returns (ts: seq<SqlGrammar.Token>, end: nat)
    requires i <= size
    requires forall j: nat :: j <= size ==>
               ends(j) || exists t :: behind(j, t).Some? && j < behind(j, t).value <= size
    ensures Leads(behind, i, ts, end) && ends(end)
    decreases size - i
  {
    if ends(i) {
      ts, end := [], i;
    } else {
      var t :| behind(i, t).Some? && i < behind(i, t).value <= size;
      ts, end := SomeReading(behind, ends, behind(i, t).value, size);
      assert ([t] + ts)[1..] == ts;
      ts := [t] + ts;
    }
  }

  lemma TokenIsSome(alnum: AlnumTest, text: string, i: nat, t: SqlGrammar.Token)
    ensures Reads(alnum, text, i, t) ==> 0 < |TokenText(t)| && i + |TokenText(t)| <= |text|
  {
  }

  /** From each place a token leads on, or the rest of the text is an end. */
  lemma SomethingIsNext(alnum: AlnumTest, text: string, i: nat)
    requires i <= |text|
    ensures || (exists tail :: EndsIn(alnum, text, i, tail))
            || (exists t :: Behind(alnum, text)(i, t).Some? && i < Behind(alnum, text)(i, t).value <= |text|)
  {
    var n := NextOf(alnum, text, i);
    if n.Token? {
      TokenIsSome(alnum, text, i, n.token);
      assert Behind(alnum, text)(i, n.token) == Some(i + |TokenText(n.token)|);
    }
  }

  /** Every text has a reading, and its scan is what the reading says. */
  lemma EveryTextIsRead(alnum: AlnumTest, text: string)
    ensures exists ts, tail ::
              IsRead(alnum, text, ts, tail) && Scan(alnum, text) == Outputs(ts) + Blanked(TailText(tail))
  {
    var ends := (i: nat) => exists tail :: EndsIn(alnum, text, i, tail);
    forall j: nat | j <= |text|
      ensures ends(j) || exists t :: Behind(alnum, text)(j, t).Some? && j < Behind(alnum, text)(j, t).value <= |text|
    {
      SomethingIsNext(alnum, text, j);
    }
    var ts, end := SomeReading(Behind(alnum, text), ends, 0, |text|);
    var tail :| EndsIn(alnum, text, end, tail);
    ScanIsTheReading(alnum, text, ts, tail);
  }
}
