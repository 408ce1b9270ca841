/** What the scan means: it only blanks, scanning again changes nothing, and a stream is scanned file by file. */
module ScannedStream {
  import opened Wrappers
  import opened SqlScanner

  /** Same length, same newlines, and every other character kept or blanked. */
  lemma ScanOnlyBlanks(alnum: AlnumTest, text: string)
    ensures var out := Scan(alnum, text);
            && |out| == |text|
            && (forall i :: 0 <= i < |text| ==> (out[i] == '\n' <==> text[i] == '\n'))
            && (forall i :: 0 <= i < |text| && IsCode(alnum, text, i) ==> out[i] == text[i])
            && (forall i :: 0 <= i < |text| && !IsCode(alnum, text, i) && text[i] != '\n' ==> out[i] == ' ')
  {
  }

  // ---------------------------------------------------------------- scanning twice

  /** A character of the output that is no blank is a code character of the input. */
  lemma OutputIsCodeOrBlank(alnum: AlnumTest, text: string, i: nat)
    requires i < |text|
    ensures var out := Scan(alnum, text);
            out[i] != ' ' && out[i] != '\n' ==> IsCode(alnum, text, i) && out[i] == text[i]
  {
  }

  lemma TagEndIsUnique(alnum: AlnumTest, text: string, j: nat, e: nat)
    requires j <= e <= |text| && forall k :: j <= k < e ==> IsIdentChar(alnum, text[k])
    requires e < |text| ==> !IsIdentChar(alnum, text[e])
    ensures TagEnd(alnum, text, j) == e
  {
  }

  /** A dollar sign left in the output starts no tag: what follows is as in the input, or cut short by a blank. */
  lemma OutputHasNoTag(alnum: AlnumTest, text: string, i: nat)
    requires i < |text|
    ensures DollarTagAt(alnum, Scan(alnum, text), i).None?
  {
    var out := Scan(alnum, text);
    PunctuationIsNotIdent(alnum);
    OutputIsCodeOrBlank(alnum, text, i);
    if At(out, i, '$') {
      assert DollarTagAt(alnum, text, i).None?;
      var e, f := TagEnd(alnum, text, i + 1), TagEnd(alnum, out, i + 1);
      if e < |out| {
        OutputIsCodeOrBlank(alnum, text, e);
      }
      assert f <= e;
      if f < |out| {
        OutputIsCodeOrBlank(alnum, text, f);
      }
    }
  }

  lemma OutputOpensNothing(alnum: AlnumTest, text: string, i: nat)
    requires i < |text|
    ensures Opens(alnum, Scan(alnum, text), i).None?
  {
    var out := Scan(alnum, text);
    OutputIsCodeOrBlank(alnum, text, i);
    if i + 1 < |text| {
      OutputIsCodeOrBlank(alnum, text, i + 1);
    }
    OutputHasNoTag(alnum, text, i);
  }

  lemma {:induction false} OutputIsAllCode(alnum: AlnumTest, text: string, i: nat)
    requires i <= |text|
    ensures ModeAt(alnum, Scan(alnum, text), i) == Code
  {
    if i > 0 {
      OutputIsAllCode(alnum, text, i - 1);
      OutputOpensNothing(alnum, text, i - 1);
    }
  }

  /** Scanning the scan changes nothing. */
  lemma ScanIsIdempotent(alnum: AlnumTest, text: string)
    ensures Scan(alnum, Scan(alnum, text)) == Scan(alnum, text)
  {
    var out := Scan(alnum, text);
    forall i | 0 <= i < |out|
      ensures Emit(alnum, out, i) == out[i]
    {
      OutputIsAllCode(alnum, text, i);
      OutputOpensNothing(alnum, text, i);
    }
  }

  // ---------------------------------------------------------------- one text after another

  predicate Lines(text: string) {
    text == "" || text[|text| - 1] == '\n'
  }

  ghost predicate CleanTag(alnum: AlnumTest, tag: string) {
    forall i :: 0 <= i < |tag| ==> IsIdentChar(alnum, tag[i])
  }

  /** Tags in a mode are made of identifier characters, and a line comment has ended before its newline. */
  ghost predicate Sound(alnum: AlnumTest, text: string, i: nat, m: Mode)
    requires i <= |text|
  {
    && (m.DollarOpener? || m.DollarBody? ==> CleanTag(alnum, m.tag))
    && (m.LineComment? ==> !At(text, i, '\n'))
    && (m.Quoted? || m.QuotedSecond? ==> m.quote == '\'' || m.quote == '\"')
  }

  lemma {:induction false} ModesAreSound(alnum: AlnumTest, text: string, i: nat)
    requires i <= |text|
    ensures Sound(alnum, text, i, ModeAt(alnum, text, i))
  {
    if i > 0 {
      ModesAreSound(alnum, text, i - 1);
    }
  }

  lemma TagBeforeNewline(alnum: AlnumTest, a: string, b: string, i: nat)
    requires a != "" && Lines(a) && i < |a|
    ensures DollarTagAt(alnum, a + b, i) == DollarTagAt(alnum, a, i)
  {
    PunctuationIsNotIdent(alnum);
    if At(a, i, '$') {
      assert i < |a| - 1;
      var e := TagEnd(alnum, a, i + 1);
      assert e < |a|;
      TagEndIsUnique(alnum, a + b, i + 1, e);
      assert (a + b)[i + 1..e] == a[i + 1..e];
    }
  }

  lemma CloserHasNoNewline(alnum: AlnumTest, tag: string, k: nat)
    requires CleanTag(alnum, tag) && k < |Closer(tag)|
    ensures Closer(tag)[k] != '\n'
  {
    PunctuationIsNotIdent(alnum);
    assert Closer(tag)[k] == '$' || Closer(tag)[k] == tag[k - 1];
  }

  /** A closer has no newline in it, so it cannot begin in one text and end in the next. */
  lemma CloserBeforeNewline(alnum: AlnumTest, a: string, b: string, i: nat, tag: string)
    requires a != "" && Lines(a) && i < |a| && CleanTag(alnum, tag)
    ensures StartsWith(a + b, i, Closer(tag)) == StartsWith(a, i, Closer(tag))
  {
    var n := |Closer(tag)|;
    if i + n <= |a| {
      assert (a + b)[i..i + n] == a[i..i + n];
    } else {
      var k := |a| - 1 - i;
      CloserHasNoNewline(alnum, tag, k);
      if i + n <= |a + b| {
        assert (a + b)[i..i + n][k] == '\n';
      }
    }
  }

  lemma StepBeforeNewline(alnum: AlnumTest, a: string, b: string, i: nat, m: Mode)
    requires a != "" && Lines(a) && i < |a| && Sound(alnum, a, i, m)
    ensures Step(alnum, a + b, i, m) == Step(alnum, a, i, m)
    ensures Opens(alnum, a + b, i) == Opens(alnum, a, i)
  {
    TagBeforeNewline(alnum, a, b, i);
    if m.DollarBody? {
      CloserBeforeNewline(alnum, a, b, i, m.tag);
    }
  }

  lemma {:induction false} ModesOfFirst(alnum: AlnumTest, a: string, b: string, i: nat)
    requires Lines(a) && i <= |a|
    ensures ModeAt(alnum, a + b, i) == ModeAt(alnum, a, i)
    ensures i < |a| ==> Opens(alnum, a + b, i) == Opens(alnum, a, i)
  {
    ModesAreSound(alnum, a, i);
    if i > 0 {
      ModesOfFirst(alnum, a, b, i - 1);
      ModesAreSound(alnum, a, i - 1);
      StepBeforeNewline(alnum, a, b, i - 1, ModeAt(alnum, a, i - 1));
    }
    if i < |a| {
      StepBeforeNewline(alnum, a, b, i, ModeAt(alnum, a, i));
    }
  }

  /** The last character does not run on into what follows. */
  predicate Apart(alnum: AlnumTest, text: string) {
    text == "" || !IsIdentChar(alnum, text[|text| - 1])
  }

  lemma LinesAreApart(alnum: AlnumTest, a: string)
    requires Lines(a)
    ensures Apart(alnum, a)
  {
    PunctuationIsNotIdent(alnum);
  }

  lemma TagAfter(alnum: AlnumTest, a: string, b: string, i: nat)
    requires i < |b|
    ensures DollarTagAt(alnum, a + b, |a| + i) == DollarTagAt(alnum, b, i)
  {
    var t := a + b;
    if At(b, i, '$') {
      var e := TagEnd(alnum, b, i + 1);
      TagEndIsUnique(alnum, t, |a| + i + 1, |a| + e);
      assert t[|a| + i + 1..|a| + e] == b[i + 1..e];
    }
  }

  lemma OpensAfter(alnum: AlnumTest, a: string, b: string, i: nat)
    requires Apart(alnum, a) && i < |b|
    ensures Opens(alnum, a + b, |a| + i) == Opens(alnum, b, i)
  {
    TagAfter(alnum, a, b, i);
    assert OpensEscape(alnum, a + b, |a| + i) == OpensEscape(alnum, b, i);
  }

  lemma StartsAfter(a: string, b: string, i: nat, p: string)
    requires i <= |b|
    ensures StartsWith(a + b, |a| + i, p) == StartsWith(b, i, p)
  {
    if i + |p| <= |b| {
      assert (a + b)[|a| + i..|a| + i + |p|] == b[i..i + |p|];
    }
  }

  lemma StepAfter(alnum: AlnumTest, a: string, b: string, i: nat, m: Mode)
    requires Apart(alnum, a) && i < |b|
    ensures Step(alnum, a + b, |a| + i, m) == Step(alnum, b, i, m)
    ensures Opens(alnum, a + b, |a| + i) == Opens(alnum, b, i)
  {
    OpensAfter(alnum, a, b, i);
    if m.DollarBody? {
      StartsAfter(a, b, i, Closer(m.tag));
    }
  }

  /** The lexer moves through `t` from `offset` on as through `b`. */
  ghost predicate MovesAlike(alnum: AlnumTest, t: string, offset: nat, b: string) {
    && offset + |b| <= |t|
    && (forall i: nat, m :: i < |b| ==> Step(alnum, t, offset + i, m) == Step(alnum, b, i, m))
  }

  lemma ModeFollows(alnum: AlnumTest, t: string, offset: nat, b: string, i: nat, m: Mode)
    requires MovesAlike(alnum, t, offset, b) && 0 < i <= |b|
    requires ModeAt(alnum, t, offset + i - 1) == m == ModeAt(alnum, b, i - 1)
    ensures ModeAt(alnum, t, offset + i) == ModeAt(alnum, b, i)
  {
    assert Step(alnum, t, offset + (i - 1), m) == Step(alnum, b, i - 1, m);
  }

  lemma {:induction false} ModesFollow(alnum: AlnumTest, t: string, offset: nat, b: string, i: nat)
    requires MovesAlike(alnum, t, offset, b) && ModeAt(alnum, t, offset) == Code && i <= |b|
    ensures ModeAt(alnum, t, offset + i) == ModeAt(alnum, b, i)
    decreases i
  {
    if i > 0 {
      ModesFollow(alnum, t, offset, b, i - 1);
      ModeFollows(alnum, t, offset, b, i, ModeAt(alnum, b, i - 1));
    }
  }

  lemma SecondMovesAlike(alnum: AlnumTest, a: string, b: string)
    requires Apart(alnum, a)
    ensures MovesAlike(alnum, a + b, |a|, b)
  {
    forall k: nat, m | k < |b|
      ensures Step(alnum, a + b, |a| + k, m) == Step(alnum, b, k, m)
    {
      StepAfter(alnum, a, b, k, m);
    }
  }

  lemma CodeAfterFirst(alnum: AlnumTest, a: string, b: string)
    requires Lines(a) && EndsInCode(alnum, a)
    ensures ModeAt(alnum, a + b, |a|) == Code
  {
    ModesOfFirst(alnum, a, b, |a|);
  }

  /** Met in code, what follows is lexed as if it stood alone. */
  lemma ModesOfSecond(alnum: AlnumTest, a: string, b: string, i: nat)
    requires Apart(alnum, a) && ModeAt(alnum, a + b, |a|) == Code && i <= |b|
    ensures ModeAt(alnum, a + b, |a| + i) == ModeAt(alnum, b, i)
  {
    SecondMovesAlike(alnum, a, b);
    ModesFollow(alnum, a + b, |a|, b, i);
  }

  lemma EmitsOfSecond(alnum: AlnumTest, a: string, b: string, i: nat)
    requires Apart(alnum, a) && ModeAt(alnum, a + b, |a|) == Code && i < |b|
    ensures Emit(alnum, a + b, |a| + i) == Emit(alnum, b, i)
  {
    ModesOfSecond(alnum, a, b, i);
    OpensAfter(alnum, a, b, i);
  }

  lemma EmitsAlike(alnum: AlnumTest, a: string, b: string, i: nat)
    requires Lines(a) && EndsInCode(alnum, a) && i < |a + b|
    ensures Emit(alnum, a + b, i) == if i < |a| then Emit(alnum, a, i) else Emit(alnum, b, i - |a|)
  {
    if i < |a| {
      ModesOfFirst(alnum, a, b, i);
    } else {
      LinesAreApart(alnum, a);
      CodeAfterFirst(alnum, a, b);
      EmitsOfSecond(alnum, a, b, i - |a|);
    }
  }

  /** After lines that end in code, whatever follows is scanned as if it stood alone. */
  lemma ScanAppends(alnum: AlnumTest, a: string, b: string)
    requires Lines(a) && EndsInCode(alnum, a)
    ensures Scan(alnum, a + b) == Scan(alnum, a) + Scan(alnum, b)
    ensures EndsInCode(alnum, a + b) == EndsInCode(alnum, b)
  {
    forall i | 0 <= i < |a + b|
      ensures Scan(alnum, a + b)[i] == (Scan(alnum, a) + Scan(alnum, b))[i]
    {
      EmitsAlike(alnum, a, b, i);
    }
    LinesAreApart(alnum, a);
    CodeAfterFirst(alnum, a, b);
    ModesOfSecond(alnum, a, b, |b|);
    assert |a| + |b| == |a + b|;
  }

  /** Ending in code is exactly what keeps lines from changing how any later text is lexed. */
  lemma EndingInCodeIsExact(alnum: AlnumTest, a: string)
    requires Lines(a)
    ensures EndsInCode(alnum, a) <==> forall b :: Scan(alnum, a + b) == Scan(alnum, a) + Scan(alnum, b)
  {
    if EndsInCode(alnum, a) {
      forall b ensures Scan(alnum, a + b) == Scan(alnum, a) + Scan(alnum, b) { ScanAppends(alnum, a, b); }
    } else {
      ModesOfFirst(alnum, a, "x", |a|);
      assert Emit(alnum, a + "x", |a|) == ' ';
      assert ModeAt(alnum, "x", 0) == Code && IsCode(alnum, "x", 0);
      assert (Scan(alnum, a) + Scan(alnum, "x"))[|a|] == 'x';
      assert Scan(alnum, a + "x") != Scan(alnum, a) + Scan(alnum, "x");
    }
  }

  // ---------------------------------------------------------------- the apply stream

  datatype SourceFile = SourceFile(name: string, body: string)

  const LOCK_HEAD := "SELECT pg_advisory_xact_lock(hashtext("
  const LOCK_KEY := "pg_cordis.apply"
  const LOCK_TAIL := "));"
  const LOCK := LOCK_HEAD + Quote(LOCK_KEY) + LOCK_TAIL
  const LABEL := "-- pg_cordis source: "

  function Quote(words: string): string {
    "'" + words + "'"
  }

  /** Reading a file completes its last line. */
  function Loaded(body: string): string {
    if body != "" && body[|body| - 1] != '\n' then body + "\n" else body
  }

  /** "\n".join */
  function Join(chunks: seq<string>): string {
    if chunks == [] then ""
    else if |chunks| == 1 then chunks[0]
    else Join(chunks[..|chunks| - 1]) + "\n" + chunks[|chunks| - 1]
  }

  function Chunks(files: seq<SourceFile>): seq<string> {
    if files == [] then [LOCK]
    else Chunks(files[..|files| - 1]) + [LABEL + files[|files| - 1].name, files[|files| - 1].body]
  }

  ghost predicate Accepted(alnum: AlnumTest, isMeta: string -> bool, forbidden: string -> bool, body: string) {
    !isMeta(body) && !forbidden(Scan(alnum, body))
  }

  /** Meta-commands are looked for in the text, forbidden statements in its scan. */
  method PreflightSql(alnum: AlnumTest, isMeta: string -> bool, forbidden: string -> bool, body: string)
    returns (ok: bool)
    ensures ok == Accepted(alnum, isMeta, forbidden, body)
    ensures ok <==> !isMeta(body) && !forbidden(Scan(alnum, body))
  {
    if isMeta(body) { return false; }
    var scanned := SanitizeSqlForPreflight(alnum, body);
    return !forbidden(scanned);
  }

  /** Every file read, completed and accepted by the preflight, or nothing. */
  method LoadSqlFiles(alnum: AlnumTest, isMeta: string -> bool, forbidden: string -> bool, files: seq<SourceFile>)
    returns (loaded: Option<seq<SourceFile>>)
    ensures loaded.Some? <==> forall f :: f in files ==> Accepted(alnum, isMeta, forbidden, Loaded(f.body))
    ensures loaded.Some? ==> |loaded.value| == |files|
    ensures loaded.Some? ==>
              forall i :: 0 <= i < |files| ==> loaded.value[i] == files[i].(body := Loaded(files[i].body))
    ensures loaded.Some? ==>
              forall i :: 0 <= i < |files| ==>
                var body := loaded.value[i].body;
                && Lines(body) && !isMeta(body) && !forbidden(Scan(alnum, body))
                && loaded.value[i].name == files[i].name
                && body == if Lines(files[i].body) then files[i].body else files[i].body + "\n"
  {
    var done: seq<SourceFile> := [];
    for i := 0 to |files|
      invariant |done| == i
      invariant forall k :: 0 <= k < i ==> done[k] == files[k].(body := Loaded(files[k].body)) && Lines(done[k].body)
      invariant forall k :: 0 <= k < i ==> Accepted(alnum, isMeta, forbidden, Loaded(files[k].body))
    {
      var body := files[i].body;
      if body != "" && body[|body| - 1] != '\n' {
        body := body + "\n";
      }
      var ok := PreflightSql(alnum, isMeta, forbidden, body);
      if !ok {
        assert files[i] in files;
        return None;
      }
      done := done + [files[i].(body := body)];
    }
    return Some(done);
  }

  method JoinLines(chunks: seq<string>) returns (text: string)
    ensures text == Join(chunks)
  {
    text := "";
    for i := 0 to |chunks|
      invariant text == Join(chunks[..i])
    {
      assert chunks[..i + 1][..i] == chunks[..i];
      text := if i == 0 then chunks[0] else text + "\n" + chunks[i];
    }
    assert chunks[..|chunks|] == chunks;
  }

  method ApplyStream(files: seq<SourceFile>) returns (stream: string)
    ensures stream == Join(Chunks(files))
  {
    var chunks := [LOCK];
    for i := 0 to |files|
      invariant chunks == Chunks(files[..i])
    {
      assert files[..i + 1][..i] == files[..i];
      chunks := chunks + [LABEL + files[i].name, files[i].body];
    }
    assert files[..|files|] == files;
    stream := JoinLines(chunks);
  }

  /** What one file adds to the stream, before the newline that joins it to the next. */
  function Piece(file: SourceFile): string {
    LABEL + file.name + "\n" + file.body
  }

  /** The stream of all files, with the newline that joins it to the next. */
  function Pieces(files: seq<SourceFile>): string {
    (if files == [] then LOCK else Pieces(files[..|files| - 1]) + Piece(files[|files| - 1])) + "\n"
  }

  lemma JoinTwoMore(chunks: seq<string>, line: string, body: string)
    requires chunks != []
    ensures Join(chunks + [line, body]) == (Join(chunks) + "\n") + (line + "\n" + body)
  {
    var one, two := chunks + [line], chunks + [line, body];
    assert two[..|two| - 1] == one && one[..|one| - 1] == chunks;
    assert Join(two) == Join(chunks) + "\n" + line + "\n" + body;
  }

  lemma {:induction false} StreamIsPieces(files: seq<SourceFile>)
    ensures Join(Chunks(files)) + "\n" == Pieces(files)
  {
    if files != [] {
      var fs, f := files[..|files| - 1], files[|files| - 1];
      StreamIsPieces(fs);
      JoinTwoMore(Chunks(fs), LABEL + f.name, f.body);
    }
  }

  // ---------------------------------------------------------------- the stream, file by file

  const OPENERS: set<char> := {'\'', '\"', '$', '-', '/'}

  /** Text with no opener in it is code. */
  lemma {:induction false} PlainIsCode(alnum: AlnumTest, text: string, i: nat, j: nat)
    requires i <= j <= |text| && ModeAt(alnum, text, i) == Code
    requires forall k :: i <= k < j ==> text[k] !in OPENERS
    requires i < j && (text[j - 1] == 'E' || text[j - 1] == 'e') ==> !At(text, j, '\'')
    ensures ModeAt(alnum, text, j) == Code
    ensures forall k :: i <= k < j ==> IsCode(alnum, text, k)
    decreases j - i
  {
    if i < j {
      assert Opens(alnum, text, i).None?;
      assert ModeAt(alnum, text, i + 1) == Code;
      PlainIsCode(alnum, text, i + 1, j);
    }
  }

  lemma {:induction false} QuotedEnds(alnum: AlnumTest, text: string, i: nat, j: nat)
    requires i <= j < |text| && ModeAt(alnum, text, i) == Quoted('\'')
    requires forall k :: i <= k < j ==> text[k] != '\''
    requires text[j] == '\'' && !At(text, j + 1, '\'')
    ensures ModeAt(alnum, text, j + 1) == Code
    ensures forall k :: i <= k <= j ==> !IsCode(alnum, text, k)
    decreases j - i
  {
    if i < j {
      assert ModeAt(alnum, text, i + 1) == Quoted('\'');
      QuotedEnds(alnum, text, i + 1, j);
    }
  }

  function Spaces(n: nat): string {
    seq(n, i => ' ')
  }

  predicate Plain(text: string) {
    && text != "" && text[|text| - 1] !in {'E', 'e'}
    && (forall k :: 0 <= k < |text| ==> text[k] !in OPENERS)
  }

  lemma LiteralModes(alnum: AlnumTest, head: string, key: string, tail: string)
    requires Plain(head) && Plain(tail) && '\'' !in key
    ensures var text := head + Quote(key) + tail;
            EndsInCode(alnum, text)
            && (forall k :: 0 <= k < |text| ==> (IsCode(alnum, text, k) <==> !(0 <= k - |head| < |key| + 2)))
  {
    var text := head + Quote(key) + tail;
    var i, j := |head|, |head| + |key| + 1;
    assert text[i] == '\'' == text[j] && text[j + 1] == tail[0];
    PlainIsCode(alnum, text, 0, i);
    assert Opens(alnum, text, i) == Some(Quoted('\''));
    QuotedEnds(alnum, text, i + 1, j);
    PlainIsCode(alnum, text, j + 1, |text|);
  }

  /** A statement keeps all but the literal in it. */
  lemma LiteralIsBlanked(alnum: AlnumTest, head: string, key: string, tail: string)
    requires Plain(head) && Plain(tail) && '\'' !in key && '\n' !in key
    ensures Scan(alnum, head + Quote(key) + tail) == head + Spaces(|key| + 2) + tail
  {
    LiteralModes(alnum, head, key, tail);
    var text, blanked := head + Quote(key) + tail, head + Spaces(|key| + 2) + tail;
    forall k | 0 <= k < |text| ensures Emit(alnum, text, k) == blanked[k] {
      var c := text[k];
      if 0 <= k - |head| < |key| + 2 {
        assert c == Quote(key)[k - |head|] != '\n';
      }
    }
  }

  function ScannedLock(): string {
    LOCK_HEAD + Spaces(|LOCK_KEY| + 2) + LOCK_TAIL
  }

  lemma LockIsPlain()
    ensures Plain(LOCK_HEAD) && Plain(LOCK_TAIL) && Plain(LOCK_TAIL + "\n")
    ensures '\'' !in LOCK_KEY && '\n' !in LOCK_KEY
  {
  }

  lemma LockIsScanned(alnum: AlnumTest)
    ensures Scan(alnum, LOCK) == ScannedLock()
    ensures Scan(alnum, LOCK + "\n") == ScannedLock() + "\n" && EndsInCode(alnum, LOCK + "\n")
  {
    LockIsPlain();
    LiteralIsBlanked(alnum, LOCK_HEAD, LOCK_KEY, LOCK_TAIL);
    var tail := LOCK_TAIL + "\n";
    LiteralModes(alnum, LOCK_HEAD, LOCK_KEY, tail);
    LiteralIsBlanked(alnum, LOCK_HEAD, LOCK_KEY, tail);
    assert LOCK + "\n" == LOCK_HEAD + Quote(LOCK_KEY) + tail;
    assert ScannedLock() + "\n" == LOCK_HEAD + Spaces(|LOCK_KEY| + 2) + tail;
  }

  lemma {:induction false} CommentRuns(alnum: AlnumTest, text: string, i: nat, j: nat)
    requires i <= j < |text| && ModeAt(alnum, text, i) == LineComment
    requires forall k :: i < k <= j ==> text[k] != '\n'
    ensures ModeAt(alnum, text, j) == LineComment
    decreases j - i
  {
    if i < j {
      assert ModeAt(alnum, text, i + 1) == LineComment;
      CommentRuns(alnum, text, i + 1, j);
    }
  }

  /** A comment line is blanked and ends in code, so no file name can change what follows it. */
  lemma CommentLineIsBlank(alnum: AlnumTest, words: string)
    requires |words| >= 2 && words[0] == '-' && words[1] == '-' && '\n' !in words
    ensures var line := words + "\n";
            Scan(alnum, line) == Spaces(|words|) + "\n" && EndsInCode(alnum, line) && Lines(line)
  {
    var line := words + "\n";
    PunctuationIsNotIdent(alnum);
    assert ModeAt(alnum, line, 1) == LineComment;
    forall k | 0 < k < |words| ensures ModeAt(alnum, line, k) == LineComment {
      CommentRuns(alnum, line, 1, k);
    }
    assert ModeAt(alnum, line, |words| - 1) == LineComment && ModeAt(alnum, line, |words|) == Code;
    assert Opens(alnum, line, |words|).None?;
    forall k | 0 <= k < |line| ensures Emit(alnum, line, k) == (Spaces(|words|) + "\n")[k] {
      assert k == 0 ==> Opens(alnum, line, 0) == Some(LineComment);
    }
  }

  predicate Separable(alnum: AlnumTest, file: SourceFile) {
    '\n' !in file.name && Lines(file.body) && EndsInCode(alnum, file.body)
  }

  function ScannedPiece(alnum: AlnumTest, file: SourceFile): string {
    Spaces(|LABEL + file.name|) + "\n" + Scan(alnum, file.body)
  }

  function ScannedPieces(alnum: AlnumTest, files: seq<SourceFile>): string {
    if files == [] then ScannedLock()
    else ScannedPieces(alnum, files[..|files| - 1]) + "\n" + ScannedPiece(alnum, files[|files| - 1])
  }

  lemma NewlineIsCode(alnum: AlnumTest)
    ensures Scan(alnum, "\n") == "\n" && EndsInCode(alnum, "\n")
  {
    PunctuationIsNotIdent(alnum);
    assert Emit(alnum, "\n", 0) == '\n';
  }

  /** Lines that end in code, one after the other, are again lines that end in code. */
  lemma LinesAppend(alnum: AlnumTest, a: string, b: string)
    requires Lines(a) && EndsInCode(alnum, a) && Lines(b) && EndsInCode(alnum, b)
    ensures Scan(alnum, a + b) == Scan(alnum, a) + Scan(alnum, b)
    ensures Lines(a + b) && EndsInCode(alnum, a + b)
  {
    ScanAppends(alnum, a, b);
    assert b != "" ==> (a + b)[|a + b| - 1] == b[|b| - 1];
    assert b == "" ==> a + b == a;
  }

  lemma LabelIsScanned(alnum: AlnumTest, file: SourceFile)
    requires '\n' !in file.name
    ensures var line := LABEL + file.name + "\n";
            && Scan(alnum, line) == Spaces(|LABEL + file.name|) + "\n" && Lines(line) && EndsInCode(alnum, line)
            && Scan(alnum, Piece(file)) == ScannedPiece(alnum, file)
            && EndsInCode(alnum, Piece(file)) == EndsInCode(alnum, file.body)
  {
    var words := LABEL + file.name;
    assert words[0] == '-' && words[1] == '-' && '\n' !in words by {
      assert LABEL[0] == '-' && LABEL[1] == '-' && '\n' !in LABEL;
    }
    CommentLineIsBlank(alnum, words);
    ScanAppends(alnum, words + "\n", file.body);
  }

  lemma PieceHasLines(file: SourceFile)
    requires Lines(file.body)
    ensures Lines(Piece(file))
  {
    assert file.body != "" ==> Piece(file)[|Piece(file)| - 1] == file.body[|file.body| - 1];
    assert file.body == "" ==> Piece(file) == LABEL + file.name + "\n";
  }

  lemma {:induction false} PiecesAreScannedAlone(alnum: AlnumTest, files: seq<SourceFile>)
    requires forall f :: f in files ==> Separable(alnum, f)
    ensures Scan(alnum, Pieces(files)) == ScannedPieces(alnum, files) + "\n"
    ensures Lines(Pieces(files)) && EndsInCode(alnum, Pieces(files))
  {
    if files == [] {
      LockIsScanned(alnum);
    } else {
      var fs, f := files[..|files| - 1], files[|files| - 1];
      assert f in files && forall g :: g in fs ==> g in files;
      PiecesAreScannedAlone(alnum, fs);
      LabelIsScanned(alnum, f);
      PieceHasLines(f);
      LinesAppend(alnum, Pieces(fs), Piece(f));
      NewlineIsCode(alnum);
      LinesAppend(alnum, Pieces(fs) + Piece(f), "\n");
    }
  }

  /** If every body but the last ends in code, the scan of the whole stream is the files' own scans between blanked
      labels. */
  lemma StreamIsScannedByFile(alnum: AlnumTest, files: seq<SourceFile>)
    requires files != [] ==> forall f :: f in files[..|files| - 1] ==> Separable(alnum, f)
    requires files != [] ==> '\n' !in files[|files| - 1].name
    ensures Scan(alnum, Join(Chunks(files))) == ScannedPieces(alnum, files)
  {
    if files == [] {
      LockIsScanned(alnum);
    } else {
      var fs, f := files[..|files| - 1], files[|files| - 1];
      StreamIsPieces(files);
      PiecesAreScannedAlone(alnum, fs);
      LabelIsScanned(alnum, f);
      ScanAppends(alnum, Pieces(fs), Piece(f));
      assert Join(Chunks(files)) + "\n" == (Pieces(fs) + Piece(f)) + "\n";
      assert Join(Chunks(files)) == (Join(Chunks(files)) + "\n")[..|Join(Chunks(files))|] == Pieces(fs) + Piece(f);
    }
  }

  lemma {:induction false} StreamStarts(before: seq<SourceFile>, file: SourceFile, after: seq<SourceFile>)
    ensures Pieces(before) + Piece(file) <= Join(Chunks(before + [file] + after))
  {
    var files := before + [file] + after;
    var fs, f := files[..|files| - 1], files[|files| - 1];
    JoinTwoMore(Chunks(fs), LABEL + f.name, f.body);
    if after == [] {
      assert fs == before && f == file;
      StreamIsPieces(before);
    } else {
      StreamStarts(before, file, after[..|after| - 1]);
      assert fs == before + [file] + after[..|after| - 1];
    }
  }

  lemma ScanOfFirst(alnum: AlnumTest, a: string, b: string)
    requires Lines(a)
    ensures Scan(alnum, a) <= Scan(alnum, a + b)
  {
    forall i | 0 <= i < |a| ensures Scan(alnum, a + b)[i] == Scan(alnum, a)[i] {
      ModesOfFirst(alnum, a, b, i);
    }
  }

  lemma SliceOfScan(head: string, body: string, all: string)
    requires head + body <= all
    ensures StartsWith(all, |head|, body)
  {
    assert all[..|head| + |body|] == head + body;
  }

  /** Wherever a file stands in the stream, if the bodies before it end in code its body is scanned as it was when it
      was checked alone, whatever follows. */
  lemma BodyIsScannedAlone(alnum: AlnumTest, before: seq<SourceFile>, file: SourceFile, after: seq<SourceFile>)
    requires forall f :: f in before ==> Separable(alnum, f)
    requires '\n' !in file.name && Lines(file.body)
    ensures StartsWith(Scan(alnum, Join(Chunks(before + [file] + after))),
                       |Join(Chunks(before))| + 1 + |LABEL + file.name| + 1, Scan(alnum, file.body))
  {
    var stream, line := Join(Chunks(before + [file] + after)), LABEL + file.name + "\n";
    StreamIsPieces(before);
    StreamStarts(before, file, after);
    PiecesAreScannedAlone(alnum, before);
    LabelIsScanned(alnum, file);
    LinesAppend(alnum, Pieces(before), line);
    assert Pieces(before) + Piece(file) == (Pieces(before) + line) + file.body;
    ScanInside(alnum, Pieces(before) + line, file.body, stream);
  }

  lemma ScanInside(alnum: AlnumTest, head: string, body: string, all: string)
    requires Lines(head) && EndsInCode(alnum, head) && Lines(body) && head + body <= all
    ensures StartsWith(Scan(alnum, all), |head|, Scan(alnum, body))
  {
    var tail := all[|head + body|..];
    assert all == head + (body + tail);
    ScanAppends(alnum, head, body + tail);
    ScanOfFirst(alnum, body, tail);
    SliceOfScan(Scan(alnum, head), Scan(alnum, body), Scan(alnum, all));
  }
}
