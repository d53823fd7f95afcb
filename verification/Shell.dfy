/** The command line of the migration Job, and how a POSIX shell reads it.

    The reader covers the part of the Shell Command Language (POSIX.1-2017) the command uses: single
    quotes (section 2.2.2), double quotes (2.2.3) and token recognition (2.3) with the operators
    ; and &&. Anything else that is special outside quotes makes it fail, as does NUL. */
module Shell {
  import opened Prelude

  // ---------------------------------------------------------------------------
  // Reading a command line.
  // ---------------------------------------------------------------------------

  /** A piece of a word: a character that stands for itself, or the value of a variable. */
  datatype Piece = Lit(c: char) | Param(name: string)

  type Word = seq<Piece>

  datatype Token = WordToken(word: Word) | Semicolon | AndIf

  datatype Mode =
    | Between
    | InWord(word: Word)
    | InSingle(word: Word)
    | InDouble(word: Word)
    | InParam(word: Word, name: string)
    | AfterAmpersand
    | Failed

  datatype Reader = Reader(tokens: seq<Token>, mode: Mode)

  /** Characters with a meaning of their own outside quotes that the reader does not model. */
  predicate IsUnsupported(c: char) {
    c in "|<>()$`\\*?[#~=%\n\0"
  }

  predicate IsNameChar(c: char, first: bool) {
    'a' <= c <= 'z' || 'A' <= c <= 'Z' || c == '_' || (!first && '0' <= c <= '9')
  }

  /** Outside quotes; `word` is what the current word holds so far, if there is one. */
  function StepOutside(tokens: seq<Token>, word: Option<Word>, c: char): Reader {
    var ended := if word.Some? then tokens + [WordToken(word.value)] else tokens;
    var before := if word.Some? then word.value else [];
    if c == ' ' || c == '\t' then Reader(ended, Between)
    else if c == ';' then Reader(ended + [Semicolon], Between)
    else if c == '&' then Reader(ended, AfterAmpersand)
    else if c == '\'' then Reader(tokens, InSingle(before))
    else if c == '"' then Reader(tokens, InDouble(before))
    else if IsUnsupported(c) then Reader(tokens, Failed)
    else Reader(tokens, InWord(before + [Lit(c)]))
  }

  function StepInDouble(tokens: seq<Token>, word: Word, c: char): Reader {
    if c == '"' then Reader(tokens, InWord(word))
    else if c == '$' then Reader(tokens, InParam(word, ""))
    else if c == '`' || c == '\\' || c == '\0' then Reader(tokens, Failed)
    else Reader(tokens, InDouble(word + [Lit(c)]))
  }

  function Step(r: Reader, c: char): Reader {
    match r.mode
    case Between => StepOutside(r.tokens, None, c)
    case InWord(word) => StepOutside(r.tokens, Some(word), c)
    case InSingle(word) =>
      if c == '\'' then Reader(r.tokens, InWord(word))
      else if c == '\0' then Reader(r.tokens, Failed)
      else Reader(r.tokens, InSingle(word + [Lit(c)]))
    case InDouble(word) => StepInDouble(r.tokens, word, c)
    case InParam(word, name) =>
      if IsNameChar(c, name == "") then Reader(r.tokens, InParam(word, name + [c]))
      else if name == "" then Reader(r.tokens, Failed)
      else StepInDouble(r.tokens, word + [Param(name)], c)
    case AfterAmpersand => if c == '&' then Reader(r.tokens + [AndIf], Between) else Reader(r.tokens, Failed)
    case Failed => r
  }

  function Feed(r: Reader, s: string): Reader
    decreases |s|
  {
    if s == "" then r else Feed(Step(r, s[0]), s[1..])
  }

  /** The tokens read so far, when no quote or operator is open. */
  function Ended(r: Reader): Option<seq<Token>> {
    match r.mode
    case Between => Some(r.tokens)
    case InWord(word) => Some(r.tokens + [WordToken(word)])
    case _ => None
  }

  function Tokens(s: string): Option<seq<Token>> {
    Ended(Feed(Reader([], Between), s))
  }

  function Literal(s: string): Word {
    Map((c: char) => Lit(c), s)
  }

  // ---------------------------------------------------------------------------
  // Writing one.
  // ---------------------------------------------------------------------------

  /** strings.ReplaceAll(s, "'", other). */
  function ReplaceQuotes(s: string, other: string): string {
    if s == "" then "" else (if s[0] == '\'' then other else [s[0]]) + ReplaceQuotes(s[1..], other)
  }

  function ShellQuote(value: string): string {
    ['\''] + ReplaceQuotes(value, "'\"'\"'") + ['\'']
  }

  datatype JobSpec = JobSpec(fallbackTenant: string, fallbackOwnerSubject: string)

  function Flag(option: string, value: string): string {
    if value == "" then "" else option + ShellQuote(value)
  }

  function Flags(spec: Option<JobSpec>): string {
    if spec.None? then ""
    else Flag(" --fallback-tenant ", spec.value.fallbackTenant)
         + Flag(" --fallback-owner-subject ", spec.value.fallbackOwnerSubject)
  }

  function MigrationJobShell(spec: Option<JobSpec>): string {
    "set -eu; " + "ogx migrate praxis --dry-run" + Flags(spec) + " \"$OGX_CONFIG\" && "
    + "ogx migrate praxis" + Flags(spec) + " \"$OGX_CONFIG\""
  }

  // ---------------------------------------------------------------------------
  // Quoting is read back.
  // ---------------------------------------------------------------------------

  lemma {:induction false} FeedConcat(r: Reader, a: string, b: string)
    ensures Feed(r, a + b) == Feed(Feed(r, a), b)
    decreases |a|
  {
    hide Step;
    if a == "" {
      assert a + b == b;
    } else {
      FeedConcat(Step(r, a[0]), a[1..], b);
      assert (a + b)[1..] == a[1..] + b;
    }
  }

  lemma {:induction false} FailedForever(tokens: seq<Token>, s: string)
    ensures Feed(Reader(tokens, Failed), s) == Reader(tokens, Failed)
  {
    if s != "" {
      FailedForever(tokens, s[1..]);
    }
  }

  /** The five characters that stand for a single quote inside single quotes. */
  lemma FeedQuotedQuote(tokens: seq<Token>, word: Word)
    ensures Feed(Reader(tokens, InSingle(word)), "'\"'\"'") == Reader(tokens, InSingle(word + [Lit('\'')]))
  {
    var r := Reader(tokens, InSingle(word));
    assert "'\"'\"'" == ['\'', '"', '\'', '"', '\''];
    assert Step(r, '\'') == Reader(tokens, InWord(word));
    assert Step(Reader(tokens, InWord(word)), '"') == Reader(tokens, InDouble(word));
    assert Step(Reader(tokens, InDouble(word)), '\'') == Reader(tokens, InDouble(word + [Lit('\'')]));
    var quoted := word + [Lit('\'')];
    assert Step(Reader(tokens, InDouble(quoted)), '"') == Reader(tokens, InWord(quoted));
    assert Step(Reader(tokens, InWord(quoted)), '\'') == Reader(tokens, InSingle(quoted));
    hide Step;
    FeedFive(r, '\'', '"', '\'', '"', '\'');
  }

  lemma FeedFive(r: Reader, a: char, b: char, c: char, d: char, e: char)
    ensures Feed(r, [a, b, c, d, e]) == Step(Step(Step(Step(Step(r, a), b), c), d), e)
  {
    hide Step;
    var r1 := Step(r, a);
    var r2 := Step(r1, b);
    var r3 := Step(r2, c);
    var r4 := Step(r3, d);
    assert [a, b, c, d, e][1..] == [b, c, d, e];
    assert Feed(r, [a, b, c, d, e]) == Feed(r1, [b, c, d, e]);
    assert [b, c, d, e][1..] == [c, d, e];
    assert Feed(r1, [b, c, d, e]) == Feed(r2, [c, d, e]);
    assert [c, d, e][1..] == [d, e];
    assert Feed(r2, [c, d, e]) == Feed(r3, [d, e]);
    assert [d, e][1..] == [e];
    assert Feed(r3, [d, e]) == Feed(r4, [e]);
    FeedOne(r4, e);
  }

  function QuotedInSingle(c: char): string {
    if c == '\'' then "'\"'\"'" else [c]
  }

  lemma FeedReplacedChar(tokens: seq<Token>, word: Word, c: char)
    ensures Feed(Reader(tokens, InSingle(word)), QuotedInSingle(c)) ==
      if c == '\0' then Reader(tokens, Failed) else Reader(tokens, InSingle(word + [Lit(c)]))
  {
    if c == '\'' {
      FeedQuotedQuote(tokens, word);
    } else {
      FeedOne(Reader(tokens, InSingle(word)), c);
    }
  }

  /** Inside single quotes the replaced text reads as the value, up to the first NUL. */
  lemma {:induction false} FeedReplaced(tokens: seq<Token>, word: Word, v: string)
    ensures var r := Feed(Reader(tokens, InSingle(word)), ReplaceQuotes(v, "'\"'\"'"));
            if '\0' in v then r.mode == Failed else r == Reader(tokens, InSingle(word + Literal(v)))
    decreases v
  {
    hide Step, Feed, Literal;
    var r := Reader(tokens, InSingle(word));
    LiteralInParts(word, v);
    if v == "" {
      FeedNothing(r);
    } else {
      var others := ReplaceQuotes(v[1..], "'\"'\"'");
      FeedConcat(r, QuotedInSingle(v[0]), others);
      FeedReplacedChar(tokens, word, v[0]);
      FailedForever(tokens, others);
      FeedReplaced(tokens, word + [Lit(v[0])], v[1..]);
      assert v == [v[0]] + v[1..];
    }
  }

  lemma FeedNothing(r: Reader)
    ensures Feed(r, "") == r
  {
  }

  lemma LiteralInParts(word: Word, v: string)
    ensures if v == "" then word + Literal(v) == word
            else word + [Lit(v[0])] + Literal(v[1..]) == word + Literal(v)
  {
  }

  lemma FeedOne(r: Reader, c: char)
    ensures Feed(r, [c]) == Step(r, c)
  {
    hide Step;
    assert [c][1..] == "";
  }

  /** Where a word may start or go on. */
  predicate IsOutside(r: Reader) {
    r.mode.Between? || r.mode.InWord?
  }

  function WordSoFar(r: Reader): Word {
    if r.mode.InWord? then r.mode.word else []
  }

  /** In any context outside quotes, a quoted value adds exactly the value to the current word. */
  lemma FeedShellQuote(r: Reader, v: string)
    requires IsOutside(r)
    ensures var read := Feed(r, ShellQuote(v));
            if '\0' in v then read.mode == Failed else read == Reader(r.tokens, InWord(WordSoFar(r) + Literal(v)))
  {
    hide Feed;
    var replaced := ReplaceQuotes(v, "'\"'\"'");
    FeedConcat(r, ['\''] + replaced, ['\'']);
    FeedConcat(r, ['\''], replaced);
    FeedOne(r, '\'');
    FeedReplaced(r.tokens, WordSoFar(r), v);
    FeedOne(Feed(Reader(r.tokens, InSingle(WordSoFar(r))), replaced), '\'');
  }

  /** A quoted value reads back as one word, the value itself, exactly when it holds no NUL. */
  lemma ShellRoundTrip(v: string)
    ensures Tokens(ShellQuote(v)) == Some([WordToken(Literal(v))]) <==> '\0' !in v
    ensures '\0' in v ==> Tokens(ShellQuote(v)) == None
  {
    hide Feed, Literal;
    FeedShellQuote(Reader([], Between), v);
    assert [] + Literal(v) == Literal(v);
    assert [] + [WordToken(Literal(v))] == [WordToken(Literal(v))];
  }

  // ---------------------------------------------------------------------------
  // The Job's command line.
  // ---------------------------------------------------------------------------

  predicate IsPlain(c: char) {
    c !in " \t;&'\"" && !IsUnsupported(c)
  }

  predicate IsPlainText(s: string) {
    s != "" && forall i :: 0 <= i < |s| ==> IsPlain(s[i])
  }

  /** The command line continues outside quotes with these tokens behind it. */
  predicate ReadsAs(s: string, tokens: seq<Token>) {
    Tokens(s) == Some(tokens)
  }

  lemma EndedIsOutside(s: string, tokens: seq<Token>)
    requires ReadsAs(s, tokens)
    ensures IsOutside(Feed(Reader([], Between), s))
    ensures Step(Feed(Reader([], Between), s), ' ') == Reader(tokens, Between)
    ensures Step(Feed(Reader([], Between), s), ';') == Reader(tokens + [Semicolon], Between)
    ensures Step(Feed(Reader([], Between), s), '&') == Reader(tokens, AfterAmpersand)
  {
    hide Feed;
  }

  lemma {:induction false} FeedPlain(r: Reader, s: string)
    requires IsOutside(r) && IsPlainText(s)
    ensures Feed(r, s) == Reader(r.tokens, InWord(WordSoFar(r) + Literal(s)))
    decreases |s|
  {
    hide Feed, Literal;
    var front, last := s[..|s| - 1], s[|s| - 1];
    assert forall i :: 0 <= i < |front| ==> front[i] == s[i];
    assert s == front + [last];
    FeedConcat(r, front, [last]);
    LiteralSnoc(front, last);
    if front == "" {
      FeedNothing(r);
      FeedOne(r, last);
      assert s == "" + [last] && WordSoFar(r) + [] == WordSoFar(r);
    } else {
      FeedPlain(r, front);
      FeedOne(Feed(r, front), last);
    }
  }

  lemma LiteralSnoc(s: string, c: char)
    ensures Literal(s + [c]) == Literal(s) + [Lit(c)] && Literal("") == []
    ensures forall word :: word + Literal(s + [c]) == word + Literal(s) + [Lit(c)]
  {
  }

  /** One more word, written plainly. */
  lemma ThenWord(s: string, tokens: seq<Token>, word: string)
    requires ReadsAs(s, tokens) && IsPlainText(word)
    ensures ReadsAs(s + ([' '] + word), tokens + [WordToken(Literal(word))])
  {
    hide Feed, Literal;
    var start := Reader([], Between);
    EndedIsOutside(s, tokens);
    FeedConcat(start, s, [' '] + word);
    FeedConcat(Feed(start, s), [' '], word);
    FeedOne(Feed(start, s), ' ');
    FeedPlain(Reader(tokens, Between), word);
    assert [] + Literal(word) == Literal(word);
  }

  /** One more word, quoted. */
  lemma ThenQuoted(s: string, tokens: seq<Token>, value: string)
    requires ReadsAs(s, tokens) && '\0' !in value
    ensures ReadsAs(s + ([' '] + ShellQuote(value)), tokens + [WordToken(Literal(value))])
  {
    hide Feed, Literal, ShellQuote;
    var start := Reader([], Between);
    EndedIsOutside(s, tokens);
    FeedConcat(start, s, [' '] + ShellQuote(value));
    FeedConcat(Feed(start, s), [' '], ShellQuote(value));
    FeedOne(Feed(start, s), ' ');
    FeedShellQuote(Reader(tokens, Between), value);
    assert [] + Literal(value) == Literal(value);
  }

  const CONFIG_WORD: Word := [Param("OGX_CONFIG")]

  /** One more word, the value of OGX_CONFIG. */
  lemma ThenConfig(s: string, tokens: seq<Token>)
    requires ReadsAs(s, tokens)
    ensures ReadsAs(s + " \"$OGX_CONFIG\"", tokens + [WordToken(CONFIG_WORD)])
  {
    hide Feed;
    var start := Reader([], Between);
    EndedIsOutside(s, tokens);
    var name := "OGX_CONFIG";
    assert " \"$OGX_CONFIG\"" == [' '] + (['"'] + (['$'] + (name + ['"'])));
    FeedConcat(start, s, [' '] + (['"'] + (['$'] + (name + ['"']))));
    FeedConcat(Feed(start, s), [' '], ['"'] + (['$'] + (name + ['"'])));
    FeedOne(Feed(start, s), ' ');
    FeedConcat(Reader(tokens, Between), ['"'], ['$'] + (name + ['"']));
    FeedOne(Reader(tokens, Between), '"');
    FeedConcat(Reader(tokens, InDouble([])), ['$'], name + ['"']);
    FeedOne(Reader(tokens, InDouble([])), '$');
    FeedConcat(Reader(tokens, InParam([], "")), name, ['"']);
    FeedName(tokens, [], name);
    FeedOne(Reader(tokens, InParam([], name)), '"');
    assert [] + [Param(name)] == CONFIG_WORD;
  }

  lemma {:induction false} FeedName(tokens: seq<Token>, word: Word, name: string)
    requires name != "" ==> IsNameChar(name[0], true)
    requires forall i :: 0 < i < |name| ==> IsNameChar(name[i], false)
    ensures Feed(Reader(tokens, InParam(word, "")), name) == Reader(tokens, InParam(word, name))
  {
    hide Feed;
    var r := Reader(tokens, InParam(word, ""));
    if name == "" {
      FeedNothing(r);
    } else {
      var front, last := name[..|name| - 1], name[|name| - 1];
      assert name == front + [last];
      FeedName(tokens, word, front);
      FeedConcat(r, front, [last]);
      FeedOne(Feed(r, front), last);
    }
  }

  /** The two operators, each with the blank after it. */
  lemma ThenSemicolon(s: string, tokens: seq<Token>)
    requires ReadsAs(s, tokens)
    ensures ReadsAs(s + [';'], tokens + [Semicolon])
  {
    hide Feed;
    EndedIsOutside(s, tokens);
    FeedConcat(Reader([], Between), s, [';']);
    FeedOne(Feed(Reader([], Between), s), ';');
  }

  lemma ThenAnd(s: string, tokens: seq<Token>)
    requires ReadsAs(s, tokens)
    ensures ReadsAs(s + " &&", tokens + [AndIf])
  {
    hide Feed;
    var start := Reader([], Between);
    EndedIsOutside(s, tokens);
    assert " &&" == [' '] + (['&'] + ['&']);
    FeedConcat(start, s, [' '] + (['&'] + ['&']));
    FeedConcat(Feed(start, s), [' '], ['&'] + ['&']);
    FeedOne(Feed(start, s), ' ');
    FeedConcat(Reader(tokens, Between), ['&'], ['&']);
    FeedOne(Reader(tokens, Between), '&');
    FeedOne(Reader(tokens, AfterAmpersand), '&');
  }

  /** A NUL in a quoted value makes the whole line unreadable. */
  lemma ThenNul(s: string, tokens: seq<Token>, value: string, rest: string)
    requires ReadsAs(s, tokens) && '\0' in value
    ensures Tokens(s + ([' '] + ShellQuote(value)) + rest) == None
  {
    hide Feed, ShellQuote;
    var start := Reader([], Between);
    EndedIsOutside(s, tokens);
    FeedConcat(start, s + ([' '] + ShellQuote(value)), rest);
    FeedConcat(start, s, [' '] + ShellQuote(value));
    FeedConcat(Feed(start, s), [' '], ShellQuote(value));
    FeedOne(Feed(start, s), ' ');
    FeedShellQuote(Reader(tokens, Between), value);
    var failed := Feed(Reader(tokens, Between), ShellQuote(value));
    FailedForever(failed.tokens, rest);
  }

  function Words(words: seq<string>): seq<Token> {
    Map((w: string) => WordToken(Literal(w)), words)
  }

  lemma WordsSnoc(words: seq<string>, word: string)
    ensures Words(words + [word]) == Words(words) + [WordToken(Literal(word))]
    ensures Words([]) == []
  {
  }

  function FlagWords(option: string, value: string): seq<string> {
    if value == "" then [] else [option, value]
  }

  /** The arguments the fallbacks of the spec stand for. */
  function FallbackWords(spec: Option<JobSpec>): seq<string> {
    if spec.None? then []
    else FlagWords("--fallback-tenant", spec.value.fallbackTenant)
         + FlagWords("--fallback-owner-subject", spec.value.fallbackOwnerSubject)
  }

  lemma FallbackWordsExactly(spec: Option<JobSpec>)
    ensures FallbackWords(spec) ==
      if spec.None? then [] else
        (if spec.value.fallbackTenant != "" then ["--fallback-tenant", spec.value.fallbackTenant] else [])
        + (if spec.value.fallbackOwnerSubject != "" then ["--fallback-owner-subject", spec.value.fallbackOwnerSubject] else [])
  {
  }

  predicate HasNul(spec: Option<JobSpec>) {
    spec.Some? && ('\0' in spec.value.fallbackTenant || '\0' in spec.value.fallbackOwnerSubject)
  }

  /** The first word, before any blank. */
  lemma FirstWord(word: string)
    requires IsPlainText(word)
    ensures ReadsAs(word, Words([word]))
  {
    hide Feed, Literal;
    FeedPlain(Reader([], Between), word);
    assert [] + Literal(word) == Literal(word);
    WordsSnoc([], word);
    assert [] + [word] == [word];
  }

  /** A line that reads as `before` and then the given words reads as one word more. */
  lemma NextWord(s: string, before: seq<Token>, words: seq<string>, word: string)
    requires ReadsAs(s, before + Words(words)) && IsPlainText(word)
    ensures ReadsAs(s + ([' '] + word), before + Words(words + [word]))
  {
    hide Tokens, Literal;
    ThenWord(s, before + Words(words), word);
    WordsSnoc(words, word);
    assert before + Words(words) + [WordToken(Literal(word))] == before + (Words(words) + [WordToken(Literal(word))]);
  }

  lemma NextFlag(s: string, before: seq<Token>, words: seq<string>, option: string, value: string)
    requires ReadsAs(s, before + Words(words)) && '\0' !in value
    requires IsPlainText(option)
    ensures ReadsAs(s + Flag([' '] + option + [' '], value), before + Words(words + FlagWords(option, value)))
  {
    hide Tokens, Literal, ShellQuote, Words;
    if value == "" {
      assert s + "" == s && words + [] == words;
    } else {
      NextWord(s, before, words, option);
      ThenQuoted(s + ([' '] + option), before + Words(words + [option]), value);
      WordsSnoc(words + [option], value);
      assert before + Words(words + [option]) + [WordToken(Literal(value))]
          == before + (Words(words + [option]) + [WordToken(Literal(value))]);
      assert words + [option] + [value] == words + FlagWords(option, value);
      assert s + ([' '] + option) + ([' '] + ShellQuote(value)) == s + Flag([' '] + option + [' '], value);
    }
  }

  predicate IsOptionChar(c: char) {
    'a' <= c <= 'z' || c == '-'
  }

  lemma OptionTextIsPlain(s: string)
    requires s != "" && forall i :: 0 <= i < |s| ==> IsOptionChar(s[i])
    ensures IsPlainText(s)
  {
  }

  lemma OptionsArePlain()
    ensures IsPlainText("--fallback-tenant") && IsPlainText("--fallback-owner-subject")
    ensures [' '] + "--fallback-tenant" + [' '] == " --fallback-tenant "
    ensures [' '] + "--fallback-owner-subject" + [' '] == " --fallback-owner-subject "
  {
    hide IsPlainText;
    OptionTextIsPlain("--fallback-tenant");
    OptionTextIsPlain("--fallback-owner-subject");
  }

  lemma CommandWordsArePlain()
    ensures IsPlainText("set") && IsPlainText("-eu") && IsPlainText("ogx") && IsPlainText("migrate")
    ensures IsPlainText("praxis") && IsPlainText("--dry-run")
  {
    hide IsPlainText;
    OptionTextIsPlain("set");
    OptionTextIsPlain("-eu");
    OptionTextIsPlain("ogx");
    OptionTextIsPlain("migrate");
    OptionTextIsPlain("praxis");
    OptionTextIsPlain("--dry-run");
  }

  lemma NextFlags(s: string, before: seq<Token>, words: seq<string>, spec: Option<JobSpec>)
    requires ReadsAs(s, before + Words(words)) && !HasNul(spec)
    ensures ReadsAs(s + Flags(spec), before + Words(words + FallbackWords(spec)))
  {
    hide Tokens, Literal, Flag, Words, FlagWords, IsPlainText;
    if spec.None? {
      assert s + "" == s && words + [] == words;
    } else {
      OptionsArePlain();
      var tenant, owner := spec.value.fallbackTenant, spec.value.fallbackOwnerSubject;
      var tenantText, ownerText := Flag(" --fallback-tenant ", tenant), Flag(" --fallback-owner-subject ", owner);
      var tenantWords, ownerWords :=
        FlagWords("--fallback-tenant", tenant), FlagWords("--fallback-owner-subject", owner);
      NextFlag(s, before, words, "--fallback-tenant", tenant);
      NextFlag(s + tenantText, before, words + tenantWords, "--fallback-owner-subject", owner);
      assert s + tenantText + ownerText == s + (tenantText + ownerText);
      assert words + tenantWords + ownerWords == words + (tenantWords + ownerWords);
    }
  }

  const SET: seq<string> := ["set", "-eu"]
  const DRY_RUN: seq<string> := ["ogx", "migrate", "praxis", "--dry-run"]
  const MIGRATE: seq<string> := ["ogx", "migrate", "praxis"]

  /** `set -eu;` and then the dry run's own words. */
  lemma DryRunReads()
    ensures ReadsAs("set" + ([' '] + "-eu") + [';'], Words(SET) + [Semicolon])
    ensures ReadsAs("set -eu; ogx migrate praxis --dry-run", Words(SET) + [Semicolon] + Words(DRY_RUN))
  {
    hide Tokens, Words, Literal, IsPlainText;
    CommandWordsArePlain();
    FirstWord("set");
    assert [] + Words(["set"]) == Words(["set"]);
    NextWord("set", [], ["set"], "-eu");
    assert ["set"] + ["-eu"] == SET && [] + Words(SET) == Words(SET);
    ThenSemicolon("set" + ([' '] + "-eu"), Words(SET));
    FourWords("set" + ([' '] + "-eu") + [';'], Words(SET) + [Semicolon]);
    assert "set" + ([' '] + "-eu") + [';'] + " ogx migrate praxis" + " --dry-run"
        == "set -eu; ogx migrate praxis --dry-run";
  }

  lemma ThreeWords(s: string, before: seq<Token>)
    requires ReadsAs(s, before)
    ensures ReadsAs(s + " ogx migrate praxis", before + Words(MIGRATE))
  {
    hide Tokens, Literal, IsPlainText;
    CommandWordsArePlain();
    WordsSnoc([], "ogx");
    hide Words;
    assert before + Words([]) == before;
    NextWord(s, before, [], "ogx");
    assert [] + ["ogx"] == ["ogx"];
    NextWord(s + ([' '] + "ogx"), before, ["ogx"], "migrate");
    assert ["ogx"] + ["migrate"] == ["ogx", "migrate"];
    NextWord(s + ([' '] + "ogx") + ([' '] + "migrate"), before, ["ogx", "migrate"], "praxis");
    assert ["ogx", "migrate"] + ["praxis"] == MIGRATE;
    assert s + ([' '] + "ogx") + ([' '] + "migrate") + ([' '] + "praxis") == s + " ogx migrate praxis";
  }

  lemma FourWords(s: string, before: seq<Token>)
    requires ReadsAs(s, before)
    ensures ReadsAs(s + " ogx migrate praxis" + " --dry-run", before + Words(DRY_RUN))
  {
    hide Tokens, Literal, IsPlainText, Words;
    CommandWordsArePlain();
    ThreeWords(s, before);
    NextWord(s + " ogx migrate praxis", before, MIGRATE, "--dry-run");
    assert MIGRATE + ["--dry-run"] == DRY_RUN;
    assert [' '] + "--dry-run" == " --dry-run";
  }

  /** A command and its arguments, ending with the value of OGX_CONFIG. */
  function Command(words: seq<string>): seq<Token> {
    Words(words) + [WordToken(CONFIG_WORD)]
  }

  /** The line reads as `set -eu` and two commands whose arguments are the fallback values
      themselves and the config path; the second differs from the first by --dry-run only. */
  lemma MigrationCommandsAgree(spec: Option<JobSpec>)
    requires !HasNul(spec)
    ensures Tokens(MigrationJobShell(spec)) ==
      Some(Words(SET) + [Semicolon] + Command(DRY_RUN + FallbackWords(spec)) + [AndIf]
           + Command(MIGRATE + FallbackWords(spec)))
    ensures SET == ["set", "-eu"] && MIGRATE == ["ogx", "migrate", "praxis"] && DRY_RUN == MIGRATE + ["--dry-run"]
    ensures CONFIG_WORD == [Param("OGX_CONFIG")]
    ensures FallbackWords(spec) ==
      if spec.None? then [] else
        (if spec.value.fallbackTenant != "" then ["--fallback-tenant", spec.value.fallbackTenant] else [])
        + (if spec.value.fallbackOwnerSubject != "" then ["--fallback-owner-subject", spec.value.fallbackOwnerSubject] else [])
  {
    FallbackWordsExactly(spec);
    hide Tokens, Words, Flags, FallbackWords;
    var prologue := Words(SET) + [Semicolon];
    DryRunReads();
    var s := "set -eu; ogx migrate praxis --dry-run";
    NextFlags(s, prologue, DRY_RUN, spec);
    var dryWords := Words(DRY_RUN + FallbackWords(spec));
    ThenConfig(s + Flags(spec), prologue + dryWords);
    var dry := prologue + Command(DRY_RUN + FallbackWords(spec));
    assert prologue + dryWords + [WordToken(CONFIG_WORD)] == dry;
    var line := s + Flags(spec) + " \"$OGX_CONFIG\"";
    ThenAnd(line, dry);
    ThreeWords(line + " &&", dry + [AndIf]);
    NextFlags(line + " &&" + " ogx migrate praxis", dry + [AndIf], MIGRATE, spec);
    var words := Words(MIGRATE + FallbackWords(spec));
    ThenConfig(line + " &&" + " ogx migrate praxis" + Flags(spec), dry + [AndIf] + words);
    assert dry + [AndIf] + words + [WordToken(CONFIG_WORD)] == dry + [AndIf] + Command(MIGRATE + FallbackWords(spec));
    LineInParts(spec);
  }

  lemma LineInParts(spec: Option<JobSpec>)
    ensures MigrationJobShell(spec)
      == "set -eu; ogx migrate praxis --dry-run" + Flags(spec) + " \"$OGX_CONFIG\"" + " &&" + " ogx migrate praxis"
         + Flags(spec) + " \"$OGX_CONFIG\""
  {
    hide Flags;
    assert "set -eu; " + "ogx migrate praxis --dry-run" == "set -eu; ogx migrate praxis --dry-run";
    assert " \"$OGX_CONFIG\" && " + "ogx migrate praxis" == " \"$OGX_CONFIG\"" + " &&" + " ogx migrate praxis";
    var front := "set -eu; " + "ogx migrate praxis --dry-run" + Flags(spec);
    assert front + " \"$OGX_CONFIG\" && " + "ogx migrate praxis" == front + (" \"$OGX_CONFIG\" && " + "ogx migrate praxis");
  }

  lemma FlagWithNul(s: string, before: seq<Token>, words: seq<string>, option: string, value: string, rest: string)
    requires ReadsAs(s, before + Words(words)) && '\0' in value && IsPlainText(option)
    ensures Tokens(s + Flag([' '] + option + [' '], value) + rest) == None
  {
    hide Tokens, Literal, ShellQuote, Words, IsPlainText;
    NextWord(s, before, words, option);
    ThenNul(s + ([' '] + option), before + Words(words + [option]), value, rest);
    assert s + ([' '] + option) + ([' '] + ShellQuote(value)) == s + Flag([' '] + option + [' '], value);
  }

  /** With a NUL in a fallback value there is no reading at all. */
  lemma NulIsUnreadable(spec: Option<JobSpec>)
    requires HasNul(spec)
    ensures Tokens(MigrationJobShell(spec)) == None
  {
    hide Tokens, Words, Flag, FlagWords, Literal, IsPlainText, MigrationJobShell;
    var prologue := Words(SET) + [Semicolon];
    var s := "set -eu; ogx migrate praxis --dry-run";
    var tenant, owner := spec.value.fallbackTenant, spec.value.fallbackOwnerSubject;
    var tenantFlag, ownerFlag := Flag(" --fallback-tenant ", tenant), Flag(" --fallback-owner-subject ", owner);
    DryRunReads();
    OptionsArePlain();
    LineInParts(spec);
    var tail := LineTail(spec);
    if '\0' in tenant {
      FlagWithNul(s, prologue, DRY_RUN, "--fallback-tenant", tenant, ownerFlag + tail);
    } else {
      NextFlag(s, prologue, DRY_RUN, "--fallback-tenant", tenant);
      FlagWithNul(
        s + tenantFlag, prologue, DRY_RUN + FlagWords("--fallback-tenant", tenant),
        "--fallback-owner-subject", owner, tail);
    }
    Reassociate(s, tenantFlag, ownerFlag, tail);
    TailFollowsFlags(spec);
  }

  /** Everything after the flags of the dry run. */
  function LineTail(spec: Option<JobSpec>): string {
    " \"$OGX_CONFIG\"" + " &&" + " ogx migrate praxis" + Flags(spec) + " \"$OGX_CONFIG\""
  }

  lemma TailFollowsFlags(spec: Option<JobSpec>)
    ensures MigrationJobShell(spec) == "set -eu; ogx migrate praxis --dry-run" + Flags(spec) + LineTail(spec)
  {
    LineInParts(spec);
    hide MigrationJobShell, Flags;
  }

  lemma Reassociate(a: string, b: string, c: string, d: string)
    ensures a + b + (c + d) == a + (b + c) + d == a + b + c + d
  {
  }
}
