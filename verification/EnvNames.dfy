/** Environment variable names derived from provider IDs and field names. */
module EnvNames {
  import opened Prelude

  predicate IsEnvVarAlphaNum(c: char) {
    'A' <= c <= 'Z' || '0' <= c <= '9'
  }

  /** Upper-casing as far as it can be told apart here: besides a to z, two runes have an ASCII
      letter as their upper case (U+0131 and U+017F), and every other rune stays outside A-Z0-9. */
  function UpperChar(c: char): char {
    if 'a' <= c <= 'z' then c - 'a' + 'A'
    else if c == '\U{0131}' then 'I'
    else if c == '\U{017F}' then 'S'
    else c
  }

  function ToUpper(s: string): string {
    Map(UpperChar, s)
  }

  // ---------------------------------------------------------------------------
  // The meaning of a name: its maximal alphanumeric runs.
  // ---------------------------------------------------------------------------

  predicate EndsInRun(s: string) {
    s != "" && IsEnvVarAlphaNum(s[|s| - 1])
  }

  /** The maximal runs of alphanumeric characters of `s`, left to right. */
  function Runs(s: string): (runs: seq<string>)
    ensures EndsInRun(s) ==> runs != []
  {
    if s == "" then [] else Grow(Runs(s[..|s| - 1]), EndsInRun(s[..|s| - 1]), s[|s| - 1])
  }

  /** The runs after one more character; `open` says the last run ends right before it. */
  function Grow(runs: seq<string>, open: bool, c: char): seq<string>
    requires open ==> runs != []
  {
    if !IsEnvVarAlphaNum(c) then runs
    else if open then runs[..|runs| - 1] + [runs[|runs| - 1] + [c]]
    else runs + [[c]]
  }

  function Join(runs: seq<string>): string {
    if runs == [] then ""
    else if |runs| == 1 then runs[0]
    else Join(runs[..|runs| - 1]) + "_" + runs[|runs| - 1]
  }

  predicate IsRun(s: string) {
    s != "" && forall i :: 0 <= i < |s| ==> IsEnvVarAlphaNum(s[i])
  }

  predicate AllRuns(runs: seq<string>) {
    forall i :: 0 <= i < |runs| ==> IsRun(runs[i])
  }

  function EnsureValidEnvVarPrefix(s: string): string {
    if s == "" then "_" else if '0' <= s[0] <= '9' then "_" + s else s
  }

  function NormalizeEnvVarField(s: string): string {
    EnsureValidEnvVarPrefix(Join(Runs(ToUpper(s))))
  }

  const ENV_PREFIX := "OGX"

  /** buildEnvVarName. */
  function BuildEnvVarName(providerID: string, field: string): string {
    ENV_PREFIX + "_" + NormalizeEnvVarField(providerID) + "_" + field
  }

  /** The regular expression ^[A-Z_][A-Z0-9_]*$. */
  predicate IsEnvVarName(s: string) {
    && s != ""
    && !('0' <= s[0] <= '9')
    && forall i :: 0 <= i < |s| ==> IsEnvVarAlphaNum(s[i]) || s[i] == '_'
  }

  predicate NoAdjacentUnderscores(s: string) {
    forall i :: 0 < i < |s| ==> !(s[i - 1] == '_' && s[i] == '_')
  }

  // ---------------------------------------------------------------------------
  // The normaliser's loops.
  // ---------------------------------------------------------------------------

  /** strings.Trim(s, "_"). */
  function TrimUnderscores(s: string): string
    decreases |s|
  {
    if s == "" then ""
    else if s[0] == '_' then TrimUnderscores(s[1..])
    else if s[|s| - 1] == '_' then TrimUnderscores(s[..|s| - 1])
    else s
  }

  lemma RunsGrow(s: string, c: char)
    ensures Runs(s + [c]) == Grow(Runs(s), EndsInRun(s), c)
  {
    assert (s + [c])[..|s|] == s;
  }

  lemma {:induction false} RunsAreRuns(s: string)
    ensures AllRuns(Runs(s))
  {
    if s != "" {
      RunsAreRuns(s[..|s| - 1]);
    }
  }

  /** A joined list of runs starts and ends with an alphanumeric character and keeps '_' apart. */
  lemma {:induction false} JoinShape(runs: seq<string>)
    requires AllRuns(runs)
    ensures runs == [] <==> Join(runs) == ""
    ensures runs != [] ==> IsEnvVarAlphaNum(Join(runs)[0]) && IsEnvVarAlphaNum(Join(runs)[|Join(runs)| - 1])
    ensures forall i :: 0 <= i < |Join(runs)| ==> IsEnvVarAlphaNum(Join(runs)[i]) || Join(runs)[i] == '_'
    ensures NoAdjacentUnderscores(Join(runs))
  {
    if |runs| > 1 {
      JoinShape(runs[..|runs| - 1]);
    }
  }

  lemma {:induction false} JoinStart(runs: seq<string>)
    requires runs != [] && AllRuns(runs)
    ensures Join(runs) != "" && Join(runs)[0] == runs[0][0]
  {
    if |runs| > 1 {
      JoinStart(runs[..|runs| - 1]);
    }
  }

  function Around(lead: bool, s: string, trail: bool): string {
    (if lead then "_" else "") + s + (if trail then "_" else "")
  }

  /** What the builder holds after a prefix: a leading underscore if it began with other
      characters, the joined runs, and a trailing one if it ends with other characters. */
  function Collapsed(s: string): string {
    if s == "" then ""
    else Around(!IsEnvVarAlphaNum(s[0]), Join(Runs(s)), !EndsInRun(s) && Runs(s) != [])
  }

  lemma CollapsedGrows(s: string, c: char)
    ensures Collapsed(s + [c]) ==
      if IsEnvVarAlphaNum(c) then Collapsed(s) + [c]
      else if s != "" && !EndsInRun(s) then Collapsed(s)
      else Collapsed(s) + "_"
  {
    RunsGrow(s, c);
    if s == "" {
      assert s + [c] == [c];
    } else {
      hide Runs, Join, Around;
      var lead, runs, trail := !IsEnvVarAlphaNum(s[0]), Runs(s), !EndsInRun(s) && Runs(s) != [];
      assert EndsInRun(s + [c]) == IsEnvVarAlphaNum(c);
      if IsEnvVarAlphaNum(c) {
        JoinGrows(runs, EndsInRun(s), c);
        AroundGrows(lead, Join(runs), trail, c);
      } else if EndsInRun(s) {
        AroundCloses(lead, Join(runs));
      }
    }
  }

  lemma AroundGrows(lead: bool, s: string, trail: bool, c: char)
    ensures Around(lead, s + (if trail then "_" + [c] else [c]), false) == Around(lead, s, trail) + [c]
  {
  }

  lemma AroundCloses(lead: bool, s: string)
    ensures Around(lead, s, true) == Around(lead, s, false) + "_"
  {
  }

  lemma JoinGrows(runs: seq<string>, open: bool, c: char)
    requires IsEnvVarAlphaNum(c) && (open ==> runs != [])
    ensures Join(Grow(runs, open, c)) == Join(runs) + (if open || runs == [] then [c] else "_" + [c])
  {
    var grown := Grow(runs, open, c);
    assert grown[..|grown| - 1] == if open then runs[..|runs| - 1] else runs;
  }

  lemma {:induction false} TrimCollapsed(s: string)
    ensures TrimUnderscores(Collapsed(s)) == Join(Runs(s))
  {
    if s != "" {
      RunsAreRuns(s);
      JoinShape(Runs(s));
      hide Runs, Join;
      TrimAround(!IsEnvVarAlphaNum(s[0]), Join(Runs(s)), !EndsInRun(s) && Runs(s) != []);
    }
  }

  /** Trimming takes off one underscore on either side of a text that has none at its ends. */
  lemma TrimAround(lead: bool, s: string, trail: bool)
    requires s != "" ==> s[0] != '_' && s[|s| - 1] != '_'
    ensures TrimUnderscores(Around(lead, s, trail)) == s
  {
    var tail := if trail then "_" else "";
    assert TrimUnderscores(s) == s;
    assert TrimUnderscores(s + tail) == s by {
      if !trail {
        assert s + tail == s;
      } else if s == "" {
        assert (s + tail)[1..] == "";
      } else {
        assert (s + tail)[..|s|] == s;
      }
    }
    if lead {
      assert Around(lead, s, trail)[1..] == s + tail;
    } else {
      assert Around(lead, s, trail) == s + tail;
    }
  }

  lemma NothingCollapsed()
    ensures Collapsed("") == ""
  {
  }

  method TrimAndCollapseToUnderscore(s: string) returns (out: string)
    ensures out == Join(Runs(s))
  {
    hide Runs, Join, Collapsed;
    assert Collapsed("") == "" by { NothingCollapsed(); }
    var b := "";
    var lastUnderscore := false;
    assert s[..0] == "";
    for i := 0 to |s|
      invariant b == Collapsed(s[..i])
      invariant lastUnderscore <==> i > 0 && !IsEnvVarAlphaNum(s[i - 1])
    {
      CollapsedGrows(s[..i], s[i]);
      assert s[..i + 1] == s[..i] + [s[i]];
      if IsEnvVarAlphaNum(s[i]) {
        b := b + [s[i]];
        lastUnderscore := false;
        continue;
      }
      if !lastUnderscore {
        b := b + "_";
        lastUnderscore := true;
      }
    }
    assert s[..|s|] == s;
    TrimCollapsed(s);
    out := TrimUnderscores(b);
  }

  method NormalizeField(s: string) returns (out: string)
    ensures out == NormalizeEnvVarField(s)
  {
    var upper := ToUpper(s);
    var collapsed := TrimAndCollapseToUnderscore(upper);
    out := EnsureValidEnvVarPrefix(collapsed);
  }

  // ---------------------------------------------------------------------------
  // Properties.
  // ---------------------------------------------------------------------------

  lemma NormalizedIsEnvVarName(s: string)
    ensures IsEnvVarName(NormalizeEnvVarField(s))
    ensures NoAdjacentUnderscores(NormalizeEnvVarField(s))
  {
    RunsAreRuns(ToUpper(s));
    JoinShape(Runs(ToUpper(s)));
  }

  /** Every name built from a provider ID passes the regular expression, provided the field part
      does, as the fixed field names and the normalised keys do. */
  lemma BuiltNameIsEnvVarName(providerID: string, field: string)
    requires forall i :: 0 <= i < |field| ==> IsEnvVarAlphaNum(field[i]) || field[i] == '_'
    ensures IsEnvVarName(BuildEnvVarName(providerID, field))
  {
    NormalizedIsEnvVarName(providerID);
  }

  /** The runs are recovered from their joined form. */
  lemma {:induction false} RunsOfJoin(runs: seq<string>)
    requires AllRuns(runs)
    ensures Runs(Join(runs)) == runs
  {
    hide Runs, Join;
    JoinByLast(runs);
    if runs == [] {
      NoRuns();
    } else if |runs| == 1 {
      RunsOfRun(runs[0]);
    } else {
      var front, last := runs[..|runs| - 1], runs[|runs| - 1];
      RunsOfJoin(front);
      RunsAfterSeparator(Join(front), '_', last);
      assert runs == front + [last];
    }
  }

  lemma JoinByLast(runs: seq<string>)
    ensures runs == [] ==> Join(runs) == ""
    ensures |runs| == 1 ==> Join(runs) == runs[0]
    ensures |runs| > 1 ==> Join(runs) == Join(runs[..|runs| - 1]) + ['_'] + runs[|runs| - 1]
  {
  }

  lemma NoRuns()
    ensures Runs("") == []
  {
  }

  lemma {:induction false} RunsOfRun(run: string)
    requires IsRun(run)
    ensures Runs(run) == [run]
  {
    RunsAfterSeparator("", '_', run);
    assert "" + ['_'] + run == "_" + run;
    RunsIgnoreLeadingUnderscore(run);
  }

  lemma {:induction false} RunsAfterSeparator(s: string, c: char, run: string)
    requires IsRun(run) && !IsEnvVarAlphaNum(c)
    ensures Runs(s + [c] + run) == Runs(s) + [run]
  {
    hide Runs;
    var front, last := run[..|run| - 1], run[|run| - 1];
    assert s + [c] + run == s + [c] + front + [last];
    RunsGrow(s + [c] + front, last);
    if front == "" {
      RunsGrow(s, c);
      assert s + [c] + front == s + [c];
      assert run == [last];
    } else {
      RunsAfterSeparator(s, c, front);
      assert run == front + [last];
    }
  }

  lemma {:induction false} RunsIgnoreLeadingUnderscore(s: string)
    ensures Runs("_" + s) == Runs(s)
  {
    if s == "" {
      RunsGrow("", '_');
      assert "" + ['_'] == "_" + "";
    } else {
      var front, last := s[..|s| - 1], s[|s| - 1];
      RunsIgnoreLeadingUnderscore(front);
      RunsGrow("_" + front, last);
      RunsGrow(front, last);
      assert "_" + s == "_" + front + [last] && s == front + [last];
      assert EndsInRun("_" + front) == EndsInRun(front);
    }
  }

  lemma RunsOfNormalized(s: string)
    ensures Runs(NormalizeEnvVarField(s)) == Runs(ToUpper(s))
  {
    RunsAreRuns(ToUpper(s));
    RunsOfJoin(Runs(ToUpper(s)));
    RunsIgnoreLeadingUnderscore(Join(Runs(ToUpper(s))));
  }

  /** Exactly when the normaliser identifies two strings: their upper-cased runs are the same. */
  lemma NormalizerCollisions(a: string, b: string)
    ensures NormalizeEnvVarField(a) == NormalizeEnvVarField(b) <==> Runs(ToUpper(a)) == Runs(ToUpper(b))
  {
    RunsOfNormalized(a);
    RunsOfNormalized(b);
  }

  lemma NormalizerIsIdempotent(s: string)
    ensures NormalizeEnvVarField(NormalizeEnvVarField(s)) == NormalizeEnvVarField(s)
  {
    var n := NormalizeEnvVarField(s);
    NormalizedIsEnvVarName(s);
    assert ToUpper(n) == n;
    RunsOfNormalized(s);
    NormalizerCollisions(n, s);
  }

  /** The alphanumeric characters of `s`, in order. */
  function AlphaNums(s: string): string {
    if s == "" then ""
    else AlphaNums(s[..|s| - 1]) + if IsEnvVarAlphaNum(s[|s| - 1]) then [s[|s| - 1]] else ""
  }

  function Flatten(runs: seq<string>): string {
    if runs == [] then "" else Flatten(runs[..|runs| - 1]) + runs[|runs| - 1]
  }

  lemma FlattenGrows(runs: seq<string>, open: bool, c: char)
    requires open ==> runs != []
    ensures Flatten(Grow(runs, open, c)) == Flatten(runs) + if IsEnvVarAlphaNum(c) then [c] else ""
  {
    var grown := Grow(runs, open, c);
    if IsEnvVarAlphaNum(c) {
      assert grown[..|grown| - 1] == if open then runs[..|runs| - 1] else runs;
    }
  }

  lemma {:induction false} RunsAreAlphaNums(s: string)
    ensures Flatten(Runs(s)) == AlphaNums(s)
  {
    if s != "" {
      hide Flatten, Grow;
      RunsAreAlphaNums(s[..|s| - 1]);
      FlattenGrows(Runs(s[..|s| - 1]), EndsInRun(s[..|s| - 1]), s[|s| - 1]);
    } else {
      assert Flatten([]) == "";
    }
  }

  /** No letter or digit is lost, added or moved: the normal form has those of the upper-cased string. */
  lemma NormalFormKeepsAlphaNums(s: string)
    ensures AlphaNums(NormalizeEnvVarField(s)) == AlphaNums(ToUpper(s))
  {
    hide NormalizeEnvVarField, ToUpper, Runs;
    RunsOfNormalized(s);
    RunsAreAlphaNums(NormalizeEnvVarField(s));
    RunsAreAlphaNums(ToUpper(s));
  }

  /** Upper-casing an ASCII string changes its small letters and nothing else. */
  lemma UpperExactly(s: string, i: nat)
    requires i < |s| && s[i] as int < 128
    ensures |ToUpper(s)| == |s|
    ensures if 'a' <= s[i] <= 'z' then ToUpper(s)[i] as int == s[i] as int - 32 else ToUpper(s)[i] == s[i]
  {
  }

  /** So distinct provider IDs may share a name, which is why names are checked for collisions. */
  lemma DistinctIDsMayCollide()
    ensures NormalizeEnvVarField("my-vllm") == NormalizeEnvVarField("my.vllm")
  {
    hide Runs, Join;
    assert ToUpper("my-vllm") == "MY-VLLM" == "MY" + ['-'] + "VLLM";
    assert ToUpper("my.vllm") == "MY.VLLM" == "MY" + ['.'] + "VLLM";
    RunsAfterSeparator("MY", '-', "VLLM");
    RunsAfterSeparator("MY", '.', "VLLM");
  }
}
