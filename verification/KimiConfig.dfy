/** The Kimi adapter's configuration patcher: string quoting, the model key it selects, and the
    chain of upserts it applies to an existing configuration. */
module KimiConfig {
  import opened Common
  import opened TomlText
  import opened TomlUpsert
  import opened TomlPatch
  import opened TomlEndings

  // ---- Quoted strings ----------------------------------------------------------------------

  function EscapeBackslashes(s: string): string {
    if s == "" then "" else (if s[0] == '\\' then "\\\\" else [s[0]]) + EscapeBackslashes(s[1..])
  }

  function EscapeQuotes(s: string): string {
    if s == "" then "" else (if s[0] == '"' then "\\\"" else [s[0]]) + EscapeQuotes(s[1..])
  }

  /** `str::replace` of a two-character pattern by one character. */
  function ReplacePair(s: string, a: char, b: char, c: char): string {
    if |s| < 2 then s
    else if s[0] == a && s[1] == b then [c] + ReplacePair(s[2..], a, b, c)
    else [s[0]] + ReplacePair(s[1..], a, b, c)
  }

  /** `quote_toml_string`. */
  function Quote(value: string): string {
    "\"" + EscapeQuotes(EscapeBackslashes(value)) + "\""
  }

  /** The two passes that undo it, in the source's order. */
  function Unescape(s: string): string {
    ReplacePair(ReplacePair(s, '\\', '"', '"'), '\\', '\\', '\\')
  }

  /** `parse_toml_string_assignment`. */
  function ParseAssignment(line: string, key: string): Option<string> {
    var trimmed := Trim(line);
    var prefix := key + " = ";
    if !StartsWith(trimmed, prefix) then None
    else
      var value := Trim(trimmed[|prefix|..]);
      if value == "" || value[0] != '"' then None
      else
        var rest := value[1..];
        if rest == "" || rest[|rest| - 1] != '"' then None else Some(Unescape(rest[..|rest| - 1]))
  }

  lemma {:induction false} FirstPass(x: string)
    ensures ReplacePair(EscapeQuotes(x), '\\', '"', '"') == x
    ensures EscapeQuotes(x) != "" ==> EscapeQuotes(x)[0] != '"'
    decreases |x|
  {
    if x != "" {
      FirstPass(x[1..]);
      var rest := EscapeQuotes(x[1..]);
      if x[0] == '"' {
        assert EscapeQuotes(x)[2..] == rest;
      } else {
        assert EscapeQuotes(x)[1..] == rest;
      }
    }
  }

  lemma {:induction false} SecondPass(x: string)
    ensures ReplacePair(EscapeBackslashes(x), '\\', '\\', '\\') == x
    decreases |x|
  {
    if x != "" {
      SecondPass(x[1..]);
      var rest := EscapeBackslashes(x[1..]);
      if x[0] == '\\' {
        assert EscapeBackslashes(x)[2..] == rest;
      } else {
        assert EscapeBackslashes(x)[1..] == rest;
      }
    }
  }

  lemma UnescapeInverts(value: string)
    ensures Unescape(EscapeQuotes(EscapeBackslashes(value))) == value
  {
    FirstPass(EscapeBackslashes(value));
    SecondPass(value);
  }

  lemma TrimmedStarts(line: string)
    ensures StartsWith(TrimStart(line), Trim(line))
    ensures Trim(line) != "" ==> !IsSpace(Trim(line)[0])
  {
    TrimStartFacts(line);
    TrimEndFacts(TrimStart(line));
  }

  lemma StartsAlike(s: string, prefix: string)
    requires prefix != ""
    ensures StartsWith(s, prefix) ==> s != "" && s[0] == prefix[0]
  {
    assert |prefix| <= |s| ==> s[0] == s[..|prefix|][0];
  }

  lemma ParseGood(key: string, value: string)
    requires key != "" && !IsSpace(key[0])
    ensures ParseAssignment(Assignment(key, Quote(value)), key) == Some(value)
  {
    var line := Assignment(key, Quote(value));
    var prefix := key + " = ";
    assert line == prefix + Quote(value);
    assert line[0] == key[0] && line[|line| - 1] == '"';
    assert Trim(line) == line;
    assert line[..|prefix|] == prefix && line[|prefix|..] == Quote(value);
    assert Trim(Quote(value)) == Quote(value);
    var inner := EscapeQuotes(EscapeBackslashes(value));
    assert Quote(value)[1..] == inner + "\"";
    assert (inner + "\"")[..|inner|] == inner;
    UnescapeInverts(value);
  }

  /** Parsing a quoted assignment returns the original value, for every string, exactly if the
      key is not empty and does not start with white space. */
  lemma QuoteParseRoundTrip(key: string, value: string)
    ensures ParseAssignment(Assignment(key, Quote(value)), key) == Some(value) <==> key != "" && !IsSpace(key[0])
  {
    if key != "" && !IsSpace(key[0]) {
      ParseGood(key, value);
    } else {
      var line := Assignment(key, Quote(value));
      TrimmedStarts(line);
      assert IsSpace((key + " = ")[0]);
      StartsAlike(Trim(line), key + " = ");
    }
  }

  // ---- Model keys --------------------------------------------------------------------------

  function StripAround(s: string, prefix: string, suffix: string): Option<string> {
    if !StartsWith(s, prefix) then None
    else
      var rest := s[|prefix|..];
      if |suffix| > |rest| || rest[|rest| - |suffix|..] != suffix then None
      else Some(rest[..|rest| - |suffix|])
  }

  function ModelKeysIn(ls: seq<string>): seq<string> {
    if ls == [] then []
    else
      var key := StripAround(Trim(ls[0]), "[models.\"", "\"]");
      (if key.Some? then [key.value] else []) + ModelKeysIn(ls[1..])
  }

  function DefaultModelIn(ls: seq<string>): Option<string> {
    if ls == [] then None
    else
      var m := ParseAssignment(ls[0], "default_model");
      if m.Some? then m else DefaultModelIn(ls[1..])
  }

  /** `extract_kimi_default_model_key`. */
  function DefaultModelKey(config: string): Option<string> {
    DefaultModelIn(Lines(config))
  }

  /** `selected_kimi_model_key`. */
  function SelectedModelKey(config: string, requested: Option<string>): Option<string> {
    var keys := ModelKeysIn(Lines(config));
    if keys == [] then None
    else if requested.Some? && requested.value in keys then requested
    else if DefaultModelKey(config).Some? then DefaultModelKey(config)
    else Some(keys[0])
  }

  ghost predicate CharsFrom(s: string, t: string) {
    forall c <- s :: c in t
  }

  lemma TrimChars(s: string)
    ensures CharsFrom(Trim(s), s)
  {
    TrimStartChars(s);
    TrimEndFacts(TrimStart(s));
    assert CharsFrom(Trim(s), TrimStart(s));
  }

  lemma {:induction false} TrimStartChars(s: string)
    ensures CharsFrom(TrimStart(s), s)
    decreases |s|
  {
    if s != "" && IsSpace(s[0]) {
      TrimStartChars(s[1..]);
    }
  }

  lemma {:induction false} ReplacePairChars(s: string, a: char, b: char)
    ensures CharsFrom(ReplacePair(s, a, b, b), s)
    decreases |s|
  {
    if |s| >= 2 {
      ReplacePairChars(s[1..], a, b);
      ReplacePairChars(s[2..], a, b);
    }
  }

  lemma ParsedChars(line: string, key: string)
    requires ParseAssignment(line, key).Some?
    ensures CharsFrom(ParseAssignment(line, key).value, line)
  {
    TrimChars(line);
    var tail := Trim(line)[|key + " = "|..];
    TrimChars(tail);
    var rest := Trim(tail)[1..];
    var inner := rest[..|rest| - 1];
    assert CharsFrom(inner, Trim(tail)) && CharsFrom(tail, Trim(line));
    ReplacePairChars(inner, '\\', '"');
    ReplacePairChars(ReplacePair(inner, '\\', '"', '"'), '\\', '\\');
    assert ParseAssignment(line, key).value == Unescape(inner);
  }

  lemma {:induction false} ModelKeysOneLine(ls: seq<string>)
    requires AllOneLine(ls)
    ensures forall k <- ModelKeysIn(ls) :: OneLine(k)
    decreases |ls|
  {
    if ls != [] {
      assert OneLine(ls[0]);
      TrimChars(ls[0]);
      ModelKeysOneLine(ls[1..]);
      var key := StripAround(Trim(ls[0]), "[models.\"", "\"]");
      assert key.Some? ==> CharsFrom(key.value, Trim(ls[0]));
    }
  }

  lemma {:induction false} DefaultModelOneLine(ls: seq<string>)
    requires AllOneLine(ls) && DefaultModelIn(ls).Some?
    ensures OneLine(DefaultModelIn(ls).value)
    decreases |ls|
  {
    assert OneLine(ls[0]);
    if ParseAssignment(ls[0], "default_model").Some? {
      ParsedChars(ls[0], "default_model");
    } else {
      DefaultModelOneLine(ls[1..]);
    }
  }

  /** The key that `prepare_local_kimi_runtime` patches with never spans lines. */
  lemma SelectedKeyIsOneLine(config: string, requested: Option<string>)
    requires SelectedModelKey(config, requested).Some?
    ensures OneLine(SelectedModelKey(config, requested).value)
  {
    LinesAreLines(config);
    ModelKeysOneLine(Lines(config));
    if DefaultModelKey(config).Some? {
      DefaultModelOneLine(Lines(config));
    }
  }

  // ---- The patch ---------------------------------------------------------------------------

  const MAX_CONTEXT_SIZE := "262144"
  const RESERVED_CONTEXT_SIZE := "80000"
  const COMPACTION_TRIGGER_RATIO := "0.70"
  const TOOL_CALL_TIMEOUT_MS := "600000"

  function BoolText(b: bool): string {
    if b then "true" else "false"
  }

  /** `kimi_thinking_enabled`. */
  predicate ThinkingEnabled(effort: string) {
    var e := Trim(effort);
    !(|e| == 3 && e[0] in "oO" && e[1] in "fF" && e[2] in "fF")
  }

  function ModelHeader(modelKey: string): string {
    "[models." + Quote(modelKey) + "]"
  }

  function PatchSteps(modelKey: string, effort: Option<string>, yolo: bool): seq<Step> {
    [Top("default_model", Quote(modelKey)),
     Top("default_yolo", BoolText(yolo)),
     InTable(ModelHeader(modelKey), "max_context_size", MAX_CONTEXT_SIZE),
     OrCreate("[mcp.client]", "tool_call_timeout_ms", TOOL_CALL_TIMEOUT_MS),
     OrCreate("[loop_control]", "reserved_context_size", RESERVED_CONTEXT_SIZE),
     OrCreate("[loop_control]", "compaction_trigger_ratio", COMPACTION_TRIGGER_RATIO)]
    + if effort.Some? then [Top("default_thinking", BoolText(ThinkingEnabled(effort.value)))] else []
  }

  function Patch(content: string, modelKey: string, effort: Option<string>, yolo: bool): string {
    PatchText(content, PatchSteps(modelKey, effort, yolo))
  }

  /** Texts that each come from the one before by the next step end in the patched text. */
  lemma {:induction false} PatchedStepwise(texts: seq<string>, steps: seq<Step>)
    requires |texts| == |steps| + 1
    requires forall i :: 0 <= i < |steps| ==> texts[i + 1] == ApplyText(texts[i], steps[i])
    ensures PatchText(texts[0], steps) == texts[|steps|]
    decreases |steps|
  {
    if steps != [] {
      PatchedStepwise(texts[1..], steps[1..]);
    }
  }

  /** A step of the chain, by the upsert it stands for. */
  method ApplyStep(t: string, s: Step) returns (r: string)
    ensures r == ApplyText(t, s)
  {
    match s
    case Top(key, value) => r := UpsertAssignment(t, key, value);
    case InTable(header, key, value) => r := UpsertAssignmentInTable(t, header, key, value);
    case OrCreate(header, key, value) => r := UpsertAssignmentInTableOrCreate(t, header, key, value);
  }

  /** `patch_existing_kimi_config`: the upserts one after the other, each on the last one's text. */
  method PatchExistingConfig(content: string, modelKey: string, effort: Option<string>, yolo: bool) returns (patched: string)
    ensures patched == Patch(content, modelKey, effort, yolo)
  {
    var steps := PatchSteps(modelKey, effort, yolo);
    var p1 := ApplyStep(content, steps[0]);
    var p2 := ApplyStep(p1, steps[1]);
    var p3 := ApplyStep(p2, steps[2]);
    var p4 := ApplyStep(p3, steps[3]);
    var p5 := ApplyStep(p4, steps[4]);
    patched := ApplyStep(p5, steps[5]);
    ghost var texts := [content, p1, p2, p3, p4, p5, patched];
    if effort.Some? {
      patched := ApplyStep(patched, steps[6]);
      texts := texts + [patched];
    }
    PatchedStepwise(texts, steps);
  }

  // ---- The chain is a good one -------------------------------------------------------------

  lemma {:induction false} EscapesOneLine(s: string)
    requires OneLine(s)
    ensures OneLine(EscapeBackslashes(s)) && OneLine(EscapeQuotes(s))
    decreases |s|
  {
    if s != "" {
      assert s[0] in s;
      EscapesOneLine(s[1..]);
    }
  }

  lemma QuoteGood(modelKey: string)
    requires OneLine(modelKey)
    ensures GoodValue(Quote(modelKey)) && GoodHeader(ModelHeader(modelKey))
  {
    EscapesOneLine(modelKey);
    EscapesOneLine(EscapeBackslashes(modelKey));
  }

  lemma TopKeysGood()
    ensures GoodKey("default_model") && GoodKey("default_yolo") && GoodKey("default_thinking")
  {
  }

  lemma TableKeysGood()
    ensures GoodKey("max_context_size") && GoodKey("tool_call_timeout_ms")
  {
  }

  lemma LoopKeysGood()
    ensures GoodKey("reserved_context_size") && GoodKey("compaction_trigger_ratio")
  {
  }

  lemma ValuesGood(b: bool)
    ensures GoodValue(BoolText(b)) && GoodValue(MAX_CONTEXT_SIZE) && GoodValue(RESERVED_CONTEXT_SIZE)
    ensures GoodValue(COMPACTION_TRIGGER_RATIO) && GoodValue(TOOL_CALL_TIMEOUT_MS)
    ensures GoodHeader("[mcp.client]") && GoodHeader("[loop_control]")
  {
  }

  lemma StepsAreGood(modelKey: string, effort: Option<string>, yolo: bool)
    requires OneLine(modelKey)
    ensures forall s <- PatchSteps(modelKey, effort, yolo) :: GoodStep(s)
  {
    QuoteGood(modelKey);
    TopKeysGood();
    TableKeysGood();
    LoopKeysGood();
    ValuesGood(yolo);
    if effort.Some? {
      ValuesGood(ThinkingEnabled(effort.value));
    }
  }

  /** The keys differ in length, but for two that differ in their first letter. */
  lemma StepsAreIndependent(modelKey: string, effort: Option<string>, yolo: bool)
    ensures var steps := PatchSteps(modelKey, effort, yolo);
            forall i, j :: 0 <= i < |steps| && 0 <= j < |steps| && i != j ==> Independent(steps[i], steps[j])
  {
    var steps := PatchSteps(modelKey, effort, yolo);
    var header := ModelHeader(modelKey);
    assert header[1] == 'm' && header[2] == 'o';
    assert "[mcp.client]"[2] == 'c' && "[loop_control]"[1] == 'l';
    assert "max_context_size"[0] == 'm' && "default_thinking"[0] == 'd';
    assert |steps[0].key| == 13 && |steps[1].key| == 12 && |steps[2].key| == 16;
    assert |steps[3].key| == 20 && |steps[4].key| == 21 && |steps[5].key| == 24;
  }

  lemma GoodPatch(modelKey: string, effort: Option<string>, yolo: bool)
    requires OneLine(modelKey)
    ensures GoodSteps(PatchSteps(modelKey, effort, yolo))
  {
    StepsAreGood(modelKey, effort, yolo);
    StepsAreIndependent(modelKey, effort, yolo);
  }

  // ---- What the patch guarantees -----------------------------------------------------------

  /** A parsable assignment is one the upsert would have found. */
  lemma ParsedIsKey(line: string, key: string)
    ensures ParseAssignment(line, key).Some? ==> IsKey(line, key)
  {
    var x, y := TrimStart(line), Trim(line);
    TrimmedStarts(line);
    if StartsWith(y, key + " = ") {
      var n := |key| + 2;
      assert x[..|y|] == y;
      assert x[..n] == y[..n];
      assert y[..n] == y[..n + 1][..n];
      assert (key + " = ")[..n] == key + " =";
    }
  }

  lemma {:induction false} DefaultModelIsFirst(ls: seq<string>, a: string)
    requires TopLookup(ls, "default_model") == Some(a) && ParseAssignment(a, "default_model").Some?
    ensures DefaultModelIn(ls) == ParseAssignment(a, "default_model")
    decreases |ls|
  {
    ParsedIsKey(ls[0], "default_model");
    if !IsKey(ls[0], "default_model") {
      DefaultModelIsFirst(ls[1..], a);
    }
  }

  /** All settings read back from the patched text, and the default model by its own reader. */
  lemma SettingsReadBack(content: string, modelKey: string, effort: Option<string>, yolo: bool)
    requires OneLine(modelKey)
    ensures var text := Patch(content, modelKey, effort, yolo);
            && AllSet(text, PatchSteps(modelKey, effort, yolo))
            && DefaultModelKey(text) == Some(modelKey)
  {
    var steps := PatchSteps(modelKey, effort, yolo);
    var text := Patch(content, modelKey, effort, yolo);
    GoodPatch(modelKey, effort, yolo);
    PatchSets(content, steps);
    assert steps[0] in steps;
    QuoteParseRoundTrip("default_model", modelKey);
    DefaultModelIsFirst(Lines(text), LineOf(steps[0]));
  }

  /** The same, setting by setting. */
  lemma SettingsInPlace(content: string, modelKey: string, effort: Option<string>, yolo: bool)
    requires OneLine(modelKey)
    ensures var ls := Lines(Patch(content, modelKey, effort, yolo));
            && TopLookup(ls, "default_yolo") == Some(Assignment("default_yolo", BoolText(yolo)))
            && TableLookup(ls, "[mcp.client]", "tool_call_timeout_ms") == Some(Assignment("tool_call_timeout_ms", "600000"))
            && TableLookup(ls, "[loop_control]", "reserved_context_size") == Some(Assignment("reserved_context_size", "80000"))
            && TableLookup(ls, "[loop_control]", "compaction_trigger_ratio") == Some(Assignment("compaction_trigger_ratio", "0.70"))
            && (effort.Some? ==>
                  TopLookup(ls, "default_thinking") == Some(Assignment("default_thinking", BoolText(ThinkingEnabled(effort.value)))))
            && (if HasHeader(ls, ModelHeader(modelKey)) then TableLookup(ls, ModelHeader(modelKey), "max_context_size")
                else TopLookup(ls, "max_context_size")) == Some(Assignment("max_context_size", "262144"))
  {
    var steps := PatchSteps(modelKey, effort, yolo);
    SettingsReadBack(content, modelKey, effort, yolo);
    forall i | 0 <= i < |steps| ensures Set(Lines(Patch(content, modelKey, effort, yolo)), steps[i]) {
      assert steps[i] in steps;
    }
    var ls := Lines(Patch(content, modelKey, effort, yolo));
    assert Set(ls, steps[1]) && Set(ls, steps[2]) && Set(ls, steps[3]) && Set(ls, steps[4]) && Set(ls, steps[5]);
    assert effort.Some? ==> Set(ls, steps[6]);
  }

  /** How many of the upserts rewrite the lines: all but the creation of a missing table. */
  function Rewrites(ls: seq<string>, effort: Option<string>): nat {
    4 + (if effort.Some? then 1 else 0)
    + (if HasHeader(ls, "[mcp.client]") then 1 else 0) + (if HasHeader(ls, "[loop_control]") then 1 else 0)
  }

  lemma OtherHeaders(ls: seq<string>)
    ensures HasHeader(ls + ["[mcp.client]"], "[loop_control]") <==> HasHeader(ls, "[loop_control]")
    ensures HasHeader(ls + ["[loop_control]"], "[loop_control]")
  {
    HeaderLine("[mcp.client]");
    HeaderLine("[loop_control]");
    HeaderAppended(ls, "[mcp.client]", "[loop_control]");
    HeaderAppended(ls, "[loop_control]", "[loop_control]");
    assert "[mcp.client]"[1] == 'm' && "[loop_control]"[1] == 'l';
  }

  /** The two upserts into the loop-control table and what follows them. */
  lemma LoopEdits(ls: seq<string>, a: Step, b: Step, end: seq<Step>)
    requires a.OrCreate? && b.OrCreate? && a.header == "[loop_control]" && b.header == "[loop_control]"
    requires forall s <- end :: s.Top?
    ensures Edits(ls, [a] + ([b] + end)) == |end| + if HasHeader(ls, "[loop_control]") then 2 else 1
  {
    OtherHeaders(ls);
    ConsSteps(ls, a, [b] + end);
    ConsSteps(ls, b, end);
    ConsSteps(ls + ["[loop_control]"], b, end);
    TopEdits(ls, end);
    TopEdits(ls + ["[loop_control]"], end);
  }

  lemma {:induction false} TopEdits(ls: seq<string>, steps: seq<Step>)
    requires forall s <- steps :: s.Top?
    ensures Edits(ls, steps) == |steps|
    decreases |steps|
  {
    if steps != [] {
      assert steps[0].Top?;
      TopEdits(ls, steps[1..]);
    }
  }

  lemma PatchEdits(ls: seq<string>, modelKey: string, effort: Option<string>, yolo: bool)
    ensures Edits(ls, PatchSteps(modelKey, effort, yolo)) == Rewrites(ls, effort)
  {
    var steps := PatchSteps(modelKey, effort, yolo);
    var loop := [steps[4]] + ([steps[5]] + steps[6..]);
    assert steps == [steps[0]] + ([steps[1]] + ([steps[2]] + ([steps[3]] + loop)));
    LoopEdits(ls, steps[4], steps[5], steps[6..]);
    LoopEdits(ls + ["[mcp.client]"], steps[4], steps[5], steps[6..]);
    OtherHeaders(ls);
    ConsSteps(ls, steps[3], loop);
    ConsSteps(ls, steps[2], [steps[3]] + loop);
    ConsSteps(ls, steps[1], [steps[2]] + ([steps[3]] + loop));
    ConsSteps(ls, steps[0], [steps[1]] + ([steps[2]] + ([steps[3]] + loop)));
  }

  /** Patching the patched text again changes nothing if and only if every terminated line of the
      input that no upsert replaces ends with fewer carriage returns than there are rewrites,
      and an unterminated last line with no more than rewrites follow the upsert that
      terminates it. */
  lemma PatchIdempotentIff(content: string, modelKey: string, effort: Option<string>, yolo: bool)
    requires OneLine(modelKey)
    ensures var once := Patch(content, modelKey, effort, yolo);
            var ls, steps := Lines(content), PatchSteps(modelKey, effort, yolo);
            Patch(once, modelKey, effort, yolo) == once <==>
              && (forall i :: 0 <= i < Ended(ls, EndsNl(content)) && Kept(ls, steps, i) ==> TrailCr(ls[i]) < Rewrites(ls, effort))
              && (!EndsNl(content) && ls != [] ==> LastFits(ls, steps))
  {
    GoodPatch(modelKey, effort, yolo);
    PatchEdits(Lines(content), modelKey, effort, yolo);
    SecondPassExactly(content, PatchSteps(modelKey, effort, yolo));
  }

  /** In particular for the key that the adapter selects from the same configuration, if its lines
      end with `\n` or a single `\r\n`. */
  lemma SelectedPatchIdempotent(config: string, requested: Option<string>, effort: Option<string>, yolo: bool)
    requires SelectedModelKey(config, requested).Some? && forall l <- Lines(config) :: TrailCr(l) == 0
    ensures var key := SelectedModelKey(config, requested).value;
            var once := Patch(config, key, effort, yolo);
            Patch(once, key, effort, yolo) == once && DefaultModelKey(once) == Some(key)
  {
    SelectedKeyIsOneLine(config, requested);
    var key := SelectedModelKey(config, requested).value;
    PatchIdempotentIff(config, key, effort, yolo);
    SettingsReadBack(config, key, effort, yolo);
  }

  lemma {:induction false} CrsTrail(n: nat)
    ensures TrailCr(Crs(n)) == n && TrimStart(Crs(n)) == ""
    decreases n
  {
    if n > 0 {
      CrsTrail(n - 1);
      assert Crs(n)[..n - 1] == Crs(n - 1) && Crs(n)[1..] == Crs(n - 1);
    }
  }

  function Crs(n: nat): string {
    seq(n, _ => '\r')
  }

  /** Not so for every text: of eight carriage returns before a line feed some outlast the rewrites
      of the first patch, and the second one drops more of them. */
  lemma PatchNotAlwaysIdempotent(effort: Option<string>, yolo: bool)
    ensures var once := Patch(Crs(8) + "\n", "m", effort, yolo); Patch(once, "m", effort, yolo) != once
  {
    var content := Crs(8) + "\n";
    var ls := Lines(content);
    LinesCons(Crs(8), "");
    assert Crs(8) + "\n" + "" == content && StripCr(Crs(8)) == Crs(7);
    assert ls == [Crs(7)];
    CrsTrail(7);
    assert EndsNl(content);
    forall s | s in PatchSteps("m", effort, yolo) ensures !Replaces(ls, s, 0) {
    }
    PatchIdempotentIff(content, "m", effort, yolo);
  }
}
