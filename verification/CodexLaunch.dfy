/** The launch configuration of the Codex adapter: command-line arguments folded left to right
    into sandbox, approval, model and a nested configuration object. */
module CodexLaunch {
  import opened Common

  datatype Json = Null | Bool(b: bool) | Number(text: string) | Str(s: string) | Arr(items: seq<Json>) | Obj(fields: map<string, Json>)

  type Fields = map<string, Json>

  // ---- Nested writes -----------------------------------------------------------------------

  function Get(j: Json, path: seq<string>): Option<Json>
    decreases |path|
  {
    if path == [] then Some(j)
    else if j.Obj? && path[0] in j.fields then Get(j.fields[path[0]], path[1..])
    else None
  }

  /** `set_nested_json_value` on the parts of the dotted key. `None` stands for the panic of its
      `expect` on a value that is not an object. */
  function SetNested(root: Fields, path: seq<string>, value: Json): Option<Fields>
    requires path != []
    decreases |path|
  {
    if |path| == 1 then Some(root[path[0] := value])
    else if path[0] in root && !root[path[0]].Obj? then None
    else
      var below := if path[0] in root then root[path[0]].fields else map[];
      var inner := SetNested(below, path[1..], value);
      if inner.None? then None else Some(root[path[0] := Obj(inner.value)])
  }

  ghost predicate IsPrefix(p: seq<string>, q: seq<string>) {
    |p| <= |q| && q[..|p|] == p
  }

  ghost predicate Comparable(p: seq<string>, q: seq<string>) {
    IsPrefix(p, q) || IsPrefix(q, p)
  }

  predicate ObjectOrAbsent(j: Option<Json>) {
    j.None? || j.value.Obj?
  }

  /** No value other than an object lies on the way to the last part. */
  ghost predicate PathOpen(root: Fields, path: seq<string>) {
    forall n :: 0 < n < |path| ==> ObjectOrAbsent(Get(Obj(root), path[..n]))
  }

  lemma GetStep(root: Fields, path: seq<string>, n: nat)
    requires 0 < n <= |path|
    ensures Get(Obj(root), path[..n]) == if path[0] in root then Get(root[path[0]], path[1..][..n - 1]) else None
  {
    assert path[..n][1..] == path[1..][..n - 1];
  }

  /** The write succeeds exactly if the path is open, and panics otherwise. */
  lemma {:induction false} SetNestedSucceedsIff(root: Fields, path: seq<string>, value: Json)
    requires path != []
    ensures SetNested(root, path, value).Some? <==> PathOpen(root, path)
    decreases |path|
  {
    if |path| > 1 {
      var rest := path[1..];
      GetStep(root, path, 1);
      if path[0] in root && !root[path[0]].Obj? {
        assert !ObjectOrAbsent(Get(Obj(root), path[..1]));
      } else {
        var below := if path[0] in root then root[path[0]].fields else map[];
        SetNestedSucceedsIff(below, rest, value);
        if PathOpen(root, path) {
          forall n | 0 < n < |rest| ensures ObjectOrAbsent(Get(Obj(below), rest[..n])) {
            GetStep(root, path, n + 1);
            if path[0] !in root {
              GetStep(below, rest, n);
            }
          }
        }
        if PathOpen(below, rest) {
          forall n | 0 < n < |path| ensures ObjectOrAbsent(Get(Obj(root), path[..n])) {
            GetStep(root, path, n);
          }
        }
      }
    }
  }

  /** What any path reads after the write: through the new value at or below the written path,
      an object above it, and what was there before everywhere else. */
  lemma {:induction false} SetNestedReads(root: Fields, path: seq<string>, value: Json, q: seq<string>)
    requires path != [] && SetNested(root, path, value).Some?
    ensures var after := Obj(SetNested(root, path, value).value);
            && (IsPrefix(path, q) ==> Get(after, q) == Get(value, q[|path|..]))
            && (!IsPrefix(path, q) && IsPrefix(q, path) ==> Get(after, q).Some? && Get(after, q).value.Obj?)
            && (!Comparable(path, q) ==> Get(after, q) == Get(Obj(root), q))
    decreases |path|
  {
    if q != [] {
      if q[0] == path[0] && |path| > 1 {
        var below := if path[0] in root then root[path[0]].fields else map[];
        SetNestedReads(below, path[1..], value, q[1..]);
        PrefixTail(path, q);
        PrefixTail(q, path);
      } else if q[0] != path[0] {
        assert !Comparable(path, q) by {
          assert q[..|q|] == q;
        }
      }
    }
  }

  lemma PrefixTail(p: seq<string>, q: seq<string>)
    requires p != [] && q != [] && p[0] == q[0]
    ensures IsPrefix(p, q) <==> IsPrefix(p[1..], q[1..])
    ensures IsPrefix(p, q) ==> q[1..][|p| - 1..] == q[|p|..]
  {
    if IsPrefix(p[1..], q[1..]) {
      assert q[..|p|] == [q[0]] + q[1..][..|p| - 1];
      assert p == [p[0]] + p[1..];
    }
    if IsPrefix(p, q) {
      assert q[1..][..|p| - 1] == q[..|p|][1..];
    }
  }

  /** In particular the written value reads back. */
  lemma SetNestedReadBack(root: Fields, path: seq<string>, value: Json)
    requires path != [] && SetNested(root, path, value).Some?
    ensures Get(Obj(SetNested(root, path, value).value), path) == Some(value)
  {
    assert path[..|path|] == path;
    SetNestedReads(root, path, value, path);
  }

  // ---- A series of writes ------------------------------------------------------------------

  datatype Write = Write(path: seq<string>, value: Json)

  ghost predicate Paths(writes: seq<Write>) {
    forall w <- writes :: w.path != []
  }

  function WriteAll(root: Fields, writes: seq<Write>): Option<Fields>
    requires forall w <- writes :: w.path != []
    decreases |writes|
  {
    if writes == [] then Some(root)
    else
      var next := SetNested(root, writes[0].path, writes[0].value);
      if next.None? then None else WriteAll(next.value, writes[1..])
  }

  /** A path that no write is comparable with keeps its value. */
  lemma {:induction false} UnrelatedKept(root: Fields, writes: seq<Write>, q: seq<string>)
    requires Paths(writes) && WriteAll(root, writes).Some?
    requires forall w <- writes :: !Comparable(w.path, q)
    ensures Get(Obj(WriteAll(root, writes).value), q) == Get(Obj(root), q)
    decreases |writes|
  {
    if writes != [] {
      SetNestedReads(root, writes[0].path, writes[0].value, q);
      UnrelatedKept(SetNested(root, writes[0].path, writes[0].value).value, writes[1..], q);
    }
  }

  /** After the whole series a write reads back if no later one is comparable with it. */
  lemma {:induction false} LastWriteReadsBack(root: Fields, writes: seq<Write>, i: nat)
    requires Paths(writes) && i < |writes| && WriteAll(root, writes).Some?
    requires forall k :: i < k < |writes| ==> !Comparable(writes[k].path, writes[i].path)
    ensures Get(Obj(WriteAll(root, writes).value), writes[i].path) == Some(writes[i].value)
    decreases |writes|
  {
    var next := SetNested(root, writes[0].path, writes[0].value).value;
    if i == 0 {
      SetNestedReadBack(root, writes[0].path, writes[0].value);
      UnrelatedKept(next, writes[1..], writes[0].path);
    } else {
      LastWriteReadsBack(next, writes[1..], i - 1);
    }
  }

  /** A write below a value that is not an object panics, however the value got there. */
  lemma WriteBelowScalarPanics(root: Fields, path: seq<string>, more: seq<string>, v: Json, w: Json)
    requires path != [] && more != [] && !v.Obj? && SetNested(root, path, v).Some?
    ensures SetNested(SetNested(root, path, v).value, path + more, w) == None
  {
    var next := SetNested(root, path, v).value;
    SetNestedReadBack(root, path, v);
    SetNestedSucceedsIff(next, path + more, w);
    assert (path + more)[..|path|] == path;
    assert !ObjectOrAbsent(Get(Obj(next), (path + more)[..|path|]));
  }

  /** Every value other than an object was put there by one of the writes. */
  ghost predicate Covered(root: Fields, writes: seq<Write>) {
    forall q :: !ObjectOrAbsent(Get(Obj(root), q)) ==> exists w <- writes :: IsPrefix(w.path, q)
  }

  ghost predicate NoneAbove(writes: seq<Write>) {
    forall a <- writes, b <- writes :: IsPrefix(a.path, b.path) ==> a.path == b.path
  }

  lemma PrefixOfPrefix(a: seq<string>, path: seq<string>, n: nat)
    requires n <= |path| && IsPrefix(a, path[..n])
    ensures IsPrefix(a, path) && |a| <= n
  {
    assert path[..n][..|a|] == path[..|a|];
  }

  lemma CoveredStep(root: Fields, before: seq<Write>, w: Write)
    requires w.path != [] && Covered(root, before) && SetNested(root, w.path, w.value).Some?
    ensures Covered(SetNested(root, w.path, w.value).value, before + [w])
  {
    var after := SetNested(root, w.path, w.value).value;
    forall q | !ObjectOrAbsent(Get(Obj(after), q)) ensures exists x <- before + [w] :: IsPrefix(x.path, q) {
      SetNestedReads(root, w.path, w.value, q);
      if IsPrefix(w.path, q) {
        assert w in before + [w];
      } else {
        var x :| x in before && IsPrefix(x.path, q);
        assert x in before + [w];
      }
    }
  }

  lemma {:induction false} WritesSucceed(root: Fields, before: seq<Write>, writes: seq<Write>)
    requires Paths(writes) && Covered(root, before) && NoneAbove(before + writes)
    ensures WriteAll(root, writes).Some?
    decreases |writes|
  {
    if writes != [] {
      var w := writes[0];
      var all := before + writes;
      forall n | 0 < n < |w.path| ensures ObjectOrAbsent(Get(Obj(root), w.path[..n])) {
        forall x <- before ensures !IsPrefix(x.path, w.path[..n]) {
          assert x in all && w in all;
          if IsPrefix(x.path, w.path[..n]) {
            PrefixOfPrefix(x.path, w.path, n);
            assert false;
          }
        }
      }
      SetNestedSucceedsIff(root, w.path, w.value);
      CoveredStep(root, before, w);
      assert before + [w] + writes[1..] == before + writes;
      WritesSucceed(SetNested(root, w.path, w.value).value, before + [w], writes[1..]);
    }
  }

  /** Overrides none of whose paths lies strictly below another never panic. */
  lemma DisjointWritesNeverPanic(writes: seq<Write>)
    requires Paths(writes) && NoneAbove(writes)
    ensures WriteAll(map[], writes).Some?
  {
    var nothing: Fields := map[];
    forall q ensures ObjectOrAbsent(Get(Obj(nothing), q)) {
    }
    assert [] + writes == writes;
    WritesSucceed(nothing, [], writes);
  }

  // ---- Arguments ---------------------------------------------------------------------------

  datatype Profile = Observe | Dependency | Workspace | Reviewer | Operator | Unsafe

  function DefaultSandbox(p: Profile): string {
    match p
    case Observe => "read-only"
    case Dependency => "read-only"
    case Workspace => "workspace-write"
    case Reviewer => "workspace-write"
    case Operator => "workspace-write"
    case Unsafe => "danger-full-access"
  }

  /** The `type` of the turn's sandbox policy. */
  function PolicyForMode(mode: string): string {
    if mode == "danger-full-access" then "dangerFullAccess"
    else if mode == "workspace-write" then "workspaceWrite"
    else if mode == "read-only" then "readOnly"
    else mode
  }

  /** One effective flag of the command line. */
  datatype Flag = Bypass | Approval(v: string) | Sandbox(v: string) | Model(v: string) | Override(v: string)

  const BYPASS := "--dangerously-bypass-approvals-and-sandbox"

  predicate TakesValue(arg: string) {
    || arg == "--ask-for-approval" || arg == "-a" || arg == "--sandbox" || arg == "-s"
    || arg == "--model" || arg == "-m" || arg == "-c" || arg == "--config"
  }

  function FlagOf(arg: string, value: string): Flag
    requires TakesValue(arg)
  {
    if arg == "--ask-for-approval" || arg == "-a" then Approval(value)
    else if arg == "--sandbox" || arg == "-s" then Sandbox(value)
    else if arg == "--model" || arg == "-m" then Model(value)
    else Override(value)
  }

  /** The grammar of the command line: a flag takes the next argument whatever it is, a flag at
      the end without its value is ignored, and so is everything unknown. */
  function Flags(args: seq<string>): seq<Flag>
    decreases |args|
  {
    if args == [] then []
    else if args[0] == BYPASS then [Bypass] + Flags(args[1..])
    else if !TakesValue(args[0]) || |args| == 1 then Flags(args[1..])
    else [FlagOf(args[0], args[1])] + Flags(args[2..])
  }

  lemma FlagsAt(args: seq<string>, i: nat)
    requires i < |args|
    ensures Flags(args[i..]) ==
            if args[i] == BYPASS then [Bypass] + Flags(args[i + 1..])
            else if TakesValue(args[i]) && i + 1 < |args| then [FlagOf(args[i], args[i + 1])] + Flags(args[i + 2..])
            else Flags(args[i + 1..])
  {
    assert args[i..][1..] == args[i + 1..];
    if i + 1 < |args| {
      assert args[i..][2..] == args[i + 2..];
    }
  }

  datatype Config = Config(
    model: Option<string>, approval: string, threadSandbox: string, turnPolicy: string, extra: Fields)

  function FromProfile(p: Profile): Config {
    Config(None, "never", DefaultSandbox(p), PolicyForMode(DefaultSandbox(p)), map[])
  }

  /** `split_once('=')`. */
  function KeyOf(s: string): Option<string> {
    if s == "" then None
    else if s[0] == '=' then Some("")
    else var k := KeyOf(s[1..]); if k.None? then None else Some([s[0]] + k.value)
  }

  function RawOf(s: string): string {
    if s == "" then "" else if s[0] == '=' then s[1..] else RawOf(s[1..])
  }

  lemma {:induction false} SplitOnce(s: string)
    ensures KeyOf(s).None? <==> '=' !in s
    ensures KeyOf(s).Some? ==> s == KeyOf(s).value + "=" + RawOf(s) && '=' !in KeyOf(s).value
  {
    if s != "" && s[0] != '=' {
      SplitOnce(s[1..]);
    }
  }

  lemma {:induction false} AssignmentSplits(key: string, raw: string)
    requires '=' !in key
    ensures KeyOf(key + "=" + raw) == Some(key) && RawOf(key + "=" + raw) == raw
    decreases |key|
  {
    if key == "" {
      assert ("=" + raw)[1..] == raw;
    } else {
      assert (key + "=" + raw)[1..] == key[1..] + "=" + raw;
      AssignmentSplits(key[1..], raw);
      assert key == [key[0]] + key[1..];
    }
  }

  /** `split('.')`. */
  function SplitDots(s: string): (r: seq<string>)
    ensures r != []
  {
    if s == "" then [""]
    else
      var rest := SplitDots(s[1..]);
      if s[0] == '.' then [""] + rest else [[s[0]] + rest[0]] + rest[1..]
  }

  function JoinDots(parts: seq<string>): string
    requires parts != []
  {
    if |parts| == 1 then parts[0] else parts[0] + "." + JoinDots(parts[1..])
  }

  /** The parts are the dot-free pieces between the dots. */
  lemma {:induction false} SplitDotsJoins(s: string)
    ensures JoinDots(SplitDots(s)) == s
    ensures forall part <- SplitDots(s) :: '.' !in part
  {
    if s != "" {
      SplitDotsJoins(s[1..]);
      var rest := SplitDots(s[1..]);
      var all := SplitDots(s);
      if s[0] == '.' {
        assert all[1..] == rest;
      } else {
        assert all[1..] == rest[1..];
        if |rest| > 1 {
          assert JoinDots(all) == ([s[0]] + rest[0]) + "." + JoinDots(rest[1..]);
        }
      }
      assert s == [s[0]] + s[1..];
    }
  }

  lemma {:induction false} SplitCons(part: string, rest: string)
    requires '.' !in part
    ensures SplitDots(part) == [part]
    ensures SplitDots(part + "." + rest) == [part] + SplitDots(rest)
    decreases |part|
  {
    if part == "" {
      assert ("." + rest)[1..] == rest;
    } else {
      var tail := part[1..];
      SplitCons(tail, rest);
      assert (part + "." + rest)[1..] == tail + "." + rest;
      assert part == [part[0]] + tail;
      assert SplitDots(part)[1..] == [];
    }
  }

  /** Dot-free parts are recovered from their dotted key. */
  lemma {:induction false} JoinedDotsSplit(parts: seq<string>)
    requires parts != [] && forall part <- parts :: '.' !in part
    ensures SplitDots(JoinDots(parts)) == parts
    decreases |parts|
  {
    SplitCons(parts[0], if |parts| == 1 then "" else JoinDots(parts[1..]));
    if |parts| > 1 {
      JoinedDotsSplit(parts[1..]);
    }
  }

  predicate Allowed(key: string) {
    && '"' !in key && !StartsWith(key, "projects.")
    && (|| key == "sandbox_permissions" || key == "model_instructions_file" || key == "service_tier"
        || key == "reasoning_effort" || key == "model_reasoning_effort"
        || StartsWith(key, "shell_environment_policy."))
  }

  function TrimQuotes(raw: string): string {
    if |raw| >= 2 && ((raw[0] == '"' && raw[|raw| - 1] == '"') || (raw[0] == '\'' && raw[|raw| - 1] == '\''))
    then raw[1..|raw| - 1]
    else raw
  }

  /** `parse_config_value`, given what the JSON library makes of the text. */
  function ParseValue(json: string -> Option<Json>, raw: string): Json {
    if json(raw).Some? then json(raw).value
    else if raw == "true" then Bool(true)
    else if raw == "false" then Bool(false)
    else Str(TrimQuotes(raw))
  }

  /** The model an override names, if its key is `model`. */
  function ModelOf(json: string -> Option<Json>, v: string): Option<string> {
    if KeyOf(v) != Some("model") then None
    else
      var value := ParseValue(json, RawOf(v));
      Some(if value.Str? then value.s else RawOf(v))
  }

  /** The nested write an override makes, if its key is allowed. */
  function WriteOf(json: string -> Option<Json>, v: string): Option<Write> {
    if KeyOf(v).None? || KeyOf(v) == Some("model") || !Allowed(KeyOf(v).value) then None
    else Some(Write(SplitDots(KeyOf(v).value), ParseValue(json, RawOf(v))))
  }

  /** `apply_config_override`; `None` is the panic. */
  function ApplyOverride(json: string -> Option<Json>, c: Config, v: string): Option<Config> {
    var m := ModelOf(json, v);
    var w := WriteOf(json, v);
    if m.Some? then Some(c.(model := m))
    else if w.None? then Some(c)
    else
      var extra := SetNested(c.extra, w.value.path, w.value.value);
      if extra.None? then None else Some(c.(extra := extra.value))
  }

  // ---- What the fold must amount to --------------------------------------------------------

  datatype Setting = SandboxMode | ApprovalPolicy | ModelName

  predicate Sets(json: string -> Option<Json>, which: Setting, f: Flag) {
    match which
    case SandboxMode => f.Bypass? || f.Sandbox?
    case ApprovalPolicy => f.Bypass? || f.Approval?
    case ModelName => f.Model? || (f.Override? && ModelOf(json, f.v).Some?)
  }

  function ValueOf(json: string -> Option<Json>, which: Setting, f: Flag): string
    requires Sets(json, which, f)
  {
    if f.Override? then ModelOf(json, f.v).value
    else if !f.Bypass? then f.v
    else if which.SandboxMode? then "danger-full-access"
    else "never"
  }

  function Current(c: Config, which: Setting): Option<string> {
    match which
    case SandboxMode => Some(c.threadSandbox)
    case ApprovalPolicy => Some(c.approval)
    case ModelName => c.model
  }

  ghost predicate IsLast(json: string -> Option<Json>, flags: seq<Flag>, which: Setting, i: nat) {
    i < |flags| && Sets(json, which, flags[i]) && forall k :: i < k < |flags| ==> !Sets(json, which, flags[k])
  }

  ghost predicate NoneSets(json: string -> Option<Json>, flags: seq<Flag>, which: Setting) {
    forall f <- flags :: !Sets(json, which, f)
  }

  function Writes(json: string -> Option<Json>, flags: seq<Flag>): (r: seq<Write>)
    ensures forall w <- r :: w.path != []
  {
    if flags == [] then []
    else
      var rest := Writes(json, flags[1..]);
      if flags[0].Override? && WriteOf(json, flags[0].v).Some? then [WriteOf(json, flags[0].v).value] + rest
      else rest
  }

  ghost predicate SettingRight(json: string -> Option<Json>, profile: Profile, flags: seq<Flag>, c: Config, which: Setting) {
    && (NoneSets(json, flags, which) ==> Current(c, which) == Current(FromProfile(profile), which))
    && (forall i: nat :: IsLast(json, flags, which, i) ==> Current(c, which) == Some(ValueOf(json, which, flags[i])))
  }

  /** The configuration a command line stands for: each setting is that of the last flag that
      sets it, or the profile's; the turn's sandbox policy is the thread's sandbox; and the rest
      is the allowed overrides written one after the other. */
  ghost predicate Describes(json: string -> Option<Json>, profile: Profile, flags: seq<Flag>, c: Config) {
    && c.turnPolicy == PolicyForMode(c.threadSandbox)
    && (forall which :: SettingRight(json, profile, flags, c, which))
    && WriteAll(map[], Writes(json, flags)) == Some(c.extra)
  }

  /** One flag applied in place, as the loop does; `None` is the panic. */
  function ApplyFlag(json: string -> Option<Json>, c: Config, f: Flag): Option<Config> {
    match f
    case Bypass =>
      Some(c.(approval := "never", threadSandbox := "danger-full-access", turnPolicy := "dangerFullAccess"))
    case Approval(v) => Some(c.(approval := v))
    case Sandbox(v) => Some(c.(threadSandbox := v, turnPolicy := PolicyForMode(v)))
    case Model(v) => Some(c.(model := Some(v)))
    case Override(v) => ApplyOverride(json, c, v)
  }

  lemma SettingStep(json: string -> Option<Json>, profile: Profile, flags: seq<Flag>, c: Config, f: Flag, which: Setting)
    requires SettingRight(json, profile, flags, c, which) && ApplyFlag(json, c, f).Some?
    ensures SettingRight(json, profile, flags + [f], ApplyFlag(json, c, f).value, which)
  {
    var longer := flags + [f];
    var e := ApplyFlag(json, c, f).value;
    assert longer[|flags|] == f;
    if Sets(json, which, f) {
      assert Current(e, which) == Some(ValueOf(json, which, f));
    } else {
      assert Current(e, which) == Current(c, which);
      assert NoneSets(json, longer, which) ==> NoneSets(json, flags, which) by {
        assert forall x <- flags :: x in longer;
      }
      forall i: nat | IsLast(json, longer, which, i) ensures Current(e, which) == Some(ValueOf(json, which, longer[i])) {
        assert forall k :: i < k < |flags| ==> flags[k] == longer[k];
        assert IsLast(json, flags, which, i);
      }
    }
  }

  lemma {:induction false} WritesAppend(json: string -> Option<Json>, a: seq<Flag>, b: seq<Flag>)
    ensures Writes(json, a + b) == Writes(json, a) + Writes(json, b)
    decreases |a|
  {
    if a == [] {
      assert a + b == b;
    } else {
      assert (a + b)[1..] == a[1..] + b;
      WritesAppend(json, a[1..], b);
    }
  }

  lemma {:induction false} WriteAllAppend(root: Fields, a: seq<Write>, b: seq<Write>)
    requires Paths(a) && Paths(b)
    ensures WriteAll(root, a + b) ==
            if WriteAll(root, a).None? then None else WriteAll(WriteAll(root, a).value, b)
    decreases |a|
  {
    if a == [] {
      assert a + b == b;
    } else {
      assert (a + b)[1..] == a[1..] + b;
      var next := SetNested(root, a[0].path, a[0].value);
      if next.Some? {
        WriteAllAppend(next.value, a[1..], b);
      }
    }
  }

  lemma WritesStep(json: string -> Option<Json>, flags: seq<Flag>, c: Config, f: Flag)
    requires WriteAll(map[], Writes(json, flags)) == Some(c.extra)
    ensures var e := ApplyFlag(json, c, f);
            WriteAll(map[], Writes(json, flags + [f])) == if e.None? then None else Some(e.value.extra)
  {
    WritesAppend(json, flags, [f]);
    WriteAllAppend(map[], Writes(json, flags), Writes(json, [f]));
    assert [f][1..] == [];
    if f.Override? && WriteOf(json, f.v).Some? {
      var w := WriteOf(json, f.v).value;
      assert Writes(json, [f]) == [w] && [w][1..] == [];
    }
  }

  lemma DescribesStep(json: string -> Option<Json>, profile: Profile, flags: seq<Flag>, c: Config, f: Flag)
    requires Describes(json, profile, flags, c) && ApplyFlag(json, c, f).Some?
    ensures Describes(json, profile, flags + [f], ApplyFlag(json, c, f).value)
  {
    forall which ensures SettingRight(json, profile, flags + [f], ApplyFlag(json, c, f).value, which) {
      SettingStep(json, profile, flags, c, f, which);
    }
    WritesStep(json, flags, c, f);
  }

  lemma PanicIsFinal(json: string -> Option<Json>, flags: seq<Flag>, more: seq<Flag>)
    requires WriteAll(map[], Writes(json, flags)).None?
    ensures WriteAll(map[], Writes(json, flags + more)).None?
  {
    WritesAppend(json, flags, more);
    WriteAllAppend(map[], Writes(json, flags), Writes(json, more));
  }

  /** The flags up to argument `i` are folded into `c`. */
  ghost predicate Folded(json: string -> Option<Json>, profile: Profile, args: seq<string>, i: nat, c: Config) {
    i <= |args| && exists seen :: Flags(args) == seen + Flags(args[i..]) && Describes(json, profile, seen, c)
  }

  lemma FoldStep(json: string -> Option<Json>, profile: Profile, args: seq<string>, i: nat, c: Config, f: Flag, next: nat)
    requires Folded(json, profile, args, i, c) && i < next <= |args|
    requires Flags(args[i..]) == [f] + Flags(args[next..])
    ensures var e := ApplyFlag(json, c, f);
            if e.Some? then Folded(json, profile, args, next, e.value)
            else WriteAll(map[], Writes(json, Flags(args))).None?
  {
    var seen :| Flags(args) == seen + Flags(args[i..]) && Describes(json, profile, seen, c);
    var longer := seen + [f];
    assert Flags(args) == longer + Flags(args[next..]);
    WritesStep(json, seen, c, f);
    if ApplyFlag(json, c, f).Some? {
      DescribesStep(json, profile, seen, c, f);
    } else {
      PanicIsFinal(json, longer, Flags(args[next..]));
    }
  }

  lemma FoldEnds(json: string -> Option<Json>, profile: Profile, args: seq<string>, c: Config)
    requires Folded(json, profile, args, |args|, c)
    ensures Describes(json, profile, Flags(args), c)
  {
    var seen :| Flags(args) == seen + Flags(args[|args|..]) && Describes(json, profile, seen, c);
    assert seen + Flags(args[|args|..]) == seen;
  }

  lemma FoldStarts(json: string -> Option<Json>, profile: Profile, args: seq<string>)
    ensures Folded(json, profile, args, 0, FromProfile(profile))
  {
    assert args[0..] == args && [] + Flags(args) == Flags(args);
    assert Describes(json, profile, [], FromProfile(profile));
  }

  /** `extract_codex_launch_config`: for every argument list the result is the configuration that
      the command line stands for, and it panics exactly if one of the nested writes does. */
  method ExtractLaunchConfig(json: string -> Option<Json>, profile: Profile, args: seq<string>) returns (r: Option<Config>)
    ensures r.Some? ==> Describes(json, profile, Flags(args), r.value)
    ensures r.None? <==> WriteAll(map[], Writes(json, Flags(args))).None?
  {
    var config := FromProfile(profile);
    var idx := 0;
    FoldStarts(json, profile, args);
    while idx < |args|
      invariant 0 <= idx <= |args| && Folded(json, profile, args, idx, config)
    {
      FlagsAt(args, idx);
      if args[idx] == BYPASS {
        FoldStep(json, profile, args, idx, config, Bypass, idx + 1);
        config := config.(approval := "never", threadSandbox := "danger-full-access", turnPolicy := "dangerFullAccess");
        idx := idx + 1;
      } else if TakesValue(args[idx]) && idx + 1 < |args| {
        var f := FlagOf(args[idx], args[idx + 1]);
        var next := ApplyFlag(json, config, f);
        FoldStep(json, profile, args, idx, config, f, idx + 2);
        if next.None? {
          return None;
        }
        config := next.value;
        idx := idx + 2;
      } else {
        idx := idx + 1;
      }
    }
    FoldEnds(json, profile, args, config);
    r := Some(config);
  }

  // ---- The description is a description ----------------------------------------------------

  lemma {:induction false} LastExists(json: string -> Option<Json>, flags: seq<Flag>, which: Setting) returns (i: nat)
    requires !NoneSets(json, flags, which)
    ensures IsLast(json, flags, which, i)
    decreases |flags|
  {
    var n := |flags| - 1;
    if Sets(json, which, flags[n]) {
      i := n;
    } else {
      i := LastExists(json, flags[..n], which);
    }
  }

  /** A command line stands for at most one configuration. */
  lemma DescribesOne(json: string -> Option<Json>, profile: Profile, flags: seq<Flag>, a: Config, b: Config)
    requires Describes(json, profile, flags, a) && Describes(json, profile, flags, b)
    ensures a == b
  {
    forall which ensures Current(a, which) == Current(b, which) {
      assert SettingRight(json, profile, flags, a, which) && SettingRight(json, profile, flags, b, which);
      if !NoneSets(json, flags, which) {
        var i := LastExists(json, flags, which);
      }
    }
    assert Current(a, SandboxMode) == Current(b, SandboxMode);
    assert Current(a, ApprovalPolicy) == Current(b, ApprovalPolicy);
    assert Current(a, ModelName) == Current(b, ModelName);
  }

  /** The arguments end with no flag waiting for its value. */
  predicate Settled(args: seq<string>)
    decreases |args|
  {
    if args == [] then true
    else if !TakesValue(args[0]) then Settled(args[1..])
    else |args| > 1 && Settled(args[2..])
  }

  lemma {:induction false} FlagsConcat(a: seq<string>, b: seq<string>)
    requires Settled(a)
    ensures Flags(a + b) == Flags(a) + Flags(b)
    decreases |a|
  {
    if a == [] {
      assert a + b == b;
    } else if !TakesValue(a[0]) {
      assert (a + b)[1..] == a[1..] + b;
      FlagsConcat(a[1..], b);
    } else {
      assert (a + b)[2..] == a[2..] + b;
      FlagsConcat(a[2..], b);
    }
  }

  /** A flag left dangling at the end changes nothing. */
  lemma DanglingFlagIgnored(args: seq<string>, flag: string)
    requires Settled(args) && TakesValue(flag)
    ensures Flags(args + [flag]) == Flags(args)
  {
    FlagsConcat(args, [flag]);
    assert [flag][1..] == [];
  }

  /** A sandbox mode at the end wins, whatever came before. */
  lemma FinalSandboxWins(json: string -> Option<Json>, profile: Profile, args: seq<string>, mode: string, c: Config)
    requires Settled(args) && Describes(json, profile, Flags(args + ["--sandbox", mode]), c)
    ensures c.threadSandbox == mode && c.turnPolicy == PolicyForMode(mode)
  {
    var tail := ["--sandbox", mode];
    FlagsConcat(args, tail);
    assert tail[2..] == [];
    assert Flags(tail) == [Sandbox(mode)];
    var flags := Flags(args + tail);
    assert IsLast(json, flags, SandboxMode, |flags| - 1);
    assert SettingRight(json, profile, flags, c, SandboxMode);
  }

  // ---- A command line that panics ----------------------------------------------------------

  const POLICY := "shell_environment_policy"

  predicate PlainPart(part: string) {
    '.' !in part && '=' !in part && '"' !in part
  }

  lemma PolicyIsPlain()
    ensures PlainPart(POLICY) && POLICY[0] == 's'
  {
  }

  lemma PolicyAllowed(rest: string)
    requires '"' !in rest
    ensures Allowed(POLICY + "." + rest) && POLICY + "." + rest != "model"
  {
    PolicyIsPlain();
    var key := POLICY + "." + rest;
    assert key[0] == 's' && key[..|POLICY| + 1] == POLICY + ".";
  }

  lemma PolicyOverride(json: string -> Option<Json>, parts: seq<string>, raw: string)
    requires |parts| >= 2 && parts[0] == POLICY && forall part <- parts :: PlainPart(part)
    ensures WriteOf(json, JoinDots(parts) + "=" + raw) == Some(Write(parts, ParseValue(json, raw)))
  {
    var key := JoinDots(parts);
    JoinedIsPlain(parts);
    JoinedIsPlain(parts[1..]);
    PolicyAllowed(JoinDots(parts[1..]));
    AssignmentSplits(key, raw);
    JoinedDotsSplit(parts);
  }

  lemma {:induction false} JoinedIsPlain(parts: seq<string>)
    requires parts != [] && forall part <- parts :: PlainPart(part)
    ensures '=' !in JoinDots(parts) && '"' !in JoinDots(parts)
    decreases |parts|
  {
    assert PlainPart(parts[0]);
    if |parts| > 1 {
      JoinedIsPlain(parts[1..]);
    }
  }

  /** `-c shell_environment_policy.a=1 -c shell_environment_policy.a.b=2` panics, for all parts
      and values of which the first is not a JSON object. */
  lemma NestedOverridePanics(json: string -> Option<Json>, a: string, b: string, first: string, second: string)
    requires PlainPart(a) && PlainPart(b) && !ParseValue(json, first).Obj?
    ensures var args := ["-c", JoinDots([POLICY, a]) + "=" + first, "-c", JoinDots([POLICY, a, b]) + "=" + second];
            WriteAll(map[], Writes(json, Flags(args))) == None
  {
    PolicyIsPlain();
    var p, q := [POLICY, a], [POLICY, a, b];
    PolicyOverride(json, p, first);
    PolicyOverride(json, q, second);
    var x, y := JoinDots(p) + "=" + first, JoinDots(q) + "=" + second;
    var args := ["-c", x, "-c", y];
    TwoConfigFlags(x, y);
    TwoOverrides(json, x, y);
    var v, w := ParseValue(json, first), ParseValue(json, second);
    var none: Fields := map[];
    SetNestedSucceedsIff(none, p, v);
    assert PathOpen(none, p);
    WriteBelowScalarPanics(none, p, [b], v, w);
    assert p + [b] == q;
    assert [Write(p, v), Write(q, w)][1..] == [Write(q, w)];
  }

  lemma TwoConfigFlags(x: string, y: string)
    ensures Flags(["-c", x, "-c", y]) == [Override(x), Override(y)]
  {
    var args := ["-c", x, "-c", y];
    FlagsAt(args, 0);
    FlagsAt(args, 2);
    assert args[0..] == args && args[4..] == [];
  }

  lemma TwoOverrides(json: string -> Option<Json>, x: string, y: string)
    requires WriteOf(json, x).Some? && WriteOf(json, y).Some?
    ensures Writes(json, [Override(x), Override(y)]) == [WriteOf(json, x).value, WriteOf(json, y).value]
  {
    var both, last := [Override(x), Override(y)], [Override(y)];
    assert both[1..] == last && last[1..] == [];
    assert Writes(json, last) == [WriteOf(json, y).value];
    assert both[0] == Override(x) && Writes(json, both) == [WriteOf(json, x).value] + Writes(json, last);
  }
}
