/** Line-based upserts into a TOML text: an assignment is looked up by the start of its line, a
    table by its header line, and a table ends where the next line starts with a bracket. */
module TomlUpsert {
  import opened Common
  import opened TomlText

  predicate IsKey(line: string, key: string) {
    StartsWith(TrimStart(line), key + " =")
  }

  predicate IsHeader(line: string, header: string) {
    Trim(line) == header
  }

  predicate IsBracket(line: string) {
    StartsWith(TrimStart(line), "[")
  }

  function Assignment(key: string, value: string): string {
    key + " = " + value
  }

  predicate GoodKey(key: string) {
    key != "" && forall c <- key :: !IsSpace(c) && c != '['
  }

  predicate GoodHeader(header: string) {
    |header| >= 2 && header[0] == '[' && header[|header| - 1] == ']' && '\n' !in header
  }

  predicate GoodValue(value: string) {
    value != "" && '\n' !in value && value[|value| - 1] != '\r'
  }

  // ---- Looking up --------------------------------------------------------------------------

  /** The first line that assigns the key, wherever it is. */
  function TopLookup(ls: seq<string>, key: string): Option<string> {
    if ls == [] then None else if IsKey(ls[0], key) then Some(ls[0]) else TopLookup(ls[1..], key)
  }

  /** The same up to the end of the table. */
  function BodyLookup(ls: seq<string>, key: string): Option<string> {
    if ls == [] || IsBracket(ls[0]) then None
    else if IsKey(ls[0], key) then Some(ls[0])
    else BodyLookup(ls[1..], key)
  }

  function TableLookup(ls: seq<string>, header: string, key: string): Option<string> {
    if ls == [] then None
    else if IsHeader(ls[0], header) then BodyLookup(ls[1..], key)
    else TableLookup(ls[1..], header, key)
  }

  predicate HasHeader(ls: seq<string>, header: string) {
    exists l <- ls :: IsHeader(l, header)
  }

  // ---- Rewriting lines ---------------------------------------------------------------------

  function ReplaceFirst(ls: seq<string>, key: string, a: string): seq<string> {
    if ls == [] then []
    else if IsKey(ls[0], key) then [a] + ls[1..]
    else [ls[0]] + ReplaceFirst(ls[1..], key, a)
  }

  function Upserted(ls: seq<string>, key: string, a: string): seq<string> {
    if TopLookup(ls, key).Some? then ReplaceFirst(ls, key, a) else [a] + ls
  }

  function PutInBody(ls: seq<string>, key: string, a: string): seq<string> {
    if ls == [] || IsBracket(ls[0]) then [a] + ls
    else if IsKey(ls[0], key) then [a] + ls[1..]
    else [ls[0]] + PutInBody(ls[1..], key, a)
  }

  function PutInTable(ls: seq<string>, header: string, key: string, a: string): seq<string> {
    if ls == [] then []
    else if IsHeader(ls[0], header) then [ls[0]] + PutInBody(ls[1..], key, a)
    else [ls[0]] + PutInTable(ls[1..], header, key, a)
  }

  // ---- Rewriting text ----------------------------------------------------------------------

  function UpsertText(content: string, key: string, value: string): string {
    Finish(Upserted(Lines(content), key, Assignment(key, value)), content)
  }

  function InTableText(content: string, header: string, key: string, value: string): string {
    if HasHeader(Lines(content), header) then
      Finish(PutInTable(Lines(content), header, key, Assignment(key, value)), content)
    else UpsertText(content, key, value)
  }

  function CreateTableText(content: string, header: string, key: string, value: string): string {
    var start := if Trim(content) == "" then content else (if EndsNl(content) then content else content + "\n") + "\n";
    start + header + "\n" + Assignment(key, value) + "\n"
  }

  function OrCreateText(content: string, header: string, key: string, value: string): string {
    if HasHeader(Lines(content), header) then InTableText(content, header, key, value)
    else CreateTableText(content, header, key, value)
  }

  // ---- The loops of the patcher ------------------------------------------------------------

  /** The lines before `i` are copied to `lines`, with the first assignment of the key replaced. */
  ghost predicate Copied(all: seq<string>, key: string, a: string, i: nat, lines: seq<string>, replaced: bool) {
    && i <= |all|
    && (if replaced then TopLookup(all, key).Some? && lines + all[i..] == ReplaceFirst(all, key, a)
        else
          && lines == all[..i] && TopLookup(all, key) == TopLookup(all[i..], key)
          && lines + ReplaceFirst(all[i..], key, a) == ReplaceFirst(all, key, a))
  }

  lemma CopiedNext(all: seq<string>, key: string, a: string, i: nat, lines: seq<string>, replaced: bool)
    requires Copied(all, key, a, i, lines, replaced) && i < |all|
    ensures if !replaced && IsKey(all[i], key) then Copied(all, key, a, i + 1, lines + [a], true)
            else Copied(all, key, a, i + 1, lines + [all[i]], replaced)
  {
    var rest := all[i..];
    assert rest[0] == all[i] && rest[1..] == all[i + 1..];
    assert all[..i + 1] == all[..i] + [all[i]];
    if replaced {
      assert lines + [all[i]] + all[i + 1..] == lines + rest;
    } else if IsKey(all[i], key) {
      assert lines + [a] + all[i + 1..] == lines + ([a] + rest[1..]);
    } else {
      assert lines + [all[i]] + ReplaceFirst(rest[1..], key, a) == lines + ([all[i]] + ReplaceFirst(rest[1..], key, a));
    }
  }

  lemma CopiedAll(all: seq<string>, key: string, a: string, lines: seq<string>, replaced: bool)
    requires Copied(all, key, a, |all|, lines, replaced)
    ensures Upserted(all, key, a) == if replaced then lines else [a] + lines
  {
    assert all[|all|..] == [] && lines + [] == lines && all[..|all|] == all;
  }

  /** `upsert_toml_assignment`. */
  method UpsertAssignment(content: string, key: string, value: string) returns (result: string)
    ensures result == UpsertText(content, key, value)
  {
    var assignment := Assignment(key, value);
    var replaced := false;
    var lines := [];
    var all := Lines(content);
    var i := 0;
    assert all[0..] == all && lines + ReplaceFirst(all, key, assignment) == ReplaceFirst(all, key, assignment);
    while i < |all|
      invariant 0 <= i <= |all| && Copied(all, key, assignment, i, lines, replaced)
    {
      CopiedNext(all, key, assignment, i, lines, replaced);
      if !replaced && IsKey(all[i], key) {
        lines := lines + [assignment];
        replaced := true;
      } else {
        lines := lines + [all[i]];
      }
      i := i + 1;
    }
    CopiedAll(all, key, assignment, lines, replaced);
    if !replaced {
      lines := [assignment] + lines;
    }
    result := Finish(lines, content);
  }

  /** No header before `i`. */
  ghost predicate NotYet(lines: seq<string>, header: string, key: string, a: string, i: nat) {
    && i <= |lines|
    && (HasHeader(lines, header) <==> HasHeader(lines[i..], header))
    && lines[..i] + PutInTable(lines[i..], header, key, a) == PutInTable(lines, header, key, a)
  }

  lemma NotYetStart(lines: seq<string>, header: string, key: string, a: string)
    ensures NotYet(lines, header, key, a, 0)
  {
    assert lines[0..] == lines && lines[..0] == [];
  }

  lemma NotYetNext(lines: seq<string>, header: string, key: string, a: string, i: nat)
    requires NotYet(lines, header, key, a, i) && i < |lines| && !IsHeader(lines[i], header)
    ensures NotYet(lines, header, key, a, i + 1)
  {
    var rest := lines[i..];
    assert rest == [lines[i]] + lines[i + 1..];
    assert rest[1..] == lines[i + 1..];
    assert lines[..i + 1] == lines[..i] + [lines[i]];
  }

  /** In the body of the table, which has had no assignment of the key before `i`. */
  ghost predicate InBody(lines: seq<string>, header: string, key: string, a: string, i: nat) {
    && i <= |lines| && HasHeader(lines, header)
    && lines[..i] + PutInBody(lines[i..], key, a) == PutInTable(lines, header, key, a)
  }

  lemma EnterBody(lines: seq<string>, header: string, key: string, a: string, i: nat)
    requires NotYet(lines, header, key, a, i) && i < |lines| && IsHeader(lines[i], header)
    ensures InBody(lines, header, key, a, i + 1)
  {
    var rest := lines[i..];
    assert rest[0] == lines[i] && rest[1..] == lines[i + 1..];
    assert lines[..i + 1] == lines[..i] + [lines[i]];
    assert lines[..i] + ([lines[i]] + PutInBody(rest[1..], key, a)) == lines[..i + 1] + PutInBody(rest[1..], key, a);
  }

  lemma InBodyNext(lines: seq<string>, header: string, key: string, a: string, i: nat)
    requires InBody(lines, header, key, a, i) && i < |lines| && !IsBracket(lines[i])
    ensures IsKey(lines[i], key) ==> PutInTable(lines, header, key, a) == lines[..i] + [a] + lines[i + 1..]
    ensures !IsKey(lines[i], key) ==> InBody(lines, header, key, a, i + 1)
  {
    var rest := lines[i..];
    assert rest[0] == lines[i] && rest[1..] == lines[i + 1..];
    assert lines[..i + 1] == lines[..i] + [lines[i]];
    assert lines[..i] + ([lines[i]] + PutInBody(rest[1..], key, a)) == lines[..i + 1] + PutInBody(rest[1..], key, a);
  }

  lemma LeaveBody(lines: seq<string>, header: string, key: string, a: string, i: nat)
    requires InBody(lines, header, key, a, i) && (i == |lines| || IsBracket(lines[i]))
    ensures PutInTable(lines, header, key, a) == lines[..i] + [a] + lines[i..]
  {
    assert lines[..i] + ([a] + lines[i..]) == lines[..i] + [a] + lines[i..];
  }

  lemma HeaderMissing(lines: seq<string>, header: string, key: string, a: string)
    requires NotYet(lines, header, key, a, |lines|)
    ensures !HasHeader(lines, header)
  {
  }

  /** `upsert_toml_assignment_in_table`. */
  method UpsertAssignmentInTable(content: string, header: string, key: string, value: string) returns (result: string)
    ensures result == InTableText(content, header, key, value)
  {
    var assignment := Assignment(key, value);
    var lines := Lines(content);
    var start := 0;
    NotYetStart(lines, header, key, assignment);
    while start < |lines| && !IsHeader(lines[start], header)
      invariant 0 <= start <= |lines| && NotYet(lines, header, key, assignment, start)
    {
      NotYetNext(lines, header, key, assignment, start);
      start := start + 1;
    }
    if start == |lines| {
      HeaderMissing(lines, header, key, assignment);
      result := UpsertAssignment(content, key, value);
      return;
    }
    EnterBody(lines, header, key, assignment, start);
    var insertAt := |lines|;
    var idx := start + 1;
    while idx < |lines|
      invariant start < idx <= |lines| == insertAt && InBody(lines, header, key, assignment, idx)
    {
      if IsBracket(lines[idx]) {
        insertAt := idx;
        break;
      }
      InBodyNext(lines, header, key, assignment, idx);
      if IsKey(lines[idx], key) {
        lines := lines[..idx] + [assignment] + lines[idx + 1..];
        result := Finish(lines, content);
        return;
      }
      idx := idx + 1;
    }
    LeaveBody(lines, header, key, assignment, insertAt);
    lines := lines[..insertAt] + [assignment] + lines[insertAt..];
    result := Finish(lines, content);
  }

  /** `upsert_toml_assignment_in_table_or_create`. */
  method UpsertAssignmentInTableOrCreate(content: string, header: string, key: string, value: string) returns (result: string)
    ensures result == OrCreateText(content, header, key, value)
  {
    if HasHeader(Lines(content), header) {
      result := UpsertAssignmentInTable(content, header, key, value);
      return;
    }
    result := content;
    if Trim(result) != "" {
      if !EndsNl(result) {
        result := result + "\n";
      }
      result := result + "\n";
    }
    result := result + header;
    result := result + "\n";
    result := result + (Assignment(key, value) + "\n");
  }

  // ---- What kinds of lines there are -------------------------------------------------------

  lemma KeyNotBracket(line: string, key: string)
    requires GoodKey(key) && IsKey(line, key)
    ensures !IsBracket(line)
  {
    assert (key + " =")[0] == key[0] && key[0] in key;
    assert TrimStart(line)[0] == TrimStart(line)[..|key| + 2][0];
  }

  lemma HeaderIsBracket(line: string, header: string)
    requires GoodHeader(header) && IsHeader(line, header)
    ensures IsBracket(line)
  {
    TrimEndFacts(TrimStart(line));
    assert TrimStart(line)[0] == TrimStart(line)[..|header|][0];
  }

  /** A line assigns at most one key. */
  lemma KeysApart(line: string, k1: string, k2: string)
    requires GoodKey(k1) && GoodKey(k2) && k1 != k2
    ensures !(IsKey(line, k1) && IsKey(line, k2))
  {
    var x := TrimStart(line);
    if |k1| == |k2| {
      assert IsKey(line, k1) ==> x[..|k1|] == k1 by {
        assert (k1 + " =")[..|k1|] == k1;
        assert IsKey(line, k1) ==> x[..|k1| + 2][..|k1|] == x[..|k1|];
      }
      assert IsKey(line, k2) ==> x[..|k2|] == k2 by {
        assert (k2 + " =")[..|k2|] == k2;
        assert IsKey(line, k2) ==> x[..|k2| + 2][..|k2|] == x[..|k2|];
      }
    } else {
      SpaceBehindKey(line, k1);
      SpaceBehindKey(line, k2);
    }
  }

  /** The first space of an assignment is right behind its key. */
  lemma SpaceBehindKey(line: string, key: string)
    requires GoodKey(key)
    ensures IsKey(line, key) ==>
              var x := TrimStart(line); |key| < |x| && x[|key|] == ' ' && forall i :: 0 <= i < |key| ==> x[i] != ' '
  {
    var x := TrimStart(line);
    var prefix := key + " =";
    if IsKey(line, key) {
      assert forall i :: 0 <= i < |prefix| ==> x[i] == x[..|prefix|][i];
      assert prefix[|key|] == ' ';
      forall i | 0 <= i < |key| ensures x[i] != ' ' {
        assert prefix[i] == key[i] && key[i] in key;
      }
    }
  }

  lemma AssignmentLine(key: string, value: string)
    requires GoodKey(key) && GoodValue(value)
    ensures var a := Assignment(key, value);
            IsKey(a, key) && OneLine(a) && StripCr(a) == a && a != "" && !IsBracket(a)
  {
    var a := Assignment(key, value);
    assert a[0] == key[0] && key[0] in key;
    assert TrimStart(a) == a;
    assert a[..|key| + 2] == key + " =";
    KeyNotBracket(a, key);
    assert a[|a| - 1] == value[|value| - 1];
    assert '\n' !in key by {
      assert IsSpace('\n');
    }
  }

  lemma HeaderLine(header: string)
    requires GoodHeader(header)
    ensures IsHeader(header, header) && IsBracket(header)
  {
    assert TrimStart(header) == header;
    assert header[..1] == "[";
  }

  // ---- Lookups and rewrites ----------------------------------------------------------------

  lemma {:induction false} ReplaceFirstSets(ls: seq<string>, key: string, a: string)
    requires IsKey(a, key) && TopLookup(ls, key).Some?
    ensures TopLookup(ReplaceFirst(ls, key, a), key) == Some(a)
    ensures TopLookup(ls, key) == Some(a) ==> ReplaceFirst(ls, key, a) == ls
    decreases |ls|
  {
    var r := ReplaceFirst(ls, key, a);
    assert ls == [ls[0]] + ls[1..];
    if !IsKey(ls[0], key) {
      ReplaceFirstSets(ls[1..], key, a);
      assert r[1..] == ReplaceFirst(ls[1..], key, a);
    }
  }

  lemma UpsertSets(ls: seq<string>, key: string, a: string)
    requires IsKey(a, key)
    ensures TopLookup(Upserted(ls, key, a), key) == Some(a)
    ensures TopLookup(ls, key) == Some(a) ==> Upserted(ls, key, a) == ls
  {
    if TopLookup(ls, key).Some? {
      ReplaceFirstSets(ls, key, a);
    }
  }

  lemma {:induction false} PutInBodySets(ls: seq<string>, key: string, a: string)
    requires IsKey(a, key) && !IsBracket(a)
    ensures BodyLookup(PutInBody(ls, key, a), key) == Some(a)
    ensures BodyLookup(ls, key) == Some(a) ==> PutInBody(ls, key, a) == ls
    decreases |ls|
  {
    if ls != [] && !IsBracket(ls[0]) {
      assert ls == [ls[0]] + ls[1..];
      if !IsKey(ls[0], key) {
        PutInBodySets(ls[1..], key, a);
        assert PutInBody(ls, key, a)[1..] == PutInBody(ls[1..], key, a);
      }
    }
  }

  lemma {:induction false} PutInTableSets(ls: seq<string>, header: string, key: string, a: string)
    requires IsKey(a, key) && !IsBracket(a) && HasHeader(ls, header)
    ensures TableLookup(PutInTable(ls, header, key, a), header, key) == Some(a)
    ensures TableLookup(ls, header, key) == Some(a) ==> PutInTable(ls, header, key, a) == ls
    decreases |ls|
  {
    assert ls == [ls[0]] + ls[1..];
    if IsHeader(ls[0], header) {
      PutInBodySets(ls[1..], key, a);
      assert PutInTable(ls, header, key, a)[1..] == PutInBody(ls[1..], key, a);
    } else {
      PutInTableSets(ls[1..], header, key, a);
      assert PutInTable(ls, header, key, a)[1..] == PutInTable(ls[1..], header, key, a);
    }
  }

  /** The lines that do not assign the key. */
  function Others(ls: seq<string>, key: string): seq<string> {
    if ls == [] then []
    else if IsKey(ls[0], key) then Others(ls[1..], key)
    else [ls[0]] + Others(ls[1..], key)
  }

  lemma OthersCons(l: string, ls: seq<string>, key: string)
    ensures Others([l] + ls, key) == (if IsKey(l, key) then [] else [l]) + Others(ls, key)
  {
    assert ([l] + ls)[1..] == ls;
  }

  /** An upsert touches no line but assignments of its own key. */
  lemma {:induction false} ReplaceFirstFrame(ls: seq<string>, key: string, a: string)
    requires IsKey(a, key)
    ensures Others(ReplaceFirst(ls, key, a), key) == Others(ls, key)
    decreases |ls|
  {
    if ls != [] {
      if IsKey(ls[0], key) {
        OthersCons(a, ls[1..], key);
      } else {
        OthersCons(ls[0], ReplaceFirst(ls[1..], key, a), key);
        ReplaceFirstFrame(ls[1..], key, a);
      }
    }
  }

  lemma UpsertFrame(ls: seq<string>, key: string, a: string)
    requires IsKey(a, key)
    ensures Others(Upserted(ls, key, a), key) == Others(ls, key)
  {
    ReplaceFirstFrame(ls, key, a);
    OthersCons(a, ls, key);
  }

  lemma {:induction false} PutInBodyFrame(ls: seq<string>, key: string, a: string)
    requires IsKey(a, key)
    ensures Others(PutInBody(ls, key, a), key) == Others(ls, key)
    decreases |ls|
  {
    OthersCons(a, ls, key);
    if ls != [] && !IsBracket(ls[0]) {
      if IsKey(ls[0], key) {
        OthersCons(a, ls[1..], key);
      } else {
        OthersCons(ls[0], PutInBody(ls[1..], key, a), key);
        PutInBodyFrame(ls[1..], key, a);
      }
    }
  }

  lemma {:induction false} PutInTableFrame(ls: seq<string>, header: string, key: string, a: string)
    requires IsKey(a, key)
    ensures Others(PutInTable(ls, header, key, a), key) == Others(ls, key)
    decreases |ls|
  {
    if ls != [] {
      if IsHeader(ls[0], header) {
        OthersCons(ls[0], PutInBody(ls[1..], key, a), key);
        PutInBodyFrame(ls[1..], key, a);
      } else {
        OthersCons(ls[0], PutInTable(ls[1..], header, key, a), key);
        PutInTableFrame(ls[1..], header, key, a);
      }
    }
  }

  /** Lookups of another key, and of headers, only see the other lines. */
  lemma {:induction false} TopSeesOthers(ls: seq<string>, key: string, k2: string)
    requires GoodKey(key) && GoodKey(k2) && key != k2
    ensures TopLookup(Others(ls, key), k2) == TopLookup(ls, k2)
    decreases |ls|
  {
    if ls != [] {
      KeysApart(ls[0], key, k2);
      TopSeesOthers(ls[1..], key, k2);
    }
  }

  lemma {:induction false} BodySeesOthers(ls: seq<string>, key: string, k2: string)
    requires GoodKey(key) && GoodKey(k2) && key != k2
    ensures BodyLookup(Others(ls, key), k2) == BodyLookup(ls, k2)
    decreases |ls|
  {
    if ls != [] {
      KeysApart(ls[0], key, k2);
      if IsKey(ls[0], key) {
        KeyNotBracket(ls[0], key);
      }
      BodySeesOthers(ls[1..], key, k2);
    }
  }

  lemma {:induction false} TableSeesOthers(ls: seq<string>, key: string, header: string, k2: string)
    requires GoodKey(key) && GoodKey(k2) && key != k2 && GoodHeader(header)
    ensures TableLookup(Others(ls, key), header, k2) == TableLookup(ls, header, k2)
    ensures HasHeader(Others(ls, key), header) <==> HasHeader(ls, header)
    decreases |ls|
  {
    if ls != [] {
      assert ls == [ls[0]] + ls[1..];
      if IsKey(ls[0], key) {
        KeyNotBracket(ls[0], key);
        if IsHeader(ls[0], header) {
          HeaderIsBracket(ls[0], header);
        }
      }
      TableSeesOthers(ls[1..], key, header, k2);
      BodySeesOthers(ls[1..], key, k2);
    }
  }

  function Placed(body: seq<string>, key: string, a: string): seq<string> {
    if TopLookup(body, key).Some? then ReplaceFirst(body, key, a) else body + [a]
  }

  /** The lines up to and including the table's header. */
  lemma {:induction false} TableStart(ls: seq<string>, header: string, key: string, a: string) returns (n: nat)
    requires HasHeader(ls, header)
    ensures n < |ls| && IsHeader(ls[n], header) && forall i :: 0 <= i < n ==> !IsHeader(ls[i], header)
    ensures PutInTable(ls, header, key, a) == ls[..n + 1] + PutInBody(ls[n + 1..], key, a)
    decreases |ls|
  {
    if IsHeader(ls[0], header) {
      n := 0;
    } else {
      var rest := ls[1..];
      assert ls == [ls[0]] + rest;
      var m := TableStart(rest, header, key, a);
      n := m + 1;
      TableStartCons(ls, m, PutInBody(rest[m + 1..], key, a));
    }
  }

  lemma TableStartCons(ls: seq<string>, m: nat, put: seq<string>)
    requires m + 1 < |ls|
    ensures ls[m + 2..] == ls[1..][m + 1..]
    ensures [ls[0]] + (ls[1..][..m + 1] + put) == ls[..m + 2] + put
  {
    assert ls[..m + 2] == [ls[0]] + ls[1..][..m + 1];
  }

  /** A rewrite inside a table leaves everything outside that table's body alone, and in the body
      only replaces the first assignment of the key, or adds one at its end. */
  lemma TableFrame(ls: seq<string>, header: string, key: string, a: string)
    returns (n: nat, body: seq<string>, after: seq<string>)
    requires HasHeader(ls, header)
    ensures n < |ls| && IsHeader(ls[n], header) && forall i :: 0 <= i < n ==> !IsHeader(ls[i], header)
    ensures (forall l <- body :: !IsBracket(l)) && (after == [] || IsBracket(after[0]))
    ensures ls == ls[..n + 1] + body + after
    ensures PutInTable(ls, header, key, a) == ls[..n + 1] + Placed(body, key, a) + after
  {
    n := TableStart(ls, header, key, a);
    body, after := BodyFrame(ls[n + 1..], key, a);
    var head, placed := ls[..n + 1], Placed(body, key, a);
    assert head + (placed + after) == head + placed + after;
  }

  lemma {:induction false} BodyFrame(ls: seq<string>, key: string, a: string) returns (body: seq<string>, after: seq<string>)
    ensures (forall l <- body :: !IsBracket(l)) && (after == [] || IsBracket(after[0]))
    ensures ls == body + after
    ensures PutInBody(ls, key, a) == Placed(body, key, a) + after
    decreases |ls|
  {
    if ls == [] || IsBracket(ls[0]) {
      body, after := [], ls;
    } else {
      var b;
      b, after := BodyFrame(ls[1..], key, a);
      body := [ls[0]] + b;
      assert body[1..] == b;
      assert ls == [ls[0]] + ls[1..];
    }
  }

  // ---- Line endings ------------------------------------------------------------------------

  lemma StripCrSeen(line: string, key: string, header: string)
    requires GoodKey(key)
    ensures IsKey(StripCr(line), key) == IsKey(line, key)
    ensures IsHeader(StripCr(line), header) == IsHeader(line, header)
    ensures IsBracket(StripCr(line)) == IsBracket(line)
  {
    assert '\r' !in key + " =" by {
      assert IsSpace('\r');
    }
    StripCrUnseen(line, key + " =");
    StripCrUnseen(line, "[");
  }

  /** The same lines, some of them without a trailing `\r`. */
  ghost predicate Softened(ls: seq<string>, soft: seq<string>) {
    |soft| == |ls| && forall i :: 0 <= i < |ls| ==> soft[i] == ls[i] || soft[i] == StripCr(ls[i])
  }

  lemma {:induction false} SoftLookups(ls: seq<string>, soft: seq<string>, header: string, key: string, a: string)
    requires GoodKey(key) && StripCr(a) == a && Softened(ls, soft)
    ensures TopLookup(ls, key) == Some(a) ==> TopLookup(soft, key) == Some(a)
    ensures BodyLookup(ls, key) == Some(a) ==> BodyLookup(soft, key) == Some(a)
    ensures TableLookup(ls, header, key) == Some(a) ==> TableLookup(soft, header, key) == Some(a)
    ensures HasHeader(soft, header) <==> HasHeader(ls, header)
    decreases |ls|
  {
    if ls != [] {
      StripCrSeen(ls[0], key, header);
      assert ls == [ls[0]] + ls[1..] && soft == [soft[0]] + soft[1..];
      SoftLookups(ls[1..], soft[1..], header, key, a);
    }
  }

  lemma {:induction false} ChompSoftens(ls: seq<string>, nl: bool)
    ensures Softened(ls, Chomp(ls, nl))
    decreases |ls|
  {
    if ls != [] {
      ChompSoftens(ls[1..], nl);
    }
  }
}
