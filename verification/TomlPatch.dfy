/** Chains of upserts on a text: every setting of the chain reads back, and when a second pass
    changes nothing. */
module TomlPatch {
  import opened Common
  import opened TomlText
  import opened TomlUpsert

  datatype Step =
    | Top(key: string, value: string)
    | InTable(header: string, key: string, value: string)
    | OrCreate(header: string, key: string, value: string)

  function LineOf(s: Step): string {
    Assignment(s.key, s.value)
  }

  predicate GoodStep(s: Step) {
    GoodKey(s.key) && GoodValue(s.value) && (s.Top? || GoodHeader(s.header))
  }

  function ApplyText(t: string, s: Step): string {
    match s
    case Top(k, v) => UpsertText(t, k, v)
    case InTable(h, k, v) => InTableText(t, h, k, v)
    case OrCreate(h, k, v) => OrCreateText(t, h, k, v)
  }

  /** Where a step's assignment is to be found. */
  function Read(ls: seq<string>, s: Step): Option<string> {
    match s
    case Top(k, _) => TopLookup(ls, k)
    case InTable(h, k, _) => if HasHeader(ls, h) then TableLookup(ls, h, k) else TopLookup(ls, k)
    case OrCreate(h, k, _) => TableLookup(ls, h, k)
  }

  ghost predicate Set(ls: seq<string>, s: Step) {
    Read(ls, s) == Some(LineOf(s))
  }

  predicate Creates(ls: seq<string>, s: Step) {
    s.OrCreate? && !HasHeader(ls, s.header)
  }

  function Edited(ls: seq<string>, s: Step): seq<string> {
    if s.Top? || !HasHeader(ls, s.header) then Upserted(ls, s.key, LineOf(s))
    else PutInTable(ls, s.header, s.key, LineOf(s))
  }

  // ---- Rewritten lines ---------------------------------------------------------------------

  /** Rewritten lines are old ones and the assignment, which is among them. */
  ghost predicate Grown(ls: seq<string>, r: seq<string>, a: string) {
    && a in r && (forall l <- r :: l in ls || l == a)
    && (r[|r| - 1] == a || (ls != [] && r[|r| - 1] == ls[|ls| - 1]))
  }

  lemma GrownCons(l: string, ls: seq<string>, r: seq<string>, a: string)
    requires Grown(ls, r, a)
    ensures Grown([l] + ls, [l] + r, a)
  {
    assert forall x <- [l] + r :: x == l || x in r;
  }

  lemma {:induction false} ReplaceGrows(ls: seq<string>, key: string, a: string)
    requires TopLookup(ls, key).Some?
    ensures Grown(ls, ReplaceFirst(ls, key, a), a)
    decreases |ls|
  {
    assert ls == [ls[0]] + ls[1..];
    if !IsKey(ls[0], key) {
      ReplaceGrows(ls[1..], key, a);
      GrownCons(ls[0], ls[1..], ReplaceFirst(ls[1..], key, a), a);
    }
  }

  lemma {:induction false} PutInBodyGrows(ls: seq<string>, key: string, a: string)
    ensures Grown(ls, PutInBody(ls, key, a), a)
    decreases |ls|
  {
    if ls != [] {
      assert ls == [ls[0]] + ls[1..];
      if !IsBracket(ls[0]) && !IsKey(ls[0], key) {
        PutInBodyGrows(ls[1..], key, a);
        GrownCons(ls[0], ls[1..], PutInBody(ls[1..], key, a), a);
      }
    }
  }

  lemma {:induction false} PutInTableGrows(ls: seq<string>, header: string, key: string, a: string)
    requires HasHeader(ls, header)
    ensures Grown(ls, PutInTable(ls, header, key, a), a)
    decreases |ls|
  {
    assert ls == [ls[0]] + ls[1..];
    if IsHeader(ls[0], header) {
      PutInBodyGrows(ls[1..], key, a);
      GrownCons(ls[0], ls[1..], PutInBody(ls[1..], key, a), a);
    } else {
      PutInTableGrows(ls[1..], header, key, a);
      GrownCons(ls[0], ls[1..], PutInTable(ls[1..], header, key, a), a);
    }
  }

  lemma EditGrows(ls: seq<string>, s: Step)
    ensures Grown(ls, Edited(ls, s), LineOf(s))
  {
    var a := LineOf(s);
    if s.Top? || !HasHeader(ls, s.header) {
      if TopLookup(ls, s.key).Some? {
        ReplaceGrows(ls, s.key, a);
      }
    } else {
      PutInTableGrows(ls, s.header, s.key, a);
    }
  }

  lemma JoinNonEmpty(ls: seq<string>, a: string)
    requires a in ls && a != ""
    ensures Join(ls) != ""
  {
  }

  /** An edit of the lines, as text and as the lines that text reads as. */
  lemma EditRenders(t: string, s: Step)
    requires GoodStep(s) && !Creates(Lines(t), s)
    ensures ApplyText(t, s) == Render(Edited(Lines(t), s), EndsNl(t))
    ensures Lines(ApplyText(t, s)) == Chomp(Edited(Lines(t), s), EndsNl(t))
  {
    var ls := Lines(t);
    var r := Edited(ls, s);
    AssignmentLine(s.key, s.value);
    EditGrows(ls, s);
    LinesAreLines(t);
    JoinNonEmpty(r, LineOf(s));
    assert AllOneLine(r);
    LinesOfRender(r, EndsNl(t));
  }

  // ---- A created table ---------------------------------------------------------------------

  ghost predicate NonBlank(t: string) {
    Trim(t) != ""
  }

  lemma TerminatedCons(l: string, rest: string)
    requires OneLine(l)
    ensures Lines((l + "\n" + rest) + "\n") == [StripCr(l)] + Lines(rest + "\n")
  {
    assert (l + "\n" + rest) + "\n" == l + "\n" + (rest + "\n");
    LinesCons(l, rest + "\n");
  }

  /** Terminating a text costs its last line one trailing `\r`. */
  lemma {:induction false} LinesTerminated(t: string)
    requires t != "" && !EndsNl(t)
    ensures Lines(t) != [] && Lines(t + "\n") == LastStripped(Lines(t))
    decreases |t|
  {
    FirstLine(t);
    if OneLine(t) {
      TerminatedLast(t);
    } else {
      var l, rest := t[..NlIndex(t)], t[NlIndex(t) + 1..];
      LinesTerminated(rest);
      TerminatedCons(l, rest);
      assert Lines(t) == [StripCr(l)] + Lines(rest);
      StripLastCons(StripCr(l), Lines(rest));
    }
  }

  ghost function LastStripped(ls: seq<string>): seq<string>
    requires ls != []
  {
    ls[..|ls| - 1] + [StripCr(ls[|ls| - 1])]
  }

  lemma StripLastCons(l: string, ls: seq<string>)
    requires ls != []
    ensures LastStripped([l] + ls) == [l] + LastStripped(ls)
  {
    assert ([l] + ls)[..|ls|] == [l] + ls[..|ls| - 1];
  }

  lemma TerminatedLast(l: string)
    requires OneLine(l) && l != ""
    ensures Lines(l) == [l] && Lines(l + "\n") == [StripCr(l)]
  {
    LinesLast(l);
    LinesCons(l, "");
    assert l + "\n" + "" == l + "\n";
  }

  /** The lines of a text before a table is appended to it. */
  ghost function Base(t: string): seq<string> {
    Lines(if EndsNl(t) then t else t + "\n")
  }

  lemma BaseSoftens(t: string)
    requires t != ""
    ensures Softened(Lines(t), Base(t))
  {
    if !EndsNl(t) {
      LinesTerminated(t);
      StripLastSoftens(Lines(t));
    }
  }

  lemma StripLastSoftens(ls: seq<string>)
    requires ls != []
    ensures Softened(ls, LastStripped(ls))
  {
  }

  lemma CreatedLines(h: string, a: string)
    requires GoodHeader(h) && OneLine(a) && StripCr(a) == a
    ensures Lines("\n" + h + "\n" + a + "\n") == ["", h, a]
  {
    var last := a + "\n" + "";
    var both := h + "\n" + last;
    calc {
      Lines("\n" + h + "\n" + a + "\n");
      { assert "\n" + h + "\n" + a + "\n" == "" + "\n" + both; }
      Lines("" + "\n" + both);
      { LinesCons("", both); }
      [""] + Lines(both);
      { LinesCons(h, last); }
      [""] + ([h] + Lines(last));
      { LinesCons(a, ""); }
      [""] + ([h] + [a]);
      ["", h, a];
    }
  }

  lemma Reassociate(start: string, h: string, a: string)
    ensures start + "\n" + h + "\n" + a + "\n" == start + ("\n" + h + "\n" + a + "\n")
  {
  }

  lemma CreateAppends(t: string, s: Step)
    requires Creates(Lines(t), s) && NonBlank(t)
    ensures ApplyText(t, s) ==
            (if EndsNl(t) then t else t + "\n") + ("\n" + s.header + "\n" + LineOf(s) + "\n")
  {
    Reassociate(if EndsNl(t) then t else t + "\n", s.header, LineOf(s));
    assert ApplyText(t, s) == CreateTableText(t, s.header, s.key, s.value);
  }

  lemma CreateRenders(t: string, s: Step)
    requires GoodStep(s) && Creates(Lines(t), s) && NonBlank(t)
    ensures Lines(ApplyText(t, s)) == Base(t) + ["", s.header, LineOf(s)]
  {
    var a := LineOf(s);
    AssignmentLine(s.key, s.value);
    var start := if EndsNl(t) then t else t + "\n";
    var tail := "\n" + s.header + "\n" + a + "\n";
    CreateAppends(t, s);
    CreatedLines(s.header, a);
    LinesConcat(start, tail);
  }

  lemma {:induction false} AppendLookups(ls: seq<string>, more: seq<string>, header: string, key: string)
    ensures TopLookup(ls, key).Some? ==> TopLookup(ls + more, key) == TopLookup(ls, key)
    ensures BodyLookup(ls, key).Some? ==> BodyLookup(ls + more, key) == BodyLookup(ls, key)
    ensures TableLookup(ls, header, key).Some? ==> TableLookup(ls + more, header, key) == TableLookup(ls, header, key)
    ensures !HasHeader(ls, header) ==> TableLookup(ls + more, header, key) == TableLookup(more, header, key)
    decreases |ls|
  {
    if ls == [] {
      assert ls + more == more;
    } else {
      assert (ls + more)[1..] == ls[1..] + more;
      assert ls == [ls[0]] + ls[1..];
      AppendLookups(ls[1..], more, header, key);
    }
  }

  lemma {:induction false} FoundHasHeader(ls: seq<string>, header: string, key: string)
    requires TableLookup(ls, header, key).Some?
    ensures HasHeader(ls, header)
    decreases |ls|
  {
    if !IsHeader(ls[0], header) {
      FoundHasHeader(ls[1..], header, key);
    }
  }

  // ---- One step ----------------------------------------------------------------------------

  lemma SoftKeepsSet(ls: seq<string>, soft: seq<string>, s: Step)
    requires GoodStep(s) && Softened(ls, soft) && Set(ls, s)
    ensures Set(soft, s)
  {
    AssignmentLine(s.key, s.value);
    SoftLookups(ls, soft, if s.Top? then "" else s.header, s.key, LineOf(s));
  }

  lemma EditSets(ls: seq<string>, s: Step)
    requires GoodStep(s) && !Creates(ls, s)
    ensures Set(Edited(ls, s), s)
    ensures Set(ls, s) ==> Edited(ls, s) == ls
  {
    var a := LineOf(s);
    AssignmentLine(s.key, s.value);
    if s.Top? || !HasHeader(ls, s.header) {
      UpsertSets(ls, s.key, a);
      if s.InTable? {
        SameHeaders(ls, s, s.header);
      }
    } else {
      PutInTableSets(ls, s.header, s.key, a);
      SameHeaders(ls, s, s.header);
    }
  }

  lemma EditFrame(ls: seq<string>, s: Step)
    requires GoodStep(s)
    ensures Others(Edited(ls, s), s.key) == Others(ls, s.key)
  {
    AssignmentLine(s.key, s.value);
    UpsertFrame(ls, s.key, LineOf(s));
    if !s.Top? {
      PutInTableFrame(ls, s.header, s.key, LineOf(s));
    }
  }

  lemma OtherKey(key: string) returns (other: string)
    requires GoodKey(key)
    ensures GoodKey(other) && other != key
  {
    other := key + "x";
  }

  lemma SameHeaders(ls: seq<string>, s: Step, header: string)
    requires GoodStep(s) && GoodHeader(header)
    ensures HasHeader(Edited(ls, s), header) <==> HasHeader(ls, header)
  {
    EditFrame(ls, s);
    var other := OtherKey(s.key);
    TableSeesOthers(ls, s.key, header, other);
    TableSeesOthers(Edited(ls, s), s.key, header, other);
  }

  /** Two steps that do not get in each other's way. */
  predicate Independent(s: Step, s2: Step) {
    s.key != s2.key && (s.OrCreate? && s2.InTable? ==> s.header != s2.header)
  }

  lemma EditKeepsSet(ls: seq<string>, s: Step, s2: Step)
    requires GoodStep(s) && GoodStep(s2) && s.key != s2.key && Set(ls, s2)
    ensures Set(Edited(ls, s), s2)
  {
    EditFrame(ls, s);
    var r := Edited(ls, s);
    TopSeesOthers(ls, s.key, s2.key);
    TopSeesOthers(r, s.key, s2.key);
    if !s2.Top? {
      TableSeesOthers(ls, s.key, s2.header, s2.key);
      TableSeesOthers(r, s.key, s2.header, s2.key);
    }
  }

  /** The text up to its last line ending, and the rest. */
  lemma {:induction false} SplitLast(t: string) returns (w: string, pad: string)
    ensures t == w + pad && OneLine(pad) && (w == "" || EndsNl(w))
    decreases |t|
  {
    if t == "" || EndsNl(t) {
      w, pad := t, "";
    } else {
      var n := |t| - 1;
      var p;
      w, p := SplitLast(t[..n]);
      pad := p + [t[n]];
      assert t == t[..n] + [t[n]];
    }
  }

  /** White space in front of a header is not seen. */
  lemma {:induction false} PaddedHeader(pad: string, h: string)
    requires GoodHeader(h) && forall c <- pad :: IsSpace(c)
    ensures IsHeader(pad + h, h)
    decreases |pad|
  {
    if pad == "" {
      HeaderLine(h);
      assert pad + h == h;
    } else {
      assert IsSpace(pad[0]) && (pad + h)[1..] == pad[1..] + h;
      PaddedHeader(pad[1..], h);
    }
  }

  /** A table created in a text of nothing but white space. */
  lemma BlankCreate(t: string, s: Step) returns (w: string, pad: string)
    requires GoodStep(s) && Creates(Lines(t), s) && !NonBlank(t)
    ensures Lines(ApplyText(t, s)) == Lines(w) + [pad + s.header, LineOf(s)]
    ensures !HasHeader(Lines(w), s.header) && IsHeader(pad + s.header, s.header)
  {
    w, pad := SplitLast(t);
    BlankIff(t);
    PaddedHeader(pad, s.header);
    LinesConcat(w, pad);
    assert forall l <- Lines(w) :: l in Lines(t);
    PaddedLines(w, pad, s);
    assert ApplyText(t, s) == CreateTableText(t, s.header, s.key, s.value);
    assert ApplyText(t, s) == (w + pad) + s.header + "\n" + LineOf(s) + "\n";
  }

  lemma PaddedLines(w: string, pad: string, s: Step)
    requires GoodStep(s) && !s.Top? && OneLine(pad) && (w == "" || EndsNl(w))
    ensures Lines((w + pad) + s.header + "\n" + LineOf(s) + "\n") == Lines(w) + [pad + s.header, LineOf(s)]
  {
    var h, a := pad + s.header, LineOf(s);
    AssignmentLine(s.key, s.value);
    assert OneLine(h) && StripCr(h) == h;
    TwoLines(h, a);
    LinesConcat(w, h + "\n" + a + "\n");
    Regroup(w, pad, s.header, a);
  }

  lemma Regroup(w: string, pad: string, h: string, a: string)
    ensures (w + pad) + h + "\n" + a + "\n" == w + ((pad + h) + "\n" + a + "\n")
  {
  }

  lemma TwoLines(h: string, a: string)
    requires OneLine(h) && StripCr(h) == h && OneLine(a) && StripCr(a) == a
    ensures Lines(h + "\n" + a + "\n") == [h, a]
  {
    var last := a + "\n" + "";
    LinesCons(a, "");
    LinesCons(h, last);
    assert h + "\n" + a + "\n" == h + "\n" + last;
  }

  lemma CreateSets(t: string, s: Step)
    requires GoodStep(s) && Creates(Lines(t), s) && NonBlank(t)
    ensures Set(Lines(ApplyText(t, s)), s)
  {
    var ls := Lines(t);
    CreateRenders(t, s);
    BaseSoftens(t);
    AssignmentLine(s.key, s.value);
    SoftLookups(ls, Base(t), s.header, s.key, LineOf(s));
    var tail := ["", s.header, LineOf(s)];
    AppendLookups(Base(t), tail, s.header, s.key);
    HeaderLine(s.header);
    assert tail[1..] == [s.header, LineOf(s)] && tail[1..][1..] == [LineOf(s)];
  }

  lemma BlankCreateSets(t: string, s: Step)
    requires GoodStep(s) && Creates(Lines(t), s) && !NonBlank(t)
    ensures Set(Lines(ApplyText(t, s)), s)
  {
    var w, pad := BlankCreate(t, s);
    AssignmentLine(s.key, s.value);
    var tail := [pad + s.header, LineOf(s)];
    AppendLookups(Lines(w), tail, s.header, s.key);
    assert tail[1..] == [LineOf(s)];
  }

  /** A step makes its setting read back, whatever the text. */
  lemma StepSets(t: string, s: Step)
    requires GoodStep(s)
    ensures Set(Lines(ApplyText(t, s)), s)
  {
    var ls := Lines(t);
    if Creates(ls, s) {
      if NonBlank(t) {
        CreateSets(t, s);
      } else {
        BlankCreateSets(t, s);
      }
    } else {
      EditRenders(t, s);
      EditSets(ls, s);
      ChompSoftens(Edited(ls, s), EndsNl(t));
      SoftKeepsSet(Edited(ls, s), Chomp(Edited(ls, s), EndsNl(t)), s);
    }
  }

  lemma CreatedHeaders(base: seq<string>, h: string, a: string, header: string)
    requires GoodHeader(h) && GoodHeader(header) && h != header && !IsBracket(a)
    ensures HasHeader(base + ["", h, a], header) <==> HasHeader(base, header)
  {
    var tail := ["", h, a];
    HeaderLine(h);
    if IsHeader(a, header) {
      HeaderIsBracket(a, header);
    }
    assert forall l <- base + tail :: l in base || l in tail;
    assert forall l <- base :: l in base + tail;
    assert forall l <- tail :: !IsHeader(l, header);
  }

  /** A step leaves the settings of independent steps in place. */
  lemma StepKeepsSet(t: string, s: Step, s2: Step)
    requires GoodStep(s) && GoodStep(s2) && Independent(s, s2) && Set(Lines(t), s2)
    ensures Set(Lines(ApplyText(t, s)), s2)
  {
    var ls := Lines(t);
    SetNonBlank(t, s2);
    if Creates(ls, s) {
      CreateRenders(t, s);
      BaseSoftens(t);
      SoftKeepsSet(ls, Base(t), s2);
      AssignmentLine(s.key, s.value);
      AppendLookups(Base(t), ["", s.header, LineOf(s)], if s2.Top? then "" else s2.header, s2.key);
      if s2.InTable? {
        CreatedHeaders(Base(t), s.header, LineOf(s), s2.header);
      }
    } else {
      EditRenders(t, s);
      EditKeepsSet(ls, s, s2);
      ChompSoftens(Edited(ls, s), EndsNl(t));
      SoftKeepsSet(Edited(ls, s), Chomp(Edited(ls, s), EndsNl(t)), s2);
    }
  }

  /** On a text that has the setting, a step only drops the `\r` of line endings. */
  lemma StepOnSet(t: string, s: Step)
    requires GoodStep(s) && Set(Lines(t), s)
    ensures ApplyText(t, s) == Norm(t)
  {
    if s.OrCreate? {
      FoundHasHeader(Lines(t), s.header, s.key);
    }
    EditRenders(t, s);
    EditSets(Lines(t), s);
    assert t != "";
    NormIsRender(t);
  }

  // ---- Chains of steps ---------------------------------------------------------------------

  function PatchText(t: string, steps: seq<Step>): string
    decreases |steps|
  {
    if steps == [] then t else PatchText(ApplyText(t, steps[0]), steps[1..])
  }

  ghost predicate GoodSteps(steps: seq<Step>) {
    && (forall s <- steps :: GoodStep(s))
    && (forall i, j :: 0 <= i < |steps| && 0 <= j < |steps| && i != j ==> Independent(steps[i], steps[j]))
  }

  ghost predicate AllSet(t: string, steps: seq<Step>) {
    forall s <- steps :: Set(Lines(t), s)
  }

  lemma {:induction false} FoundIsLine(ls: seq<string>, header: string, key: string)
    ensures TopLookup(ls, key).Some? ==> TopLookup(ls, key).value in ls
    ensures BodyLookup(ls, key).Some? ==> BodyLookup(ls, key).value in ls
    ensures TableLookup(ls, header, key).Some? ==> TableLookup(ls, header, key).value in ls
    decreases |ls|
  {
    if ls != [] {
      FoundIsLine(ls[1..], header, key);
    }
  }

  lemma {:induction false} LineCharsInText(t: string, l: string, c: char)
    requires l in Lines(t) && c in l
    ensures c in t
    decreases |t|
  {
    FirstLine(t);
    if !OneLine(t) {
      var i := NlIndex(t);
      var first, rest := t[..i], t[i + 1..];
      assert Lines(t) == [StripCr(first)] + Lines(rest);
      if l == StripCr(first) {
        assert c in first;
      } else {
        LineCharsInText(rest, l, c);
      }
    }
  }

  lemma SetNonBlank(t: string, s: Step)
    requires GoodStep(s) && Set(Lines(t), s)
    ensures NonBlank(t)
  {
    FoundIsLine(Lines(t), if s.Top? then "" else s.header, s.key);
    var c := s.key[0];
    assert c in s.key && LineOf(s)[0] == c;
    LineCharsInText(t, LineOf(s), c);
    BlankIff(t);
  }

  lemma StepKeepsAll(t: string, s: Step, done: seq<Step>)
    requires GoodStep(s) && (forall s2 <- done :: GoodStep(s2) && Independent(s, s2))
    requires AllSet(t, done)
    ensures AllSet(ApplyText(t, s), done + [s])
  {
    var next := ApplyText(t, s);
    StepSets(t, s);
    forall s2 | s2 in done ensures Set(Lines(next), s2) {
      StepKeepsSet(t, s, s2);
    }
  }

  /** Every setting of the chain reads back at its end. */
  lemma {:induction false} ChainSets(t: string, done: seq<Step>, todo: seq<Step>)
    requires GoodSteps(done + todo) && AllSet(t, done)
    ensures AllSet(PatchText(t, todo), done + todo)
    decreases |todo|
  {
    if todo == [] {
      assert done + todo == done;
    } else {
      var s := todo[0];
      var all := done + todo;
      assert all[|done|] == s && forall i :: 0 <= i < |done| ==> all[i] == done[i];
      StepKeepsAll(t, s, done);
      assert done + [s] + todo[1..] == all;
      ChainSets(ApplyText(t, s), done + [s], todo[1..]);
    }
  }

  lemma PatchSets(t: string, steps: seq<Step>)
    requires GoodSteps(steps)
    ensures AllSet(PatchText(t, steps), steps)
  {
    assert [] + steps == steps;
    ChainSets(t, [], steps);
  }

  // ---- A second pass -----------------------------------------------------------------------

  ghost function NormTimes(t: string, n: nat): string
    decreases n
  {
    if n == 0 then t else NormTimes(Norm(t), n - 1)
  }

  lemma NormKeepsSet(t: string, s: Step)
    requires GoodStep(s) && Set(Lines(t), s)
    ensures Set(Lines(Norm(t)), s)
  {
    assert t != "";
    NormIsRender(t);
    LinesAreLines(t);
    LinesOfRender(Lines(t), EndsNl(t));
    ChompSoftens(Lines(t), EndsNl(t));
    SoftKeepsSet(Lines(t), Chomp(Lines(t), EndsNl(t)), s);
  }

  /** A chain on a text that has all its settings drops one `\r` per line ending and step. */
  lemma {:induction false} PatchOnSet(t: string, steps: seq<Step>)
    requires (forall s <- steps :: GoodStep(s)) && AllSet(t, steps)
    ensures PatchText(t, steps) == NormTimes(t, |steps|)
    decreases |steps|
  {
    if steps != [] {
      StepOnSet(t, steps[0]);
      forall s | s in steps[1..] ensures Set(Lines(Norm(t)), s) {
        NormKeepsSet(t, s);
      }
      PatchOnSet(Norm(t), steps[1..]);
    }
  }

  lemma {:induction false} NormTimesShortens(t: string, n: nat)
    ensures |NormTimes(t, n)| <= |t|
    ensures NoCrLf(t) ==> NormTimes(t, n) == t
    ensures n > 0 && !NoCrLf(t) ==> |NormTimes(t, n)| < |t|
    decreases n
  {
    if n > 0 {
      NormShortens(t);
      NormTimesShortens(Norm(t), n - 1);
    }
  }

  /** Patching a patched text changes nothing, exactly if it has no `\r\n` left. */
  lemma SecondPassIff(t: string, steps: seq<Step>)
    requires GoodSteps(steps) && steps != []
    ensures PatchText(PatchText(t, steps), steps) == PatchText(t, steps) <==> NoCrLf(PatchText(t, steps))
  {
    PatchSets(t, steps);
    PatchOnSet(PatchText(t, steps), steps);
    NormTimesShortens(PatchText(t, steps), |steps|);
  }
}
