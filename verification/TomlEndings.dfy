/** How carriage returns in front of line feeds fare through a chain of upserts. Every rewrite of
    the lines drops one of them per line; so whether a second pass changes anything can be read
    off the input, line by line. */
module TomlEndings {
  import opened Common
  import opened TomlText
  import opened TomlUpsert
  import opened TomlPatch

  /** How many carriage returns a line ends with. */
  function TrailCr(l: string): nat {
    if l != "" && l[|l| - 1] == '\r' then 1 + TrailCr(l[..|l| - 1]) else 0
  }

  lemma TrailCrFacts(l: string)
    ensures StripCr(l) == l <==> TrailCr(l) == 0
    ensures TrailCr(StripCr(l)) == if TrailCr(l) == 0 then 0 else TrailCr(l) - 1
  {
  }

  // ---- What a step does to the lines -------------------------------------------------------

  predicate IsStart(ls: seq<string>, header: string, n: nat) {
    n < |ls| && IsHeader(ls[n], header) && forall j :: 0 <= j < n ==> !IsHeader(ls[j], header)
  }

  /** Does the step look for its key in its table only? */
  predicate Looks(ls: seq<string>, s: Step) {
    s.OrCreate? || (s.InTable? && HasHeader(ls, s.header))
  }

  /** The line neither assigns the step's key nor, where that matters, ends a table. */
  predicate Free(l: string, s: Step, tables: bool) {
    !IsKey(l, s.key) && (tables ==> !IsBracket(l))
  }

  predicate FreeBetween(ls: seq<string>, s: Step, tables: bool, n: int, i: nat) {
    -1 <= n < i <= |ls| && forall j :: n < j < i ==> Free(ls[j], s, tables)
  }

  /** Line `i` is the assignment that the step replaces. */
  predicate Replaces(ls: seq<string>, s: Step, i: nat) {
    && i < |ls| && IsKey(ls[i], s.key)
    && (if Looks(ls, s) then
          && !IsBracket(ls[i])
          && exists n :: 0 <= n < i && IsStart(ls, s.header, n) && FreeBetween(ls, s, true, n, i)
        else FreeBetween(ls, s, false, -1, i))
  }

  /** The step adds its assignment behind the last line. */
  predicate AddsBehind(ls: seq<string>, s: Step) {
    && !s.Top?
    && exists n :: 0 <= n < |ls| && IsStart(ls, s.header, n) && FreeBetween(ls, s, true, n, |ls|)
  }

  predicate Kept(ls: seq<string>, steps: seq<Step>, i: nat) {
    forall s <- steps :: !Replaces(ls, s, i)
  }

  /** How many of the steps rewrite the lines; the others append a table to the text. */
  function Edits(ls: seq<string>, steps: seq<Step>): nat
    decreases |steps|
  {
    if steps == [] then 0
    else if Creates(ls, steps[0]) then Edits(ls + [steps[0].header], steps[1..])
    else 1 + Edits(ls, steps[1..])
  }

  /** The rewrites that follow the step that first puts something behind an unterminated last
      line; none if no step does. */
  function LastAllowance(ls: seq<string>, steps: seq<Step>): Option<nat>
    decreases |steps|
  {
    if steps == [] then None
    else if Creates(ls, steps[0]) then Some(Edits(ls + [steps[0].header], steps[1..]))
    else if AddsBehind(ls, steps[0]) then Some(Edits(ls, steps[1..]))
    else LastAllowance(ls, steps[1..])
  }

  /** An unterminated last line that stays has at most as many carriage returns as rewrites follow
      the step that terminates it. */
  predicate LastFits(ls: seq<string>, steps: seq<Step>)
    requires ls != []
  {
    var allowed := LastAllowance(ls, steps);
    Kept(ls, steps, |ls| - 1) && allowed.Some? ==> TrailCr(ls[|ls| - 1]) <= allowed.value
  }

  /** The number of lines that are terminated. */
  function Ended(ls: seq<string>, nl: bool): nat {
    if nl || ls == [] then |ls| else |ls| - 1
  }

  /** Every terminated line that no step replaces ends with fewer carriage returns than there are
      rewrites, and an unterminated last line fits. */
  predicate Fits(ls: seq<string>, nl: bool, steps: seq<Step>) {
    && (forall i :: 0 <= i < Ended(ls, nl) && Kept(ls, steps, i) ==> TrailCr(ls[i]) < Edits(ls, steps))
    && (!nl && ls != [] ==> LastFits(ls, steps))
  }

  // ---- Where an edit puts its line ---------------------------------------------------------

  function Put(ls: seq<string>, p: nat, ins: bool, a: string): seq<string>
    requires if ins then p <= |ls| else p < |ls|
  {
    if ins then ls[..p] + [a] + ls[p..] else ls[p := a]
  }

  lemma {:induction false} FirstKeyAt(ls: seq<string>, key: string, a: string) returns (p: nat)
    requires TopLookup(ls, key).Some?
    ensures p < |ls| && IsKey(ls[p], key) && forall j :: 0 <= j < p ==> !IsKey(ls[j], key)
    ensures ReplaceFirst(ls, key, a) == ls[p := a]
    decreases |ls|
  {
    if IsKey(ls[0], key) {
      p := 0;
    } else {
      var q := FirstKeyAt(ls[1..], key, a);
      p := q + 1;
      assert ls == [ls[0]] + ls[1..];
      assert ls[p := a] == [ls[0]] + ls[1..][q := a];
    }
  }

  lemma {:induction false} NoKey(ls: seq<string>, key: string)
    requires TopLookup(ls, key).None?
    ensures forall l <- ls :: !IsKey(l, key)
    decreases |ls|
  {
    if ls != [] {
      NoKey(ls[1..], key);
      assert ls == [ls[0]] + ls[1..];
    }
  }

  /** The first line of a table's body that assigns the key, or else the end of the body. */
  ghost predicate BodySpot(body: seq<string>, key: string, p: nat, ins: bool) {
    && (if ins then p <= |body| else p < |body|)
    && (forall j :: 0 <= j < p ==> !IsBracket(body[j]) && !IsKey(body[j], key))
    && (ins && p < |body| ==> IsBracket(body[p]))
    && (!ins ==> !IsBracket(body[p]) && IsKey(body[p], key))
  }

  lemma {:induction false} BodyPlace(ls: seq<string>, key: string, a: string) returns (p: nat, ins: bool)
    ensures BodySpot(ls, key, p, ins) && PutInBody(ls, key, a) == Put(ls, p, ins, a)
    decreases |ls|
  {
    if ls == [] || IsBracket(ls[0]) {
      p, ins := 0, true;
      assert ls[..0] + [a] + ls[0..] == [a] + ls;
    } else if IsKey(ls[0], key) {
      p, ins := 0, false;
      assert ls[0 := a] == [a] + ls[1..];
    } else {
      var q, more := BodyPlace(ls[1..], key, a);
      p, ins := q + 1, more;
      BodyStep(ls, q, ins, a);
    }
  }

  lemma BodyStep(ls: seq<string>, q: nat, ins: bool, a: string)
    requires ls != [] && if ins then q < |ls| else q + 1 < |ls|
    ensures Put(ls, q + 1, ins, a) == [ls[0]] + Put(ls[1..], q, ins, a)
  {
    assert ls == [ls[0]] + ls[1..];
    if ins {
      assert ls[..q + 1] == [ls[0]] + ls[1..][..q] && ls[q + 1..] == ls[1..][q..];
    } else {
      assert ls[q + 1 := a] == [ls[0]] + ls[1..][q := a];
    }
  }

  /** The line of the step is put in place of line `p`, or in front of it. */
  ghost predicate PutAt(ls: seq<string>, s: Step, p: nat, ins: bool) {
    && (if ins then p <= |ls| else p < |ls|)
    && (ins ==> forall i :: 0 <= i < |ls| ==> !Replaces(ls, s, i))
    && (!ins ==> Replaces(ls, s, p) && forall i :: 0 <= i < |ls| && Replaces(ls, s, i) ==> i == p)
    && (ls != [] ==> (ins && p == |ls| <==> AddsBehind(ls, s)))
  }

  lemma TopPlace(ls: seq<string>, s: Step) returns (p: nat, ins: bool)
    requires GoodStep(s) && !Looks(ls, s)
    ensures PutAt(ls, s, p, ins) && Edited(ls, s) == Put(ls, p, ins, LineOf(s))
  {
    if TopLookup(ls, s.key).Some? {
      p := FirstKeyAt(ls, s.key, LineOf(s));
      ins := false;
    } else {
      NoKey(ls, s.key);
      p, ins := 0, true;
      assert ls[..0] + [LineOf(s)] + ls[0..] == [LineOf(s)] + ls;
    }
  }

  lemma OnlyStart(ls: seq<string>, header: string, n: nat)
    requires IsStart(ls, header, n)
    ensures forall m :: 0 <= m < |ls| && IsStart(ls, header, m) ==> m == n
  {
  }

  /** What holds of the lines behind a header, by their place in the whole. */
  lemma BodyInWhole(ls: seq<string>, n: nat, body: seq<string>, q: nat, s: Step)
    requires n < |ls| && body == ls[n + 1..] && q <= |body|
    requires forall j :: 0 <= j < q ==> !IsBracket(body[j]) && !IsKey(body[j], s.key)
    ensures FreeBetween(ls, s, true, n, n + 1 + q)
  {
    forall j | n < j < n + 1 + q ensures Free(ls[j], s, true) {
      assert ls[j] == body[j - n - 1];
    }
  }

  lemma BodyPutAt(ls: seq<string>, s: Step, n: nat, body: seq<string>, q: nat, ins: bool)
    requires Looks(ls, s) && IsStart(ls, s.header, n) && body == ls[n + 1..] && BodySpot(body, s.key, q, ins)
    ensures PutAt(ls, s, n + 1 + q, ins)
  {
    OnlyStart(ls, s.header, n);
    BodyInWhole(ls, n, body, q, s);
    assert q < |body| ==> ls[n + 1 + q] == body[q];
    TablePutAt(ls, s, n, n + 1 + q, ins);
  }

  lemma EditStart(ls: seq<string>, s: Step) returns (n: nat)
    requires !s.Top? && HasHeader(ls, s.header)
    ensures IsStart(ls, s.header, n)
    ensures Edited(ls, s) == ls[..n + 1] + PutInBody(ls[n + 1..], s.key, LineOf(s))
  {
    n := TableStart(ls, s.header, s.key, LineOf(s));
  }

  /** The place in the table's body, and what the lines behind the header become. */
  lemma BodyPlaceAt(ls: seq<string>, s: Step, n: nat) returns (put: seq<string>, p: nat, ins: bool)
    requires Looks(ls, s) && IsStart(ls, s.header, n)
    ensures PutAt(ls, s, p, ins) && put == PutInBody(ls[n + 1..], s.key, LineOf(s))
    ensures ls[..n + 1] + put == Put(ls, p, ins, LineOf(s))
  {
    var body := ls[n + 1..];
    var q;
    put := PutInBody(body, s.key, LineOf(s));
    q, ins := BodyPlace(body, s.key, LineOf(s));
    p := n + 1 + q;
    BodyPutAt(ls, s, n, body, q, ins);
    TableShape(ls, n, body, q, ins, LineOf(s));
  }

  lemma TablePlace(ls: seq<string>, s: Step) returns (p: nat, ins: bool)
    requires !s.Top? && HasHeader(ls, s.header)
    ensures PutAt(ls, s, p, ins) && Edited(ls, s) == Put(ls, p, ins, LineOf(s))
  {
    var n := EditStart(ls, s);
    var put;
    put, p, ins := BodyPlaceAt(ls, s, n);
  }

  lemma TableShape(ls: seq<string>, n: nat, body: seq<string>, q: nat, ins: bool, a: string)
    requires n < |ls| && body == ls[n + 1..] && if ins then q <= |body| else q < |body|
    ensures ls[..n + 1] + Put(body, q, ins, a) == Put(ls, n + 1 + q, ins, a)
  {
    assert ls == ls[..n + 1] + body;
    if ins {
      assert ls[..n + 1 + q] == ls[..n + 1] + body[..q] && ls[n + 1 + q..] == body[q..];
    } else {
      assert ls[n + 1 + q := a] == ls[..n + 1] + body[q := a];
    }
  }

  lemma TablePutAt(ls: seq<string>, s: Step, n: nat, p: nat, ins: bool)
    requires Looks(ls, s) && IsStart(ls, s.header, n) && n < p && (if ins then p <= |ls| else p < |ls|)
    requires forall m :: 0 <= m < |ls| && IsStart(ls, s.header, m) ==> m == n
    requires FreeBetween(ls, s, true, n, p)
    requires ins && p < |ls| ==> IsBracket(ls[p])
    requires !ins ==> !IsBracket(ls[p]) && IsKey(ls[p], s.key)
    ensures PutAt(ls, s, p, ins)
  {
  }

  lemma EditPlace(ls: seq<string>, s: Step) returns (p: nat, ins: bool)
    requires GoodStep(s) && !Creates(ls, s)
    ensures PutAt(ls, s, p, ins) && Edited(ls, s) == Put(ls, p, ins, LineOf(s))
  {
    if Looks(ls, s) {
      p, ins := TablePlace(ls, s);
    } else {
      p, ins := TopPlace(ls, s);
    }
  }

  // ---- Other steps see the same lines ------------------------------------------------------

  function Shift(p: nat, ins: bool, i: nat): nat {
    if ins && i >= p then i + 1 else i
  }

  predicate SameMarks(k: string, l: string, s: Step) {
    && IsKey(k, s.key) == IsKey(l, s.key) && IsBracket(k) == IsBracket(l)
    && (s.Top? || IsHeader(k, s.header) == IsHeader(l, s.header))
  }

  predicate Unmarked(l: string, s: Step) {
    !IsKey(l, s.key) && !IsBracket(l) && (s.Top? || !IsHeader(l, s.header))
  }

  /** `r` is `ls` as far as the step can tell, but for a line that it does not see at `p`. */
  ghost predicate Aligned(ls: seq<string>, r: seq<string>, p: nat, ins: bool, s: Step) {
    && p <= |ls| && |r| == |ls| + (if ins then 1 else 0)
    && (forall i :: 0 <= i < |ls| ==> SameMarks(ls[i], r[Shift(p, ins, i)], s))
    && (ins ==> Unmarked(r[p], s))
  }

  /** Every line of `r` but the unseen one comes from a line of `ls`. */
  lemma AlignedBack(ls: seq<string>, r: seq<string>, p: nat, ins: bool, s: Step, j: nat) returns (i: nat)
    requires Aligned(ls, r, p, ins, s) && j < |r| && !(ins && j == p)
    ensures i < |ls| && Shift(p, ins, i) == j && SameMarks(ls[i], r[j], s)
  {
    i := if ins && j > p then j - 1 else j;
  }

  lemma AlignedStart(ls: seq<string>, r: seq<string>, p: nat, ins: bool, s: Step, n: nat)
    requires Aligned(ls, r, p, ins, s) && !s.Top? && n < |ls|
    ensures IsStart(ls, s.header, n) <==> IsStart(r, s.header, Shift(p, ins, n))
  {
    if IsStart(ls, s.header, n) {
      forall j | 0 <= j < Shift(p, ins, n) ensures !IsHeader(r[j], s.header) {
        if !(ins && j == p) {
          var i := AlignedBack(ls, r, p, ins, s, j);
        }
      }
    }
    if IsStart(r, s.header, Shift(p, ins, n)) {
      forall i | 0 <= i < n ensures !IsHeader(ls[i], s.header) {
        assert SameMarks(ls[i], r[Shift(p, ins, i)], s);
      }
    }
  }

  lemma AlignedHeaders(ls: seq<string>, r: seq<string>, p: nat, ins: bool, s: Step)
    requires Aligned(ls, r, p, ins, s) && !s.Top?
    ensures HasHeader(ls, s.header) <==> HasHeader(r, s.header)
  {
    if HasHeader(ls, s.header) {
      var i :| 0 <= i < |ls| && IsHeader(ls[i], s.header);
      assert IsHeader(r[Shift(p, ins, i)], s.header);
    }
    if HasHeader(r, s.header) {
      var j :| 0 <= j < |r| && IsHeader(r[j], s.header);
      var i := AlignedBack(ls, r, p, ins, s, j);
    }
  }

  lemma AlignedLooks(ls: seq<string>, r: seq<string>, p: nat, ins: bool, s: Step)
    requires Aligned(ls, r, p, ins, s)
    ensures Looks(ls, s) == Looks(r, s) && Creates(ls, s) == Creates(r, s)
  {
    if !s.Top? {
      AlignedHeaders(ls, r, p, ins, s);
    }
  }

  function ShiftFrom(p: nat, ins: bool, n: int): int
    requires n >= -1
  {
    if n < 0 then -1 else Shift(p, ins, n)
  }

  /** The image of the end of the lines is the end of the lines. */
  function ShiftEnd(ls: seq<string>, p: nat, ins: bool, i: nat): nat {
    if i == |ls| then |ls| + (if ins then 1 else 0) else Shift(p, ins, i)
  }

  lemma AlignedFree(ls: seq<string>, r: seq<string>, p: nat, ins: bool, s: Step, tables: bool, n: int, i: nat)
    requires Aligned(ls, r, p, ins, s) && FreeBetween(ls, s, tables, n, i)
    ensures FreeBetween(r, s, tables, ShiftFrom(p, ins, n), ShiftEnd(ls, p, ins, i))
  {
    forall j | ShiftFrom(p, ins, n) < j < ShiftEnd(ls, p, ins, i) ensures Free(r[j], s, tables) {
      if !(ins && j == p) {
        var k := AlignedBack(ls, r, p, ins, s, j);
        assert Free(ls[k], s, tables);
      }
    }
  }

  lemma AlignedFreeBack(ls: seq<string>, r: seq<string>, p: nat, ins: bool, s: Step, tables: bool, n: int, i: nat)
    requires Aligned(ls, r, p, ins, s) && -1 <= n < i <= |ls|
    requires FreeBetween(r, s, tables, ShiftFrom(p, ins, n), ShiftEnd(ls, p, ins, i))
    ensures FreeBetween(ls, s, tables, n, i)
  {
    forall k | n < k < i ensures Free(ls[k], s, tables) {
      assert SameMarks(ls[k], r[Shift(p, ins, k)], s);
      assert Free(r[Shift(p, ins, k)], s, tables);
    }
  }

  lemma AlignedReplaces(ls: seq<string>, r: seq<string>, p: nat, ins: bool, s: Step, i: nat)
    requires Aligned(ls, r, p, ins, s) && i < |ls|
    ensures Replaces(ls, s, i) <==> Replaces(r, s, Shift(p, ins, i))
  {
    AlignedLooks(ls, r, p, ins, s);
    assert SameMarks(ls[i], r[Shift(p, ins, i)], s);
    if Replaces(ls, s, i) {
      if Looks(ls, s) {
        var n :| 0 <= n < i && IsStart(ls, s.header, n) && FreeBetween(ls, s, true, n, i);
        AlignedStart(ls, r, p, ins, s, n);
        AlignedFree(ls, r, p, ins, s, true, n, i);
      } else {
        AlignedFree(ls, r, p, ins, s, false, -1, i);
      }
    }
    if Replaces(r, s, Shift(p, ins, i)) {
      if Looks(ls, s) {
        var m :| 0 <= m < Shift(p, ins, i) && IsStart(r, s.header, m) && FreeBetween(r, s, true, m, Shift(p, ins, i));
        var n := AlignedBack(ls, r, p, ins, s, m);
        AlignedStart(ls, r, p, ins, s, n);
        AlignedFreeBack(ls, r, p, ins, s, true, n, i);
      } else {
        AlignedFreeBack(ls, r, p, ins, s, false, -1, i);
      }
    }
  }

  lemma AlignedAdds(ls: seq<string>, r: seq<string>, p: nat, ins: bool, s: Step)
    requires Aligned(ls, r, p, ins, s)
    ensures AddsBehind(ls, s) <==> AddsBehind(r, s)
  {
    if AddsBehind(ls, s) {
      var n :| 0 <= n < |ls| && IsStart(ls, s.header, n) && FreeBetween(ls, s, true, n, |ls|);
      AlignedStart(ls, r, p, ins, s, n);
      AlignedFree(ls, r, p, ins, s, true, n, |ls|);
    }
    if AddsBehind(r, s) {
      var m :| 0 <= m < |r| && IsStart(r, s.header, m) && FreeBetween(r, s, true, m, |r|);
      var n := AlignedBack(ls, r, p, ins, s, m);
      AlignedStart(ls, r, p, ins, s, n);
      AlignedFreeBack(ls, r, p, ins, s, true, n, |ls|);
    }
  }

  // ---- Through a rewrite -------------------------------------------------------------------

  lemma {:induction false} ChompAt(ls: seq<string>, nl: bool)
    ensures |Chomp(ls, nl)| == |ls|
    ensures forall i :: 0 <= i < Ended(ls, nl) ==> Chomp(ls, nl)[i] == StripCr(ls[i])
    ensures !nl && ls != [] ==> Chomp(ls, nl)[|ls| - 1] == ls[|ls| - 1]
    decreases |ls|
  {
    if |ls| > 1 {
      ChompAt(ls[1..], nl);
    }
  }

  lemma ChompMarks(l: string, c: string, s: Step)
    requires GoodStep(s) && (c == l || c == StripCr(l))
    ensures SameMarks(l, c, s)
  {
    StripCrSeen(l, s.key, if s.Top? then "" else s.header);
  }

  /** A line that assigns another key is not seen. */
  lemma OtherKeyUnmarked(l: string, key: string, s: Step)
    requires GoodStep(s) && GoodKey(key) && key != s.key && IsKey(l, key)
    ensures Unmarked(l, s)
  {
    KeysApart(l, key, s.key);
    KeyNotBracket(l, key);
    if !s.Top? && IsHeader(l, s.header) {
      HeaderIsBracket(l, s.header);
    }
  }

  /** A line as another step sees it, before and after an edit. */
  lemma EditMark(was: string, put: string, now: string, s: Step, s2: Step)
    requires GoodStep(s) && GoodStep(s2) && s.key != s2.key && (now == put || now == StripCr(put))
    requires put == was || (IsKey(was, s.key) && IsKey(put, s.key))
    ensures SameMarks(was, now, s2)
  {
    ChompMarks(put, now, s2);
    if put != was {
      OtherKeyUnmarked(was, s.key, s2);
      OtherKeyUnmarked(put, s.key, s2);
    }
  }

  lemma PutLines(ls: seq<string>, s: Step, p: nat, ins: bool)
    requires PutAt(ls, s, p, ins) && IsKey(LineOf(s), s.key)
    ensures var x := Put(ls, p, ins, LineOf(s));
            && |x| == |ls| + (if ins then 1 else 0) && p < |x| && x[p] == LineOf(s)
            && forall i :: 0 <= i < |ls| ==>
                 && Shift(p, ins, i) < |x|
                 && (x[Shift(p, ins, i)] == ls[i] || (IsKey(ls[i], s.key) && x[Shift(p, ins, i)] == LineOf(s)))
  {
  }

  lemma EditAligned(ls: seq<string>, s: Step, p: nat, ins: bool, nl: bool, s2: Step)
    requires GoodStep(s) && GoodStep(s2) && s.key != s2.key && PutAt(ls, s, p, ins)
    ensures Aligned(ls, Chomp(Put(ls, p, ins, LineOf(s)), nl), p, ins, s2)
  {
    var a := LineOf(s);
    var x := Put(ls, p, ins, a);
    var r := Chomp(x, nl);
    AssignmentLine(s.key, s.value);
    PutLines(ls, s, p, ins);
    ChompSoftens(x, nl);
    OtherKeyUnmarked(a, s.key, s2);
    ChompMarks(x[p], r[p], s2);
    forall i | 0 <= i < |ls| ensures SameMarks(ls[i], r[Shift(p, ins, i)], s2) {
      EditMark(ls[i], x[Shift(p, ins, i)], r[Shift(p, ins, i)], s, s2);
    }
  }

  /** The steps tell `ls` and `r` apart by the line at `p` at most. */
  ghost predicate AllAligned(ls: seq<string>, r: seq<string>, p: nat, ins: bool, steps: seq<Step>) {
    forall s <- steps :: Aligned(ls, r, p, ins, s)
  }

  lemma {:induction false} EditsSame(ls: seq<string>, r: seq<string>, steps: seq<Step>)
    requires forall s <- steps :: s.Top? || (HasHeader(ls, s.header) <==> HasHeader(r, s.header))
    ensures Edits(ls, steps) == Edits(r, steps)
    decreases |steps|
  {
    if steps != [] {
      if Creates(ls, steps[0]) {
        var h := steps[0].header;
        forall s | s in steps[1..] && !s.Top? ensures HasHeader(ls + [h], s.header) <==> HasHeader(r + [h], s.header) {
          HeaderAppended(ls, h, s.header);
          HeaderAppended(r, h, s.header);
        }
        EditsSame(ls + [h], r + [h], steps[1..]);
      } else {
        EditsSame(ls, r, steps[1..]);
      }
    }
  }

  lemma HeaderAppended(ls: seq<string>, l: string, header: string)
    ensures HasHeader(ls + [l], header) <==> HasHeader(ls, header) || IsHeader(l, header)
  {
    if HasHeader(ls, header) {
      var x :| x in ls && IsHeader(x, header);
      assert x in ls + [l];
    }
    if IsHeader(l, header) {
      assert l in ls + [l];
    }
  }

  lemma AlignedEdits(ls: seq<string>, r: seq<string>, p: nat, ins: bool, steps: seq<Step>)
    requires AllAligned(ls, r, p, ins, steps)
    ensures Edits(ls, steps) == Edits(r, steps)
  {
    forall s | s in steps && !s.Top? ensures HasHeader(ls, s.header) <==> HasHeader(r, s.header) {
      AlignedHeaders(ls, r, p, ins, s);
    }
    EditsSame(ls, r, steps);
  }

  lemma AlignedKept(ls: seq<string>, r: seq<string>, p: nat, ins: bool, steps: seq<Step>, i: nat)
    requires AllAligned(ls, r, p, ins, steps) && i < |ls|
    ensures Kept(ls, steps, i) <==> Kept(r, steps, Shift(p, ins, i))
  {
    forall s | s in steps ensures Replaces(ls, s, i) <==> Replaces(r, s, Shift(p, ins, i)) {
      AlignedReplaces(ls, r, p, ins, s, i);
    }
  }

  lemma {:induction false} AlignedAllowance(ls: seq<string>, r: seq<string>, p: nat, ins: bool, steps: seq<Step>)
    requires AllAligned(ls, r, p, ins, steps)
    ensures LastAllowance(ls, steps) == LastAllowance(r, steps)
    decreases |steps|
  {
    if steps != [] {
      var s := steps[0];
      AlignedLooks(ls, r, p, ins, s);
      AlignedAdds(ls, r, p, ins, s);
      AlignedEdits(ls, r, p, ins, steps);
      AlignedEdits(ls, r, p, ins, steps[1..]);
      AlignedAllowance(ls, r, p, ins, steps[1..]);
    }
  }

  // Terminated lines, before the step and after it.

  ghost predicate EndedFit(ls: seq<string>, nl: bool, steps: seq<Step>, limit: nat) {
    forall i :: 0 <= i < Ended(ls, nl) && Kept(ls, steps, i) ==> TrailCr(ls[i]) < limit
  }

  /** The lines as put, before their ends are dropped; `r` is what they then read as. */
  ghost predicate PutFit(x: seq<string>, r: seq<string>, nl: bool, steps: seq<Step>, limit: nat)
    requires |x| == |r|
  {
    forall j :: 0 <= j < Ended(x, nl) && Kept(r, steps, j) ==> TrailCr(x[j]) < limit
  }

  lemma ChompFits(x: seq<string>, nl: bool, steps: seq<Step>, limit: nat)
    requires limit > 0
    ensures |Chomp(x, nl)| == |x|
    ensures EndedFit(Chomp(x, nl), nl, steps, limit) <==> PutFit(x, Chomp(x, nl), nl, steps, limit + 1)
  {
    ChompAt(x, nl);
    var r := Chomp(x, nl);
    forall j | 0 <= j < Ended(x, nl) ensures TrailCr(r[j]) < limit <==> TrailCr(x[j]) < limit + 1 {
      TrailCrFacts(x[j]);
    }
  }

  /** Which lines are kept, before the step and after it. */
  ghost predicate KeptAlike(ls: seq<string>, r: seq<string>, s: Step, p: nat, ins: bool, rest: seq<Step>) {
    forall i :: 0 <= i < |ls| ==>
      (Kept(ls, [s] + rest, i) <==> !Replaces(ls, s, i) && Kept(r, rest, Shift(p, ins, i)))
  }

  lemma AlignedKeptAlike(ls: seq<string>, r: seq<string>, s: Step, p: nat, ins: bool, rest: seq<Step>)
    requires AllAligned(ls, r, p, ins, rest)
    ensures KeptAlike(ls, r, s, p, ins, rest)
  {
    forall i | 0 <= i < |ls|
      ensures Kept(ls, [s] + rest, i) <==> !Replaces(ls, s, i) && Kept(r, rest, Shift(p, ins, i))
    {
      AlignedKept(ls, r, p, ins, rest, i);
      KeptCons(ls, s, rest, i);
    }
  }

  /** The terminated lines of the result come from those of the input, unless the last line had
      something put behind it. */
  lemma EndedFromInput(ls: seq<string>, x: seq<string>, r: seq<string>, s: Step, p: nat, ins: bool, nl: bool, rest: seq<Step>, limit: nat)
    requires PutAt(ls, s, p, ins) && x == Put(ls, p, ins, LineOf(s)) && |r| == |x| && TrailCr(LineOf(s)) == 0 && limit > 0
    requires KeptAlike(ls, r, s, p, ins, rest) && (nl || ls == [] || !(ins && p == |ls|))
    requires EndedFit(ls, nl, [s] + rest, limit)
    ensures PutFit(x, r, nl, rest, limit)
  {
    forall j | 0 <= j < Ended(x, nl) && Kept(r, rest, j) ensures TrailCr(x[j]) < limit {
      if j == p {
        assert x[j] == LineOf(s);
      } else {
        var i := if ins && j > p then j - 1 else j;
        assert Shift(p, ins, i) == j && x[j] == ls[i];
        assert Kept(ls, [s] + rest, i);
      }
    }
  }

  lemma EndedToInput(ls: seq<string>, x: seq<string>, r: seq<string>, s: Step, p: nat, ins: bool, nl: bool, rest: seq<Step>, limit: nat)
    requires PutAt(ls, s, p, ins) && x == Put(ls, p, ins, LineOf(s)) && |r| == |x|
    requires KeptAlike(ls, r, s, p, ins, rest) && PutFit(x, r, nl, rest, limit)
    ensures EndedFit(ls, nl, [s] + rest, limit)
  {
    forall i | 0 <= i < Ended(ls, nl) && Kept(ls, [s] + rest, i) ensures TrailCr(ls[i]) < limit {
      assert i != p || ins;
      assert x[Shift(p, ins, i)] == ls[i];
      assert Kept(r, rest, Shift(p, ins, i));
    }
  }

  lemma KeptCons(ls: seq<string>, s: Step, rest: seq<Step>, i: nat)
    ensures Kept(ls, [s] + rest, i) <==> !Replaces(ls, s, i) && Kept(ls, rest, i)
  {
    if !Replaces(ls, s, i) && Kept(ls, rest, i) {
      forall x | x in [s] + rest ensures !Replaces(ls, x, i) {
        assert x == s || x in rest;
      }
    }
    if Kept(ls, [s] + rest, i) {
      assert s in [s] + rest;
      assert forall x <- rest :: x in [s] + rest;
    }
  }

  lemma ConsSteps(ls: seq<string>, s: Step, rest: seq<Step>)
    ensures Edits(ls, [s] + rest) == if Creates(ls, s) then Edits(ls + [s.header], rest) else 1 + Edits(ls, rest)
    ensures LastAllowance(ls, [s] + rest) ==
            if Creates(ls, s) then Some(Edits(ls + [s.header], rest))
            else if AddsBehind(ls, s) then Some(Edits(ls, rest))
            else LastAllowance(ls, rest)
  {
    assert ([s] + rest)[1..] == rest;
  }

  /** The last line of the result is the step's own, or that of the input. */
  lemma LastThrough(ls: seq<string>, r: seq<string>, s: Step, p: nat, ins: bool, rest: seq<Step>)
    requires ls != [] && !Creates(ls, s) && PutAt(ls, s, p, ins) && AllAligned(ls, r, p, ins, rest)
    requires !(ins && p == |ls|) && !(!ins && p == |ls| - 1)
    requires |r| == |ls| + (if ins then 1 else 0) && r[|r| - 1] == ls[|ls| - 1]
    ensures LastFits(ls, [s] + rest) <==> LastFits(r, rest)
  {
    ConsSteps(ls, s, rest);
    AlignedAllowance(ls, r, p, ins, rest);
    AlignedKeptAlike(ls, r, s, p, ins, rest);
    assert Shift(p, ins, |ls| - 1) == |r| - 1;
    assert !Replaces(ls, s, |ls| - 1);
  }

  lemma BareLastFits(ls: seq<string>, steps: seq<Step>)
    requires ls != [] && TrailCr(ls[|ls| - 1]) == 0
    ensures LastFits(ls, steps)
  {
  }

  /** All lines of the input are terminated once the step's line is behind them. */
  lemma BehindSplit(ls: seq<string>, x: seq<string>, r: seq<string>, s: Step, rest: seq<Step>, limit: nat)
    requires ls != [] && x == ls + [LineOf(s)] && |r| == |x|
    requires forall i :: 0 <= i < |ls| ==> (Kept(ls, [s] + rest, i) <==> Kept(r, rest, i))
    ensures PutFit(x, r, false, rest, limit) <==>
            && EndedFit(ls, false, [s] + rest, limit)
            && (Kept(ls, [s] + rest, |ls| - 1) ==> TrailCr(ls[|ls| - 1]) < limit)
  {
    assert forall i :: 0 <= i < |ls| ==> x[i] == ls[i];
  }

  /** What the rewrite of an unterminated text by a step that adds behind its last line needs. */
  lemma BehindFits(ls: seq<string>, x: seq<string>, r: seq<string>, s: Step, rest: seq<Step>)
    requires ls != [] && !Creates(ls, s) && PutAt(ls, s, |ls|, true) && x == Put(ls, |ls|, true, LineOf(s)) && |r| == |x|
    requires AllAligned(ls, r, |ls|, true, rest)
    ensures Fits(ls, false, [s] + rest) <==> PutFit(x, r, false, rest, Edits(ls, rest) + 1)
  {
    ConsSteps(ls, s, rest);
    AlignedKeptAlike(ls, r, s, |ls|, true, rest);
    forall i | 0 <= i < |ls| ensures Kept(ls, [s] + rest, i) <==> Kept(r, rest, i) {
      assert Shift(|ls|, true, i) == i && !Replaces(ls, s, i);
    }
    assert x == ls + [LineOf(s)];
    BehindSplit(ls, x, r, s, rest, Edits(ls, rest) + 1);
  }

  lemma EndedThrough(ls: seq<string>, x: seq<string>, r: seq<string>, s: Step, p: nat, ins: bool, nl: bool, rest: seq<Step>, limit: nat)
    requires PutAt(ls, s, p, ins) && x == Put(ls, p, ins, LineOf(s)) && |r| == |x| && TrailCr(LineOf(s)) == 0 && limit > 0
    requires AllAligned(ls, r, p, ins, rest) && (nl || ls == [] || !(ins && p == |ls|))
    ensures EndedFit(ls, nl, [s] + rest, limit) <==> PutFit(x, r, nl, rest, limit)
  {
    AlignedKeptAlike(ls, r, s, p, ins, rest);
    if EndedFit(ls, nl, [s] + rest, limit) {
      EndedFromInput(ls, x, r, s, p, ins, nl, rest, limit);
    }
    if PutFit(x, r, nl, rest, limit) {
      EndedToInput(ls, x, r, s, p, ins, nl, rest, limit);
    }
  }

  /** What a rewrite needs, in terms of the lines it leaves. */
  ghost predicate RewriteFits(x: seq<string>, r: seq<string>, nl: bool, rest: seq<Step>, limit: nat)
    requires |x| == |r| && r != []
  {
    PutFit(x, r, nl, rest, limit) && (!nl ==> LastFits(r, rest))
  }

  lemma EditFits(ls: seq<string>, x: seq<string>, r: seq<string>, nl: bool, s: Step, p: nat, ins: bool, rest: seq<Step>)
    requires !Creates(ls, s) && PutAt(ls, s, p, ins) && x == Put(ls, p, ins, LineOf(s)) && TrailCr(LineOf(s)) == 0
    requires AllAligned(ls, r, p, ins, rest) && |r| == |x| && (!nl ==> r[|x| - 1] == x[|x| - 1])
    ensures Fits(ls, nl, [s] + rest) <==> RewriteFits(x, r, nl, rest, Edits(ls, rest) + 1)
  {
    var limit := Edits(ls, rest) + 1;
    ConsSteps(ls, s, rest);
    if !nl && ls != [] && ins && p == |ls| {
      BehindFits(ls, x, r, s, rest);
      BareLastFits(r, rest);
    } else {
      EndedThrough(ls, x, r, s, p, ins, nl, rest, limit);
      if !nl {
        EditLast(ls, x, r, s, p, ins, rest);
      }
      assert Fits(ls, nl, [s] + rest) <==>
          EndedFit(ls, nl, [s] + rest, limit) && (!nl && ls != [] ==> LastFits(ls, [s] + rest));
    }
  }

  lemma EditLast(ls: seq<string>, x: seq<string>, r: seq<string>, s: Step, p: nat, ins: bool, rest: seq<Step>)
    requires !Creates(ls, s) && PutAt(ls, s, p, ins) && x == Put(ls, p, ins, LineOf(s)) && TrailCr(LineOf(s)) == 0
    requires |r| == |x| && r[|x| - 1] == x[|x| - 1] && AllAligned(ls, r, p, ins, rest)
    requires ls == [] || !(ins && p == |ls|)
    ensures (ls != [] ==> LastFits(ls, [s] + rest)) <==> LastFits(r, rest)
  {
    if ls == [] || (!ins && p == |ls| - 1) {
      BareLastFits(r, rest);
      if ls != [] {
        KeptCons(ls, s, rest, |ls| - 1);
      }
    } else {
      LastThrough(ls, r, s, p, ins, rest);
    }
  }

  // ---- Without a rewrite to come -----------------------------------------------------------

  lemma {:induction false} NoEditsCreate(ls: seq<string>, steps: seq<Step>)
    requires Edits(ls, steps) == 0
    ensures forall s <- steps :: s.OrCreate? && !HasHeader(ls, s.header)
    decreases |steps|
  {
    if steps != [] {
      var h := steps[0].header;
      NoEditsCreate(ls + [h], steps[1..]);
      forall s | s in steps[1..] ensures s.OrCreate? && !HasHeader(ls, s.header) {
        HeaderAppended(ls, h, s.header);
      }
    }
  }

  lemma NoEditsKeep(ls: seq<string>, steps: seq<Step>, i: nat)
    requires Edits(ls, steps) == 0
    ensures Kept(ls, steps, i)
  {
    NoEditsCreate(ls, steps);
  }

  lemma OneLineNoCrLf(l: string)
    requires OneLine(l)
    ensures NoCrLf(l)
  {
    assert forall i :: 0 <= i < |l| ==> l[i] in l;
  }

  lemma {:induction false} RenderCleanIff(ls: seq<string>, nl: bool)
    requires AllOneLine(ls) && ls != []
    ensures NoCrLf(Render(ls, nl)) <==> forall i :: 0 <= i < Ended(ls, nl) ==> TrailCr(ls[i]) == 0
    decreases |ls|
  {
    TrailCrFacts(ls[0]);
    if |ls| == 1 {
      OneLineNoCrLf(ls[0]);
      NoCrLfSplit(ls[0], "");
      assert ls[0] + "\n" + "" == ls[0] + "\n" && ls[0] + "" == ls[0];
    } else {
      RenderCleanIff(ls[1..], nl);
      assert ls == [ls[0]] + ls[1..];
      RenderCons(ls[0], ls[1..], nl);
      NoCrLfSplit(ls[0], Render(ls[1..], nl));
      assert forall i :: 0 < i < |ls| ==> ls[i] == ls[1..][i - 1];
    }
  }

  lemma {:induction false} RenderEnds(ls: seq<string>, nl: bool)
    requires AllOneLine(ls) && ls != [] && (nl || ls[|ls| - 1] != "")
    ensures EndsNl(Render(ls, nl)) == nl
    decreases |ls|
  {
    if |ls| == 1 {
      var l := ls[0];
      assert OneLine(l);
      assert Render(ls, nl) == l + if nl then "\n" else "";
      if !nl {
        assert l + "" == l && l[|l| - 1] in l;
      }
    } else {
      RenderEnds(ls[1..], nl);
      assert ls == [ls[0]] + ls[1..];
      RenderCons(ls[0], ls[1..], nl);
      assert Render(ls[1..], nl) != "";
    }
  }

  // ---- One step ----------------------------------------------------------------------------

  /** The text stays free of `\r\n` through the steps. */
  predicate StaysClean(t: string, steps: seq<Step>) {
    var ls := Lines(t);
    if Edits(ls, steps) > 0 then Fits(ls, EndsNl(t), steps)
    else NoCrLf(t) && (!EndsNl(t) && ls != [] ==> LastFits(ls, steps))
  }

  lemma EditShape(t: string, s: Step) returns (x: seq<string>, p: nat, ins: bool)
    requires GoodStep(s) && !Creates(Lines(t), s)
    ensures PutAt(Lines(t), s, p, ins) && x == Put(Lines(t), p, ins, LineOf(s))
    ensures x != [] && AllOneLine(x) && (EndsNl(t) || x[|x| - 1] != "")
    ensures ApplyText(t, s) == Render(x, EndsNl(t)) && Lines(ApplyText(t, s)) == Chomp(x, EndsNl(t))
    ensures EndsNl(ApplyText(t, s)) == EndsNl(t) && TrailCr(LineOf(s)) == 0
  {
    var ls := Lines(t);
    x := Edited(ls, s);
    p, ins := EditPlace(ls, s);
    AssignmentLine(s.key, s.value);
    TrailCrFacts(LineOf(s));
    EditGrows(ls, s);
    LinesAreLines(t);
    EditRenders(t, s);
    RenderEnds(x, EndsNl(t));
  }

  lemma AllAlignedAfter(ls: seq<string>, s: Step, p: nat, ins: bool, nl: bool, rest: seq<Step>)
    requires GoodStep(s) && PutAt(ls, s, p, ins) && forall s2 <- rest :: GoodStep(s2) && s.key != s2.key
    ensures AllAligned(ls, Chomp(Put(ls, p, ins, LineOf(s)), nl), p, ins, rest)
  {
    forall s2 | s2 in rest ensures Aligned(ls, Chomp(Put(ls, p, ins, LineOf(s)), nl), p, ins, s2) {
      EditAligned(ls, s, p, ins, nl, s2);
    }
  }

  /** With no rewrite to come, what fits is what is clean. */
  lemma CleanWithoutEdits(x: seq<string>, nl: bool, rest: seq<Step>)
    requires x != [] && AllOneLine(x) && Edits(Chomp(x, nl), rest) == 0 && |Chomp(x, nl)| == |x|
    ensures PutFit(x, Chomp(x, nl), nl, rest, 1) <==> NoCrLf(Render(x, nl))
  {
    RenderCleanIff(x, nl);
    forall j | 0 <= j < |x| ensures Kept(Chomp(x, nl), rest, j) {
      NoEditsKeep(Chomp(x, nl), rest, j);
    }
  }

  lemma EditStep(t: string, s: Step, rest: seq<Step>)
    requires GoodStep(s) && !Creates(Lines(t), s) && forall s2 <- rest :: GoodStep(s2) && s.key != s2.key
    ensures StaysClean(t, [s] + rest) <==> StaysClean(ApplyText(t, s), rest)
  {
    var ls, nl := Lines(t), EndsNl(t);
    var x, p, ins := EditShape(t, s);
    var r := Chomp(x, nl);
    ChompAt(x, nl);
    AllAlignedAfter(ls, s, p, ins, nl, rest);
    AlignedEdits(ls, r, p, ins, rest);
    ConsSteps(ls, s, rest);
    EditFits(ls, x, r, nl, s, p, ins, rest);
    if Edits(ls, rest) > 0 {
      ChompFits(x, nl, rest, Edits(ls, rest));
    } else {
      CleanWithoutEdits(x, nl, rest);
    }
  }

  // ---- Through a created table -------------------------------------------------------------

  lemma SoftAligned(ls: seq<string>, soft: seq<string>, s: Step)
    requires GoodStep(s) && Softened(ls, soft)
    ensures Aligned(ls, soft, |ls|, false, s)
  {
    forall i | 0 <= i < |ls| ensures SameMarks(ls[i], soft[Shift(|ls|, false, i)], s) {
      ChompMarks(ls[i], soft[i], s);
    }
  }

  /** Lines appended behind do not change what is replaced before them. */
  lemma AppendedReplaces(ls: seq<string>, tail: seq<string>, s: Step, i: nat)
    requires i < |ls| && Looks(ls, s) == Looks(ls + tail, s)
    ensures Replaces(ls, s, i) <==> Replaces(ls + tail, s, i)
  {
    var r := ls + tail;
    assert forall j :: 0 <= j < |ls| ==> r[j] == ls[j];
    if Looks(ls, s) {
      forall n | 0 <= n < i
        ensures IsStart(ls, s.header, n) <==> IsStart(r, s.header, n)
        ensures FreeBetween(ls, s, true, n, i) <==> FreeBetween(r, s, true, n, i)
      {
      }
    } else {
      assert FreeBetween(ls, s, false, -1, i) <==> FreeBetween(r, s, false, -1, i);
    }
  }

  lemma CreatedLooks(base: seq<string>, s: Step, s2: Step)
    requires GoodStep(s) && GoodStep(s2) && s.OrCreate? && Independent(s, s2)
    ensures Looks(base, s2) == Looks(base + ["", s.header, LineOf(s)], s2)
  {
    AssignmentLine(s.key, s.value);
    if s2.InTable? {
      CreatedHeaders(base, s.header, LineOf(s), s2.header);
    }
  }

  lemma CreatedKept(ls: seq<string>, base: seq<string>, s: Step, rest: seq<Step>, i: nat)
    requires GoodStep(s) && Creates(ls, s) && Softened(ls, base) && i < |ls|
    requires forall s2 <- rest :: GoodStep(s2) && Independent(s, s2)
    ensures Kept(ls, [s] + rest, i) <==> Kept(base + ["", s.header, LineOf(s)], rest, i)
  {
    var tail := ["", s.header, LineOf(s)];
    forall s2 | s2 in rest ensures Replaces(ls, s2, i) <==> Replaces(base + tail, s2, i) {
      SoftAligned(ls, base, s2);
      AlignedReplaces(ls, base, |ls|, false, s2, i);
      CreatedLooks(base, s, s2);
      AppendedReplaces(base, tail, s2, i);
    }
    KeptCons(ls, s, rest, i);
    assert !Replaces(ls, s, i);
  }

  lemma CreatedEdits(ls: seq<string>, base: seq<string>, s: Step, rest: seq<Step>)
    requires GoodStep(s) && Creates(ls, s) && Softened(ls, base)
    requires forall s2 <- rest :: GoodStep(s2)
    ensures Edits(ls + [s.header], rest) == Edits(base + ["", s.header, LineOf(s)], rest)
  {
    var r := base + ["", s.header, LineOf(s)];
    AssignmentLine(s.key, s.value);
    HeaderLine(s.header);
    forall s2 | s2 in rest && !s2.Top? ensures HasHeader(ls + [s.header], s2.header) <==> HasHeader(r, s2.header) {
      HeaderAppended(ls, s.header, s2.header);
      SoftAligned(ls, base, s2);
      AlignedHeaders(ls, base, |ls|, false, s2);
      if s2.header == s.header {
        assert r[|base| + 1] == s.header && s.header in r;
      } else {
        CreatedHeaders(base, s.header, LineOf(s), s2.header);
      }
    }
    EditsSame(ls + [s.header], r, rest);
  }

  /** The lines of the text before the table, line by line. */
  lemma BaseLines(t: string)
    requires t != ""
    ensures Softened(Lines(t), Base(t))
    ensures EndsNl(t) ==> Base(t) == Lines(t)
    ensures !EndsNl(t) ==> Lines(t) != [] && Base(t) == LastStripped(Lines(t))
  {
    BaseSoftens(t);
    if !EndsNl(t) {
      LinesTerminated(t);
    }
  }

  lemma CreatedFits(ls: seq<string>, base: seq<string>, nl: bool, s: Step, rest: seq<Step>, limit: nat)
    requires GoodStep(s) && Creates(ls, s) && Softened(ls, base) && limit > 0
    requires forall s2 <- rest :: GoodStep(s2) && Independent(s, s2)
    requires if nl then base == ls else ls != [] && base == LastStripped(ls)
    ensures EndedFit(base + ["", s.header, LineOf(s)], true, rest, limit) <==>
            && EndedFit(ls, nl, [s] + rest, limit)
            && (!nl && Kept(ls, [s] + rest, |ls| - 1) ==> TrailCr(ls[|ls| - 1]) <= limit)
  {
    var r := base + ["", s.header, LineOf(s)];
    AssignmentLine(s.key, s.value);
    TrailCrFacts(LineOf(s));
    forall i | 0 <= i < |ls| ensures Kept(ls, [s] + rest, i) <==> Kept(r, rest, i) {
      CreatedKept(ls, base, s, rest, i);
    }
    assert forall i :: 0 <= i < Ended(ls, nl) ==> r[i] == ls[i];
    assert TrailCr("") == 0 && TrailCr(s.header) == 0;
    assert forall i :: |ls| <= i < |r| ==> TrailCr(r[i]) == 0;
    if !nl {
      TrailCrFacts(ls[|ls| - 1]);
      assert r[|ls| - 1] == StripCr(ls[|ls| - 1]);
    }
  }

  lemma NoCrLfConcat(a: string, b: string)
    requires NoCrLf(a) && NoCrLf(b) && StripCr(a) == a
    ensures NoCrLf(a + b)
  {
    var s := a + b;
    forall i | 0 <= i < |s| - 1 ensures !(s[i] == '\r' && s[i + 1] == '\n') {
      if i + 1 < |a| {
        assert s[i + 1] == a[i + 1];
      } else if i >= |a| {
        assert s[i] == b[i - |a|] && s[i + 1] == b[i + 1 - |a|];
      }
    }
  }

  lemma CreatedNoCrLf(h: string, a: string)
    requires GoodHeader(h) && OneLine(a) && StripCr(a) == a
    ensures NoCrLf("\n" + h + "\n" + a + "\n")
  {
    OneLineNoCrLf("");
    NoCrLfSplit(a, "");
    NoCrLfSplit(h, a + "\n" + "");
    NoCrLfSplit("", h + "\n" + (a + "\n" + ""));
    assert "\n" + h + "\n" + a + "\n" == "" + "\n" + (h + "\n" + (a + "\n" + ""));
  }

  lemma PrefixClean(a: string, b: string)
    requires NoCrLf(a + b)
    ensures NoCrLf(a)
  {
    forall i | 0 <= i < |a| - 1 ensures !(a[i] == '\r' && a[i + 1] == '\n') {
      assert (a + b)[i] == a[i] && (a + b)[i + 1] == a[i + 1];
    }
  }

  /** The text ends as its last line does. */
  lemma {:induction false} LastLineEnds(t: string)
    requires t != "" && !EndsNl(t)
    ensures Lines(t) != [] && (StripCr(t) == t <==> TrailCr(Lines(t)[|Lines(t)| - 1]) == 0)
    decreases |t|
  {
    FirstLine(t);
    if OneLine(t) {
      LinesLast(t);
      TrailCrFacts(t);
    } else {
      var l, rest := t[..NlIndex(t)], t[NlIndex(t) + 1..];
      assert Lines(t) == [StripCr(l)] + Lines(rest);
      assert rest[|rest| - 1] == t[|t| - 1];
      LastLineEnds(rest);
    }
  }

  lemma TerminatedCleanIff(t: string)
    requires t != "" && !EndsNl(t)
    ensures NoCrLf(t + "\n") <==> NoCrLf(t) && StripCr(t) == t
  {
    if NoCrLf(t + "\n") {
      PrefixClean(t, "\n");
      assert (t + "\n")[|t| - 1] == t[|t| - 1] && (t + "\n")[|t|] == '\n';
    }
    if NoCrLf(t) && StripCr(t) == t {
      NoCrLfConcat(t, "\n");
    }
  }

  lemma CreatedCleanIff(t: string, s: Step)
    requires GoodStep(s) && Creates(Lines(t), s) && NonBlank(t)
    ensures EndsNl(ApplyText(t, s))
    ensures NoCrLf(ApplyText(t, s)) <==> NoCrLf(t) && (EndsNl(t) || StripCr(t) == t)
  {
    var start := if EndsNl(t) then t else t + "\n";
    var tail := "\n" + s.header + "\n" + LineOf(s) + "\n";
    AssignmentLine(s.key, s.value);
    CreateAppends(t, s);
    CreatedNoCrLf(s.header, LineOf(s));
    assert t != "" by { BlankIff(t); }
    if !EndsNl(t) {
      TerminatedCleanIff(t);
    }
    if NoCrLf(start + tail) {
      PrefixClean(start, tail);
    }
    if NoCrLf(start) {
      NoCrLfConcat(start, tail);
    }
  }

  lemma CreateStep(t: string, s: Step, rest: seq<Step>)
    requires GoodStep(s) && Creates(Lines(t), s) && NonBlank(t)
    requires forall s2 <- rest :: GoodStep(s2) && Independent(s, s2)
    ensures StaysClean(t, [s] + rest) <==> StaysClean(ApplyText(t, s), rest)
  {
    var ls, nl := Lines(t), EndsNl(t);
    var e := Edits(ls + [s.header], rest);
    assert t != "" by { BlankIff(t); }
    BaseLines(t);
    CreateRenders(t, s);
    CreatedEdits(ls, Base(t), s, rest);
    CreatedCleanIff(t, s);
    ConsSteps(ls, s, rest);
    if e > 0 {
      CreatedFits(ls, Base(t), nl, s, rest, e);
    } else if !nl {
      LastLineEnds(t);
      KeptCons(ls, s, rest, |ls| - 1);
      HeaderlessKeep(ls, s, rest);
    }
  }

  lemma HeaderlessKeep(ls: seq<string>, s: Step, rest: seq<Step>)
    requires ls != [] && Creates(ls, s) && Edits(ls + [s.header], rest) == 0
    ensures Kept(ls, [s] + rest, |ls| - 1)
  {
    ConsSteps(ls, s, rest);
    NoEditsKeep(ls, [s] + rest, |ls| - 1);
  }

  // ---- The whole chain ---------------------------------------------------------------------

  /** The patched text is free of `\r\n` if and only if the input fits. */
  lemma {:induction false} PatchedCleanIff(t: string, steps: seq<Step>)
    requires GoodSteps(steps) && (steps == [] || NonBlank(t) || steps[0].Top?)
    ensures NoCrLf(PatchText(t, steps)) <==> StaysClean(t, steps)
    decreases |steps|
  {
    if steps != [] {
      var s, rest := steps[0], steps[1..];
      var next := ApplyText(t, s);
      assert steps == [s] + rest;
      forall s2 | s2 in rest ensures GoodStep(s2) && Independent(s, s2) {
        var i :| 0 <= i < |rest| && rest[i] == s2;
        assert steps[i + 1] == s2;
      }
      if Creates(Lines(t), s) {
        CreateStep(t, s, rest);
      } else {
        EditStep(t, s, rest);
      }
      StepSets(t, s);
      SetNonBlank(next, s);
      RestGood(steps);
      PatchedCleanIff(next, rest);
    }
  }

  lemma RestGood(steps: seq<Step>)
    requires GoodSteps(steps) && steps != []
    ensures GoodSteps(steps[1..])
  {
  }

  /** A second pass changes nothing if and only if the input fits: every line that no step replaces
      ends with fewer carriage returns than there are rewrites. */
  lemma SecondPassExactly(t: string, steps: seq<Step>)
    requires GoodSteps(steps) && steps != [] && (NonBlank(t) || steps[0].Top?)
    ensures PatchText(PatchText(t, steps), steps) == PatchText(t, steps) <==> StaysClean(t, steps)
  {
    SecondPassIff(t, steps);
    PatchedCleanIff(t, steps);
  }

  /** In particular on texts whose lines end with `\n` or a single `\r\n`, if a step rewrites them. */
  lemma CleanSecondPass(t: string, steps: seq<Step>)
    requires GoodSteps(steps) && steps != [] && (NonBlank(t) || steps[0].Top?) && Edits(Lines(t), steps) > 0
    requires forall l <- Lines(t) :: TrailCr(l) == 0
    ensures PatchText(PatchText(t, steps), steps) == PatchText(t, steps)
  {
    SecondPassExactly(t, steps);
  }

  /** And not if a terminated line that no step replaces ends with as many carriage returns as there
      are rewrites, or more. */
  lemma PiledCrsNotIdempotent(t: string, steps: seq<Step>, i: nat)
    requires GoodSteps(steps) && steps != [] && (NonBlank(t) || steps[0].Top?)
    requires i < Ended(Lines(t), EndsNl(t)) && Kept(Lines(t), steps, i) && TrailCr(Lines(t)[i]) >= Edits(Lines(t), steps) > 0
    ensures PatchText(PatchText(t, steps), steps) != PatchText(t, steps)
  {
    SecondPassExactly(t, steps);
  }
}
