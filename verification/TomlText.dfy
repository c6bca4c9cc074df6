/** Text as the line-based patcher sees it: white space, lines and their endings. */
module TomlText {
  import opened Common

  /** The Unicode `White_Space` property, which `str::trim` goes by. */
  predicate IsSpace(c: char) {
    var n := c as int;
    || 0x9 <= n <= 0xD || n == 0x20 || n == 0x85 || n == 0xA0 || n == 0x1680 || 0x2000 <= n <= 0x200A
    || n == 0x2028 || n == 0x2029 || n == 0x202F || n == 0x205F || n == 0x3000
  }

  function TrimStart(s: string): string {
    if s != "" && IsSpace(s[0]) then TrimStart(s[1..]) else s
  }

  function TrimEnd(s: string): string {
    if s != "" && IsSpace(s[|s| - 1]) then TrimEnd(s[..|s| - 1]) else s
  }

  function Trim(s: string): string {
    TrimEnd(TrimStart(s))
  }

  function StripCr(s: string): string {
    if s != "" && s[|s| - 1] == '\r' then s[..|s| - 1] else s
  }

  predicate EndsNl(s: string) {
    s != "" && s[|s| - 1] == '\n'
  }

  // ---- Lines -------------------------------------------------------------------------------

  function NlIndex(s: string): (i: nat)
    ensures i <= |s|
  {
    if s == "" || s[0] == '\n' then 0 else 1 + NlIndex(s[1..])
  }

  /** `str::lines`: a line ends with `\n` or `\r\n`; the last one may lack its ending, and then
      keeps a trailing `\r`. */
  function Lines(s: string): seq<string> {
    if s == "" then []
    else
      var i := NlIndex(s);
      if i == |s| then [s] else [StripCr(s[..i])] + Lines(s[i + 1..])
  }

  function Join(ls: seq<string>): string {
    if ls == [] then "" else if |ls| == 1 then ls[0] else ls[0] + "\n" + Join(ls[1..])
  }

  /** How every rewrite ends: the lines joined, with the final line ending the content had. */
  function Finish(ls: seq<string>, content: string): string {
    var r := Join(ls);
    if EndsNl(content) || r == "" then r + "\n" else r
  }

  ghost predicate OneLine(s: string) {
    '\n' !in s
  }

  ghost predicate AllOneLine(ls: seq<string>) {
    forall l <- ls :: OneLine(l)
  }

  /** What a rendering of the lines reads as: a line that is terminated loses a trailing `\r`. */
  ghost function Chomp(ls: seq<string>, nl: bool): seq<string> {
    if ls == [] then []
    else if |ls| == 1 then [if nl then StripCr(ls[0]) else ls[0]]
    else [StripCr(ls[0])] + Chomp(ls[1..], nl)
  }

  ghost function Render(ls: seq<string>, nl: bool): string {
    Join(ls) + if nl then "\n" else ""
  }

  lemma {:induction false} NlIndexAt(l: string, rest: string)
    requires OneLine(l)
    ensures NlIndex(l + "\n" + rest) == |l|
    decreases |l|
  {
    if l != "" {
      assert (l + "\n" + rest)[1..] == l[1..] + "\n" + rest;
      NlIndexAt(l[1..], rest);
    }
  }

  lemma {:induction false} NlIndexNone(l: string)
    requires OneLine(l)
    ensures NlIndex(l) == |l|
    decreases |l|
  {
    if l != "" {
      NlIndexNone(l[1..]);
    }
  }

  lemma LinesCons(l: string, rest: string)
    requires OneLine(l)
    ensures Lines(l + "\n" + rest) == [StripCr(l)] + Lines(rest)
    ensures Norm(l + "\n" + rest) == StripCr(l) + "\n" + Norm(rest)
  {
    NlIndexAt(l, rest);
    var s := l + "\n" + rest;
    assert s[..|l|] == l && s[|l| + 1..] == rest;
  }

  lemma LinesLast(l: string)
    requires OneLine(l) && l != ""
    ensures Lines(l) == [l] && Norm(l) == l
  {
    NlIndexNone(l);
  }

  /** The first line of a text that has a line ending. */
  lemma {:induction false} FirstLine(s: string)
    ensures OneLine(s[..NlIndex(s)])
    ensures OneLine(s) <==> NlIndex(s) == |s|
    ensures !OneLine(s) ==> s == s[..NlIndex(s)] + "\n" + s[NlIndex(s) + 1..]
    decreases |s|
  {
    if s != "" && s[0] != '\n' {
      var rest := s[1..];
      var i := NlIndex(rest);
      FirstLine(rest);
      assert s == [s[0]] + rest;
      assert s[..i + 1] == [s[0]] + rest[..i];
    }
  }

  lemma {:induction false} LinesOfRender(ls: seq<string>, nl: bool)
    requires ls != [] && AllOneLine(ls) && (nl || ls[|ls| - 1] != "")
    ensures Lines(Render(ls, nl)) == Chomp(ls, nl)
    decreases |ls|
  {
    if |ls| == 1 {
      if nl {
        LinesCons(ls[0], "");
        assert Render(ls, nl) == ls[0] + "\n" + "";
      } else {
        LinesLast(ls[0]);
        assert Render(ls, nl) == ls[0];
      }
    } else {
      LinesOfRender(ls[1..], nl);
      LinesCons(ls[0], Render(ls[1..], nl));
      assert Render(ls, nl) == ls[0] + "\n" + Render(ls[1..], nl);
    }
  }

  lemma {:induction false} LinesAreLines(s: string)
    ensures AllOneLine(Lines(s))
    ensures s != "" ==> Lines(s) != []
    ensures Lines(s) != [] && Lines(s)[|Lines(s)| - 1] == "" ==> EndsNl(s)
    decreases |s|
  {
    FirstLine(s);
    var i := NlIndex(s);
    if i < |s| {
      LinesAreLines(s[i + 1..]);
      assert forall c :: c in StripCr(s[..i]) ==> c in s[..i];
    }
  }

  lemma ConcatStep(l: string, rest: string, b: string)
    requires OneLine(l) && Lines(rest + b) == Lines(rest) + Lines(b)
    ensures Lines((l + "\n" + rest) + b) == Lines(l + "\n" + rest) + Lines(b)
  {
    var head := [StripCr(l)];
    calc {
      Lines((l + "\n" + rest) + b);
      { assert (l + "\n" + rest) + b == l + "\n" + (rest + b); }
      Lines(l + "\n" + (rest + b));
      { LinesCons(l, rest + b); }
      head + (Lines(rest) + Lines(b));
      (head + Lines(rest)) + Lines(b);
      { LinesCons(l, rest); }
      Lines(l + "\n" + rest) + Lines(b);
    }
  }

  lemma {:induction false} LinesConcat(a: string, b: string)
    requires a == "" || EndsNl(a)
    ensures Lines(a + b) == Lines(a) + Lines(b)
    decreases |a|
  {
    if a == "" {
      assert a + b == b;
    } else {
      assert a[|a| - 1] in a;
      FirstLine(a);
      var l, rest := a[..NlIndex(a)], a[NlIndex(a) + 1..];
      LinesConcat(rest, b);
      ConcatStep(l, rest, b);
    }
  }

  // ---- Line endings ------------------------------------------------------------------------

  /** Every `\r\n` with its `\r` dropped: what rewriting the lines as they are does to a text. */
  function Norm(s: string): string {
    if s == "" then ""
    else
      var i := NlIndex(s);
      if i == |s| then s else StripCr(s[..i]) + "\n" + Norm(s[i + 1..])
  }

  predicate NoCrLf(s: string) {
    forall i :: 0 <= i < |s| - 1 ==> !(s[i] == '\r' && s[i + 1] == '\n')
  }

  lemma RenderCons(l: string, ls: seq<string>, nl: bool)
    requires ls != [] || nl
    ensures Render([l] + ls, nl) == l + "\n" + if ls == [] then "" else Render(ls, nl)
  {
    if ls != [] {
      assert ([l] + ls)[1..] == ls;
    }
  }

  lemma {:induction false} NormIsRender(s: string)
    requires s != ""
    ensures Norm(s) == Render(Lines(s), EndsNl(s))
    decreases |s|
  {
    if OneLine(s) {
      LinesLast(s);
      assert s[|s| - 1] in s;
    } else {
      FirstLine(s);
      var i := NlIndex(s);
      var l, rest := s[..i], s[i + 1..];
      LinesCons(l, rest);
      LinesAreLines(rest);
      RenderCons(StripCr(l), Lines(rest), EndsNl(s));
      if rest != "" {
        NormIsRender(rest);
      }
    }
  }

  lemma NoCrLfSplit(l: string, rest: string)
    requires OneLine(l)
    ensures NoCrLf(l + "\n" + rest) <==> StripCr(l) == l && NoCrLf(rest)
  {
    var s := l + "\n" + rest;
    if NoCrLf(s) {
      if l != "" {
        assert s[|l| - 1] == l[|l| - 1] && s[|l|] == '\n';
      }
      forall i | 0 <= i < |rest| - 1 ensures !(rest[i] == '\r' && rest[i + 1] == '\n') {
        assert s[|l| + 1 + i] == rest[i] && s[|l| + 1 + i + 1] == rest[i + 1];
      }
    }
    if StripCr(l) == l && NoCrLf(rest) {
      forall i | 0 <= i < |s| - 1 ensures !(s[i] == '\r' && s[i + 1] == '\n') {
        if i + 1 < |l| {
          assert s[i + 1] == l[i + 1];
        } else if i + 1 == |l| {
          assert s[i] == l[i];
        } else if i > |l| {
          assert s[i] == rest[i - |l| - 1] && s[i + 1] == rest[i - |l|];
        }
      }
    }
  }

  lemma {:induction false} NormShortens(s: string)
    ensures |Norm(s)| <= |s|
    ensures NoCrLf(s) ==> Norm(s) == s
    ensures !NoCrLf(s) ==> |Norm(s)| < |s|
    decreases |s|
  {
    FirstLine(s);
    if !OneLine(s) {
      var i := NlIndex(s);
      var l, rest := s[..i], s[i + 1..];
      NormShortens(rest);
      NoCrLfSplit(l, rest);
    }
  }

  // ---- Trimming and endings ----------------------------------------------------------------

  lemma {:induction false} TrimStartCr(s: string)
    ensures TrimStart(s + "\r") == if TrimStart(s) == "" then "" else TrimStart(s) + "\r"
    decreases |s|
  {
    if s == "" {
      assert (s + "\r") == "\r" && "\r"[1..] == "";
    } else if IsSpace(s[0]) {
      assert (s + "\r")[1..] == s[1..] + "\r";
      TrimStartCr(s[1..]);
    }
  }

  lemma TrimCr(s: string)
    ensures Trim(s + "\r") == Trim(s)
  {
    TrimStartCr(s);
    var x := TrimStart(s);
    if x != "" {
      assert (x + "\r")[..|x|] == x;
    }
  }

  lemma StartsCr(s: string, prefix: string)
    requires prefix != "" && '\r' !in prefix
    ensures StartsWith(TrimStart(s + "\r"), prefix) == StartsWith(TrimStart(s), prefix)
  {
    TrimStartCr(s);
    var x := TrimStart(s);
    if x != "" {
      assert (x + "\r")[|x|] == '\r';
      if |prefix| <= |x| {
        assert (x + "\r")[..|prefix|] == x[..|prefix|];
      }
    }
  }

  /** A trailing `\r` matters neither to what a line starts with nor to its trimmed text. */
  lemma StripCrUnseen(s: string, prefix: string)
    requires prefix != "" && '\r' !in prefix
    ensures StartsWith(TrimStart(StripCr(s)), prefix) == StartsWith(TrimStart(s), prefix)
    ensures Trim(StripCr(s)) == Trim(s)
  {
    if StripCr(s) != s {
      var x := s[..|s| - 1];
      assert s == x + "\r";
      StartsCr(x, prefix);
      TrimCr(x);
    }
  }

  lemma {:induction false} TrimEndFacts(s: string)
    ensures StartsWith(s, TrimEnd(s))
    ensures TrimEnd(s) == "" <==> forall c <- s :: IsSpace(c)
    decreases |s|
  {
    if s != "" && IsSpace(s[|s| - 1]) {
      TrimEndFacts(s[..|s| - 1]);
      assert s == s[..|s| - 1] + [s[|s| - 1]];
      var t := TrimEnd(s[..|s| - 1]);
      assert s[..|t|] == s[..|s| - 1][..|t|];
    } else if s != "" {
      assert s[|s| - 1] in s;
    }
  }

  lemma {:induction false} TrimStartFacts(s: string)
    ensures TrimStart(s) != "" ==> !IsSpace(TrimStart(s)[0])
    ensures TrimStart(s) == "" <==> forall c <- s :: IsSpace(c)
    decreases |s|
  {
    if s != "" && IsSpace(s[0]) {
      TrimStartFacts(s[1..]);
      assert s == [s[0]] + s[1..];
    } else if s != "" {
      assert s[0] in s;
    }
  }

  lemma BlankIff(s: string)
    ensures Trim(s) == "" <==> forall c <- s :: IsSpace(c)
  {
    TrimStartFacts(s);
    TrimEndFacts(TrimStart(s));
    if TrimStart(s) != "" {
      assert TrimStart(s)[0] in TrimStart(s);
    }
  }
}
