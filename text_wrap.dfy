/**
 * Lines of text, and what the response formatter needs from a line wrapper.
 *
 * A string is read as lines the way Python's `str.split("\n")` reads it.
 * `textwrap.fill` is library code and enters the model as a parameter: any
 * function satisfying `IsWrapper` may play its part. `IsWrapper` holds the
 * facts the formatter relies on: every line of the result fits the width,
 * every non-whitespace character of the input is kept, in order, and no
 * two words are joined. `Fill` is one such function, a simple greedy
 * filler, and `FillIsWrapper` proves that these facts can be met together.
 */
module TextWrap {

  /**
   * Python's `str.isspace`. `textwrap` cuts text into chunks at the ASCII
   * ones, and drops a chunk at a line edge when `str.strip` leaves nothing
   * of it, which happens for any of these.
   */
  predicate IsSpace(c: char) {
    || c == ' ' || c == '\t' || c == '\n' || c == '\r' || c == '\U{000B}' || c == '\U{000C}'
    || ('\U{001C}' <= c <= '\U{001F}')
    || c == '\U{0085}' || c == '\U{00A0}' || c == '\U{1680}'
    || ('\U{2000}' <= c <= '\U{200A}')
    || c == '\U{2028}' || c == '\U{2029}' || c == '\U{202F}' || c == '\U{205F}' || c == '\U{3000}'
  }

  predicate NoSpace(s: string) {
    forall i :: 0 <= i < |s| ==> !IsSpace(s[i])
  }

  predicate NoNewline(s: string) {
    '\n' !in s
  }

  /** The non-whitespace characters of `s`, in order. */
  function NonSpace(s: string): string {
    if s == [] then [] else (if IsSpace(s[0]) then [] else [s[0]]) + NonSpace(s[1..])
  }

  lemma {:induction false} NonSpaceAppend(a: string, b: string)
    ensures NonSpace(a + b) == NonSpace(a) + NonSpace(b)
  {
    if a == [] {
      assert a + b == b;
    } else {
      assert (a + b)[1..] == a[1..] + b;
      NonSpaceAppend(a[1..], b);
    }
  }

  lemma {:induction false} NonSpaceOfWord(w: string)
    requires NoSpace(w)
    ensures NonSpace(w) == w
  {
    if w != [] {
      NonSpaceOfWord(w[1..]);
    }
  }

  function Concat(ws: seq<string>): string {
    if ws == [] then [] else ws[0] + Concat(ws[1..])
  }

  lemma {:induction false} ConcatAppend(a: seq<string>, b: seq<string>)
    ensures Concat(a + b) == Concat(a) + Concat(b)
  {
    if a == [] {
      assert a + b == b;
    } else {
      assert (a + b)[1..] == a[1..] + b;
      ConcatAppend(a[1..], b);
    }
  }

  /** Lines joined by newlines, as Python's `"\n".join(lines)`. */
  function JoinLines(ls: seq<string>): string {
    if ls == [] then ""
    else if |ls| == 1 then ls[0]
    else ls[0] + "\n" + JoinLines(ls[1..])
  }

  /**
   * The lines of `s`, as Python's `s.split("\n")`: there is always at least
   * one. A newline starts a new, empty line; any other character extends
   * the current one.
   */
  function SplitLines(s: string): (ls: seq<string>)
    ensures |ls| >= 1
  {
    if s == [] then [""]
    else
      var rest := SplitLines(s[1..]);
      if s[0] == '\n' then [""] + rest else [[s[0]] + rest[0]] + rest[1..]
  }

  /** Text without a newline is a single line. */
  lemma {:induction false} SplitLinesNoNewline(s: string)
    requires NoNewline(s)
    ensures SplitLines(s) == [s]
  {
    if s != [] {
      assert s == [s[0]] + s[1..];
      SplitLinesNoNewline(s[1..]);
    }
  }

  /** One character in front of `t`: a newline opens a line, anything else joins the first one. */
  lemma SplitLinesCons(c: char, t: string)
    ensures SplitLines([c] + t) == ConsLine(c, SplitLines(t))
  {
    assert ([c] + t)[1..] == t;
  }

  /** What `SplitLinesCons` builds from the lines `ls` of the text after `c`. */
  function ConsLine(c: char, ls: seq<string>): seq<string>
    requires |ls| >= 1
  {
    if c == '\n' then [""] + ls else [[c] + ls[0]] + ls[1..]
  }

  /** Putting a character in front distributes over appending further lines. */
  lemma ConsLineAppend(c: char, head: seq<string>, tail: seq<string>)
    requires |head| >= 1
    ensures ConsLine(c, head + tail) == ConsLine(c, head) + tail
  {
    if c != '\n' {
      assert (head + tail)[1..] == head[1..] + tail;
    }
  }

  /** Splitting at a newline splits the line sequence at the same place. */
  lemma {:induction false} SplitLinesAppend(a: string, b: string)
    ensures SplitLines(a + "\n" + b) == SplitLines(a) + SplitLines(b)
  {
    if a == [] {
      SplitLinesCons('\n', b);
      assert a + "\n" + b == ['\n'] + b;
    } else {
      var c, rest := a[0], a[1..];
      assert a == [c] + rest;
      assert a + "\n" + b == [c] + (rest + "\n" + b);
      SplitLinesCons(c, rest + "\n" + b);
      SplitLinesCons(c, rest);
      SplitLinesAppend(rest, b);
      ConsLineAppend(c, SplitLines(rest), SplitLines(b));
    }
  }

  /** Joining lines that hold no newline and splitting again gives the lines back. */
  lemma {:induction false} SplitJoin(ls: seq<string>)
    requires |ls| >= 1
    requires forall k :: 0 <= k < |ls| ==> NoNewline(ls[k])
    ensures SplitLines(JoinLines(ls)) == ls
  {
    if |ls| > 1 {
      SplitLinesAppend(ls[0], JoinLines(ls[1..]));
      SplitJoin(ls[1..]);
      assert ls == [ls[0]] + ls[1..];
    }
    SplitLinesNoNewline(ls[0]);
  }

  lemma NonSpaceJoin(a: string, rest: seq<string>)
    ensures NonSpace(JoinLines([a] + rest)) == NonSpace(a) + NonSpace(JoinLines(rest))
  {
    if rest != [] {
      assert ([a] + rest)[1..] == rest;
      NonSpaceAppend(a + "\n", JoinLines(rest));
      NonSpaceAppend(a, "\n");
    }
  }

  /** True when each of `ls` is at most `width` characters long. */
  predicate AllFit(ls: seq<string>, width: nat) {
    ls == [] || (|ls[0]| <= width && AllFit(ls[1..], width))
  }

  lemma {:induction false} AllFitEach(ls: seq<string>, width: nat)
    requires forall k :: 0 <= k < |ls| ==> |ls[k]| <= width
    ensures AllFit(ls, width)
  {
    if ls != [] {
      AllFitEach(ls[1..], width);
    }
  }

  /** True when every line of `s` is at most `width` characters long. */
  predicate WithinWidth(s: string, width: nat) {
    AllFit(SplitLines(s), width)
  }

  /** Lines that each fit the width still fit it once joined. */
  lemma JoinedWithinWidth(ls: seq<string>, width: nat)
    requires forall k :: 0 <= k < |ls| ==> |ls[k]| <= width && NoNewline(ls[k])
    ensures WithinWidth(JoinLines(ls), width)
  {
    if ls != [] {
      SplitJoin(ls);
      AllFitEach(ls, width);
    } else {
      assert SplitLines("") == [""];
    }
  }

  /** The length of the leading run of non-whitespace characters of `s`. */
  function WordLen(s: string): (n: nat)
    ensures n <= |s|
    ensures forall i :: 0 <= i < n ==> !IsSpace(s[i])
    ensures n < |s| ==> IsSpace(s[n])
  {
    if s == [] || IsSpace(s[0]) then 0 else 1 + WordLen(s[1..])
  }

  /** The words of `s`: its maximal runs of non-whitespace characters. */
  function Words(s: string): seq<string>
    decreases |s|
  {
    if s == [] then []
    else if IsSpace(s[0]) then Words(s[1..])
    else
      var n := WordLen(s);
      [s[..n]] + Words(s[n..])
  }

  /** The words are non-empty, hold no whitespace, and together are exactly the text's non-whitespace characters. */
  lemma {:induction false} WordsCover(s: string)
    ensures forall k :: 0 <= k < |Words(s)| ==> Words(s)[k] != [] && NoSpace(Words(s)[k])
    ensures Concat(Words(s)) == NonSpace(s)
    decreases |s|
  {
    if s == [] {
    } else if IsSpace(s[0]) {
      WordsCover(s[1..]);
    } else {
      var n := WordLen(s);
      assert s == s[..n] + s[n..];
      NonSpaceAppend(s[..n], s[n..]);
      NonSpaceOfWord(s[..n]);
      WordsCover(s[n..]);
      var rest := Words(s[n..]);
      assert ([s[..n]] + rest)[1..] == rest;
    }
  }

  /** The first `n` characters of `s` are its leading word exactly when they all are non-whitespace and a whitespace character or the end follows. */
  lemma {:induction false} WordLenIs(s: string, n: nat)
    requires n <= |s| && (forall i :: 0 <= i < n ==> !IsSpace(s[i])) && (n < |s| ==> IsSpace(s[n]))
    ensures WordLen(s) == n
  {
    if n > 0 {
      WordLenIs(s[1..], n - 1);
    }
  }

  /** A non-empty whitespace-free string is one word. */
  lemma WordsOfWord(w: string)
    requires w != [] && NoSpace(w)
    ensures Words(w) == [w]
  {
    assert w[..|w|] == w;
    WordLenIs(w, |w|);
    assert w[|w|..] == [];
  }

  /** A whitespace character separates the words before it from the words after it. */
  lemma {:induction false} WordsSep(x: string, c: char, y: string)
    requires IsSpace(c)
    ensures Words(x + [c] + y) == Words(x) + Words(y)
    decreases |x|
  {
    var s := x + [c] + y;
    if x == [] {
      assert s[1..] == y;
    } else if IsSpace(x[0]) {
      assert s[1..] == x[1..] + [c] + y;
      WordsSep(x[1..], c, y);
    } else {
      var n := WordLen(x);
      assert s[..n] == x[..n];
      WordLenIs(s, n);
      assert s[n..] == x[n..] + [c] + y;
      WordsSep(x[n..], c, y);
      assert [x[..n]] + (Words(x[n..]) + Words(y)) == ([x[..n]] + Words(x[n..])) + Words(y);
    }
  }

  /**
   * `n` is a boundary between two consecutive words of `ws`: the words
   * before it hold `n` characters in all.
   */
  predicate CutAt(ws: seq<string>, n: nat) {
    |ws| >= 2 && (n == |ws[0]| || (n > |ws[0]| && CutAt(ws[1..], n - |ws[0]|)))
  }

  /**
   * `out` keeps `text`'s words apart: wherever one word of `text` ends and
   * the next begins, a word of `out` ends and another begins. Words may be
   * split further, never joined.
   */
  ghost predicate KeepsApart(text: string, out: string) {
    forall n: nat :: CutAt(Words(text), n) ==> CutAt(Words(out), n)
  }

  /** The end of `a` and every boundary of `b`, moved past `a`, are boundaries of `a + b`. */
  lemma {:induction false} CutAtAppend(a: seq<string>, b: seq<string>, n: nat)
    requires a != [] && b != []
    requires n == |Concat(a)| || (n > |Concat(a)| && CutAt(b, n - |Concat(a)|))
    ensures CutAt(a + b, n)
    decreases |a|
  {
    var x := a[0];
    assert (a + b)[0] == x;
    if |a| == 1 {
      assert Concat(a) == x + Concat([]);
      assert (a + b)[1..] == b;
    } else {
      assert (a + b)[1..] == a[1..] + b;
      if n != |x| {
        CutAtAppend(a[1..], b, n - |x|);
      }
    }
  }

  /** `w` cut into consecutive pieces of at most `width` characters. */
  function Chunks(w: string, width: nat): seq<string>
    requires width > 0
    decreases |w|
  {
    if w == [] then []
    else if |w| <= width then [w]
    else [w[..width]] + Chunks(w[width..], width)
  }

  /** The pieces are non-empty, fit the width, hold no whitespace when the word holds none, and together are the word. */
  lemma {:induction false} ChunksCover(w: string, width: nat)
    requires width > 0
    ensures forall k :: 0 <= k < |Chunks(w, width)| ==> 0 < |Chunks(w, width)[k]| <= width
    ensures NoSpace(w) ==> forall k :: 0 <= k < |Chunks(w, width)| ==> NoSpace(Chunks(w, width)[k])
    ensures Concat(Chunks(w, width)) == w
    decreases |w|
  {
    if w == [] {
    } else if |w| <= width {
      assert Concat([w]) == w + Concat([]);
    } else {
      assert w == w[..width] + w[width..];
      ChunksCover(w[width..], width);
      var rest := Chunks(w[width..], width);
      assert ([w[..width]] + rest)[1..] == rest;
    }
  }

  /** Every word cut into pieces that fit the width. */
  function Pieces(ws: seq<string>, width: nat): seq<string>
    requires width > 0
  {
    if ws == [] then [] else Chunks(ws[0], width) + Pieces(ws[1..], width)
  }

  /** Pieces of whitespace-free words are non-empty, fit the width, hold no whitespace, and together are the words. */
  lemma {:induction false} PiecesCover(ws: seq<string>, width: nat)
    requires width > 0
    requires forall k :: 0 <= k < |ws| ==> NoSpace(ws[k])
    ensures forall k :: 0 <= k < |Pieces(ws, width)| ==>
      0 < |Pieces(ws, width)[k]| <= width && NoSpace(Pieces(ws, width)[k])
    ensures Concat(Pieces(ws, width)) == Concat(ws)
  {
    if ws != [] {
      var head := Chunks(ws[0], width);
      var rest := Pieces(ws[1..], width);
      ChunksCover(ws[0], width);
      PiecesCover(ws[1..], width);
      ConcatAppend(head, rest);
      assert Pieces(ws, width) == head + rest;
    }
  }

  /** Cutting words into pieces keeps every boundary between the words. */
  lemma {:induction false} PiecesKeepCuts(ws: seq<string>, width: nat, n: nat)
    requires width > 0
    requires forall k :: 0 <= k < |ws| ==> ws[k] != []
    requires CutAt(ws, n)
    ensures CutAt(Pieces(ws, width), n)
  {
    var w, rest := ws[0], ws[1..];
    ChunksCover(w, width);
    ChunksCover(rest[0], width);
    var tail := Pieces(rest, width);
    assert tail == Chunks(rest[0], width) + Pieces(rest[1..], width);
    if n != |w| {
      PiecesKeepCuts(rest, width, n - |w|);
    }
    CutAtAppend(Chunks(w, width), tail, n);
  }

  lemma NoSpaceNoNewline(w: string)
    requires NoSpace(w)
    ensures NoNewline(w)
  {
  }

  lemma NoNewlineAppend(a: string, b: string)
    requires NoNewline(a) && NoNewline(b)
    ensures NoNewline(a + b)
  {
  }

  /** A piece added to a line after a space adds no newline and exactly its own characters. */
  lemma JoinPiece(line: string, p: string)
    requires NoNewline(line) && NoSpace(p)
    ensures NoNewline(p) && NonSpace(p) == p
    ensures NoNewline(line + " " + p)
    ensures NonSpace(line + " " + p) == NonSpace(line) + p
  {
    NoSpaceNoNewline(p);
    NonSpaceOfWord(p);
    NoNewlineAppend(line, " ");
    NoNewlineAppend(line + " ", p);
    assert NonSpace(" ") == [];
    calc {
      NonSpace(line + " " + p);
      { NonSpaceAppend(line + " ", p); }
      NonSpace(line + " ") + NonSpace(p);
      { NonSpaceAppend(line, " "); }
      NonSpace(line) + p;
    }
  }

  /**
   * Greedy packing: `line` is the line being filled; each piece joins it
   * after a single space when it fits, and otherwise starts a new line.
   */
  function Pack(ps: seq<string>, width: nat, line: string): seq<string>
    decreases |ps|
  {
    if ps == [] then
      if line == [] then [] else [line]
    else if line == [] then
      Pack(ps[1..], width, ps[0])
    else if |line| + 1 + |ps[0]| <= width then
      Pack(ps[1..], width, line + " " + ps[0])
    else
      [line] + Pack(ps[1..], width, ps[0])
  }

  /**
   * Packing pieces that fit the width gives lines that fit it and hold no
   * newline, and keeps every non-whitespace character in order.
   */
  lemma {:induction false} PackFits(ps: seq<string>, width: nat, line: string)
    requires |line| <= width && NoNewline(line)
    requires forall k :: 0 <= k < |ps| ==> 0 < |ps[k]| <= width && NoSpace(ps[k])
    ensures forall k :: 0 <= k < |Pack(ps, width, line)| ==>
      |Pack(ps, width, line)[k]| <= width && NoNewline(Pack(ps, width, line)[k])
    ensures NonSpace(JoinLines(Pack(ps, width, line))) == NonSpace(line) + Concat(ps)
    decreases |ps|
  {
    if ps != [] {
      var p := ps[0];
      JoinPiece(line, p);
      if line == [] {
        PackFits(ps[1..], width, p);
      } else if |line| + 1 + |p| <= width {
        PackFits(ps[1..], width, line + " " + p);
      } else {
        var rest := Pack(ps[1..], width, p);
        PackFits(ps[1..], width, p);
        NonSpaceJoin(line, rest);
      }
    }
  }

  lemma AppendAssoc<T>(a: seq<T>, b: seq<T>, c: seq<T>)
    ensures (a + b) + c == a + (b + c)
  {
  }

  lemma JoinLinesCons(line: string, rest: seq<string>)
    requires rest != []
    ensures JoinLines([line] + rest) == line + "\n" + JoinLines(rest)
  {
    assert ([line] + rest)[1..] == rest;
  }

  /** The words of the packed lines are the words of `line` followed by the pieces, each piece one word. */
  lemma {:induction false} WordsPack(ps: seq<string>, width: nat, line: string)
    requires forall k :: 0 <= k < |ps| ==> ps[k] != [] && NoSpace(ps[k])
    ensures Words(JoinLines(Pack(ps, width, line))) == Words(line) + ps
    decreases |ps|
  {
    if ps == [] {
    } else {
      var p := ps[0];
      WordsOfWord(p);
      assert ps == [p] + ps[1..];
      if line == [] {
        WordsPack(ps[1..], width, p);
      } else if |line| + 1 + |p| <= width {
        WordsPack(ps[1..], width, line + " " + p);
        WordsSep(line, ' ', p);
        AppendAssoc(Words(line), [p], ps[1..]);
      } else {
        var rest := Pack(ps[1..], width, p);
        WordsPack(ps[1..], width, p);
        assert rest != [];
        JoinLinesCons(line, rest);
        WordsSep(line, '\n', JoinLines(rest));
        AppendAssoc(Words(line), [p], ps[1..]);
      }
    }
  }

  /**
   * A stand-in for `textwrap.fill`: text broken at whitespace into lines of
   * at most `width` characters; runs of whitespace between words become a
   * single space or a line break.
   */
  function Fill(text: string, width: nat): string
    requires width > 0
  {
    JoinLines(Pack(Pieces(Words(text), width), width, ""))
  }

  /**
   * Every line `Fill` makes fits the width, no non-whitespace character is
   * lost or reordered, and no two words are joined.
   */
  lemma FillFits(text: string, width: nat)
    requires width > 0
    ensures WithinWidth(Fill(text, width), width)
    ensures NonSpace(Fill(text, width)) == NonSpace(text)
    ensures KeepsApart(text, Fill(text, width))
  {
    var ws := Words(text);
    WordsCover(text);
    var ps := Pieces(ws, width);
    PiecesCover(ws, width);
    PackFits(ps, width, "");
    JoinedWithinWidth(Pack(ps, width, ""), width);
    WordsPack(ps, width, "");
    assert Words(Fill(text, width)) == ps;
    forall n: nat | CutAt(ws, n)
      ensures CutAt(Words(Fill(text, width)), n)
    {
      PiecesKeepCuts(ws, width, n);
    }
  }

  /**
   * What the response formatter relies on from `textwrap.fill`: for a
   * positive width, every line of the result fits the width, no
   * non-whitespace character of the text is lost or reordered, and no two
   * words of the text are joined (`textwrap` only adds breaks: at
   * whitespace, after hyphens, inside words longer than the width).
   */
  ghost predicate IsWrapper(wrap: (string, nat) -> string) {
    forall text: string, width: nat :: width > 0 ==>
      && WithinWidth(wrap(text, width), width)
      && NonSpace(wrap(text, width)) == NonSpace(text)
      && KeepsApart(text, wrap(text, width))
  }

  /** A wrapper that glues two words together does not keep them apart. */
  lemma GluingJoinsWords()
    ensures !KeepsApart("a b", "ab")
  {
    WordsOfWord("a");
    WordsOfWord("b");
    WordsOfWord("ab");
    WordsSep("a", ' ', "b");
    assert "a" + [' '] + "b" == "a b";
    assert CutAt(Words("a b"), 1);
  }

  /** `Fill` as a wrapper defined for every width; `textwrap` raises for a width below one. */
  function FillWrapper(text: string, width: nat): string {
    if width == 0 then text else Fill(text, width)
  }

  /** Some wrapper meets the formatter's needs: `Fill` does. */
  lemma FillIsWrapper()
    ensures IsWrapper(FillWrapper)
  {
    forall text: string, width: nat | width > 0
      ensures WithinWidth(FillWrapper(text, width), width)
      ensures NonSpace(FillWrapper(text, width)) == NonSpace(text)
      ensures KeepsApart(text, FillWrapper(text, width))
    {
      FillFits(text, width);
    }
  }
}
