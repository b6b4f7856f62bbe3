/**
 * The response formatter (`format_text` in app.py): an agent answer becomes
 * display text by a three-way priority choice. A tabular answer is shown in
 * a fenced block; a text answer that looks like a table (it holds "| ") is
 * shown verbatim in a fenced block; any other text is wrapped to the width.
 */
module Formatter {
  import opened Wrappers
  import opened TextWrap

  /** The width `format_text` wraps to unless told otherwise. */
  const DefaultWidth: nat := 70

  const FenceMark: string := "```"

  /**
   * An agent's answer: a tabular object, carried as the text its
   * `to_string()` renders, or anything else, carried as its `str()`.
   */
  datatype Answer = Table(rendering: string) | Text(s: string)

  /** True when `s` contains the column-delimiter pattern "| ". */
  predicate HasCellDelimiter(s: string) {
    |s| >= 2 && ((s[0] == '|' && s[1] == ' ') || HasCellDelimiter(s[1..]))
  }

  /** The answers that go to the wrapper rather than into a fenced block. */
  predicate Wraps(answer: Answer) {
    answer.Text? && !HasCellDelimiter(answer.s)
  }

  /** `body` between a fence line above and a fence line below. */
  function Fence(body: string): string {
    FenceMark + "\n" + body + "\n" + FenceMark
  }

  /** The body of a fenced block, if `r` is one. */
  function Unfence(r: string): Option<string> {
    if |r| >= 8 && r[..4] == FenceMark + "\n" && r[|r| - 4..] == "\n" + FenceMark
    then Some(r[4..|r| - 4])
    else None
  }

  /** A fenced block gives back exactly the body it was made from. */
  lemma UnfenceFence(body: string)
    ensures Unfence(Fence(body)) == Some(body)
  {
    var r := Fence(body);
    assert r[..4] == FenceMark + "\n";
    assert r[|r| - 4..] == "\n" + FenceMark;
    assert r[4..|r| - 4] == body;
  }

  /** The lines of a fenced block are the body's own lines, untouched, between two fence lines. */
  lemma {:induction false} FenceLines(body: string)
    ensures SplitLines(Fence(body)) == [FenceMark] + SplitLines(body) + [FenceMark]
  {
    assert Fence(body) == FenceMark + "\n" + (body + "\n" + FenceMark);
    SplitLinesAppend(FenceMark, body + "\n" + FenceMark);
    SplitLinesAppend(body, FenceMark);
    SplitLinesNoNewline(FenceMark);
  }

  /**
   * format_text: a table or table-like text is fenced, anything else goes
   * to the wrapper (`textwrap.fill` in the app).
   */
  function FormatText(answer: Answer, width: nat, wrap: (string, nat) -> string): string {
    match answer
    case Table(rendering) => Fence(rendering)
    case Text(s) => if HasCellDelimiter(s) then Fence(s) else wrap(s, width)
  }

  /**
   * The priority of format_text. A table is always fenced and never
   * wrapped; otherwise text holding "| " is fenced verbatim; only the
   * remaining text is wrapped, into lines that fit the width, without
   * losing or reordering any of its non-whitespace characters and without
   * joining any two of its words. The width
   * only matters, and must only be positive, when the text is wrapped.
   */
  lemma FormatPriority(answer: Answer, width: nat, wrap: (string, nat) -> string)
    requires IsWrapper(wrap)
    requires Wraps(answer) ==> width > 0
    ensures answer.Table? ==>
      var r := FormatText(answer, width, wrap);
      Unfence(r) == Some(answer.rendering) &&
      SplitLines(r) == [FenceMark] + SplitLines(answer.rendering) + [FenceMark]
    ensures answer.Text? && HasCellDelimiter(answer.s) ==>
      var r := FormatText(answer, width, wrap);
      Unfence(r) == Some(answer.s) &&
      SplitLines(r) == [FenceMark] + SplitLines(answer.s) + [FenceMark]
    ensures Wraps(answer) ==>
      var r := FormatText(answer, width, wrap);
      WithinWidth(r, width) && NonSpace(r) == NonSpace(answer.s) && KeepsApart(answer.s, r)
  {
    match answer
    case Table(rendering) =>
      UnfenceFence(rendering);
      FenceLines(rendering);
    case Text(s) =>
      if HasCellDelimiter(s) {
        UnfenceFence(s);
        FenceLines(s);
      }
  }
}
