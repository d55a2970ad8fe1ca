/**
 * `dict_to_md` of runx/logx.py: renders the items of a dict as Markdown lines
 * `key: value` ending in two spaces and a newline (a Markdown line break).
 * Values enter already rendered by `str`.
 */
module LogX {

  /** The two trailing spaces and the newline that end every line. */
  const LineBreak: string := "  \n"

  /** The line emitted for one item. */
  function Line(k: string, v: string): string
  {
    k + ": " + v + LineBreak
  }

  /** The Markdown text of `d`: its lines, in item order. */
  function Markdown(d: seq<(string, string)>): string
  {
    if d == [] then "" else Markdown(d[..|d| - 1]) + Line(d[|d| - 1].0, d[|d| - 1].1)
  }

  /** The number of characters the lines of `d` take: key, value and five more per item. */
  function TextLength(d: seq<(string, string)>): nat
  {
    if d == [] then 0 else TextLength(d[..|d| - 1]) + |d[|d| - 1].0| + |d[|d| - 1].1| + 5
  }

  /** `dict_to_md(d)`: the loop that appends one line per item. */
  method DictToMd(d: seq<(string, string)>) returns (s: string)
    ensures s == Markdown(d)
  {
    s := "";
    var i := 0;
    while i < |d|
      invariant 0 <= i <= |d|
      invariant s == Markdown(d[..i])
    {
      var (k, v) := d[i];
      assert d[..i + 1][..i] == d[..i];
      s := s + Line(k, v);
      i := i + 1;
    }
    assert d[..i] == d;
  }

  /** An empty dict renders as the empty string, and only an empty dict does. */
  lemma MarkdownEmpty(d: seq<(string, string)>)
    ensures Markdown(d) == "" <==> d == []
  {
    if d != [] {
      assert |Line(d[|d| - 1].0, d[|d| - 1].1)| >= 5;
    }
  }

  /** Rendering distributes over concatenation of item lists. */
  lemma {:induction false} MarkdownAppend(a: seq<(string, string)>, b: seq<(string, string)>)
    ensures Markdown(a + b) == Markdown(a) + Markdown(b)
  {
    if b == [] {
      assert a + b == a;
    } else {
      var n := |b| - 1;
      var ab, l := a + b, Line(b[n].0, b[n].1);
      assert ab[..|ab| - 1] == a + b[..n];
      assert ab[|ab| - 1] == b[n];
      assert Markdown(ab) == Markdown(a + b[..n]) + l;
      MarkdownAppend(a, b[..n]);
      assert Markdown(b) == Markdown(b[..n]) + l;
      assert (Markdown(a) + Markdown(b[..n])) + l == Markdown(a) + (Markdown(b[..n]) + l);
    }
  }

  /** The text of `d` is its first `i` items, then item `i`'s line, then the rest. */
  lemma {:induction false} MarkdownAt(d: seq<(string, string)>, i: nat)
    requires i < |d|
    ensures Markdown(d) == Markdown(d[..i]) + Line(d[i].0, d[i].1) + Markdown(d[i + 1..])
  {
    var front, rest := d[..i + 1], d[i + 1..];
    assert d == front + rest;
    MarkdownAppend(front, rest);
    assert front[..i] == d[..i];
  }

  /** Every item's line ends with the Markdown line break, so a non-empty text does too. */
  lemma MarkdownEndsWithBreak(d: seq<(string, string)>)
    requires d != []
    ensures |Markdown(d)| >= 3 && Markdown(d)[|Markdown(d)| - 3..] == LineBreak
  {
    var l := Line(d[|d| - 1].0, d[|d| - 1].1);
    assert l[|l| - 3..] == LineBreak;
  }

  /** The length of the text is the sum, over the items, of |key| + |value| + 5. */
  lemma {:induction false} MarkdownLength(d: seq<(string, string)>)
    ensures |Markdown(d)| == TextLength(d)
  {
    if d != [] {
      MarkdownLength(d[..|d| - 1]);
    }
  }
}
