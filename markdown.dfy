/**
 * `Formatting.convertMarkdownToHtml`: a bold-span rewrite, then a line-by-line
 * pass that groups bullet and numbered lines into lists and wraps every other
 * line, then a pass that puts adjacent paragraphs on separate lines.
 *
 * The grouping is specified by `Blocks`, which folds lines into maximal runs;
 * `ConvertMarkdown` is the source's loop, proved to produce `MarkdownHtml`.
 */
module Markdown {
  import opened Wrappers
  import opened Text

  // ---------------------------------------------------------------------------
  // Bold spans: text.replace(/(\*\*|__)(.*?)\1/g, '<strong>$2</strong>')
  // ---------------------------------------------------------------------------

  /**
   * Where the lazy `(.*?)\1` closes: the first index at which the delimiter
   * occurs again, provided no line terminator comes before it.
   */
  function CloseAt(t: string, d: string): (r: Option<nat>)
    requires |d| > 0
    ensures r.Some? ==> OccursAt(t, d, r.value)
    ensures r.Some? ==> forall k :: 0 <= k < r.value ==> !IsLineTerminator(t[k]) && !OccursAt(t, d, k)
    decreases |t|
  {
    StartsWithIff(t, d);
    if StartsWith(t, d) then Some(0)
    else if |t| == 0 || IsLineTerminator(t[0]) then None
    else
      OccursShift(t, d);
      match CloseAt(t[1..], d)
      case None => None
      case Some(j) => Some(j + 1)
  }

  predicate IsBoldDelimiter(d: string)
  {
    d == "**" || d == "__"
  }

  /** The bold rewrite, scanning left to right. */
  function Bold(s: string): string
    decreases |s|
  {
    if |s| < 2 then s
    else if IsBoldDelimiter(s[..2]) then
      match CloseAt(s[2..], s[..2])
      case Some(j) => "<strong>" + s[2..2 + j] + "</strong>" + Bold(s[4 + j..])
      case None => [s[0]] + Bold(s[1..])
    else [s[0]] + Bold(s[1..])
  }

  /** Text without `**` or `__` is left as it is. */
  lemma {:induction false} BoldPlain(s: string)
    requires !Contains(s, "**") && !Contains(s, "__")
    ensures Bold(s) == s
    decreases |s|
  {
    if |s| >= 2 {
      assert !IsBoldDelimiter(s[..2]) by {
        if IsBoldDelimiter(s[..2]) {
          assert OccursAt(s, s[..2], 0);
        }
      }
      OccursShift(s, "**");
      OccursShift(s, "__");
      BoldPlain(s[1..]);
      assert s == [s[0]] + s[1..];
    }
  }

  /** The lazy close of a span `c` followed by the delimiter is right after `c`. */
  lemma {:induction false} CloseAtSpan(c: string, d: string, rest: string)
    requires IsBoldDelimiter(d)
    requires forall k :: 0 <= k < |c| ==> !IsLineTerminator(c[k])
    requires !Contains(c + d[..1], d)
    ensures CloseAt(c + d + rest, d) == Some(|c|)
    decreases |c|
  {
    var t := c + d + rest;
    StartsWithIff(t, d);
    if |c| == 0 {
      assert t[..2] == d;
    } else {
      assert t[..2] == (c + d[..1])[..2];
      assert !StartsWith(t, d) by {
        if StartsWith(t, d) {
          assert OccursAt(c + d[..1], d, 0);
        }
      }
      OccursShift(c + d[..1], d);
      assert (c + d[..1])[1..] == c[1..] + d[..1];
      assert t[1..] == c[1..] + d + rest;
      CloseAtSpan(c[1..], d, rest);
    }
  }

  /**
   * A span between two delimiters becomes one `<strong>` element, provided the
   * span has no line break and does not itself close the delimiter early.
   */
  lemma BoldSpan(d: string, c: string, rest: string)
    requires IsBoldDelimiter(d)
    requires forall k :: 0 <= k < |c| ==> !IsLineTerminator(c[k])
    requires !Contains(c + d[..1], d)
    ensures Bold(d + c + d + rest) == "<strong>" + c + "</strong>" + Bold(rest)
  {
    var s := d + c + d + rest;
    assert s[..2] == d;
    assert s[2..] == c + d + rest;
    CloseAtSpan(c, d, rest);
    assert s[2..2 + |c|] == c;
    assert s[4 + |c|..] == rest;
  }

  // ---------------------------------------------------------------------------
  // The shape of one line
  // ---------------------------------------------------------------------------

  /** A regular-expression `(.*)`: the longest prefix without a line terminator. */
  function RestOfLine(s: string): (r: string)
    ensures |r| <= |s| && r == s[..|r|]
    ensures forall k :: 0 <= k < |r| ==> !IsLineTerminator(r[k])
    ensures |r| < |s| ==> IsLineTerminator(s[|r|])
    decreases |s|
  {
    if |s| == 0 || IsLineTerminator(s[0]) then "" else [s[0]] + RestOfLine(s[1..])
  }

  /** The length of the longest run of digits at the start of `s`: a greedy `(\d+)`. */
  function DigitRun(s: string): (n: nat)
    ensures n <= |s|
    ensures forall k :: 0 <= k < n ==> IsDigit(s[k])
    ensures n < |s| ==> !IsDigit(s[n])
    decreases |s|
  {
    if |s| == 0 || !IsDigit(s[0]) then 0 else 1 + DigitRun(s[1..])
  }

  /** `parseInt(digits, 10)` of a string of digits. */
  function DecimalValue(digits: string): nat
    decreases |digits|
  {
    if |digits| == 0 then 0
    else
      var d := Last(digits) as int - '0' as int;
      DecimalValue(AllButLast(digits)) * 10 + (if 0 <= d <= 9 then d else 0)
  }

  /** The decimal digits of `n`, as a number is printed in a template literal. */
  function NatToString(n: nat): string
    decreases n
  {
    var digit := ['0', '1', '2', '3', '4', '5', '6', '7', '8', '9'][n % 10];
    if n < 10 then [digit] else NatToString(n / 10) + [digit]
  }

  /** `line.match(/^\s*([-*])\s+(.*)/)`: the item text of a bullet line. */
  function BulletMatch(line: string): Option<string>
  {
    var a := TrimStart(line);
    if |a| > 1 && (a[0] == '-' || a[0] == '*') && IsSpace(a[1]) then Some(RestOfLine(TrimStart(a[1..])))
    else None
  }

  /** `line.match(/^\s*(\d+)[\.)]\s+(.*)/)`: the number and item text of a numbered line. */
  function NumberedMatch(line: string): Option<(nat, string)>
  {
    var a := TrimStart(line);
    var n := DigitRun(a);
    if 0 < n && n + 1 < |a| && (a[n] == '.' || a[n] == ')') && IsSpace(a[n + 1]) then
      Some((DecimalValue(a[..n]), RestOfLine(TrimStart(a[n + 1..]))))
    else None
  }

  /** A run of digits followed by a non-digit is read whole. */
  lemma {:induction false} DigitRunAt(digits: string, rest: string)
    requires forall k :: 0 <= k < |digits| ==> IsDigit(digits[k])
    requires rest == "" || !IsDigit(rest[0])
    ensures DigitRun(digits + rest) == |digits|
    decreases |digits|
  {
    if |digits| == 0 {
      assert digits + rest == rest;
    } else {
      assert (digits + rest)[0] == digits[0] && (digits + rest)[1..] == digits[1..] + rest;
      DigitRunAt(digits[1..], rest);
    }
  }

  /** Every line of the bullet pattern matches it: blanks, `-` or `*`, at least one blank, then the item's line. */
  lemma BulletLineMatch(ws: string, marker: char, sp: string, t: string)
    requires IsBlank(ws) && (marker == '-' || marker == '*') && |sp| > 0 && IsBlank(sp)
    requires t == "" || !IsSpace(t[0])
    ensures BulletMatch(ws + [marker] + sp + t) == Some(RestOfLine(t))
  {
    SeqAssoc(ws, [marker], sp);
    LeadingBlanks(ws, [marker] + sp, t);
    BulletMatchAt(ws + [marker] + sp + t, [marker] + sp + t, t);
  }

  /** Both runs of blanks `TrimStart` meets in such a line: the leading ones, and those after the marker. */
  lemma LeadingBlanks(ws: string, mid: string, t: string)
    requires IsBlank(ws) && |mid| > 1 && !IsSpace(mid[0]) && IsBlank(mid[1..])
    requires t == "" || !IsSpace(t[0])
    ensures TrimStart(ws + mid + t) == mid + t && TrimStart((mid + t)[1..]) == t
  {
    SeqAssoc(ws, mid, t);
    assert (mid + t)[0] == mid[0];
    TrimStartBlank(ws, mid + t);
    assert (mid + t)[1..] == mid[1..] + t by {
      assert mid == [mid[0]] + mid[1..];
      SeqAssoc([mid[0]], mid[1..], t);
    }
    TrimStartBlank(mid[1..], t);
  }

  lemma BulletMatchAt(line: string, a: string, t: string)
    requires TrimStart(line) == a && |a| > 1 && (a[0] == '-' || a[0] == '*') && IsSpace(a[1])
    requires TrimStart(a[1..]) == t
    ensures BulletMatch(line) == Some(RestOfLine(t))
  {
  }

  /** Every line of the numbered pattern matches it, with the digits' value as its number. */
  lemma NumberedLineMatch(ws: string, digits: string, mark: char, sp: string, t: string)
    requires IsBlank(ws) && |digits| > 0 && forall k :: 0 <= k < |digits| ==> IsDigit(digits[k])
    requires (mark == '.' || mark == ')') && |sp| > 0 && IsBlank(sp)
    requires t == "" || !IsSpace(t[0])
    ensures NumberedMatch(ws + digits + [mark] + sp + t) == Some((DecimalValue(digits), RestOfLine(t)))
  {
    var line, a := ws + digits + [mark] + sp + t, digits + [mark] + sp + t;
    var n := |digits|;
    NumberedParts(digits, mark, sp, t);
    assert TrimStart(line) == a by {
      assert line == ws + a by {
        SeqAssoc(ws, digits, [mark]);
        SeqAssoc(ws, digits + [mark], sp);
        SeqAssoc(ws, digits + [mark] + sp, t);
      }
      TrimStartBlank(ws, a);
    }
    assert TrimStart(a[n + 1..]) == t by {
      TrimStartBlank(sp, t);
    }
    NumberedMatchAt(line, a, n);
  }

  /** Where the digits, the mark and the blanks of a numbered line sit, once its leading blanks are dropped. */
  lemma NumberedParts(digits: string, mark: char, sp: string, t: string)
    requires |digits| > 0 && forall k :: 0 <= k < |digits| ==> IsDigit(digits[k])
    requires (mark == '.' || mark == ')') && |sp| > 0 && IsBlank(sp)
    ensures var a, n := digits + [mark] + sp + t, |digits|;
      && !IsSpace(a[0]) && DigitRun(a) == n && n + 1 < |a| && a[..n] == digits && a[n] == mark
      && a[n + 1..] == sp + t && IsSpace(a[n + 1])
  {
    var a, n := digits + [mark] + sp + t, |digits|;
    var after := [mark] + sp + t;
    assert a == digits + after by {
      SeqAssoc(digits, [mark], sp);
      SeqAssoc(digits, [mark] + sp, t);
    }
    assert a[0] == digits[0];
    DigitRunAt(digits, after);
    assert a[..n] == digits && a[n] == mark;
    assert a[n + 1..] == sp + t && a[n + 1] == sp[0];
  }

  lemma NumberedMatchAt(line: string, a: string, n: nat)
    requires TrimStart(line) == a && DigitRun(a) == n && 0 < n && n + 1 < |a|
    requires (a[n] == '.' || a[n] == ')') && IsSpace(a[n + 1])
    ensures NumberedMatch(line) == Some((DecimalValue(a[..n]), RestOfLine(TrimStart(a[n + 1..]))))
  {
  }

  datatype Shape = BulletItem(text: string) | NumberedItem(number: nat, text: string) | BlankLine | TextLine(line: string)

  /** How the loop treats a line; the bullet pattern is tried before the numbered one. */
  function ShapeOf(line: string): Shape
  {
    match BulletMatch(line)
    case Some(t) => BulletItem(t)
    case None =>
      match NumberedMatch(line)
      case Some(m) => NumberedItem(m.0, m.1)
      case None => if Trim(line) == "" then BlankLine else TextLine(line)
  }

  // ---------------------------------------------------------------------------
  // Grouping lines into blocks
  // ---------------------------------------------------------------------------

  datatype Block = Ul(items: seq<string>) | Ol(start: nat, items: seq<string>) | Br | P(line: string)

  /** The shape of every line, in order. */
  function Shapes(lines: seq<string>): seq<Shape>
    decreases |lines|
  {
    if |lines| == 0 then [] else Shapes(AllButLast(lines)) + [ShapeOf(Last(lines))]
  }

  /** One more line: a list item joins a list of its own kind that ends the blocks, or opens one. */
  function AddLine(bs: seq<Block>, shape: Shape): seq<Block>
  {
    match shape
    case BulletItem(t) =>
      if |bs| > 0 && Last(bs).Ul? then AllButLast(bs) + [Ul(Last(bs).items + [t])] else bs + [Ul([t])]
    case NumberedItem(n, t) =>
      if |bs| > 0 && Last(bs).Ol? then AllButLast(bs) + [Ol(Last(bs).start, Last(bs).items + [t])] else bs + [Ol(n, [t])]
    case BlankLine => bs + [Br]
    case TextLine(l) => bs + [P(l)]
  }

  /** The blocks of a sequence of line shapes: each maximal run of list lines of one kind is one list. */
  function Blocks(shapes: seq<Shape>): seq<Block>
    decreases |shapes|
  {
    if |shapes| == 0 then [] else AddLine(Blocks(AllButLast(shapes)), Last(shapes))
  }

  function ItemsHtml(items: seq<string>): string
    decreases |items|
  {
    if |items| == 0 then "" else ItemsHtml(AllButLast(items)) + ("<li>" + Last(items) + "</li>")
  }

  function OlOpen(start: nat): string
  {
    "<ol start=\"" + NatToString(start) + "\">"
  }

  function BlockHtml(b: Block): string
  {
    match b
    case Ul(items) => "<ul>" + ItemsHtml(items) + "</ul>"
    case Ol(start, items) => OlOpen(start) + ItemsHtml(items) + "</ol>"
    case Br => "<br>"
    case P(line) => "<p>" + line + "</p>"
  }

  function BlocksHtml(bs: seq<Block>): string
    decreases |bs|
  {
    if |bs| == 0 then "" else BlocksHtml(AllButLast(bs)) + BlockHtml(Last(bs))
  }

  const ParagraphSeam: string := "</p><p>"
  const SplitSeam: string := "</p>\n<p>"

  /** What `convertMarkdownToHtml` returns for `text`. */
  function MarkdownHtml(text: string): string
  {
    ReplaceAll(BlocksHtml(Blocks(Shapes(Split(Bold(text), "\n")))), ParagraphSeam, SplitSeam)
  }

  // ---------------------------------------------------------------------------
  // Properties of the grouping
  // ---------------------------------------------------------------------------

  /** No two lists of the same kind are adjacent, and no list is empty. */
  predicate Maximal(bs: seq<Block>)
  {
    && (forall k :: 0 <= k < |bs| ==> (bs[k].Ul? || bs[k].Ol?) ==> |bs[k].items| > 0)
    && (forall k :: 0 <= k < |bs| - 1 ==> !(bs[k].Ul? && bs[k + 1].Ul?) && !(bs[k].Ol? && bs[k + 1].Ol?))
  }

  /** The block a line ends up in has the kind of that line. */
  lemma LastBlockKind(shapes: seq<Shape>)
    requires |shapes| > 0
    ensures |Blocks(shapes)| > 0
    ensures Last(Blocks(shapes)).Ul? <==> Last(shapes).BulletItem?
    ensures Last(Blocks(shapes)).Ol? <==> Last(shapes).NumberedItem?
    ensures Last(Blocks(shapes)).Br? <==> Last(shapes).BlankLine?
    ensures Last(shapes).TextLine? ==> Last(Blocks(shapes)) == P(Last(shapes).line)
  {
  }

  /** A block may follow blocks that are maximal when it is not a list of the same kind as the last one. */
  lemma MaximalSnoc(bs: seq<Block>, b: Block)
    requires Maximal(bs)
    requires (b.Ul? || b.Ol?) ==> |b.items| > 0
    requires |bs| > 0 ==> !(Last(bs).Ul? && b.Ul?) && !(Last(bs).Ol? && b.Ol?)
    ensures Maximal(bs + [b])
  {
    var r := bs + [b];
    assert forall k :: 0 <= k < |bs| ==> r[k] == bs[k];
    forall k | 0 <= k < |r| - 1
      ensures !(r[k].Ul? && r[k + 1].Ul?) && !(r[k].Ol? && r[k + 1].Ol?)
    {
      if k == |bs| - 1 {
        assert r[k] == Last(bs) && r[k + 1] == b;
      }
    }
  }

  /** The last block may be replaced by a non-empty list of the same kind. */
  lemma MaximalGrowLast(pre: seq<Block>, b0: Block, b: Block)
    requires Maximal(pre + [b0])
    requires (b.Ul? <==> b0.Ul?) && (b.Ol? <==> b0.Ol?)
    requires (b.Ul? || b.Ol?) ==> |b.items| > 0
    ensures Maximal(pre + [b])
  {
    var r0, r := pre + [b0], pre + [b];
    assert forall k :: 0 <= k < |pre| ==> r[k] == pre[k] == r0[k];
    forall k | 0 <= k < |r| - 1
      ensures !(r[k].Ul? && r[k + 1].Ul?) && !(r[k].Ol? && r[k + 1].Ol?)
    {
      assert r[k] == r0[k];
      assert r[k + 1].Ul? == r0[k + 1].Ul? && r[k + 1].Ol? == r0[k + 1].Ol?;
    }
  }

  /** Adding a line keeps the blocks maximal. */
  lemma AddLineMaximal(bs: seq<Block>, shape: Shape)
    requires Maximal(bs)
    ensures Maximal(AddLine(bs, shape))
  {
    match shape
    case BulletItem(t) =>
      if |bs| > 0 && Last(bs).Ul? {
        assert bs == AllButLast(bs) + [Last(bs)];
        MaximalGrowLast(AllButLast(bs), Last(bs), Ul(Last(bs).items + [t]));
      } else {
        MaximalSnoc(bs, Ul([t]));
      }
    case NumberedItem(n, t) =>
      if |bs| > 0 && Last(bs).Ol? {
        assert bs == AllButLast(bs) + [Last(bs)];
        MaximalGrowLast(AllButLast(bs), Last(bs), Ol(Last(bs).start, Last(bs).items + [t]));
      } else {
        MaximalSnoc(bs, Ol(n, [t]));
      }
    case BlankLine => MaximalSnoc(bs, Br);
    case TextLine(l) => MaximalSnoc(bs, P(l));
  }

  /** Every list is a maximal run: two lists of one kind are never adjacent. */
  lemma {:induction false} BlocksMaximal(shapes: seq<Shape>)
    ensures Maximal(Blocks(shapes))
    decreases |shapes|
  {
    if |shapes| > 0 {
      BlocksMaximal(AllButLast(shapes));
      AddLineMaximal(Blocks(AllButLast(shapes)), Last(shapes));
    }
  }

  datatype ListKind = Bullet | Numbered
  datatype Entry = ItemEntry(kind: ListKind, text: string) | BreakEntry | ParagraphEntry(line: string)

  /** What one line contributes, with the item numbers left out. */
  function EntryOf(shape: Shape): Entry
  {
    match shape
    case BulletItem(t) => ItemEntry(Bullet, t)
    case NumberedItem(_, t) => ItemEntry(Numbered, t)
    case BlankLine => BreakEntry
    case TextLine(l) => ParagraphEntry(l)
  }

  function ItemEntries(kind: ListKind, items: seq<string>): seq<Entry>
    decreases |items|
  {
    if |items| == 0 then [] else ItemEntries(kind, AllButLast(items)) + [ItemEntry(kind, Last(items))]
  }

  function BlockEntries(b: Block): seq<Entry>
  {
    match b
    case Ul(items) => ItemEntries(Bullet, items)
    case Ol(_, items) => ItemEntries(Numbered, items)
    case Br => [BreakEntry]
    case P(line) => [ParagraphEntry(line)]
  }

  function Expand(bs: seq<Block>): seq<Entry>
    decreases |bs|
  {
    if |bs| == 0 then [] else Expand(AllButLast(bs)) + BlockEntries(Last(bs))
  }

  function Entries(shapes: seq<Shape>): seq<Entry>
    decreases |shapes|
  {
    if |shapes| == 0 then [] else Entries(AllButLast(shapes)) + [EntryOf(Last(shapes))]
  }

  lemma ExpandSnoc(bs: seq<Block>, b: Block)
    ensures Expand(bs + [b]) == Expand(bs) + BlockEntries(b)
  {
    assert AllButLast(bs + [b]) == bs;
  }

  lemma ItemEntriesSnoc(kind: ListKind, items: seq<string>, t: string)
    ensures ItemEntries(kind, items + [t]) == ItemEntries(kind, items) + [ItemEntry(kind, t)]
  {
    assert AllButLast(items + [t]) == items;
  }

  /** Replacing the last block by one with one more entry adds that entry. */
  lemma GrowLastEntry(pre: seq<Block>, b0: Block, b: Block, e: Entry)
    requires BlockEntries(b) == BlockEntries(b0) + [e]
    ensures Expand(pre + [b]) == Expand(pre + [b0]) + [e]
  {
    var x := BlockEntries(b0);
    calc {
      Expand(pre + [b]);
      { ExpandSnoc(pre, b); }
      Expand(pre) + (x + [e]);
      { SeqAssoc(Expand(pre), x, [e]); }
      (Expand(pre) + x) + [e];
      { ExpandSnoc(pre, b0); }
      Expand(pre + [b0]) + [e];
    }
  }

  /** A list item joins the open list of its kind, or opens one; either way its entry is added. */
  lemma AddItemEntry(bs: seq<Block>, shape: Shape)
    requires shape.BulletItem? || shape.NumberedItem?
    ensures Expand(AddLine(bs, shape)) == Expand(bs) + [EntryOf(shape)]
  {
    var kind := if shape.BulletItem? then Bullet else Numbered;
    var t := shape.text;
    var joins := |bs| > 0 && (if shape.BulletItem? then Last(bs).Ul? else Last(bs).Ol?);
    if joins {
      var b := Last(bs);
      var b' := if shape.BulletItem? then Ul(b.items + [t]) else Ol(b.start, b.items + [t]);
      assert AddLine(bs, shape) == AllButLast(bs) + [b'];
      assert bs == AllButLast(bs) + [b];
      ItemEntriesSnoc(kind, b.items, t);
      GrowLastEntry(AllButLast(bs), b, b', EntryOf(shape));
    } else {
      var b' := if shape.BulletItem? then Ul([t]) else Ol(shape.number, [t]);
      assert AddLine(bs, shape) == bs + [b'];
      ExpandSnoc(bs, b');
      assert [] + [t] == [t];
      ItemEntriesSnoc(kind, [], t);
    }
  }

  /** Adding a line adds its entry, however the line is grouped. */
  lemma AddLineEntry(bs: seq<Block>, shape: Shape)
    ensures Expand(AddLine(bs, shape)) == Expand(bs) + [EntryOf(shape)]
  {
    match shape
    case BulletItem(_) => AddItemEntry(bs, shape);
    case NumberedItem(_, _) => AddItemEntry(bs, shape);
    case BlankLine => ExpandSnoc(bs, Br);
    case TextLine(l) => ExpandSnoc(bs, P(l));
  }

  /** Grouping loses and reorders nothing: every line yields exactly one entry, in order. */
  lemma {:induction false} BlocksLossless(shapes: seq<Shape>)
    ensures Expand(Blocks(shapes)) == Entries(shapes)
    decreases |shapes|
  {
    if |shapes| > 0 {
      var pre := AllButLast(shapes);
      BlocksLossless(pre);
      AddLineEntry(Blocks(pre), Last(shapes));
    }
  }

  function ItemTexts(run: seq<Shape>): seq<string>
    requires forall k :: 0 <= k < |run| ==> run[k].BulletItem? || run[k].NumberedItem?
  {
    seq(|run|, k requires 0 <= k < |run| => run[k].text)
  }

  lemma BlocksSnoc(shapes: seq<Shape>, x: Shape)
    ensures Blocks(shapes + [x]) == AddLine(Blocks(shapes), x)
  {
    assert AllButLast(shapes + [x]) == shapes;
  }

  /** The texts of a run with one more line. */
  lemma ItemTextsSnoc(run: seq<Shape>)
    requires |run| > 0
    requires forall k :: 0 <= k < |run| ==> run[k].BulletItem? || run[k].NumberedItem?
    ensures ItemTexts(run) == ItemTexts(AllButLast(run)) + [Last(run).text]
  {
  }

  /** The first line of a run opens a block of its own when the line before is of another kind. */
  lemma RunOpens(pre: seq<Shape>, x: Shape)
    requires x.BulletItem? || x.NumberedItem?
    requires |pre| > 0 ==> (x.BulletItem? ==> !Last(pre).BulletItem?) && (x.NumberedItem? ==> !Last(pre).NumberedItem?)
    ensures Blocks(pre + [x]) == Blocks(pre) + [FirstBlock(x)]
  {
    BlocksSnoc(pre, x);
    if |pre| > 0 {
      LastBlockKind(pre);
    }
    OpenBlock(Blocks(pre), x);
  }

  /**
   * A run of numbered lines that follows a line of another kind (or starts the
   * text) becomes one ordered list, starting at the first line's number and
   * holding each line's text in order; the later numbers are ignored.
   */
  lemma {:induction false} NumberedRun(pre: seq<Shape>, run: seq<Shape>)
    requires |run| > 0
    requires forall k :: 0 <= k < |run| ==> run[k].NumberedItem?
    requires |pre| > 0 ==> !Last(pre).NumberedItem?
    ensures Blocks(pre + run) == Blocks(pre) + [Ol(run[0].number, ItemTexts(run))]
    decreases |run|
  {
    if |run| == 1 {
      assert run == [run[0]];
      RunOpens(pre, run[0]);
      assert ItemTexts(run) == [run[0].text];
    } else {
      var r, x := AllButLast(run), Last(run);
      assert r[0] == run[0];
      calc {
        Blocks(pre + run);
        { assert pre + run == (pre + r) + [x]; BlocksSnoc(pre + r, x); }
        AddLine(Blocks(pre + r), x);
        { NumberedRun(pre, r); }
        AddLine(Blocks(pre) + [Ol(run[0].number, ItemTexts(r))], x);
        { JoinOl(Blocks(pre), run[0].number, ItemTexts(r), x.number, x.text); }
        Blocks(pre) + [Ol(run[0].number, ItemTexts(r) + [x.text])];
        { ItemTextsSnoc(run); }
        Blocks(pre) + [Ol(run[0].number, ItemTexts(run))];
      }
    }
  }

  /**
   * A run of bullet lines that follows a line of another kind (or starts the
   * text) becomes one unordered list holding each line's text in order.
   */
  lemma {:induction false} BulletRun(pre: seq<Shape>, run: seq<Shape>)
    requires |run| > 0
    requires forall k :: 0 <= k < |run| ==> run[k].BulletItem?
    requires |pre| > 0 ==> !Last(pre).BulletItem?
    ensures Blocks(pre + run) == Blocks(pre) + [Ul(ItemTexts(run))]
    decreases |run|
  {
    if |run| == 1 {
      assert run == [run[0]];
      RunOpens(pre, run[0]);
      assert ItemTexts(run) == [run[0].text];
    } else {
      var r, x := AllButLast(run), Last(run);
      calc {
        Blocks(pre + run);
        { assert pre + run == (pre + r) + [x]; BlocksSnoc(pre + r, x); }
        AddLine(Blocks(pre + r), x);
        { BulletRun(pre, r); }
        AddLine(Blocks(pre) + [Ul(ItemTexts(r))], x);
        { JoinUl(Blocks(pre), ItemTexts(r), x.text); }
        Blocks(pre) + [Ul(ItemTexts(r) + [x.text])];
        { ItemTextsSnoc(run); }
        Blocks(pre) + [Ul(ItemTexts(run))];
      }
    }
  }

  // ---------------------------------------------------------------------------
  // The converter loop
  // ---------------------------------------------------------------------------

  datatype ListMode = NoList | InUl | InOl

  /** The list the loop holds open, as a block. */
  function OpenBlocks(mode: ListMode, start: nat, items: seq<string>): seq<Block>
  {
    match mode
    case NoList => []
    case InUl => [Ul(items)]
    case InOl => [Ol(start, items)]
  }

  lemma ConcatItems(lis: seq<string>, items: seq<string>, t: string)
    requires Concat(lis) == ItemsHtml(items)
    ensures Concat(lis + ["<li>" + t + "</li>"]) == ItemsHtml(items + [t])
  {
    ConcatAppend(lis, ["<li>" + t + "</li>"]);
    assert AllButLast(items + [t]) == items;
  }

  lemma AppendBlock(closed: seq<Block>, b: Block)
    ensures BlocksHtml(closed + [b]) == BlocksHtml(closed) + BlockHtml(b)
  {
    assert AllButLast(closed + [b]) == closed;
  }

  /** The block a line opens when it does not join a list. */
  function FirstBlock(shape: Shape): Block
  {
    match shape
    case BulletItem(t) => Ul([t])
    case NumberedItem(n, t) => Ol(n, [t])
    case BlankLine => Br
    case TextLine(l) => P(l)
  }

  /** A bullet line joins the open unordered list. */
  lemma JoinUl(closed: seq<Block>, items: seq<string>, t: string)
    ensures AddLine(closed + [Ul(items)], BulletItem(t)) == closed + [Ul(items + [t])]
  {
    assert AllButLast(closed + [Ul(items)]) == closed;
  }

  /** A numbered line joins the open ordered list, whose start number stays. */
  lemma JoinOl(closed: seq<Block>, start: nat, items: seq<string>, n: nat, t: string)
    ensures AddLine(closed + [Ol(start, items)], NumberedItem(n, t)) == closed + [Ol(start, items + [t])]
  {
    assert AllButLast(closed + [Ol(start, items)]) == closed;
  }

  /** A line that follows no list of its own kind opens a block of its own. */
  lemma OpenBlock(closed: seq<Block>, shape: Shape)
    requires shape.BulletItem? ==> |closed| == 0 || !Last(closed).Ul?
    requires shape.NumberedItem? ==> |closed| == 0 || !Last(closed).Ol?
    ensures AddLine(closed, shape) == closed + [FirstBlock(shape)]
  {
  }

  /** The loop's closing of the open list: its html is appended and the list is emptied. */
  method CloseOpenList(htmlContent: string, currentList: ListMode, startNumber: nat, listItems: seq<string>,
                       ghost closed: seq<Block>, ghost items: seq<string>)
    returns (html: string)
    requires htmlContent == BlocksHtml(closed)
    requires Concat(listItems) == ItemsHtml(items)
    ensures html == BlocksHtml(closed + OpenBlocks(currentList, startNumber, items))
  {
    html := htmlContent;
    if currentList == InUl {
      AppendBlock(closed, Ul(items));
      html := html + ("<ul>" + Concat(listItems) + "</ul>");
    } else if currentList == InOl {
      AppendBlock(closed, Ol(startNumber, items));
      html := html + (OlOpen(startNumber) + Concat(listItems) + "</ol>");
    } else {
      assert closed + OpenBlocks(currentList, startNumber, items) == closed;
    }
  }

  /**
   * What the loop keeps between lines: the blocks of the lines so far are the
   * closed blocks followed by the open list, the html built so far renders the
   * closed blocks, and the pending `<li>` elements render the open list's items.
   */
  ghost predicate Converting(blocks: seq<Block>, htmlContent: string, currentList: ListMode, startNumber: nat,
                             listItems: seq<string>, closed: seq<Block>, items: seq<string>)
  {
    && blocks == closed + OpenBlocks(currentList, startNumber, items)
    && htmlContent == BlocksHtml(closed)
    && Concat(listItems) == ItemsHtml(items)
    && (currentList != NoList ==> |items| > 0)
    && (currentList == NoList ==> items == [] && listItems == [])
    && (currentList == NoList ==> |closed| == 0 || !(Last(closed).Ul? || Last(closed).Ol?))
    && (currentList == InUl ==> |closed| == 0 || !Last(closed).Ul?)
    && (currentList == InOl ==> |closed| == 0 || !Last(closed).Ol?)
  }

  /** The loop body for a bullet line: it joins the open unordered list, or closes the open list and opens one. */
  method BulletLine(t: string, htmlContent: string, currentList: ListMode, startNumber: nat, listItems: seq<string>,
                    ghost blocks: seq<Block>, ghost closed: seq<Block>, ghost items: seq<string>)
    returns (html: string, list: ListMode, start: nat, lis: seq<string>, ghost closed': seq<Block>, ghost items': seq<string>)
    requires Converting(blocks, htmlContent, currentList, startNumber, listItems, closed, items)
    ensures Converting(AddLine(blocks, BulletItem(t)), html, list, start, lis, closed', items')
  {
    html, list, start, lis, closed', items' := htmlContent, currentList, startNumber, listItems, closed, items;
    if list == InUl {
      JoinUl(closed', items', t);
    } else {
      html := CloseOpenList(html, list, start, lis, closed', items');
      closed' := closed' + OpenBlocks(list, start, items');
      lis, items' := [], [];
      OpenBlock(closed', BulletItem(t));
      list := InUl;
    }
    ConcatItems(lis, items', t);
    lis := lis + ["<li>" + t + "</li>"];
    items' := items' + [t];
    assert AddLine(blocks, BulletItem(t)) == closed' + OpenBlocks(list, start, items');
  }

  /** The loop body for a numbered line: it joins the open ordered list, or closes the open list and opens one at `n`. */
  method NumberedLine(n: nat, t: string, htmlContent: string, currentList: ListMode, startNumber: nat, listItems: seq<string>,
                      ghost blocks: seq<Block>, ghost closed: seq<Block>, ghost items: seq<string>)
    returns (html: string, list: ListMode, start: nat, lis: seq<string>, ghost closed': seq<Block>, ghost items': seq<string>)
    requires Converting(blocks, htmlContent, currentList, startNumber, listItems, closed, items)
    ensures Converting(AddLine(blocks, NumberedItem(n, t)), html, list, start, lis, closed', items')
  {
    html, list, start, lis, closed', items' := htmlContent, currentList, startNumber, listItems, closed, items;
    if list == InOl {
      JoinOl(closed', start, items', n, t);
    } else {
      html := CloseOpenList(html, list, start, lis, closed', items');
      closed' := closed' + OpenBlocks(list, start, items');
      lis, items' := [], [];
      OpenBlock(closed', NumberedItem(n, t));
      list := InOl;
      start := n;
    }
    ConcatItems(lis, items', t);
    lis := lis + ["<li>" + t + "</li>"];
    items' := items' + [t];
    assert AddLine(blocks, NumberedItem(n, t)) == closed' + OpenBlocks(list, start, items');
  }

  /** The loop body for any other line: the open list is closed and the line becomes `<br>` or a paragraph. */
  method OtherLine(line: string, shape: Shape, htmlContent: string, currentList: ListMode, startNumber: nat, listItems: seq<string>,
                   ghost blocks: seq<Block>, ghost closed: seq<Block>, ghost items: seq<string>)
    returns (html: string, list: ListMode, start: nat, lis: seq<string>, ghost closed': seq<Block>, ghost items': seq<string>)
    requires Converting(blocks, htmlContent, currentList, startNumber, listItems, closed, items)
    requires shape == BlankLine || shape == TextLine(line)
    ensures Converting(AddLine(blocks, shape), html, list, start, lis, closed', items')
  {
    html := CloseOpenList(htmlContent, currentList, startNumber, listItems, closed, items);
    ghost var done := closed + OpenBlocks(currentList, startNumber, items);
    var b := FirstBlock(shape);
    OpenBlock(done, shape);
    AppendBlock(done, b);
    if shape.BlankLine? {
      html := html + "<br>";
    } else {
      html := html + ("<p>" + line + "</p>");
    }
    closed' := done + [b];
    list, start, lis, items' := NoList, startNumber, [], [];
    assert Last(closed') == b;
    NoListConverting(closed', html, start);
  }

  /** With no list open, the loop's state is just the blocks and their html. */
  lemma NoListConverting(bs: seq<Block>, html: string, start: nat)
    requires html == BlocksHtml(bs)
    requires |bs| == 0 || !(Last(bs).Ul? || Last(bs).Ol?)
    ensures Converting(bs, html, NoList, start, [], bs, [])
  {
    assert bs + [] == bs;
  }

  /** One pass of the loop body, tried in the source's order: bullet, numbered, anything else. */
  method ConvertLine(line: string, htmlContent: string, currentList: ListMode, startNumber: nat, listItems: seq<string>,
                     ghost blocks: seq<Block>, ghost closed: seq<Block>, ghost items: seq<string>)
    returns (html: string, list: ListMode, start: nat, lis: seq<string>, ghost closed': seq<Block>, ghost items': seq<string>)
    requires Converting(blocks, htmlContent, currentList, startNumber, listItems, closed, items)
    ensures Converting(AddLine(blocks, ShapeOf(line)), html, list, start, lis, closed', items')
  {
    var shape := ShapeOf(line);
    match shape
    case BulletItem(t) =>
      html, list, start, lis, closed', items' :=
        BulletLine(t, htmlContent, currentList, startNumber, listItems, blocks, closed, items);
    case NumberedItem(n, t) =>
      html, list, start, lis, closed', items' :=
        NumberedLine(n, t, htmlContent, currentList, startNumber, listItems, blocks, closed, items);
    case _ =>
      html, list, start, lis, closed', items' :=
        OtherLine(line, shape, htmlContent, currentList, startNumber, listItems, blocks, closed, items);
  }

  /** The blocks of one more line are the blocks so far with that line added. */
  lemma BlocksStep(lines: seq<string>, i: nat)
    requires i < |lines|
    ensures Blocks(Shapes(lines[..i + 1])) == AddLine(Blocks(Shapes(lines[..i])), ShapeOf(lines[i]))
  {
    assert AllButLast(lines[..i + 1]) == lines[..i];
    assert AllButLast(Shapes(lines[..i + 1])) == Shapes(lines[..i]);
  }

  /** The source's loop, with its list-mode state; it returns exactly `MarkdownHtml(text)`. */
  method ConvertMarkdown(text: string) returns (html: string)
    ensures html == MarkdownHtml(text)
  {
    var lines := Split(Bold(text), "\n");
    var currentList := NoList;
    var listItems: seq<string> := [];
    var htmlContent := "";
    var startNumber: nat := 1;
    ghost var closed: seq<Block> := [];
    ghost var items: seq<string> := [];
    assert lines[..0] == [];
    for i := 0 to |lines|
      invariant Converting(Blocks(Shapes(lines[..i])), htmlContent, currentList, startNumber, listItems, closed, items)
    {
      BlocksStep(lines, i);
      htmlContent, currentList, startNumber, listItems, closed, items :=
        ConvertLine(lines[i], htmlContent, currentList, startNumber, listItems, Blocks(Shapes(lines[..i])), closed, items);
    }
    htmlContent := CloseOpenList(htmlContent, currentList, startNumber, listItems, closed, items);
    assert lines[..|lines|] == lines;
    html := ReplaceAll(htmlContent, ParagraphSeam, SplitSeam);
  }
}
