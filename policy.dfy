/** How a policy page turns a section's body text into blocks: the body is
    cut at blank lines, and each block becomes a bullet list, a numbered
    list or a paragraph depending on its lines. */
module Policy {
  import opened Common

  const Bullet: char := '•'

  /** `lines.map((l) => l.trim()).filter(Boolean)`: the trimmed lines, with
      the empty ones dropped. */
  function TrimmedLines(ls: seq<string>): (r: seq<string>)
    ensures |r| <= |ls|
    ensures forall i :: 0 <= i < |r| ==> r[i] != [] && Trim(r[i]) == r[i]
  {
    if ls == [] then []
    else
      var t := Trim(ls[0]);
      if t == [] then TrimmedLines(ls[1..])
      else
        TrimNoop(t);
        [t] + TrimmedLines(ls[1..])
  }

  /** Without blank lines every line is kept, trimmed; with only blank
      lines none is. */
  lemma {:induction false} TrimmedLinesKeep(ls: seq<string>)
    ensures (forall i :: 0 <= i < |ls| ==> Trim(ls[i]) != []) ==>
      |TrimmedLines(ls)| == |ls| && forall i :: 0 <= i < |ls| ==> TrimmedLines(ls)[i] == Trim(ls[i])
    ensures (forall i :: 0 <= i < |ls| ==> Trim(ls[i]) == []) ==> TrimmedLines(ls) == []
  {
    if ls != [] {
      TrimmedLinesKeep(ls[1..]);
      assert forall i :: 1 <= i < |ls| ==> ls[1..][i - 1] == ls[i];
    }
  }

  /** The lines of a block. */
  function Lines(block: string): seq<string> {
    TrimmedLines(Split(block, "\n"))
  }

  /** `l.startsWith('•')`. */
  predicate IsBulletLine(l: string) {
    l != [] && l[0] == Bullet
  }

  /** `/^\d+\./.test(l)`: one or more digits, then a '.'. */
  predicate IsNumberedLine(l: string) {
    var d := DigitPrefix(l);
    d != [] && |d| < |l| && l[|d|] == '.'
  }

  /** A bullet line never reads as a numbered one. */
  lemma BulletNotNumbered(l: string)
    requires IsBulletLine(l)
    ensures !IsNumberedLine(l)
  {
  }

  /** `s` without one leading whitespace character, if it has one: the
      `\s?` of the patterns. */
  function DropOneSpace(s: string): (r: string)
    ensures s == r || (s != [] && IsSpace(s[0]) && s == [s[0]] + r)
  {
    if s != [] && IsSpace(s[0]) then s[1..] else s
  }

  /** `l.replace(/^•\s?/, '')`. */
  function BulletItem(l: string): (r: string)
    requires IsBulletLine(l)
    ensures l == [Bullet] + r || (|l| >= 2 && IsSpace(l[1]) && l == [Bullet, l[1]] + r)
  {
    DropOneSpace(l[1..])
  }

  /** `l.replace(/^\d+\.\s?/, '')`. */
  function NumberedItem(l: string): (r: string)
    requires IsNumberedLine(l)
    ensures var d := DigitPrefix(l);
      l == d + "." + r || (|l| > |d| + 1 && IsSpace(l[|d| + 1]) && l == d + "." + [l[|d| + 1]] + r)
  {
    var d := DigitPrefix(l);
    assert l == d + "." + l[|d| + 1..];
    DropOneSpace(l[|d| + 1..])
  }

  datatype Block = BulletList(items: seq<string>) | NumberedList(items: seq<string>) | Paragraph(text: string)

  predicate AllBullets(lines: seq<string>) {
    forall i :: 0 <= i < |lines| ==> IsBulletLine(lines[i])
  }

  predicate AllNumbered(lines: seq<string>) {
    forall i :: 0 <= i < |lines| ==> IsNumberedLine(lines[i])
  }

  /** Each line without its bullet. */
  function BulletItems(lines: seq<string>): (r: seq<string>)
    requires AllBullets(lines)
    ensures |r| == |lines| && forall i :: 0 <= i < |lines| ==> r[i] == BulletItem(lines[i])
  {
    seq(|lines|, i requires 0 <= i < |lines| => BulletItem(lines[i]))
  }

  /** Each line without its number. */
  function NumberedItems(lines: seq<string>): (r: seq<string>)
    requires AllNumbered(lines)
    ensures |r| == |lines| && forall i :: 0 <= i < |lines| ==> r[i] == NumberedItem(lines[i])
  {
    seq(|lines|, i requires 0 <= i < |lines| => NumberedItem(lines[i]))
  }

  /** One block: a list when it has two or more lines that all carry the
      same kind of marker (bullets are tested first), otherwise the
      untrimmed block as a paragraph. Each list item is its line without the
      marker. */
  function Classify(block: string): (r: Block)
    ensures r.BulletList? <==> |Lines(block)| > 1 && AllBullets(Lines(block))
    ensures r.NumberedList? <==> |Lines(block)| > 1 && AllNumbered(Lines(block))
    ensures r.Paragraph? ==> r.text == block
    ensures r.BulletList? ==> r.items == BulletItems(Lines(block))
    ensures r.NumberedList? ==> r.items == NumberedItems(Lines(block))
  {
    var lines := Lines(block);
    if |lines| > 1 && AllBullets(lines) then
      assert !IsNumberedLine(lines[0]);
      BulletList(BulletItems(lines))
    else if |lines| > 1 && AllNumbered(lines) then
      assert !IsBulletLine(lines[0]);
      NumberedList(NumberedItems(lines))
    else
      Paragraph(block)
  }

  /** A block of a single line is a paragraph, however it starts. */
  lemma OneLineIsParagraph(block: string)
    requires |Lines(block)| <= 1
    ensures Classify(block) == Paragraph(block)
  {
  }

  /** The blocks of a section; a missing or empty body has none. */
  function Render(body: Option<string>): (r: seq<Block>)
    ensures body.None? || body == Some([]) ==> r == []
    ensures body.Some? && body.value != [] ==>
      |r| == |Split(body.value, "\n\n")|
      && forall i :: 0 <= i < |r| ==> r[i] == Classify(Split(body.value, "\n\n")[i])
  {
    if body.None? || body.value == [] then []
    else
      var blocks := Split(body.value, "\n\n");
      seq(|blocks|, i requires 0 <= i < |blocks| => Classify(blocks[i]))
  }

  /** The blocks are the body cut at its blank lines: put back together
      with "\n\n" they give the body again. */
  lemma BlocksCoverBody(body: string)
    requires body != []
    ensures Join(Split(body, "\n\n"), "\n\n") == body
    ensures |Render(Some(body))| == |Split(body, "\n\n")|
  {
    JoinSplit(body, "\n\n");
  }

  lemma SplitThree(a: string, b: string, c: string)
    requires '\n' !in a && '\n' !in b && '\n' !in c
    ensures Split(a + "\n" + b + "\n" + c, "\n") == [a, b, c]
  {
    SplitWithout(c, "\n");
    SplitFirst(b, c, "\n");
    assert a + "\n" + b + "\n" + c == a + "\n" + (b + "\n" + c);
    SplitFirst(a, b + "\n" + c, "\n");
  }

  /** Trimmed lines around a line of spaces: the blank one is dropped. */
  lemma DropBlankLine(a: string, blank: string, c: string)
    requires a != [] && c != [] && Trim(a) == a && Trim(c) == c
    requires forall k :: 0 <= k < |blank| ==> IsSpace(blank[k])
    ensures TrimmedLines([a, blank, c]) == [a, c]
  {
    TrimBlank(blank);
    var ls := [a, blank, c];
    assert ls[1..] == [blank, c] && ls[1..][1..] == [c] && ls[1..][1..][1..] == [];
    assert TrimmedLines([c]) == [c];
    assert TrimmedLines([blank, c]) == [c];
  }

  /** A block whose lines are two bullet lines is a two-item list. */
  lemma TwoBullets(block: string, a: string, c: string)
    requires Lines(block) == [a, c] && IsBulletLine(a) && IsBulletLine(c)
    ensures Classify(block) == BulletList([BulletItem(a), BulletItem(c)])
  {
    var lines := [a, c];
    assert AllBullets(lines);
    var items := BulletItems(lines);
    assert items == [BulletItem(a), BulletItem(c)];
  }

  /** Two bullet lines around a line of spaces make a two-item list: the
      blank line is dropped and each item loses its marker. */
  lemma BulletsAroundBlank(a: string, blank: string, c: string)
    requires '\n' !in a && '\n' !in blank && '\n' !in c
    requires IsBulletLine(a) && IsBulletLine(c) && !IsSpace(a[|a| - 1]) && !IsSpace(c[|c| - 1])
    requires forall k :: 0 <= k < |blank| ==> IsSpace(blank[k])
    ensures Lines(a + "\n" + blank + "\n" + c) == [a, c]
    ensures Classify(a + "\n" + blank + "\n" + c) == BulletList([BulletItem(a), BulletItem(c)])
  {
    var block := a + "\n" + blank + "\n" + c;
    SplitThree(a, blank, c);
    TrimNoop(a);
    TrimNoop(c);
    DropBlankLine(a, blank, c);
    assert Lines(block) == [a, c];
    TwoBullets(block, a, c);
  }

  /** The marker and one space go, a second space stays. */
  lemma BulletItemExample()
    ensures BulletItem("• a") == "a"
    ensures BulletItem("•  a") == " a"
    ensures BulletItem("•a") == "a"
  {
  }
}
