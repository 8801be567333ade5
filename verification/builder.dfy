/** `AnnotationBlockBuilder`: one left-to-right pass over the annotation stream that sorts
    each annotation into a flat list of blocks of lines, remembering only whether the
    previous annotation was an End. Nesting is not recovered: an inner `@end` does not send
    later annotations back to the outer block, it only opens a line of the current one. */
module BlockBuilder {
  import opened Wrappers
  import opened Annotations
  import opened Blocks

  /** Where `add` puts the next annotation. */
  datatype Destination =
    | StartBlock   // first element of the first line of a new block
    | StartLine    // first element of a new last line of the last block
    | Append       // last element of the last line of the last block
    | Skip         // dropped

  datatype Builder = Builder(blocks: seq<Block>, lastWasEnd: bool)

  /** Every block has a line and every line an annotation. */
  predicate WellShaped(bs: seq<Block>) {
    forall i :: 0 <= i < |bs| ==>
      |bs[i].lines| > 0 && forall j :: 0 <= j < |bs[i].lines| ==> |bs[i].lines[j]| > 0
  }

  /** The destination choice of `add`: a new block while there is none; afterwards a
      qualification is appended, a Begin opens a block and anything else a line; an End right
      after an End is skipped whatever was chosen. */
  function Choose(blocks: seq<Block>, lastWasEnd: bool, a: Annotation): Destination
  {
    var d :=
      if |blocks| == 0 then StartBlock
      else if a.Qualification? then Append
      else if a.IsBegin() then StartBlock
      else StartLine;
    if a.IsEnd() && lastWasEnd then Skip else d
  }

  lemma FlattenBlocksSnoc(p: seq<Block>, x: Block)
    ensures FlattenBlocks(p + [x]) == FlattenBlocks(p) + FlattenLines(x.lines)
  {
    assert (p + [x])[..|p|] == p;
  }

  lemma FlattenLinesSnoc(p: seq<Line>, l: Line)
    ensures FlattenLines(p + [l]) == FlattenLines(p) + l
  {
    assert (p + [l])[..|p|] == p;
  }

  /** A new block whose only line holds `a`. */
  function PlaceInNewBlock(blocks: seq<Block>, a: Annotation): (r: seq<Block>)
    ensures FlattenBlocks(r) == FlattenBlocks(blocks) + [a]
    ensures |r| == |blocks| + 1 && r[..|blocks|] == blocks
  {
    FlattenBlocksSnoc(blocks, Block([[a]]));
    FlattenLinesSnoc([], [a]);
    assert [] + [[a]] == [[a]];
    blocks + [Block([[a]])]
  }

  /** A block whose lines all hold an annotation. */
  predicate BlockShaped(x: Block) {
    |x.lines| > 0 && forall j :: 0 <= j < |x.lines| ==> |x.lines[j]| > 0
  }

  /** `b` with a new last line holding just `a`. */
  function WithNewLine(b: Block, a: Annotation): (r: Block)
    ensures FlattenLines(r.lines) == FlattenLines(b.lines) + [a]
    ensures |r.lines| == |b.lines| + 1 && r.lines[..|b.lines|] == b.lines && r.lines[|b.lines|] == [a]
    ensures BlockShaped(b) ==> BlockShaped(r) && r.lines[0][0] == b.lines[0][0]
    ensures |b.lines| > 0 ==> r.lines[0] == b.lines[0]
  {
    FlattenLinesSnoc(b.lines, [a]);
    var r := Block(b.lines + [[a]]);
    assert forall j :: 0 <= j < |b.lines| ==> r.lines[j] == b.lines[j];
    r
  }

  /** `b` with `a` appended to its last line. */
  function WithLastLineExtended(b: Block, a: Annotation): (r: Block)
    requires |b.lines| > 0
    ensures FlattenLines(r.lines) == FlattenLines(b.lines) + [a]
    ensures |r.lines| == |b.lines|
    ensures r.lines[..|b.lines| - 1] == b.lines[..|b.lines| - 1]
    ensures r.lines[|b.lines| - 1] == b.lines[|b.lines| - 1] + [a]
    ensures BlockShaped(b) ==> BlockShaped(r) && r.lines[0][0] == b.lines[0][0]
    ensures |b.lines[0]| > 0 ==> |r.lines[0]| > 0 && r.lines[0][0] == b.lines[0][0]
  {
    var m := |b.lines|;
    var r := Block(b.lines[..m - 1] + [b.lines[m - 1] + [a]]);
    FlattenLinesSnoc(b.lines[..m - 1], b.lines[m - 1] + [a]);
    FlattenLinesSnoc(b.lines[..m - 1], b.lines[m - 1]);
    assert b.lines == b.lines[..m - 1] + [b.lines[m - 1]];
    assert forall j :: 0 <= j < m - 1 ==> r.lines[j] == b.lines[j];
    assert r.lines[0] == if m == 1 then b.lines[0] + [a] else b.lines[0];
    r
  }

  /** `blocks` with its last block replaced by `x`. */
  function ReplaceLast(blocks: seq<Block>, x: Block): (r: seq<Block>)
    requires |blocks| > 0
    ensures |r| == |blocks| && r[..|r| - 1] == blocks[..|r| - 1] && r[|r| - 1] == x
    ensures FlattenBlocks(r) == FlattenBlocks(blocks[..|r| - 1]) + FlattenLines(x.lines)
    ensures FlattenBlocks(blocks) == FlattenBlocks(blocks[..|r| - 1]) + FlattenLines(blocks[|r| - 1].lines)
  {
    var n := |blocks|;
    FlattenBlocksSnoc(blocks[..n - 1], x);
    FlattenBlocksSnoc(blocks[..n - 1], blocks[n - 1]);
    assert blocks == blocks[..n - 1] + [blocks[n - 1]];
    var r := blocks[..n - 1] + [x];
    assert r[..n - 1] == blocks[..n - 1];
    r
  }

  /** `addAnnotation`: put `a` where `d` says. */
  function Place(blocks: seq<Block>, d: Destination, a: Annotation): (r: seq<Block>)
    requires d == StartLine || d == Append ==> |blocks| > 0
    requires d == Append ==> |blocks[|blocks| - 1].lines| > 0
    ensures FlattenBlocks(r) == FlattenBlocks(blocks) + (if d == Skip then [] else [a])
    ensures |r| == |blocks| + (if d == StartBlock then 1 else 0)
    ensures d == StartBlock ==> r[..|blocks|] == blocks && r[|blocks|] == Block([[a]])
    ensures d == StartLine || d == Append ==> LastBlockGrows(blocks, r, a)
    ensures d == Skip ==> r == blocks
  {
    match d
    case StartBlock => PlaceInNewBlock(blocks, a)
    case StartLine =>
      var x := WithNewLine(blocks[|blocks| - 1], a);
      ReplaceLastGrows(blocks, x, a);
      ReplaceLast(blocks, x)
    case Append =>
      var x := WithLastLineExtended(blocks[|blocks| - 1], a);
      ReplaceLastGrows(blocks, x, a);
      ReplaceLast(blocks, x)
    case Skip =>
      assert FlattenBlocks(blocks) + [] == FlattenBlocks(blocks);
      blocks
  }

  /** `r` is `blocks` whose last block gained `a` at its end, keeping its first
      annotation. */
  predicate LastBlockGrows(blocks: seq<Block>, r: seq<Block>, a: Annotation)
  {
    && |blocks| > 0 && |r| == |blocks|
    && r[..|r| - 1] == blocks[..|r| - 1]
    && FlattenLines(r[|r| - 1].lines) == FlattenLines(blocks[|r| - 1].lines) + [a]
    && |r[|r| - 1].lines| > 0
    && (|blocks[|r| - 1].lines| > 0 && |blocks[|r| - 1].lines[0]| > 0 ==>
          |r[|r| - 1].lines[0]| > 0 && r[|r| - 1].lines[0][0] == blocks[|r| - 1].lines[0][0])
  }

  lemma ReplaceLastGrows(blocks: seq<Block>, x: Block, a: Annotation)
    requires |blocks| > 0 && |x.lines| > 0
    requires FlattenLines(x.lines) == FlattenLines(blocks[|blocks| - 1].lines) + [a]
    requires |blocks[|blocks| - 1].lines| > 0 && |blocks[|blocks| - 1].lines[0]| > 0 ==>
               |x.lines[0]| > 0 && x.lines[0][0] == blocks[|blocks| - 1].lines[0][0]
    ensures LastBlockGrows(blocks, ReplaceLast(blocks, x), a)
    ensures FlattenBlocks(ReplaceLast(blocks, x)) == FlattenBlocks(blocks) + [a]
  {
    var n := |blocks|;
    var p := FlattenBlocks(blocks[..n - 1]);
    var l := FlattenLines(blocks[n - 1].lines);
    assert p + (l + [a]) == (p + l) + [a];
  }

  /** True when `add` opens a block for `a`: always while there is none, afterwards for a
      Begin; a skipped End opens nothing. */
  predicate OpensBlock(b: Builder, a: Annotation) {
    (|b.blocks| == 0 || a.IsBegin()) && !(a.IsEnd() && b.lastWasEnd)
  }

  /** `add`: choose the destination, place the annotation, remember whether it was an End
      (even when it was skipped). */
  function Add(b: Builder, a: Annotation): (r: Builder)
    requires WellShaped(b.blocks)
    ensures WellShaped(r.blocks)
    ensures r.lastWasEnd <==> a.IsEnd()
    ensures FlattenBlocks(r.blocks) ==
              FlattenBlocks(b.blocks) + (if a.IsEnd() && b.lastWasEnd then [] else [a])
    ensures |r.blocks| == |b.blocks| + (if OpensBlock(b, a) then 1 else 0)
    ensures forall i :: 0 <= i < |b.blocks| ==> r.blocks[i].lines[0][0] == b.blocks[i].lines[0][0]
    ensures OpensBlock(b, a) ==> r.blocks[|b.blocks|] == Block([[a]])
  {
    var d := Choose(b.blocks, b.lastWasEnd, a);
    PlaceKeepsShape(b.blocks, d, a);
    PlaceKeepsHeads(b.blocks, d, a);
    Builder(Place(b.blocks, d, a), a.IsEnd())
  }

  lemma WellShapedSnoc(p: seq<Block>, x: Block)
    requires WellShaped(p) && BlockShaped(x)
    ensures WellShaped(p + [x])
  {
    var q := p + [x];
    forall i | 0 <= i < |q|
      ensures |q[i].lines| > 0 && forall j :: 0 <= j < |q[i].lines| ==> |q[i].lines[j]| > 0
    {
      if i < |p| {
        assert q[i] == p[i];
      }
    }
  }

  /** Replacing the last block by a well-shaped one keeps the shape. */
  lemma ReplaceLastKeepsShape(blocks: seq<Block>, x: Block)
    requires WellShaped(blocks) && |blocks| > 0 && BlockShaped(x)
    ensures WellShaped(ReplaceLast(blocks, x))
  {
    var p := blocks[..|blocks| - 1];
    assert ReplaceLast(blocks, x) == p + [x];
    assert WellShaped(p) by {
      forall i | 0 <= i < |p|
        ensures |p[i].lines| > 0 && forall j :: 0 <= j < |p[i].lines| ==> |p[i].lines[j]| > 0
      {
        assert p[i] == blocks[i];
      }
    }
    WellShapedSnoc(p, x);
  }

  lemma PlaceKeepsShape(blocks: seq<Block>, d: Destination, a: Annotation)
    requires WellShaped(blocks)
    requires d == StartLine || d == Append ==> |blocks| > 0
    ensures WellShaped(Place(blocks, d, a))
  {
    match d
    case StartBlock =>
      WellShapedSnoc(blocks, Block([[a]]));
    case StartLine =>
      ReplaceLastKeepsShape(blocks, WithNewLine(blocks[|blocks| - 1], a));
    case Append =>
      ReplaceLastKeepsShape(blocks, WithLastLineExtended(blocks[|blocks| - 1], a));
    case Skip =>
  }

  /** Every block of `blocks` has, at the same position in `r`, a block with the same
      first annotation. */
  predicate KeepsHeads(blocks: seq<Block>, r: seq<Block>)
    requires WellShaped(blocks)
  {
    |blocks| <= |r| &&
    forall i :: 0 <= i < |blocks| ==>
      |r[i].lines| > 0 && |r[i].lines[0]| > 0 && r[i].lines[0][0] == blocks[i].lines[0][0]
  }

  /** Placing an annotation never changes the first annotation of an existing block. */
  lemma PlaceKeepsHeads(blocks: seq<Block>, d: Destination, a: Annotation)
    requires WellShaped(blocks)
    requires d == StartLine || d == Append ==> |blocks| > 0
    ensures KeepsHeads(blocks, Place(blocks, d, a))
  {
    var r := Place(blocks, d, a);
    match d
    case StartBlock => ExtensionKeepsHeads(blocks, r);
    case Skip => ExtensionKeepsHeads(blocks, r);
    case _ => GrowthKeepsHeads(blocks, r, a);
  }

  lemma ExtensionKeepsHeads(blocks: seq<Block>, r: seq<Block>)
    requires WellShaped(blocks) && |blocks| <= |r| && r[..|blocks|] == blocks
    ensures KeepsHeads(blocks, r)
  {
    forall i | 0 <= i < |blocks| ensures r[i] == blocks[i] {
      assert r[..|blocks|][i] == blocks[i];
    }
  }

  lemma GrowthKeepsHeads(blocks: seq<Block>, r: seq<Block>, a: Annotation)
    requires WellShaped(blocks) && LastBlockGrows(blocks, r, a)
    ensures KeepsHeads(blocks, r)
  {
    var n := |blocks| - 1;
    forall i | 0 <= i < n ensures r[i] == blocks[i] {
      assert r[..n][i] == blocks[..n][i];
    }
  }

  /** `build`: the fold of `add` over the stream, starting with no blocks. */
  function Build(s: seq<Annotation>): (r: Builder)
    ensures WellShaped(r.blocks)
    ensures r.lastWasEnd <==> |s| > 0 && s[|s| - 1].IsEnd()
    ensures |r.blocks| == 0 <==> |s| == 0
  {
    if |s| == 0 then Builder([], false)
    else Add(Build(s[..|s| - 1]), s[|s| - 1])
  }

  /** `get`: the blocks built from the stream. */
  function BlocksOf(s: seq<Annotation>): seq<Block>
  {
    Build(s).blocks
  }

  /** True when the last annotation of `s` is an End directly after an End. */
  predicate EndAfterEnd(s: seq<Annotation>) {
    |s| >= 2 && s[|s| - 1].IsEnd() && s[|s| - 2].IsEnd()
  }

  /** The stream with every End that directly follows an End removed. */
  function Kept(s: seq<Annotation>): seq<Annotation>
  {
    if |s| == 0 then []
    else Kept(s[..|s| - 1]) + (if EndAfterEnd(s) then [] else [s[|s| - 1]])
  }

  /** Flattening blocks, lines and annotations gives back the stream, in order, without
      the Ends that directly followed an End. */
  lemma {:induction false} BuildKeepsOrder(s: seq<Annotation>)
    ensures FlattenBlocks(BlocksOf(s)) == Kept(s)
    decreases |s|
  {
    if |s| > 0 {
      var p := s[..|s| - 1];
      var a := s[|s| - 1];
      BuildKeepsOrder(p);
      AddKeepsOrder(Build(p), s);
    }
  }

  /** The last `add` of a stream keeps the flattened blocks equal to the kept stream. */
  lemma AddKeepsOrder(b: Builder, s: seq<Annotation>)
    requires |s| > 0
    requires WellShaped(b.blocks) && FlattenBlocks(b.blocks) == Kept(s[..|s| - 1])
    requires b.lastWasEnd <==> |s| > 1 && s[|s| - 2].IsEnd()
    ensures FlattenBlocks(Add(b, s[|s| - 1]).blocks) == Kept(s)
  {
    var x := s[|s| - 1];
    assert Kept(s) == Kept(s[..|s| - 1]) + (if EndAfterEnd(s) then [] else [x]);
    assert EndAfterEnd(s) == (x.IsEnd() && b.lastWasEnd);
  }

  /** An End is dropped exactly when the annotation right before it, of any kind, was an
      End; everything else is kept. */
  lemma {:induction false} KeptDropsOnlyRepeatedEnds(s: seq<Annotation>, a: Annotation)
    ensures Kept(s + [a]) == Kept(s) + (if a.IsEnd() && |s| > 0 && s[|s| - 1].IsEnd() then [] else [a])
  {
    assert (s + [a])[..|s|] == s;
  }

  /** The annotations that open a block: the first one, whatever its kind, and every Begin. */
  function Openers(s: seq<Annotation>): seq<Annotation>
  {
    if |s| == 0 then []
    else Openers(s[..|s| - 1]) + (if |s| == 1 || s[|s| - 1].IsBegin() then [s[|s| - 1]] else [])
  }

  /** Block heads are exactly the openers, in order: the very first annotation opens a block
      whatever its kind, every Begin opens one, and nothing else does. */
  lemma {:induction false} BuildHeads(s: seq<Annotation>)
    ensures |BlocksOf(s)| == |Openers(s)|
    ensures forall i :: 0 <= i < |Openers(s)| ==> BlocksOf(s)[i].lines[0][0] == Openers(s)[i]
    decreases |s|
  {
    if |s| > 0 {
      var p := s[..|s| - 1];
      BuildHeads(p);
      AddExtendsHeads(Build(p), s[|s| - 1], Openers(p));
    }
  }

  /** The heads of the blocks are `o`. */
  predicate HeadsAre(bs: seq<Block>, o: seq<Annotation>)
    requires WellShaped(bs)
  {
    |bs| == |o| && forall i :: 0 <= i < |o| ==> bs[i].lines[0][0] == o[i]
  }

  /** One `add` extends the heads by the annotation exactly when it opens a block. */
  lemma AddExtendsHeads(b: Builder, a: Annotation, o: seq<Annotation>)
    requires WellShaped(b.blocks) && HeadsAre(b.blocks, o)
    ensures HeadsAre(Add(b, a).blocks, o + (if OpensBlock(b, a) then [a] else []))
  {
    var r := Add(b, a).blocks;
    if OpensBlock(b, a) {
      assert r[|o|] == Block([[a]]);
      forall i | 0 <= i < |o| + 1
        ensures r[i].lines[0][0] == (o + [a])[i]
      {
        if i < |o| {
          assert (o + [a])[i] == o[i];
        }
      }
    } else {
      assert o + [] == o;
    }
  }

  function CountBegins(s: seq<Annotation>): nat
  {
    if |s| == 0 then 0 else CountBegins(s[..|s| - 1]) + (if s[|s| - 1].IsBegin() then 1 else 0)
  }

  lemma {:induction false} OpenersCount(s: seq<Annotation>)
    ensures |Openers(s)| == CountBegins(s) + (if |s| > 0 && !s[0].IsBegin() then 1 else 0)
    ensures |s| > 0 ==> |Openers(s)| > 0 && Openers(s)[0] == s[0]
    decreases |s|
  {
    if |s| > 1 {
      var p := s[..|s| - 1];
      OpenersCount(p);
      assert p[0] == s[0];
      assert Openers(s)[0] == Openers(p)[0];
    }
  }

  /** The number of blocks is the number of Begins, plus one when the stream is non-empty
      and does not start with a Begin; the very first annotation heads the first block. */
  lemma BlockCount(s: seq<Annotation>)
    ensures |BlocksOf(s)| == CountBegins(s) + (if |s| > 0 && !s[0].IsBegin() then 1 else 0)
    ensures |s| > 0 ==> BlocksOf(s)[0].lines[0][0] == s[0]
  {
    BuildHeads(s);
    OpenersCount(s);
  }

  /** Once a block exists, a qualification goes to the end of the last line of the last
      block: no block and no line is opened and nothing before it moves. */
  lemma QualificationAppends(b: Builder, a: Annotation)
    requires WellShaped(b.blocks) && |b.blocks| > 0 && a.Qualification?
    ensures var n := |b.blocks|;
            var r := Add(b, a).blocks;
            var m := |b.blocks[n - 1].lines|;
            && |r| == n && r[..n - 1] == b.blocks[..n - 1]
            && |r[n - 1].lines| == m
            && r[n - 1].lines[..m - 1] == b.blocks[n - 1].lines[..m - 1]
            && r[n - 1].lines[m - 1] == b.blocks[n - 1].lines[m - 1] + [a]
  {
  }

  /** Once a block exists, a primary annotation other than Begin (and other than an End right
      after an End) opens a new line of the last block holding just itself. */
  lemma PrimaryOpensLine(b: Builder, a: Annotation)
    requires WellShaped(b.blocks) && |b.blocks| > 0
    requires a.Primary? && !a.IsBegin() && !(a.IsEnd() && b.lastWasEnd)
    ensures var n := |b.blocks|;
            var r := Add(b, a).blocks;
            && |r| == n && r[..n - 1] == b.blocks[..n - 1]
            && r[n - 1].lines == b.blocks[n - 1].lines + [[a]]
  {
  }

  /** A Begin opens a new block whose only line holds just the Begin. */
  lemma BeginOpensBlock(b: Builder, a: Annotation)
    requires WellShaped(b.blocks) && a.IsBegin()
    ensures Add(b, a).blocks == b.blocks + [Block([[a]])]
  {
  }

  /** An End right after an End changes no block, and the flag stays set. */
  lemma RepeatedEndSkipped(b: Builder, a: Annotation)
    requires WellShaped(b.blocks) && a.IsEnd() && b.lastWasEnd
    ensures Add(b, a) == Builder(b.blocks, true)
  {
  }

  /** No annotation of the lines but the first is a Begin. */
  ghost predicate NoInnerBegin(ls: seq<Line>) {
    forall k :: 1 <= k < |FlattenLines(ls)| ==> !FlattenLines(ls)[k].IsBegin()
  }

  /** Inside the blocks built from a stream, only a block's first annotation can be a
      Begin, and every block after the first starts with one. */
  ghost predicate BeginsOnlyAtHeads(bs: seq<Block>) {
    && (forall i :: 1 <= i < |bs| ==> |bs[i].lines| > 0 && |bs[i].lines[0]| > 0 && bs[i].lines[0][0].IsBegin())
    && (forall i :: 0 <= i < |bs| ==> NoInnerBegin(bs[i].lines))
  }

  lemma NoInnerBeginSnoc(ls: seq<Line>, ls': seq<Line>, a: Annotation)
    requires NoInnerBegin(ls) && |FlattenLines(ls)| > 0 && !a.IsBegin()
    requires FlattenLines(ls') == FlattenLines(ls) + [a]
    ensures NoInnerBegin(ls')
  {
    var f := FlattenLines(ls);
    forall k | 1 <= k < |FlattenLines(ls')| ensures !FlattenLines(ls')[k].IsBegin() {
      if k < |f| {
        assert FlattenLines(ls')[k] == f[k];
      }
    }
  }

  lemma FlattenLinesHead(ls: seq<Line>)
    requires |ls| > 0 && |ls[0]| > 0
    ensures |FlattenLines(ls)| > 0 && FlattenLines(ls)[0] == ls[0][0]
    decreases |ls|
  {
    if |ls| > 1 {
      FlattenLinesHead(ls[..|ls| - 1]);
      assert ls[..|ls| - 1][0] == ls[0];
    }
  }

  /** One `add` keeps Begins at the heads of blocks. */
  lemma AddKeepsBeginsAtHeads(b: Builder, a: Annotation)
    requires WellShaped(b.blocks) && BeginsOnlyAtHeads(b.blocks)
    ensures BeginsOnlyAtHeads(Add(b, a).blocks)
  {
    var bs := b.blocks;
    var d := Choose(bs, b.lastWasEnd, a);
    assert Add(b, a).blocks == Place(bs, d, a);
    match d
    case StartBlock =>
      NewBlockKeepsBeginsAtHeads(bs, a);
    case StartLine =>
      JoinLastKeepsBeginsAtHeads(bs, d, a);
    case Append =>
      JoinLastKeepsBeginsAtHeads(bs, d, a);
    case Skip =>
  }

  /** A line or qualification joining the last block keeps Begins at the heads. */
  lemma JoinLastKeepsBeginsAtHeads(bs: seq<Block>, d: Destination, a: Annotation)
    requires WellShaped(bs) && BeginsOnlyAtHeads(bs) && |bs| > 0 && !a.IsBegin()
    requires d == StartLine || d == Append
    ensures BeginsOnlyAtHeads(Place(bs, d, a))
  {
    PlaceKeepsShape(bs, d, a);
    StaysInLastBlock(bs, Place(bs, d, a), a);
  }

  /** A block opened for `a` keeps Begins at the heads when `a` is a Begin or opens the
      first block. */
  lemma NewBlockKeepsBeginsAtHeads(bs: seq<Block>, a: Annotation)
    requires BeginsOnlyAtHeads(bs) && (|bs| > 0 ==> a.IsBegin())
    ensures BeginsOnlyAtHeads(bs + [Block([[a]])])
  {
    var r := bs + [Block([[a]])];
    forall i | 0 <= i < |r| ensures NoInnerBegin(r[i].lines) {
      if i < |bs| {
        assert r[i] == bs[i];
      } else {
        FlattenLinesSnoc([], [a]);
        assert [] + [[a]] == [[a]];
      }
    }
    forall i | 1 <= i < |r| ensures r[i].lines[0][0].IsBegin() {
      if i < |bs| {
        assert r[i] == bs[i];
      }
    }
  }

  /** When `a` joins the last block, the other blocks are untouched and the last one only
      grows at its end. */
  lemma StaysInLastBlock(bs: seq<Block>, r: seq<Block>, a: Annotation)
    requires WellShaped(bs) && WellShaped(r) && BeginsOnlyAtHeads(bs) && !a.IsBegin()
    requires |bs| > 0 && |r| == |bs| && r[..|r| - 1] == bs[..|r| - 1]
    requires FlattenLines(r[|r| - 1].lines) == FlattenLines(bs[|r| - 1].lines) + [a]
    requires r[|r| - 1].lines[0][0] == bs[|r| - 1].lines[0][0]
    ensures BeginsOnlyAtHeads(r)
  {
    var n := |bs|;
    forall i | 0 <= i < n - 1 ensures r[i] == bs[i] {
      assert r[..n - 1][i] == bs[..n - 1][i];
    }
    FlattenLinesHead(bs[n - 1].lines);
    NoInnerBeginSnoc(bs[n - 1].lines, r[n - 1].lines, a);
  }

  lemma {:induction false} BuildBeginsOnlyAtHeads(s: seq<Annotation>)
    ensures BeginsOnlyAtHeads(BlocksOf(s))
    decreases |s|
  {
    if |s| > 0 {
      BuildBeginsOnlyAtHeads(s[..|s| - 1]);
      AddKeepsBeginsAtHeads(Build(s[..|s| - 1]), s[|s| - 1]);
    }
  }

  /** Every annotation in a block comes from the stream. */
  lemma BlocksComeFromStream(s: seq<Annotation>, i: nat, a: Annotation)
    requires i < |BlocksOf(s)| && a in FlattenLines(BlocksOf(s)[i].lines)
    ensures a in s
  {
    FlattenBlocksContains(BlocksOf(s), i, a);
    BuildKeepsOrder(s);
    KeptIsSubsequence(s);
  }

  lemma {:induction false} KeptIsSubsequence(s: seq<Annotation>)
    ensures forall a <- Kept(s) :: a in s
    decreases |s|
  {
    if |s| > 0 {
      KeptIsSubsequence(s[..|s| - 1]);
    }
  }
}
