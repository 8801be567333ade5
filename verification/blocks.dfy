/** The block and line containers (`AnnotationBlock`, `AnnotationLine`). The builder fills
    `org.yesworkflow.annotations.AnnotationBlock` and the document builder reads
    `org.yesworkflow.annotations.util.AnnotationBlock`; both hold the same list of lines, the
    second adds `getBegin`, so one datatype carries both. A line is just its list of
    annotations. */
module Blocks {
  import opened Wrappers
  import opened Annotations

  type Line = seq<Annotation>

  /** Every annotation of the lines, line after line. */
  function FlattenLines(ls: seq<Line>): seq<Annotation>
  {
    if |ls| == 0 then [] else FlattenLines(ls[..|ls| - 1]) + ls[|ls| - 1]
  }

  /** Index of the first annotation carrying `tag`, or `|s|` when none does. */
  function FirstTagged(s: seq<Annotation>, tag: Tag): (k: nat)
    ensures k <= |s|
    ensures k < |s| ==> s[k].tag == tag
    ensures forall j :: 0 <= j < k ==> s[j].tag != tag
  {
    if |s| == 0 then 0 else if s[0].tag == tag then 0 else 1 + FirstTagged(s[1..], tag)
  }

  datatype Block = Block(lines: seq<Line>)
  {
    /** `getLastLine`: null when the block has no line, the final line otherwise. */
    function LastLine(): (r: Option<Line>)
      ensures r.None? <==> |lines| == 0
      ensures r.Some? ==> r.value == lines[|lines| - 1]
    {
      if |lines| < 1 then None else Some(lines[|lines| - 1])
    }

    /** `getBegin`: the first annotation, scanning the lines in order and each line in order,
        whose tag is BEGIN; null when none is. It tests the tag, not the class. */
    function BeginOf(): (r: Option<Annotation>)
      ensures r.None? <==> forall a <- FlattenLines(lines) :: a.tag != BEGIN
      ensures r.Some? ==> r.value.tag == BEGIN && r.value in FlattenLines(lines)
      ensures r.Some? ==> exists k :: 0 <= k < |FlattenLines(lines)| && FlattenLines(lines)[k] == r.value
                                      && forall j :: 0 <= j < k ==> FlattenLines(lines)[j].tag != BEGIN
    {
      var s := FlattenLines(lines);
      var k := FirstTagged(s, BEGIN);
      if k < |s| then Some(s[k]) else None
    }
  }

  /** A freshly constructed block has no lines. */
  const NewBlock: Block := Block([])

  lemma NewBlockHasNoLastLine()
    ensures NewBlock.LastLine().None? && NewBlock.BeginOf().None?
  {
  }

  /** Every annotation of the blocks, block after block. */
  function FlattenBlocks(bs: seq<Block>): seq<Annotation>
  {
    if |bs| == 0 then [] else FlattenBlocks(bs[..|bs| - 1]) + FlattenLines(bs[|bs| - 1].lines)
  }

  /** An annotation of one of the blocks is an annotation of the flattened list. */
  lemma {:induction false} FlattenBlocksContains(bs: seq<Block>, i: nat, a: Annotation)
    requires i < |bs| && a in FlattenLines(bs[i].lines)
    ensures a in FlattenBlocks(bs)
    decreases |bs|
  {
    if i < |bs| - 1 {
      FlattenBlocksContains(bs[..|bs| - 1], i, a);
    }
  }
}
