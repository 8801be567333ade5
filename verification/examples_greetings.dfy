/** The second half of `greetings.py` (lines 19-25) as an annotation stream: one Begin with
    its description, an In and an Out that share the name `greeting` with their aliases, a
    description and a `@file`, and the two closing Ends, the second of which the builder
    drops. */
module Greetings {
  import opened Wrappers
  import opened Annotations
  import opened Blocks
  import opened BlockBuilder
  import opened QNames
  import opened Statements
  import opened Document

  const PrintGreeting: seq<Annotation> := [
    Primary(0, 19, Begin, BEGIN, "@begin", "print_greeting"),
    Qualification(1, 19, Desc, DESC, "@desc", "Greet the user with the emphasized message.", 0),
    Primary(2, 20, In, IN, "@in", "greeting"),
    Qualification(3, 20, As, AS, "@as", "emphasized_greeting", 2),
    Qualification(4, 20, Desc, DESC, "@desc", "emphasized greeting as input", 2),
    Primary(5, 21, Out, OUT, "@out", "greeting"),
    Qualification(6, 21, As, AS, "@as", "displayed_greeting", 5),
    Qualification(7, 21, File, FILE, "@file", "stream:stdout", 5),
    Primary(8, 23, End, END, "@end", "print_greeting"),
    Primary(9, 25, End, END, "@end", "EmphasizedHelloWorld")
  ]

  /** One more annotation of the stream is one more `add`. */
  lemma BuildStep(s: seq<Annotation>, k: nat)
    requires k < |s|
    ensures Build(s[..k + 1]) == Add(Build(s[..k]), s[k])
  {
    var t := s[..k + 1];
    assert t[..k] == s[..k] && t[k] == s[k];
  }

  /** With a single block, a primary other than Begin opens a line of it. */
  lemma NewLineInOnlyBlock(ls: seq<Line>, w: bool, a: Annotation)
    requires WellShaped([Block(ls)])
    requires a.Primary? && !a.IsBegin() && !(a.IsEnd() && w)
    ensures Add(Builder([Block(ls)], w), a) == Builder([Block(ls + [[a]])], a.IsEnd())
  {
    var b := Builder([Block(ls)], w);
    PrimaryOpensLine(b, a);
    var r := Add(b, a).blocks;
    assert r == [Block(ls + [[a]])];
  }

  /** With a single block, a qualification joins its last line. */
  lemma AppendInOnlyBlock(ls: seq<Line>, l: Line, w: bool, a: Annotation)
    requires WellShaped([Block(ls + [l])]) && a.Qualification?
    ensures Add(Builder([Block(ls + [l])], w), a) == Builder([Block(ls + [l + [a]])], false)
  {
    var b := Builder([Block(ls + [l])], w);
    QualificationAppends(b, a);
    var r := Add(b, a).blocks;
    var m := |ls| + 1;
    assert (ls + [l])[..m - 1] == ls;
    assert r[0].lines == r[0].lines[..m - 1] + [r[0].lines[m - 1]];
    assert r == [r[0]];
  }

  lemma BuildNewLine(s: seq<Annotation>, k: nat, ls: seq<Line>, w: bool)
    requires k < |s| && Build(s[..k]) == Builder([Block(ls)], w)
    requires s[k].Primary? && !s[k].IsBegin() && !(s[k].IsEnd() && w)
    ensures Build(s[..k + 1]) == Builder([Block(ls + [[s[k]]])], s[k].IsEnd())
  {
    BuildStep(s, k);
    NewLineInOnlyBlock(ls, w, s[k]);
  }

  lemma BuildAppend(s: seq<Annotation>, k: nat, ls: seq<Line>, l: Line, w: bool)
    requires k < |s| && Build(s[..k]) == Builder([Block(ls + [l])], w) && s[k].Qualification?
    ensures Build(s[..k + 1]) == Builder([Block(ls + [l + [s[k]]])], false)
  {
    BuildStep(s, k);
    AppendInOnlyBlock(ls, l, w, s[k]);
  }

  lemma BuildFirst(s: seq<Annotation>)
    requires |s| > 0 && s[0].IsBegin()
    ensures Build(s[..1]) == Builder([Block([[s[0]]])], false)
  {
    assert s[..1][..0] == [];
    BeginOpensBlock(Builder([], false), s[0]);
  }

  /** A Begin with one qualification: one block of one line. */
  lemma BeginLine(s: seq<Annotation>)
    requires |s| >= 2 && s[0].IsBegin() && s[1].Qualification?
    ensures Build(s[..2]) == Builder([Block([[s[0], s[1]]])], false)
  {
    BuildFirst(s);
    OnlyLine([s[0]]);
    BuildAppend(s, 1, [], [s[0]], false);
    Pair(s[0], s[1]);
    OnlyLine([s[0], s[1]]);
  }

  /** At `k` the stream holds a primary other than Begin or End and two qualifications. */
  predicate QualifiedLineAt(s: seq<Annotation>, k: nat) {
    && k + 3 <= |s|
    && s[k].Primary? && !s[k].IsBegin() && !s[k].IsEnd()
    && s[k + 1].Qualification? && s[k + 2].Qualification?
  }

  /** Such a primary and its two qualifications add one line of three annotations to the
      single block. */
  lemma QualifiedLine(s: seq<Annotation>, k: nat, ls: seq<Line>)
    requires QualifiedLineAt(s, k) && Build(s[..k]) == Builder([Block(ls)], false)
    ensures Build(s[..k + 3]) == Builder([Block(ls + [[s[k], s[k + 1], s[k + 2]]])], false)
  {
    BuildNewLine(s, k, ls, false);
    BuildAppend(s, k + 1, ls, [s[k]], false);
    BuildAppend(s, k + 2, ls, [s[k]] + [s[k + 1]], false);
    Triple(s[k], s[k + 1], s[k + 2]);
  }

  lemma OnlyLine(l: Line)
    ensures [] + [l] == [l]
  {
  }

  lemma Pair(a: Annotation, b: Annotation)
    ensures [a] + [b] == [a, b]
  {
  }

  lemma Triple(a: Annotation, b: Annotation, c: Annotation)
    ensures [a] + [b] + [c] == [a, b, c]
  {
  }

  lemma ClosingEnds(s: seq<Annotation>, ls: seq<Line>)
    requires |s| == 10 && Build(s[..8]) == Builder([Block(ls)], false)
    requires s[8].IsEnd() && s[9].IsEnd()
    ensures Build(s[..10]).blocks == [Block(ls + [[s[8]]])]
  {
    BuildNewLine(s, 8, ls, false);
    BuildSkipsEnd(s, 9);
  }

  lemma BuildWhole(s: seq<Annotation>)
    ensures Build(s[..|s|]) == Build(s)
  {
    assert s[..|s|] == s;
  }

  lemma BuildSkipsEnd(s: seq<Annotation>, k: nat)
    requires 0 < k < |s| && s[k - 1].IsEnd() && s[k].IsEnd()
    ensures Build(s[..k + 1]).blocks == Build(s[..k]).blocks
  {
    assert s[..k + 1][..k] == s[..k];
    RepeatedEndSkipped(Build(s[..k]), s[k]);
  }

  /** The Begin line and the In line. */
  lemma FirstFive(s: seq<Annotation>)
    requires |s| == 10 && s[0].IsBegin() && s[1].Qualification? && QualifiedLineAt(s, 2)
    ensures Build(s[..5]) == Builder([Block([[s[0], s[1]], [s[2], s[3], s[4]]])], false)
  {
    BeginLine(s);
    QualifiedLine(s, 2, [[s[0], s[1]]]);
    TwoLines([s[0], s[1]], [s[2], s[3], s[4]]);
  }

  /** The first eight annotations of such a stream: the Begin line and the two flow lines. */
  lemma ThreeLines(s: seq<Annotation>)
    requires |s| == 10 && s[0].IsBegin() && s[1].Qualification?
    requires QualifiedLineAt(s, 2) && QualifiedLineAt(s, 5)
    ensures Build(s[..8]) == Builder([Block([[s[0], s[1]], [s[2], s[3], s[4]], [s[5], s[6], s[7]]])], false)
  {
    FirstFive(s);
    QualifiedLine(s, 5, [[s[0], s[1]], [s[2], s[3], s[4]]]);
    ThirdLine([s[0], s[1]], [s[2], s[3], s[4]], [s[5], s[6], s[7]]);
  }

  lemma TwoLines(l0: Line, l1: Line)
    ensures [l0] + [l1] == [l0, l1]
  {
  }

  lemma ThirdLine(l0: Line, l1: Line, l2: Line)
    ensures [l0, l1] + [l2] == [l0, l1, l2]
  {
  }

  lemma FourthLine(l0: Line, l1: Line, l2: Line, l3: Line)
    ensures [l0, l1, l2] + [l3] == [l0, l1, l2, l3]
  {
  }

  /** The shape of a stream Begin, Desc, In, As, Desc, Out, As, File, End, End: one block of
      four lines, each primary with the qualifications written after it; the second End is
      gone. */
  lemma OneProcedureBlocks(s: seq<Annotation>)
    requires |s| == 10 && s[0].IsBegin() && s[1].Qualification?
    requires s[2].IsIn() && s[3].Qualification? && s[4].Qualification?
    requires s[5].IsOut() && s[6].Qualification? && s[7].Qualification?
    requires s[8].IsEnd() && s[9].IsEnd()
    ensures BlocksOf(s) == [Block([[s[0], s[1]], [s[2], s[3], s[4]], [s[5], s[6], s[7]], [s[8]]])]
  {
    ThreeLines(s);
    ClosingEnds(s, [[s[0], s[1]], [s[2], s[3], s[4]], [s[5], s[6], s[7]]]);
    FourthLine([s[0], s[1]], [s[2], s[3], s[4]], [s[5], s[6], s[7]], [s[8]]);
    BuildWhole(s);
  }

  /** One block of four lines; the closing End of the enclosing procedure is gone. */
  lemma PrintGreetingBlocks()
    ensures BlocksOf(PrintGreeting) == [Block([
              [PrintGreeting[0], PrintGreeting[1]],
              [PrintGreeting[2], PrintGreeting[3], PrintGreeting[4]],
              [PrintGreeting[5], PrintGreeting[6], PrintGreeting[7]],
              [PrintGreeting[8]]])]
  {
    OneProcedureBlocks(PrintGreeting);
  }
}
