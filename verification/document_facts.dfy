/** What `createDocument` guarantees about the document it builds: which statements and
    edges each annotation leaves behind, which alternate-of pairs the document holds, and
    when the pass fails. */
module DocumentFacts {
  import opened Wrappers
  import opened Text
  import opened Annotations
  import opened Blocks
  import opened BlockBuilder
  import opened QNames
  import opened Labels
  import opened Statements
  import opened Document

  // ---------------------------------------------------------------------------------------
  // Alternate-of pairs

  /** The `k`-th annotation of `s` is an As contributing `p`. */
  predicate Contributes(arena: seq<Annotation>, s: seq<Annotation>, k: int, p: (string, string)) {
    0 <= k < |s| && s[k].IsAs() && s[k].primary < |arena| && AsPair(arena, s[k]) == p
  }

  lemma {:induction false} AsPairsComeFromAs(arena: seq<Annotation>, s: seq<Annotation>, p: (string, string))
    requires Resolves(arena, s) && p in AsPairs(arena, s)
    ensures exists k :: Contributes(arena, s, k, p)
    decreases |s|
  {
    var q := s[..|s| - 1];
    assert Resolves(arena, q);
    if p in AsPairs(arena, q) {
      AsPairsComeFromAs(arena, q, p);
      var k :| Contributes(arena, q, k, p);
      assert s[k] == q[k];
      assert Contributes(arena, s, k, p);
    } else {
      assert Contributes(arena, s, |s| - 1, p);
    }
  }

  lemma {:induction false} AsContributesPair(arena: seq<Annotation>, s: seq<Annotation>, k: int, p: (string, string))
    requires Resolves(arena, s) && Contributes(arena, s, k, p)
    ensures p in AsPairs(arena, s)
    decreases |s|
  {
    var q := s[..|s| - 1];
    assert Resolves(arena, q);
    if k < |s| - 1 {
      assert s[k] == q[k];
      AsContributesPair(arena, q, k, p);
    }
  }

  /** A pair is in `AsPairs` exactly when some As annotation of `s` contributes it. */
  lemma AsPairsMembers(arena: seq<Annotation>, s: seq<Annotation>, p: (string, string))
    requires Resolves(arena, s)
    ensures p in AsPairs(arena, s) <==> exists k :: Contributes(arena, s, k, p)
  {
    if p in AsPairs(arena, s) {
      AsPairsComeFromAs(arena, s, p);
    }
    if exists k :: Contributes(arena, s, k, p) {
      var k :| Contributes(arena, s, k, p);
      AsContributesPair(arena, s, k, p);
    }
  }

  lemma {:induction false} AsPairsAppend(arena: seq<Annotation>, s: seq<Annotation>, t: seq<Annotation>)
    requires Resolves(arena, s) && Resolves(arena, t)
    ensures Resolves(arena, s + t)
    ensures AsPairs(arena, s + t) == AsPairs(arena, s) + AsPairs(arena, t)
    decreases |t|
  {
    assert forall k :: 0 <= k < |s + t| ==> (s + t)[k] == if k < |s| then s[k] else t[k - |s|];
    if |t| == 0 {
      assert s + t == s;
    } else {
      var t' := t[..|t| - 1];
      assert Resolves(arena, t');
      AsPairsAppend(arena, s, t');
      assert (s + t)[..|s + t| - 1] == s + t';
      assert (s + t)[|s + t| - 1] == t[|t| - 1];
    }
  }

  lemma {:induction false} FlattenBlocksResolve(arena: seq<Annotation>, bs: seq<Block>)
    requires BlocksResolve(arena, bs)
    ensures Resolves(arena, FlattenBlocks(bs))
    decreases |bs|
  {
    if |bs| > 0 {
      var p := bs[..|bs| - 1];
      assert BlocksResolve(arena, p) by {
        forall i | 0 <= i < |p| ensures Resolves(arena, FlattenLines(p[i].lines)) {
          assert p[i] == bs[i];
        }
      }
      FlattenBlocksResolve(arena, p);
      AsPairsAppend(arena, FlattenBlocks(p), FlattenLines(bs[|bs| - 1].lines));
    }
  }

  /** The alternate-of set after visiting blocks holds exactly the pairs of their As
      annotations. */
  lemma {:induction false} VisitBlocksAlternates(arena: seq<Annotation>, doc: Doc, bs: seq<Block>)
    requires BlocksResolve(arena, bs) && VisitBlocks(arena, doc, bs).Success?
    ensures Resolves(arena, FlattenBlocks(bs))
    ensures VisitBlocks(arena, doc, bs).value.alternates == doc.alternates + AsPairs(arena, FlattenBlocks(bs))
    decreases |bs|
  {
    FlattenBlocksResolve(arena, bs);
    if |bs| > 0 {
      var p := bs[..|bs| - 1];
      assert BlocksResolve(arena, p) by {
        forall i | 0 <= i < |p| ensures Resolves(arena, FlattenLines(p[i].lines)) {
          assert p[i] == bs[i];
        }
      }
      VisitBlocksAlternates(arena, doc, p);
      AsPairsAppend(arena, FlattenBlocks(p), FlattenLines(bs[|bs| - 1].lines));
    }
  }

  /** Dropping repeated Ends loses no As annotation. */
  lemma {:induction false} AsPairsKept(arena: seq<Annotation>, s: seq<Annotation>)
    requires Resolves(arena, s)
    ensures Resolves(arena, Kept(s))
    ensures AsPairs(arena, Kept(s)) == AsPairs(arena, s)
    decreases |s|
  {
    if |s| > 0 {
      var p := s[..|s| - 1];
      var x := s[|s| - 1];
      AsPairsKept(arena, p);
      if EndAfterEnd(s) {
        assert Kept(s) == Kept(p) + [];
        assert Kept(p) + [] == Kept(p);
      } else {
        assert Kept(s) == Kept(p) + [x];
        AsPairsSnoc(arena, Kept(p), x);
      }
    }
  }

  /** One more annotation at the end adds its own pair, if any. */
  lemma AsPairsSnoc(arena: seq<Annotation>, t: seq<Annotation>, x: Annotation)
    requires Resolves(arena, t) && (x.Qualification? ==> x.primary < |arena|)
    ensures Resolves(arena, t + [x])
    ensures AsPairs(arena, t + [x]) == AsPairs(arena, t) + (if x.IsAs() then {AsPair(arena, x)} else {})
  {
    assert (t + [x])[..|t|] == t;
  }

  /** The document's alternate-of pairs are exactly those of the As annotations of the
      stream, however the stream was cut into blocks. */
  lemma ExtractAlternates(arena: seq<Annotation>)
    requires ValidArena(arena) && Extract(arena).Success?
    ensures Resolves(arena, arena)
    ensures Extract(arena).value.alternates == AsPairs(arena, arena)
  {
    StreamBlocksResolve(arena);
    VisitBlocksAlternates(arena, EmptyDoc, BlocksOf(arena));
    BuildKeepsOrder(arena);
    AsPairsKept(arena, arena);
  }

  // ---------------------------------------------------------------------------------------
  // Failure

  /** Every annotation of the class Begin carries the BEGIN tag, as Begin's constructor
      passes it. */
  predicate BeginTagged(arena: seq<Annotation>) {
    forall i :: 0 <= i < |arena| ==> (arena[i].IsBegin() ==> arena[i].tag == BEGIN)
  }

  lemma HeadIsBegin(arena: seq<Annotation>, bs: seq<Block>, i: nat)
    requires ValidArena(arena) && BeginTagged(arena) && bs == BlocksOf(arena)
    requires BeginsOnlyAtHeads(bs) && 1 <= i < |bs|
    ensures bs[i].BeginOf().Some?
  {
    var ls := bs[i].lines;
    FlattenLinesHead(ls);
    var h := FlattenLines(ls)[0];
    BlocksComeFromStream(arena, i, h);
    BeginIsTagged(arena, h);
  }

  lemma BeginIsTagged(arena: seq<Annotation>, h: Annotation)
    requires BeginTagged(arena) && h in arena && h.IsBegin()
    ensures h.tag == BEGIN
  {
    var j :| 0 <= j < |arena| && arena[j] == h;
  }

  /** Every block after the first opens with a Begin, so only the first block, the
      annotations before the first Begin, can make the pass fail. */
  lemma ExtractFailsOnlyInFirstBlock(arena: seq<Annotation>)
    requires ValidArena(arena) && BeginTagged(arena) && Extract(arena).Failure?
    ensures |BlocksOf(arena)| > 0 && Orphaned(BlocksOf(arena)[0])
  {
    var bs := BlocksOf(arena);
    var i :| 0 <= i < |bs| && Orphaned(bs[i]);
    if i > 0 {
      BuildBeginsOnlyAtHeads(arena);
      HeadIsBegin(arena, bs, i);
    }
  }

  // ---------------------------------------------------------------------------------------
  // What one annotation leaves behind

  /** The key of the entity an In, Param, Out, Return or Call contributes. */
  function EntityKey(a: Annotation): string {
    Escape(Name(a))
  }

  /** The relation of the edge between such an entity and its block's activity. */
  function EdgeRel(a: Annotation): string {
    if a.IsOut() then GEN else if a.IsIn() then USE else QNames.CALL
  }

  function EdgeKey(a: Annotation, begin: Annotation): string {
    EdgeLocal(EntityKey(a), ActivityKey(begin), EdgeRel(a))
  }

  /** The statement of an In, Param, Out, Return or Call is an entity keyed by the
      escaped trimmed name; the Flow classes' second escape changes nothing. */
  lemma EntityOfFlowOrCall(arena: seq<Annotation>, a: Annotation)
    requires a.IsFlow() || a.IsCall()
    ensures ProvenanceInfo(arena, a).Some? && ProvenanceInfo(arena, a).value.Entity?
    ensures ProvenanceInfo(arena, a).value.id == EntityKey(a)
  {
    EscapeIdempotent(Name(a));
  }

  /** Connecting an entity stores its edge and keeps every key, the entity's included. */
  lemma ConnectStoresEdge(d: Doc, b: Annotation, e: Stmt, eid: string, rel: string)
    requires e.Entity? && e.id == eid
    ensures Connect(d, Some(b), Some(e), rel).Success?
    ensures d.elements.Keys <= Connect(d, Some(b), Some(e), rel).value.elements.Keys
    ensures EdgeLocal(eid, ActivityKey(b), rel) in Connect(d, Some(b), Some(e), rel).value.elements
    ensures Connect(d, Some(b), Some(e), rel).value.elements[EdgeLocal(eid, ActivityKey(b), rel)] ==
              Edge(eid, ActivityKey(b), rel)
  {
  }

  /** An annotation with a statement, and a Log, go through recording and dispatch. */
  lemma StepIsDispatch(arena: seq<Annotation>, doc: Doc, begin: Option<Annotation>, a: Annotation)
    requires a.Qualification? ==> a.primary < |arena|
    requires ProvenanceInfo(arena, a).Some? || a.IsLog()
    ensures Step(arena, doc, begin, a) ==
              Dispatch(arena, Record(arena, doc, a, ProvenanceInfo(arena, a)), begin, a, ProvenanceInfo(arena, a))
  {
  }

  /** Under a Begin, an In, Param, Out, Return or Call stores its entity under the escaped
      trimmed name and the edge to the activity under the joined name. */
  lemma StepConnects(arena: seq<Annotation>, doc: Doc, b: Annotation, a: Annotation)
    requires a.IsFlow() || a.IsCall()
    ensures Step(arena, doc, Some(b), a).Success?
    ensures EntityKey(a) in Step(arena, doc, Some(b), a).value.elements
    ensures EdgeKey(a, b) in Step(arena, doc, Some(b), a).value.elements
    ensures Step(arena, doc, Some(b), a).value.elements[EdgeKey(a, b)] ==
              Edge(EntityKey(a), ActivityKey(b), EdgeRel(a))
  {
    EntityOfFlowOrCall(arena, a);
    var prov := ProvenanceInfo(arena, a);
    var d := Record(arena, doc, a, prov);
    assert EntityKey(a) in d.elements;
    ConnectStoresEdge(d, b, prov.value, EntityKey(a), EdgeRel(a));
    assert Dispatch(arena, d, Some(b), a, prov) == Connect(d, Some(b), prov, EdgeRel(a));
    StepIsDispatch(arena, doc, Some(b), a);
  }

  /** A Begin stores its activity under the escaped trimmed name; a new one carries the
      cleaned description as its label. */
  lemma StepBegins(arena: seq<Annotation>, doc: Doc, begin: Option<Annotation>, a: Annotation)
    requires a.IsBegin()
    ensures Step(arena, doc, begin, a).Success?
    ensures Escape(Name(a)) in Step(arena, doc, begin, a).value.elements
    ensures Escape(Name(a)) !in doc.elements ==>
              Step(arena, doc, begin, a).value.elements[Escape(Name(a))] ==
                Activity(Escape(Name(a)), ToSeq(DescriptionClean(arena, a)))
  {
    var prov := ProvenanceInfo(arena, a);
    var act := Activity(Escape(Name(a)), ToSeq(DescriptionClean(arena, a)));
    assert prov == Some(act);
    var d := Record(arena, doc, a, prov);
    assert d.elements == HandleIdentifiable(arena, doc.elements, a, act);
    assert Dispatch(arena, d, begin, a, prov) == Success(d);
    StepIsDispatch(arena, doc, begin, a);
  }

  /** A later labelled statement under a taken id: when the stored activity or entity has a
      label, the stored one survives with its kind, types and first label, and the later one
      only contributes labels; when it has none, the later statement replaces it. So which of
      two same-named statements survives depends on their order in the stream. */
  lemma LaterMergesOrReplaces(arena: seq<Annotation>, elements: map<string, Stmt>, a: Annotation, prov: Stmt)
    requires (prov.Activity? || prov.Entity?) && prov.Id() in elements
    requires elements[prov.Id()].Activity? || elements[prov.Id()].Entity?
    ensures var cur := elements[prov.Id()];
            var now := HandleIdentifiable(arena, elements, a, prov)[prov.Id()];
            && (|cur.Labels()| > 0 ==>
                  now.Activity? == cur.Activity? && now.Entity? == cur.Entity?
                  && (cur.Entity? ==> now.types == cur.types)
                  && |now.Labels()| > 0 && now.Labels()[0] == cur.Labels()[0])
            && (|cur.Labels()| == 0 ==> now == prov)
  {
    var cur := elements[prov.Id()];
    if |cur.Labels()| > 0 {
      var now := HandleIdentifiable(arena, elements, a, prov)[prov.Id()];
      assert now == cur.WithLabels(now.Labels());
      assert now.Labels()[..|cur.Labels()|] == cur.Labels();
      assert now.Labels()[0] == now.Labels()[..|cur.Labels()|][0];
    }
  }

  /** A `@call` recorded before a `@begin` of the same name: when the call has a description
      the activity's labels merge into the call entity, which stays an entity typed
      `calledFunction`; otherwise the activity replaces it. */
  lemma CallThenBeginSameName(arena: seq<Annotation>, elements: map<string, Stmt>, c: Annotation, b: Annotation)
    requires c.IsCall() && b.IsBegin() && Escape(Name(c)) == Escape(Name(b))
    requires Escape(Name(c)) !in elements
    ensures var e := ProvenanceInfo(arena, c).value;
            var act := ProvenanceInfo(arena, b).value;
            var r := HandleIdentifiable(arena, HandleIdentifiable(arena, elements, c, e), b, act);
            && (DescriptionClean(arena, c).Some? ==>
                  r[act.id].Entity? && r[act.id].types == ["calledFunction"]
                  && r[act.id].labels[0] == DescriptionClean(arena, c).value)
            && (DescriptionClean(arena, c).None? ==> r[act.id] == act)
  {
    var e := ProvenanceInfo(arena, c).value;
    var act := ProvenanceInfo(arena, b).value;
    var d := HandleIdentifiable(arena, elements, c, e);
    assert act.Id() == e.Id() && d[e.Id()] == e;
    LaterMergesOrReplaces(arena, d, b, act);
  }

  /** A `@begin` recorded before a `@call` of the same name: when the begin has a
      description the call entity's labels merge into the activity, which stays an
      activity; otherwise the call entity replaces it. */
  lemma BeginThenCallSameName(arena: seq<Annotation>, elements: map<string, Stmt>, b: Annotation, c: Annotation)
    requires c.IsCall() && b.IsBegin() && Escape(Name(c)) == Escape(Name(b))
    requires Escape(Name(b)) !in elements
    ensures var e := ProvenanceInfo(arena, c).value;
            var act := ProvenanceInfo(arena, b).value;
            var r := HandleIdentifiable(arena, HandleIdentifiable(arena, elements, b, act), c, e);
            && (DescriptionClean(arena, b).Some? ==>
                  r[e.id].Activity? && r[e.id].labels[0] == DescriptionClean(arena, b).value)
            && (DescriptionClean(arena, b).None? ==> r[e.id] == e)
  {
    var e := ProvenanceInfo(arena, c).value;
    var act := ProvenanceInfo(arena, b).value;
    var d := HandleIdentifiable(arena, elements, b, act);
    assert act.Id() == e.Id() && d[act.Id()] == act;
    LaterMergesOrReplaces(arena, d, c, e);
  }

  /** A Log under a Begin whose activity is stored adds the log label to that activity. */
  lemma StepLogs(arena: seq<Annotation>, doc: Doc, b: Annotation, q: Annotation)
    requires q.IsLog() && q.primary < |arena|
    requires ActivityKey(b) in doc.elements && doc.elements[ActivityKey(b)].Activity?
    ensures Step(arena, doc, Some(b), q).Success?
    ensures LogLabel(arena, q) in Step(arena, doc, Some(b), q).value.elements[ActivityKey(b)].labels
  {
  }

  /** The activity a Begin stores and the key its block's edges and logs look up agree when
      the Begin's value has no control character or space at either end. */
  lemma ActivityKeyOfTrimmed(b: Annotation)
    requires |b.value| == 0 || (b.value[0] > ' ' && b.value[|b.value| - 1] > ' ')
    ensures ActivityKey(b) == Escape(Name(b))
  {
    TrimOfTrimmed(b.value);
  }

  /** The key a stored entity is found under is never the key of its own edge. */
  lemma EdgeKeyIsNotEntityKey(a: Annotation, b: Annotation)
    ensures EdgeKey(a, b) != EntityKey(a)
  {
  }

  // ---------------------------------------------------------------------------------------
  // What a whole pass leaves behind

  /** The entity of `a` and its edge to the activity of `begin` are both stored. */
  predicate Connected(doc: Doc, a: Annotation, begin: Annotation) {
    EntityKey(a) in doc.elements && EdgeKey(a, begin) in doc.elements
  }

  lemma ConnectedStays(d: Doc, r: Doc, a: Annotation, b: Annotation)
    requires Connected(d, a, b) && d.elements.Keys <= r.elements.Keys
    ensures Connected(r, a, b)
  {
  }

  lemma StepConnected(arena: seq<Annotation>, d: Doc, b: Annotation, a: Annotation)
    requires a.IsFlow() || a.IsCall()
    ensures Step(arena, d, Some(b), a).Success? && Connected(Step(arena, d, Some(b), a).value, a, b)
  {
    StepConnects(arena, d, b, a);
  }

  /** After a block is visited, every In, Param, Out, Return and Call of it has its entity
      and its edge stored. */
  lemma {:induction false} VisitAnnotationsConnects(arena: seq<Annotation>, doc: Doc, begin: Option<Annotation>, s: seq<Annotation>)
    requires Resolves(arena, s) && VisitAnnotations(arena, doc, begin, s).Success?
    ensures forall k :: 0 <= k < |s| && (s[k].IsFlow() || s[k].IsCall()) ==>
              begin.Some? && Connected(VisitAnnotations(arena, doc, begin, s).value, s[k], begin.value)
    decreases |s|
  {
    if |s| > 0 {
      var p := s[..|s| - 1];
      var a := s[|s| - 1];
      assert Resolves(arena, p);
      VisitAnnotationsConnects(arena, doc, begin, p);
      var d := VisitAnnotations(arena, doc, begin, p).value;
      var r := VisitAnnotations(arena, doc, begin, s).value;
      assert Step(arena, d, begin, a).Success? && r == Step(arena, d, begin, a).value;
      forall k | 0 <= k < |s| && (s[k].IsFlow() || s[k].IsCall())
        ensures begin.Some? && Connected(r, s[k], begin.value)
      {
        if k < |p| {
          assert s[k] == p[k];
          ConnectedStays(d, r, s[k], begin.value);
        } else {
          assert NeedsBegin(a);
          StepConnected(arena, d, begin.value, a);
        }
      }
    }
  }

  /** Visiting more blocks only adds keys: what the first `n` blocks stored is still there. */
  lemma {:induction false} VisitBlocksPrefix(arena: seq<Annotation>, doc: Doc, bs: seq<Block>, n: nat)
    requires BlocksResolve(arena, bs) && n <= |bs| && VisitBlocks(arena, doc, bs).Success?
    ensures BlocksResolve(arena, bs[..n])
    ensures VisitBlocks(arena, doc, bs[..n]).Success?
    ensures VisitBlocks(arena, doc, bs[..n]).value.elements.Keys <= VisitBlocks(arena, doc, bs).value.elements.Keys
    decreases |bs|
  {
    if n < |bs| {
      var p := bs[..|bs| - 1];
      VisitBlocksLast(arena, doc, bs, p);
      VisitBlocksPrefix(arena, doc, p, n);
      PrefixOfPrefix(bs, p, n);
    } else {
      WholePrefix(bs, n);
    }
  }

  /** The pass over blocks is the pass over all but the last, then the last block's visit. */
  lemma VisitBlocksLast(arena: seq<Annotation>, doc: Doc, bs: seq<Block>, p: seq<Block>)
    requires BlocksResolve(arena, bs) && |bs| > 0 && p == bs[..|bs| - 1]
    requires VisitBlocks(arena, doc, bs).Success?
    ensures BlocksResolve(arena, p) && VisitBlocks(arena, doc, p).Success?
    ensures VisitBlocks(arena, doc, bs) ==
              VisitAnnotations(arena, VisitBlocks(arena, doc, p).value, bs[|bs| - 1].BeginOf(), FlattenLines(bs[|bs| - 1].lines))
  {
    BlocksResolveBefore(arena, bs, p);
  }

  lemma BlocksResolveBefore(arena: seq<Annotation>, bs: seq<Block>, p: seq<Block>)
    requires BlocksResolve(arena, bs) && |bs| > 0 && p == bs[..|bs| - 1]
    ensures BlocksResolve(arena, p)
  {
    forall i | 0 <= i < |p|
      ensures Resolves(arena, FlattenLines(p[i].lines))
    {
      assert p[i] == bs[i];
    }
  }

  lemma PrefixOfPrefix(bs: seq<Block>, p: seq<Block>, n: nat)
    requires n <= |p| && |p| < |bs| && p == bs[..|p|]
    ensures p[..n] == bs[..n]
  {
  }

  lemma WholePrefix(bs: seq<Block>, n: nat)
    requires n == |bs|
    ensures bs[..n] == bs
  {
  }

  lemma TakeOneMore(bs: seq<Block>, i: nat, upto: seq<Block>)
    requires i < |bs| && upto == bs[..i + 1]
    ensures |upto| > 0 && upto[..|upto| - 1] == bs[..i] && upto[|upto| - 1] == bs[i]
  {
  }

  /** Every In, Param, Out, Return and Call of block `i` has its entity and its edge to the
      block's activity once all blocks are visited. */
  lemma VisitBlocksConnects(arena: seq<Annotation>, doc: Doc, bs: seq<Block>, i: nat, k: nat)
    requires BlocksResolve(arena, bs) && VisitBlocks(arena, doc, bs).Success?
    requires i < |bs| && k < |FlattenLines(bs[i].lines)|
    requires FlattenLines(bs[i].lines)[k].IsFlow() || FlattenLines(bs[i].lines)[k].IsCall()
    ensures bs[i].BeginOf().Some?
    ensures Connected(VisitBlocks(arena, doc, bs).value, FlattenLines(bs[i].lines)[k], bs[i].BeginOf().value)
  {
    var s := FlattenLines(bs[i].lines);
    var upto := bs[..i + 1];
    VisitBlocksPrefix(arena, doc, bs, i + 1);
    TakeOneMore(bs, i, upto);
    VisitBlocksLast(arena, doc, upto, bs[..i]);
    var v := VisitBlocks(arena, doc, upto);
    VisitAnnotationsConnects(arena, VisitBlocks(arena, doc, bs[..i]).value, bs[i].BeginOf(), s);
    ConnectedStays(v.value, VisitBlocks(arena, doc, bs).value, s[k], bs[i].BeginOf().value);
  }

  /** In a document the pass produced, every In, Param, Out, Return and Call of every block
      has its entity and its edge to the block's activity. */
  lemma ExtractConnects(arena: seq<Annotation>, i: nat, k: nat)
    requires ValidArena(arena) && Extract(arena).Success?
    requires i < |BlocksOf(arena)| && k < |FlattenLines(BlocksOf(arena)[i].lines)|
    requires FlattenLines(BlocksOf(arena)[i].lines)[k].IsFlow() || FlattenLines(BlocksOf(arena)[i].lines)[k].IsCall()
    ensures BlocksOf(arena)[i].BeginOf().Some?
    ensures Connected(Extract(arena).value, FlattenLines(BlocksOf(arena)[i].lines)[k], BlocksOf(arena)[i].BeginOf().value)
  {
    StreamBlocksResolve(arena);
    VisitBlocksConnects(arena, EmptyDoc, BlocksOf(arena), i, k);
  }
}
