/** `ExtractProvenance.createDocument`: one walk over the blocks, their lines and their
    annotations in source order. Identifiable statements are keyed by id in a map and merged
    on collision (`handleIdentifiable`); alternate-of pairs go to a separate set; In, Out and
    Call annotations add a usage or generation edge to the block's activity; a Log adds a
    label to that activity. The activity of a block is named by its Begin, which the source
    dereferences without a check: a block without a Begin that needs one ends the whole pass
    (`MissingBegin`). */
module Document {
  import opened Wrappers
  import opened Text
  import opened Annotations
  import opened Blocks
  import opened QNames
  import opened Labels
  import opened Statements
  import opened BlockBuilder

  datatype Doc = Doc(elements: map<string, Stmt>, alternates: set<(string, string)>)

  const EmptyDoc: Doc := Doc(map[], {})

  /** The null dereference of `block.getBegin().value()`. */
  datatype ExtractError = MissingBegin

  /** The statements of the finished document: the map's values and the alternate-of pairs. */
  function DocStatements(d: Doc): (r: set<Stmt>)
    ensures forall k :: k in d.elements ==> d.elements[k] in r
    ensures forall p :: p in d.alternates ==> AlternateOf(p.0, p.1) in r
    ensures forall s :: s in r ==> s in d.elements.Values || (s.AlternateOf? && (s.alternate, s.original) in d.alternates)
  {
    d.elements.Values + set p | p in d.alternates :: AlternateOf(p.0, p.1)
  }

  /** Every key names a statement with that id; so no two stored statements share an id. */
  predicate WellKeyed(elements: map<string, Stmt>) {
    forall k :: k in elements ==> elements[k].IsIdentifiable() && elements[k].Id() == k
  }

  /** No stored label list holds a value twice. */
  predicate LabelsDistinct(elements: map<string, Stmt>) {
    forall k :: k in elements ==> NoDuplicates(elements[k].Labels())
  }

  lemma WellKeyedIdsUnique(elements: map<string, Stmt>, k1: string, k2: string)
    requires WellKeyed(elements) && k1 in elements && k2 in elements && k1 != k2
    ensures elements[k1].Id() != elements[k2].Id()
  {
  }

  /** `handleIdentifiable`: store `prov` under its id. With nothing stored it is inserted.
      A stored statement with labels: replaced when its list is empty; otherwise, when `prov`
      has labels too, `prov`'s labels and then the cleaned description are merged into it;
      otherwise replaced. A stored statement without labels is replaced only when the
      annotation has a description. */
  function HandleIdentifiable(arena: seq<Annotation>, elements: map<string, Stmt>, a: Annotation, prov: Stmt): (r: map<string, Stmt>)
    requires prov.IsIdentifiable()
    ensures r.Keys == elements.Keys + {prov.Id()}
    ensures forall k :: k in elements && k != prov.Id() ==> r[k] == elements[k]
    ensures prov.Id() !in elements ==> r[prov.Id()] == prov
    ensures prov.Id() in elements && elements[prov.Id()].HasLabel() && |elements[prov.Id()].Labels()| == 0 ==>
              r[prov.Id()] == prov
    ensures prov.Id() in elements && elements[prov.Id()].HasLabel() && |elements[prov.Id()].Labels()| > 0 ==>
              var cur := elements[prov.Id()];
              && r[prov.Id()] == cur.WithLabels(r[prov.Id()].Labels())
              && |r[prov.Id()].Labels()| >= |cur.Labels()|
              && r[prov.Id()].Labels()[..|cur.Labels()|] == cur.Labels()
              && (forall x :: x in r[prov.Id()].Labels() <==>
                    x in cur.Labels() || x in prov.Labels() || DescriptionClean(arena, a) == Some(x))
              && (NoDuplicates(cur.Labels()) ==> NoDuplicates(r[prov.Id()].Labels()))
    ensures prov.Id() in elements && !elements[prov.Id()].HasLabel() ==>
              r[prov.Id()] == (if Description(arena, a).Some? then prov else elements[prov.Id()])
    ensures WellKeyed(elements) ==> WellKeyed(r)
    ensures LabelsDistinct(elements) && NoDuplicates(prov.Labels()) ==> LabelsDistinct(r)
  {
    var key := prov.Id();
    if key !in elements then elements[key := prov]
    else
      var cur := elements[key];
      if cur.HasLabel() then
        if |cur.Labels()| < 1 then elements[key := prov]
        else if prov.HasLabel() then
          var merged := AddLabels(prov.Labels(), cur.Labels());
          var ls := AddDescriptionLabel(DescriptionClean(arena, a), merged);
          AddLabelsKeepsStored(prov.Labels(), cur.Labels());
          AddLabelsContents(prov.Labels(), cur.Labels());
          assert ls[..|cur.Labels()|] == ls[..|merged|][..|cur.Labels()|];
          assert NoDuplicates(cur.Labels()) ==> NoDuplicates(ls) by {
            if NoDuplicates(cur.Labels()) {
              AddLabelsNoDuplicates(prov.Labels(), cur.Labels());
              AddDescriptionLabelNoDuplicates(DescriptionClean(arena, a), merged);
            }
          }
          elements[key := cur.WithLabels(ls)]
        else elements[key := prov]
      else if Description(arena, a).Some? then elements[key := prov]
      else elements
  }

  /** The edge the source puts for an entity of an In (USE), Out (GEN) or Call (CALL): a
      usage or generation record whose id joins the entity and activity names. */
  function Edge(entity: string, activity: string, rel: string): (r: Stmt)
    ensures r.IsIdentifiable() && r.Id() == EdgeLocal(entity, activity, rel)
    ensures rel == GEN ==> r == Generated(EdgeLocal(entity, activity, rel), entity, activity)
    ensures rel != GEN ==> r == Used(EdgeLocal(entity, activity, rel), activity, entity)
  {
    var id := EdgeLocal(entity, activity, rel);
    if rel == GEN then Generated(id, entity, activity) else Used(id, activity, entity)
  }

  /** The key the source looks the block's activity up by: the Begin's value escaped, but
      not trimmed. */
  function ActivityKey(begin: Annotation): string {
    Escape(begin.value)
  }

  /** `handleOut`, `handleIn`, `handleCall`: for an entity, put (overwriting) the edge
      between it and the block's activity; the Begin is dereferenced only for an entity. */
  function Connect(doc: Doc, begin: Option<Annotation>, prov: Option<Stmt>, rel: string): (r: Result<Doc, ExtractError>)
    ensures r.Failure? <==> prov.Some? && prov.value.Entity? && begin.None?
    ensures r.Success? ==> r.value.alternates == doc.alternates
    ensures r.Success? && !(prov.Some? && prov.value.Entity?) ==> r.value == doc
    ensures r.Success? && prov.Some? && prov.value.Entity? ==>
              var id := EdgeLocal(prov.value.id, ActivityKey(begin.value), rel);
              && r.value.elements == doc.elements[id := Edge(prov.value.id, ActivityKey(begin.value), rel)]
    ensures r.Success? && WellKeyed(doc.elements) ==> WellKeyed(r.value.elements)
    ensures r.Success? && LabelsDistinct(doc.elements) ==> LabelsDistinct(r.value.elements)
  {
    match prov
    case Some(Entity(eid, _, _)) =>
      (match begin
       case None => Failure(MissingBegin)
       case Some(b) =>
         var act := ActivityKey(b);
         Success(doc.(elements := doc.elements[EdgeLocal(eid, act, rel) := Edge(eid, act, rel)])))
    case _ => Success(doc)
  }

  /** The name a log label gives the logged annotation: its alias when it is aliasable and
      has one, else its value. */
  function LogEntity(arena: seq<Annotation>, p: Annotation): (r: string)
    ensures p.IsFlow() && QualsOf(arena, p).alias.Some? ==> r == QualsOf(arena, p).alias.value
    ensures !(p.IsFlow() && QualsOf(arena, p).alias.Some?) ==> r == p.value
  {
    if p.IsFlow() && QualsOf(arena, p).alias.Some? then QualsOf(arena, p).alias.value else p.value
  }

  function LogLabel(arena: seq<Annotation>, q: Annotation): string
    requires q.Qualification? && q.primary < |arena|
  {
    "log_" + LogEntity(arena, arena[q.primary]) + ": " + q.value
  }

  /** `handleLog`: when an Activity is stored under the block's activity key, add the log
      label to it unless a label with that value is there; otherwise nothing changes. */
  function HandleLog(arena: seq<Annotation>, doc: Doc, begin: Option<Annotation>, q: Annotation): (r: Result<Doc, ExtractError>)
    requires q.Qualification? && q.primary < |arena|
    ensures r.Failure? <==> begin.None?
    ensures r.Success? ==> r.value.alternates == doc.alternates && r.value.elements.Keys == doc.elements.Keys
    ensures r.Success? ==> forall k :: k in doc.elements && k != ActivityKey(begin.value) ==>
              r.value.elements[k] == doc.elements[k]
    ensures r.Success? && !(ActivityKey(begin.value) in doc.elements && doc.elements[ActivityKey(begin.value)].Activity?) ==>
              r.value == doc
    ensures r.Success? && ActivityKey(begin.value) in doc.elements && doc.elements[ActivityKey(begin.value)].Activity? ==>
              var cur := doc.elements[ActivityKey(begin.value)];
              var now := r.value.elements[ActivityKey(begin.value)];
              && now.Activity? && now.id == cur.id
              && |now.labels| >= |cur.labels| && now.labels[..|cur.labels|] == cur.labels
              && (forall x :: x in now.labels <==> x in cur.labels || x == LogLabel(arena, q))
              && (NoDuplicates(cur.labels) ==> NoDuplicates(now.labels))
    ensures r.Success? && WellKeyed(doc.elements) ==> WellKeyed(r.value.elements)
    ensures r.Success? && LabelsDistinct(doc.elements) ==> LabelsDistinct(r.value.elements)
  {
    match begin
    case None => Failure(MissingBegin)
    case Some(b) =>
      var key := ActivityKey(b);
      if key in doc.elements && doc.elements[key].Activity? then
        var cur := doc.elements[key];
        assert NoDuplicates(cur.labels) ==> NoDuplicates(AddIfAbsent(cur.labels, LogLabel(arena, q))) by {
          if NoDuplicates(cur.labels) {
            AddIfAbsentNoDuplicates(cur.labels, LogLabel(arena, q));
          }
        }
        Success(doc.(elements := doc.elements[key := Activity(cur.id, AddIfAbsent(cur.labels, LogLabel(arena, q)))]))
      else Success(doc)
  }

  /** Annotations whose handling dereferences the block's Begin: the entity of every In,
      Param, Out, Return and Call, and every Log. */
  predicate NeedsBegin(a: Annotation) {
    a.IsFlow() || a.IsCall() || a.IsLog()
  }

  /** The alternate-of pair an As contributes. */
  function AsPair(arena: seq<Annotation>, a: Annotation): (string, string)
    requires a.Qualification? && a.primary < |arena|
  {
    (Escape(Name(a)), Escape(Name(arena[a.primary])))
  }

  /** Recording the annotation's own statement: identifiable ones go through
      `handleIdentifiable`, an alternate-of pair into the set. */
  function Record(arena: seq<Annotation>, doc: Doc, a: Annotation, prov: Option<Stmt>): (r: Doc)
    ensures prov.None? ==> r == doc
    ensures prov.Some? && prov.value.IsIdentifiable() ==>
              r.alternates == doc.alternates
              && r.elements == HandleIdentifiable(arena, doc.elements, a, prov.value)
    ensures prov.Some? && prov.value.AlternateOf? ==>
              r.elements == doc.elements
              && r.alternates == doc.alternates + {(prov.value.alternate, prov.value.original)}
    ensures WellKeyed(doc.elements) ==> WellKeyed(r.elements)
    ensures LabelsDistinct(doc.elements) && (prov.Some? ==> NoDuplicates(prov.value.Labels())) ==>
              LabelsDistinct(r.elements)
  {
    match prov
    case None => doc
    case Some(s) =>
      if s.IsIdentifiable() then doc.(elements := HandleIdentifiable(arena, doc.elements, a, s))
      else doc.(alternates := doc.alternates + {(s.alternate, s.original)})
  }

  /** The four independent tests of the loop body after recording; the classes are
      disjoint, so at most one applies. */
  function Dispatch(arena: seq<Annotation>, d: Doc, begin: Option<Annotation>, a: Annotation, prov: Option<Stmt>): (r: Result<Doc, ExtractError>)
    requires a.IsFlow() || a.IsCall() ==> prov.Some? && prov.value.Entity?
    requires a.IsLog() ==> a.primary < |arena|
    ensures r.Failure? <==> begin.None? && NeedsBegin(a)
    ensures r.Success? ==> d.elements.Keys <= r.value.elements.Keys && r.value.alternates == d.alternates
    ensures r.Success? && WellKeyed(d.elements) ==> WellKeyed(r.value.elements)
    ensures r.Success? && LabelsDistinct(d.elements) ==> LabelsDistinct(r.value.elements)
  {
    if a.IsOut() then Connect(d, begin, prov, GEN)
    else if a.IsIn() then Connect(d, begin, prov, USE)
    else if a.IsCall() then Connect(d, begin, prov, QNames.CALL)
    else if a.IsLog() then HandleLog(arena, d, begin, a)
    else Success(d)
  }

  /** The body of the innermost loop of `createDocument` for one annotation: skip an
      annotation without a statement unless it is a Log, record the statement, then connect
      or label. */
  function Step(arena: seq<Annotation>, doc: Doc, begin: Option<Annotation>, a: Annotation): (r: Result<Doc, ExtractError>)
    requires a.Qualification? ==> a.primary < |arena|
    ensures r.Failure? <==> begin.None? && NeedsBegin(a)
    ensures r.Success? ==> doc.elements.Keys <= r.value.elements.Keys
    ensures r.Success? ==> r.value.alternates == doc.alternates + (if a.IsAs() then {AsPair(arena, a)} else {})
    ensures r.Success? && WellKeyed(doc.elements) ==> WellKeyed(r.value.elements)
    ensures r.Success? && LabelsDistinct(doc.elements) ==> LabelsDistinct(r.value.elements)
  {
    var prov := ProvenanceInfo(arena, a);
    if prov.None? && !a.IsLog() then Success(doc)
    else
      ProvenanceAtMostOneLabel(arena, a);
      var d := Record(arena, doc, a, prov);
      assert LabelsDistinct(doc.elements) ==> LabelsDistinct(d.elements);
      Dispatch(arena, d, begin, a, prov)
  }

  /** A statement an annotation contributes carries at most one label, so never a repeated
      one. */
  lemma ProvenanceAtMostOneLabel(arena: seq<Annotation>, a: Annotation)
    requires a.Qualification? ==> a.primary < |arena|
    ensures ProvenanceInfo(arena, a).Some? ==> |ProvenanceInfo(arena, a).value.Labels()| <= 1
    ensures ProvenanceInfo(arena, a).Some? ==> NoDuplicates(ProvenanceInfo(arena, a).value.Labels())
  {
  }

  /** Every qualification of `s` names an annotation of the arena. */
  predicate Resolves(arena: seq<Annotation>, s: seq<Annotation>) {
    forall k :: 0 <= k < |s| ==> (s[k].Qualification? ==> s[k].primary < |arena|)
  }

  /** The alternate-of pairs the As annotations of `s` contribute. */
  function AsPairs(arena: seq<Annotation>, s: seq<Annotation>): set<(string, string)>
    requires Resolves(arena, s)
  {
    if |s| == 0 then {}
    else AsPairs(arena, s[..|s| - 1]) + (if s[|s| - 1].IsAs() then {AsPair(arena, s[|s| - 1])} else {})
  }

  /** A block that needs a Begin and has none: visiting it is the null dereference. */
  predicate Orphaned(b: Block) {
    b.BeginOf().None? && exists k :: 0 <= k < |FlattenLines(b.lines)| && NeedsBegin(FlattenLines(b.lines)[k])
  }

  /** The annotations of one block, in line order, against the block's Begin. */
  function VisitAnnotations(arena: seq<Annotation>, doc: Doc, begin: Option<Annotation>, s: seq<Annotation>): (r: Result<Doc, ExtractError>)
    requires Resolves(arena, s)
    ensures r.Failure? <==> begin.None? && exists k :: 0 <= k < |s| && NeedsBegin(s[k])
    ensures r.Success? ==> r.value.alternates == doc.alternates + AsPairs(arena, s)
    ensures r.Success? ==> doc.elements.Keys <= r.value.elements.Keys
    ensures r.Success? && WellKeyed(doc.elements) ==> WellKeyed(r.value.elements)
    ensures r.Success? && LabelsDistinct(doc.elements) ==> LabelsDistinct(r.value.elements)
  {
    if |s| == 0 then Success(doc)
    else
      NeedsBeginSplit(s, s[..|s| - 1]);
      var d :- VisitAnnotations(arena, doc, begin, s[..|s| - 1]);
      Step(arena, d, begin, s[|s| - 1])
  }

  /** Some annotation needs a Begin exactly when one before the last does, or the last does. */
  lemma NeedsBeginSplit(s: seq<Annotation>, p: seq<Annotation>)
    requires |s| > 0 && p == s[..|s| - 1]
    ensures (exists k :: 0 <= k < |s| && NeedsBegin(s[k])) <==>
              (exists k :: 0 <= k < |p| && NeedsBegin(p[k])) || NeedsBegin(s[|s| - 1])
  {
    assert forall k :: 0 <= k < |p| ==> p[k] == s[k];
  }

  /** Every annotation of every block resolves. */
  predicate BlocksResolve(arena: seq<Annotation>, bs: seq<Block>) {
    forall i :: 0 <= i < |bs| ==> Resolves(arena, FlattenLines(bs[i].lines))
  }

  /** The outer loops of `createDocument`: block after block, each against its own Begin. */
  function VisitBlocks(arena: seq<Annotation>, doc: Doc, bs: seq<Block>): (r: Result<Doc, ExtractError>)
    requires BlocksResolve(arena, bs)
    ensures r.Failure? <==> exists i :: 0 <= i < |bs| && Orphaned(bs[i])
    ensures r.Success? ==> doc.elements.Keys <= r.value.elements.Keys
    ensures r.Success? && WellKeyed(doc.elements) ==> WellKeyed(r.value.elements)
    ensures r.Success? && LabelsDistinct(doc.elements) ==> LabelsDistinct(r.value.elements)
  {
    if |bs| == 0 then Success(doc)
    else
      var b := bs[|bs| - 1];
      OrphanedSplit(bs, bs[..|bs| - 1]);
      var d :- VisitBlocks(arena, doc, bs[..|bs| - 1]);
      VisitAnnotations(arena, d, b.BeginOf(), FlattenLines(b.lines))
  }

  /** Some block is orphaned exactly when one before the last is, or the last is. */
  lemma OrphanedSplit(bs: seq<Block>, p: seq<Block>)
    requires |bs| > 0 && p == bs[..|bs| - 1]
    ensures (exists i :: 0 <= i < |bs| && Orphaned(bs[i])) <==>
              (exists i :: 0 <= i < |p| && Orphaned(p[i])) || Orphaned(bs[|bs| - 1])
  {
    assert forall i :: 0 <= i < |p| ==> p[i] == bs[i];
  }

  /** `createDocument` over the given blocks, starting from an empty map and set. */
  function CreateDocument(arena: seq<Annotation>, bs: seq<Block>): (r: Result<Doc, ExtractError>)
    requires BlocksResolve(arena, bs)
    ensures r.Failure? <==> exists i :: 0 <= i < |bs| && Orphaned(bs[i])
    ensures r.Success? ==> WellKeyed(r.value.elements)
    ensures r.Success? ==> LabelsDistinct(r.value.elements)
  {
    VisitBlocks(arena, EmptyDoc, bs)
  }

  /** Every block built from a well-formed stream resolves. */
  lemma StreamBlocksResolve(arena: seq<Annotation>)
    requires ValidArena(arena)
    ensures BlocksResolve(arena, BlocksOf(arena))
  {
    var bs := BlocksOf(arena);
    forall i, k | 0 <= i < |bs| && 0 <= k < |FlattenLines(bs[i].lines)|
      ensures FlattenLines(bs[i].lines)[k].Qualification? ==> FlattenLines(bs[i].lines)[k].primary < |arena|
    {
      BlocksComeFromStream(arena, i, FlattenLines(bs[i].lines)[k]);
    }
  }

  /** The whole pass: `createDocument` over the blocks the builder makes of the stream. It
      fails exactly when some block needs a Begin and has none. */
  function Extract(arena: seq<Annotation>): (r: Result<Doc, ExtractError>)
    requires ValidArena(arena)
    ensures r.Failure? <==> exists i :: 0 <= i < |BlocksOf(arena)| && Orphaned(BlocksOf(arena)[i])
    ensures r.Success? ==> WellKeyed(r.value.elements)
    ensures r.Success? ==> LabelsDistinct(r.value.elements)
  {
    StreamBlocksResolve(arena);
    CreateDocument(arena, BlocksOf(arena))
  }
}
