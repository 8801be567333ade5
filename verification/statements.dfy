/** The provenance statements an annotation contributes (`getProvenanceInfo` of each
    annotation class), in the vocabulary of W3C PROV-DM: Entity (section 5.1.1), Activity
    (section 5.1.2), Generation (section 5.1.3), Usage (section 5.1.4) and Alternate
    (section 5.5.2). Ids are local parts of qualified names. */
module Statements {
  import opened Wrappers
  import opened Text
  import opened Annotations
  import opened QNames

  datatype Stmt =
    | Activity(id: string, labels: seq<string>)
    | Entity(id: string, labels: seq<string>, types: seq<string>)
    | Used(id: string, activity: string, entity: string)
    | Generated(id: string, entity: string, activity: string)
    | AlternateOf(alternate: string, original: string)
  {
    /** Statements with an id (`Identifiable`); an alternate-of pair has none. */
    predicate IsIdentifiable() {
      !AlternateOf?
    }

    function Id(): string
      requires IsIdentifiable()
    {
      match this
      case Activity(id, _) => id
      case Entity(id, _, _) => id
      case Used(id, _, _) => id
      case Generated(id, _, _) => id
    }

    /** Statements with a label list (`HasLabel`): every identifiable one. Usage and
        generation records are created without labels. */
    predicate HasLabel() {
      IsIdentifiable()
    }

    function Labels(): seq<string>
    {
      match this
      case Activity(_, labels) => labels
      case Entity(_, labels, _) => labels
      case _ => []
    }

    /** The statement with its label list replaced; statements that cannot hold a label
        keep none. */
    function WithLabels(ls: seq<string>): (r: Stmt)
      ensures r.IsIdentifiable() == IsIdentifiable()
      ensures IsIdentifiable() ==> r.Id() == Id()
      ensures Activity? || Entity? ==> r.Labels() == ls
      ensures r.Activity? == Activity? && r.Entity? == Entity?
    {
      match this
      case Activity(id, _) => Activity(id, ls)
      case Entity(id, _, types) => Entity(id, ls, types)
      case _ => this
    }
  }

  /** The value an annotation names, trimmed as every `getProvenanceInfo` trims it. */
  function Name(a: Annotation): string {
    Trim(a.value)
  }

  /** The label of a Flow entity: the URI when one is attached, else the raw (uncleaned)
      description, else none. */
  function FlowLabel(arena: seq<Annotation>, a: Annotation): (r: Option<string>)
    ensures QualsOf(arena, a).uri.Some? ==> r == QualsOf(arena, a).uri
    ensures QualsOf(arena, a).uri.None? ==> r == Description(arena, a)
  {
    match QualsOf(arena, a).uri
    case Some(u) => Some(u)
    case None => Description(arena, a)
  }

  /** `getProvenanceInfo`, by class:
      - Begin (Annotation's default): an activity named by the trimmed value, labelled with
        the cleaned description;
      - In, Param, Out, Return: an entity named by the escaped trimmed value (escaped again by
        the qualifier), labelled with `FlowLabel`;
      - Call: an entity named by the trimmed value, labelled with the cleaned description,
        typed `calledFunction`;
      - As: the pair alternateOf(own trimmed value, primary's trimmed value);
      - End, Desc, Uri, File, Log: nothing. */
  function ProvenanceInfo(arena: seq<Annotation>, a: Annotation): (r: Option<Stmt>)
    requires a.Qualification? ==> a.primary < |arena|
    ensures r.Some? <==> a.IsBegin() || a.IsFlow() || a.IsCall() || a.IsAs()
    ensures a.IsBegin() ==> r == Some(Activity(Escape(Name(a)), ToSeq(DescriptionClean(arena, a))))
    ensures a.IsFlow() ==> r == Some(Entity(Escape(Escape(Name(a))), ToSeq(FlowLabel(arena, a)), []))
    ensures a.IsCall() ==> r == Some(Entity(Escape(Name(a)), ToSeq(DescriptionClean(arena, a)), ["calledFunction"]))
    ensures a.IsAs() ==> r == Some(AlternateOf(Escape(Name(a)), Escape(Name(arena[a.primary]))))
  {
    match a
    case Primary(_, _, kind, _, _, _) =>
      (match kind
       case Begin => Some(Activity(Escape(Name(a)), ToSeq(DescriptionClean(arena, a))))
       case End => None
       case In => Some(Entity(Escape(Escape(Name(a))), ToSeq(FlowLabel(arena, a)), []))
       case Param => Some(Entity(Escape(Escape(Name(a))), ToSeq(FlowLabel(arena, a)), []))
       case Out => Some(Entity(Escape(Escape(Name(a))), ToSeq(FlowLabel(arena, a)), []))
       case Return => Some(Entity(Escape(Escape(Name(a))), ToSeq(FlowLabel(arena, a)), []))
       case Call => Some(Entity(Escape(Name(a)), ToSeq(DescriptionClean(arena, a)), ["calledFunction"])))
    case Qualification(_, _, qkind, _, _, _, primary) =>
      if qkind == As then Some(AlternateOf(Escape(Name(a)), Escape(Name(arena[primary])))) else None
  }

  /** Flow's own `getProvenanceInfo`, which every concrete Flow class overrides: it names the
      entity by the alias when an `@as` is attached. */
  function FlowProvenanceInfo(arena: seq<Annotation>, a: Annotation): (r: Stmt)
    requires a.IsFlow()
    ensures r.Entity? && r.labels == ToSeq(FlowLabel(arena, a)) && r.types == []
    ensures QualsOf(arena, a).alias.Some? ==> r.id == Escape(Trim(QualsOf(arena, a).alias.value))
    ensures QualsOf(arena, a).alias.None? ==> r.id == Escape(Name(a))
  {
    var v := match QualsOf(arena, a).alias case Some(x) => Trim(x) case None => Name(a);
    Entity(Escape(v), ToSeq(FlowLabel(arena, a)), [])
  }

  /** In, Param, Out and Return name their entity by the value and ignore the alias; the
      double escape is harmless, so without an alias they agree with Flow's version. */
  lemma FlowOverridesIgnoreAlias(arena: seq<Annotation>, a: Annotation)
    requires a.IsFlow()
    ensures ProvenanceInfo(arena, a).value.id == Escape(Name(a))
    ensures QualsOf(arena, a).alias.None? ==> ProvenanceInfo(arena, a) == Some(FlowProvenanceInfo(arena, a))
  {
    EscapeIdempotent(Name(a));
  }

  /** Attaching an `@as` to an In, Param, Out or Return changes nothing in its entity. */
  lemma AliasDoesNotRenameFlowEntity(arena: seq<Annotation>, q: Annotation, a: Annotation)
    requires a.IsFlow() && q.IsAs() && q.primary == a.id && q.primary < |arena|
    ensures ProvenanceInfo(arena + [q], a) == ProvenanceInfo(arena, a)
  {
    var arena' := arena + [q];
    assert arena'[..|arena|] == arena;
    assert QualsOf(arena', a).uri == QualsOf(arena, a).uri;
    assert QualsOf(arena', a).desc == QualsOf(arena, a).desc;
  }

  /** A Flow entity's label: the URI wins over a description, and a description is passed
      on as written, with its escaped newlines. */
  lemma FlowLabelPrecedence(arena: seq<Annotation>, a: Annotation)
    requires a.IsFlow()
    ensures QualsOf(arena, a).uri.Some? ==> ProvenanceInfo(arena, a).value.labels == [QualsOf(arena, a).uri.value]
    ensures QualsOf(arena, a).uri.None? && QualsOf(arena, a).desc.Some? ==>
              ProvenanceInfo(arena, a).value.labels == [QualsOf(arena, a).desc.value]
    ensures QualsOf(arena, a).uri.None? && QualsOf(arena, a).desc.None? ==>
              ProvenanceInfo(arena, a).value.labels == []
  {
  }
}
