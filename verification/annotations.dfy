/** The annotation classes of `org.yesworkflow.annotations`: how one comment becomes an
    annotation (Annotation's constructor, Desc's description builder), and how
    qualifications attach to their primary annotation (the `qualifyWith` overrides of
    Annotation, AliasableAnnotation, Flow and Out).

    The Java objects point at each other: a qualification keeps a reference to its primary,
    and the primary records some of its qualifications in slots. Here the stream of
    annotations is an arena: an annotation's `id` is its index in the stream and a
    qualification names its primary by index. What a primary has recorded once the whole
    stream is parsed is a left fold of `qualifyWith` over the qualifications naming it
    (`QualsOf`). */
module Annotations {
  import opened Wrappers
  import opened Text

  /** The keyword tags; the keyword of a tag is `"@"` followed by its name. */
  datatype Tag = BEGIN | END | IN | PARAM | OUT | RETURN | CALL | DESC | AS | URI | FILE | LOG
  {
    function Name(): string {
      match this
      case BEGIN => "BEGIN"
      case END => "END"
      case IN => "IN"
      case PARAM => "PARAM"
      case OUT => "OUT"
      case RETURN => "RETURN"
      case CALL => "CALL"
      case DESC => "DESC"
      case AS => "AS"
      case URI => "URI"
      case FILE => "FILE"
      case LOG => "LOG"
    }
  }

  /** Classes of primary annotations. Param is a subclass of In, Return of Out; In and Out
      are the Flow classes, which are aliasable and carry a URI slot. */
  datatype PrimaryKind = Begin | End | In | Param | Out | Return | Call

  /** Classes of qualifications. File is a subclass of Uri (`UriAnnotation`). */
  datatype QualKind = Desc | As | Uri | File | Log

  /** One recognised comment. For a Desc, `value` is the joined description, and the empty
      string stands for the null a description without visible text becomes. */
  datatype Annotation =
    | Primary(id: nat, line: nat, kind: PrimaryKind, tag: Tag, keyword: string, value: string)
    | Qualification(id: nat, line: nat, qkind: QualKind, tag: Tag, keyword: string,
                    value: string, primary: nat)
  {
    predicate IsBegin() { Primary? && kind == Begin }
    predicate IsEnd() { Primary? && kind == End }
    predicate IsCall() { Primary? && kind == Call }
    /** `instanceof In`: In and its subclass Param. */
    predicate IsIn() { Primary? && (kind == In || kind == Param) }
    /** `instanceof Out`: Out and its subclass Return. */
    predicate IsOut() { Primary? && (kind == Out || kind == Return) }
    /** `instanceof Flow` (equivalently `instanceof AliasableAnnotation` here). */
    predicate IsFlow() { IsIn() || IsOut() }
    predicate IsDesc() { Qualification? && qkind == Desc }
    predicate IsAs() { Qualification? && qkind == As }
    /** `instanceof UriAnnotation`: `@uri` and its subclass `@file`. */
    predicate IsUri() { Qualification? && (qkind == Uri || qkind == File) }
    predicate IsLog() { Qualification? && qkind == Log }
  }

  /** The tag a class's own constructor passes up. In, Out and Call also have a constructor
      taking any tag (Param and Return use them), so a primary's tag is a parameter. */
  function QualTag(k: QualKind): Tag {
    match k
    case Desc => DESC
    case As => AS
    case Uri => URI
    case File => FILE
    case Log => LOG
  }

  function ExpectedKeyword(tag: Tag): string {
    "@" + tag.Name()
  }

  /** The exceptions of Annotation's constructor: the two `YWMarkupException`s, and the
      `NoSuchElementException` of the unguarded first `nextToken` on a comment without any
      token. */
  datatype MarkupError =
    | NoKeyword
    | WrongKeyword(expected: string, found: string)
    | MissingArgument(keyword: string, line: nat)
  {
    predicate IsMarkupException() {
      !NoKeyword?
    }

    /** The message of a `YWMarkupException`. */
    function Message(): string
      requires IsMarkupException()
    {
      match this
      case WrongKeyword(expected, found) =>
        "Wrong keyword for " + ToLowerAscii(expected) + " annotation: " + found
      case MissingArgument(keyword, line) =>
        "No argument provided to " + keyword + " keyword on line " + NatToString(line)
    }
  }

  function DigitChar(d: nat): char
    requires d < 10
  {
    "0123456789"[d]
  }

  function NatToString(n: nat): string
  {
    if n < 10 then [DigitChar(n)] else NatToString(n / 10) + [DigitChar(n % 10)]
  }

  /** The checks of Annotation's constructor: the first token is the keyword and must equal
      `"@" + tag` ignoring case; the second token is the value. */
  function KeywordAndValue(comment: string, tag: Tag, line: nat): (r: Result<(string, string), MarkupError>)
    ensures r.Success? <==>
              |Tokens(comment)| >= 2 && EqualsIgnoreCase(Tokens(comment)[0], ExpectedKeyword(tag))
    ensures r.Success? ==> r.value.0 == Tokens(comment)[0] && r.value.1 == Tokens(comment)[1]
    ensures |Tokens(comment)| == 0 <==> r == Failure(NoKeyword)
    ensures |Tokens(comment)| > 0 && !EqualsIgnoreCase(Tokens(comment)[0], ExpectedKeyword(tag)) ==>
              r == Failure(WrongKeyword(ExpectedKeyword(tag), Tokens(comment)[0]))
    ensures |Tokens(comment)| == 1 && EqualsIgnoreCase(Tokens(comment)[0], ExpectedKeyword(tag)) ==>
              r == Failure(MissingArgument(Tokens(comment)[0], line))
  {
    var ts := Tokens(comment);
    if |ts| == 0 then
      Failure(NoKeyword)
    else if !EqualsIgnoreCase(ts[0], ExpectedKeyword(tag)) then
      Failure(WrongKeyword(ExpectedKeyword(tag), ts[0]))
    else if |ts| < 2 then
      Failure(MissingArgument(ts[0], line))
    else
      Success((ts[0], ts[1]))
  }

  /** Constructing a primary annotation (Begin, End, In, Param, Out, Return, Call). */
  function NewPrimary(id: nat, line: nat, comment: string, kind: PrimaryKind, tag: Tag): (r: Result<Annotation, MarkupError>)
    ensures r.Success? <==>
              |Tokens(comment)| >= 2 && EqualsIgnoreCase(Tokens(comment)[0], ExpectedKeyword(tag))
    ensures r.Failure? ==> r.error == KeywordAndValue(comment, tag, line).error
    ensures r.Success? ==>
              r.value == Primary(id, line, kind, tag, Tokens(comment)[0], Tokens(comment)[1])
  {
    var (keyword, value) :- KeywordAndValue(comment, tag, line);
    Success(Primary(id, line, kind, tag, keyword, value))
  }

  /** Desc's `buildDescription`: every token after the keyword, each preceded by one space,
      then trimmed. The empty result is the source's null. */
  function BuildDescription(ts: seq<string>): string
  {
    Trim(JoinLeading(ts))
  }

  function JoinLeading(ts: seq<string>): string
  {
    if |ts| == 0 then [] else " " + ts[0] + JoinLeading(ts[1..])
  }

  /** Constructing a qualification. The superclass constructor runs first, so a Desc also
      needs a value token; Desc then replaces its value with the built description. */
  function NewQualification(id: nat, line: nat, comment: string, k: QualKind, primary: nat): (r: Result<Annotation, MarkupError>)
    ensures r.Success? <==>
              |Tokens(comment)| >= 2 && EqualsIgnoreCase(Tokens(comment)[0], ExpectedKeyword(QualTag(k)))
    ensures r.Failure? ==> r.error == KeywordAndValue(comment, QualTag(k), line).error
    ensures r.Success? ==> r.value.Qualification? && r.value.qkind == k && r.value.tag == QualTag(k)
                           && r.value.primary == primary && r.value.id == id
    ensures r.Success? && k != Desc ==> r.value.value == Tokens(comment)[1]
    ensures r.Success? && k == Desc ==> r.value.value == BuildDescription(Tokens(comment)[1..])
  {
    var (keyword, value) :- KeywordAndValue(comment, QualTag(k), line);
    var v := if k == Desc then BuildDescription(Tokens(comment)[1..]) else value;
    Success(Qualification(id, line, k, QualTag(k), keyword, v, primary))
  }

  /** A token made of characters above U+0020 only (no control characters). */
  predicate IsVisibleToken(t: string) {
    |t| > 0 && forall k :: 0 <= k < |t| ==> !IsTrimmed(t[k])
  }

  lemma {:induction false} JoinLeadingIsSpacePlusJoinSpaced(ts: seq<string>)
    requires |ts| > 0
    ensures JoinLeading(ts) == " " + JoinSpaced(ts)
    decreases |ts|
  {
    if |ts| > 1 {
      JoinLeadingIsSpacePlusJoinSpaced(ts[1..]);
    }
  }

  lemma {:induction false} JoinSpacedVisibleEnds(ts: seq<string>)
    requires |ts| > 0
    requires forall i :: 0 <= i < |ts| ==> IsVisibleToken(ts[i])
    ensures |JoinSpaced(ts)| > 0
    ensures !IsTrimmed(JoinSpaced(ts)[0]) && !IsTrimmed(JoinSpaced(ts)[|JoinSpaced(ts)| - 1])
    decreases |ts|
  {
    if |ts| > 1 {
      JoinSpacedVisibleEnds(ts[1..]);
    }
  }

  /** Desc collapses whitespace: for visible tokens the description is the tokens joined by
      single spaces, and tokenising it again yields exactly those tokens. */
  lemma DescriptionCollapsesWhitespace(ts: seq<string>)
    requires |ts| > 0
    requires forall i :: 0 <= i < |ts| ==> IsVisibleToken(ts[i])
    ensures BuildDescription(ts) == JoinSpaced(ts)
    ensures Tokens(BuildDescription(ts)) == ts
  {
    JoinLeadingIsSpacePlusJoinSpaced(ts);
    JoinSpacedVisibleEnds(ts);
    TrimOfSpaced(JoinSpaced(ts));
    VisibleTokensAreTokens(ts);
    TokensOfJoinSpaced(ts);
  }

  lemma VisibleTokensAreTokens(ts: seq<string>)
    requires forall i :: 0 <= i < |ts| ==> IsVisibleToken(ts[i])
    ensures forall i :: 0 <= i < |ts| ==> IsToken(ts[i])
  {
    forall i | 0 <= i < |ts| ensures IsToken(ts[i]) {
      assert forall k :: 0 <= k < |ts[i]| ==> !IsDelimiter(ts[i][k]);
    }
  }

  /** A token made of characters at or below U+0020 only; being a token, none of them is a
      delimiter (a vertical tab, say). */
  predicate IsBlankToken(t: string) {
    forall k :: 0 <= k < |t| ==> IsTrimmed(t[k])
  }

  lemma {:induction false} JoinLeadingOfBlank(ts: seq<string>)
    requires forall i :: 0 <= i < |ts| ==> IsBlankToken(ts[i])
    ensures forall k :: 0 <= k < |JoinLeading(ts)| ==> IsTrimmed(JoinLeading(ts)[k])
    decreases |ts|
  {
    if |ts| > 0 {
      JoinLeadingOfBlank(ts[1..]);
      var head := " " + ts[0];
      var tail := JoinLeading(ts[1..]);
      assert JoinLeading(ts) == head + tail;
      assert forall k :: 0 <= k < |head| ==> IsTrimmed(head[k]);
    }
  }

  /** Desc's null description: when every token after the keyword is blank, the built
      description trims away to nothing, so `description()` reports null. */
  lemma DescriptionOfBlankIsNull(ts: seq<string>)
    requires forall i :: 0 <= i < |ts| ==> IsBlankToken(ts[i])
    ensures BuildDescription(ts) == ""
  {
    JoinLeadingOfBlank(ts);
    TrimOfBlank(JoinLeading(ts));
  }

  /** `@desc` followed by a vertical tab passes the constructor's keyword and argument checks,
      since the tab is a token of its own, and yields a Desc whose description is null. */
  lemma VerticalTabDescIsNull(id: nat, line: nat, p: nat)
    ensures NewQualification(id, line, "@desc \U{000B}", Desc, p).Success?
    ensures NewQualification(id, line, "@desc \U{000B}", Desc, p).value.value == ""
    ensures DescText(NewQualification(id, line, "@desc \U{000B}", Desc, p).value).None?
  {
    var c := "@desc \U{000B}";
    VerticalTabTokens(c);
    var ts := Tokens(c);
    assert EqualsIgnoreCase(ts[0], ExpectedKeyword(QualTag(Desc)));
    DescriptionOfBlankIsNull(ts[1..]);
  }

  lemma VerticalTabTokens(c: string)
    requires c == "@desc \U{000B}"
    ensures Tokens(c) == ["@desc", "\U{000B}"]
  {
    var ts := ["@desc", "\U{000B}"];
    assert c == ts[0] + " " + ts[1];
    assert JoinSpaced(ts[1..]) == ts[1];
    assert JoinSpaced(ts) == ts[0] + " " + JoinSpaced(ts[1..]);
    TokensOfJoinSpaced(ts);
  }

  /** What `description()` yields for a Desc: its value, or null. */
  function DescText(q: Annotation): Option<string>
  {
    if q.value == "" then None else Some(q.value)
  }

  /** The slots a primary fills from its qualifications: Annotation's Desc, the alias of
      AliasableAnnotation (`as`), Flow's URI slot and Out's list of Log annotations. */
  datatype Quals = Quals(desc: Option<string>, uri: Option<string>, alias: Option<string>, logs: seq<string>)

  const NoQuals := Quals(None, None, None, [])

  /** `target.qualifyWith(q)` with the override chosen by the target's class:
      Out (and Return) appends a Log, otherwise passes on to Flow; Flow stores a
      UriAnnotation (Uri or File) in its slot, otherwise passes on to AliasableAnnotation,
      which keeps an As as the alias; Annotation keeps a Desc and ignores everything else. */
  function QualifyWith(target: Annotation, qs: Quals, q: Annotation): Quals
    requires q.Qualification?
  {
    match q.qkind
    case Log => if target.IsOut() then qs.(logs := qs.logs + [q.value]) else qs
    case Uri => if target.IsFlow() then qs.(uri := Some(q.value)) else qs
    case File => if target.IsFlow() then qs.(uri := Some(q.value)) else qs
    case As => if target.IsFlow() then qs.(alias := Some(q.value)) else qs
    case Desc => qs.(desc := DescText(q))
  }

  /** The slots of `target` after every qualification naming it in the stream has been
      attached, in stream order. */
  function QualsOf(arena: seq<Annotation>, target: Annotation): Quals
  {
    if |arena| == 0 then NoQuals
    else
      var q := arena[|arena| - 1];
      var qs := QualsOf(arena[..|arena| - 1], target);
      if q.Qualification? && q.primary == target.id then QualifyWith(target, qs, q) else qs
  }

  /** The qualifications of the given kinds that name primary `id`, in stream order. */
  function Attached(arena: seq<Annotation>, id: nat, kinds: set<QualKind>): (r: seq<Annotation>)
    ensures forall i :: 0 <= i < |r| ==> r[i].Qualification? && r[i].primary == id && r[i].qkind in kinds
  {
    if |arena| == 0 then []
    else
      var q := arena[|arena| - 1];
      Attached(arena[..|arena| - 1], id, kinds)
        + (if q.Qualification? && q.primary == id && q.qkind in kinds then [q] else [])
  }

  function LastValue(qs: seq<Annotation>): Option<string>
  {
    if |qs| == 0 then None else Some(qs[|qs| - 1].value)
  }

  function LastDescText(qs: seq<Annotation>): Option<string>
  {
    if |qs| == 0 then None else DescText(qs[|qs| - 1])
  }

  function Values(qs: seq<Annotation>): seq<string>
  {
    if |qs| == 0 then [] else Values(qs[..|qs| - 1]) + [qs[|qs| - 1].value]
  }

  /** The Desc slot, for every class: the text of the last Desc naming the annotation. */
  lemma {:induction false} DescSlotIsLastDesc(arena: seq<Annotation>, t: Annotation)
    ensures QualsOf(arena, t).desc == LastDescText(Attached(arena, t.id, {Desc}))
    decreases |arena|
  {
    if |arena| > 0 {
      DescSlotIsLastDesc(arena[..|arena| - 1], t);
    }
  }

  /** The URI slot: the last Uri or File naming a Flow annotation; never set on other classes. */
  lemma {:induction false} UriSlotIsLastUri(arena: seq<Annotation>, t: Annotation)
    ensures QualsOf(arena, t).uri ==
              (if t.IsFlow() then LastValue(Attached(arena, t.id, {Uri, File})) else None)
    decreases |arena|
  {
    if |arena| > 0 {
      UriSlotIsLastUri(arena[..|arena| - 1], t);
    }
  }

  /** The alias: the last As naming a Flow annotation; never set on other classes. */
  lemma {:induction false} AliasSlotIsLastAs(arena: seq<Annotation>, t: Annotation)
    ensures QualsOf(arena, t).alias ==
              (if t.IsFlow() then LastValue(Attached(arena, t.id, {As})) else None)
    decreases |arena|
  {
    if |arena| > 0 {
      AliasSlotIsLastAs(arena[..|arena| - 1], t);
    }
  }

  /** Out's Log list: every Log naming an Out or Return, in arrival order, none replaced;
      Logs attached to any other class are dropped. */
  lemma {:induction false} LogListIsEveryLog(arena: seq<Annotation>, t: Annotation)
    ensures QualsOf(arena, t).logs ==
              (if t.IsOut() then Values(Attached(arena, t.id, {Log})) else [])
    decreases |arena|
  {
    if |arena| > 0 {
      var p := arena[..|arena| - 1];
      var q := arena[|arena| - 1];
      LogListIsEveryLog(p, t);
      if q.Qualification? && q.primary == t.id && q.qkind == Log {
        LogJoinsList(arena, t);
      } else {
        OtherLeavesList(arena, t);
      }
    }
  }

  lemma LogJoinsList(arena: seq<Annotation>, t: Annotation)
    requires |arena| > 0
    requires arena[|arena| - 1].Qualification? && arena[|arena| - 1].primary == t.id
    requires arena[|arena| - 1].qkind == Log
    ensures t.IsOut() ==> QualsOf(arena, t).logs == QualsOf(arena[..|arena| - 1], t).logs + [arena[|arena| - 1].value]
    ensures !t.IsOut() ==> QualsOf(arena, t).logs == QualsOf(arena[..|arena| - 1], t).logs
    ensures Values(Attached(arena, t.id, {Log})) ==
              Values(Attached(arena[..|arena| - 1], t.id, {Log})) + [arena[|arena| - 1].value]
  {
    var p := arena[..|arena| - 1];
    var q := arena[|arena| - 1];
    var a := Attached(p, t.id, {Log});
    assert QualsOf(arena, t) == QualifyWith(t, QualsOf(p, t), q);
    QualifyWithLog(t, QualsOf(p, t), q);
    assert Attached(arena, t.id, {Log}) == a + [q];
    ValuesSnoc(a, q);
  }

  lemma QualifyWithLog(target: Annotation, qs: Quals, q: Annotation)
    requires q.Qualification? && q.qkind == Log
    ensures target.IsOut() ==> QualifyWith(target, qs, q).logs == qs.logs + [q.value]
    ensures !target.IsOut() ==> QualifyWith(target, qs, q).logs == qs.logs
  {
  }

  lemma OtherLeavesList(arena: seq<Annotation>, t: Annotation)
    requires |arena| > 0
    requires !(arena[|arena| - 1].Qualification? && arena[|arena| - 1].primary == t.id
               && arena[|arena| - 1].qkind == Log)
    ensures QualsOf(arena, t).logs == QualsOf(arena[..|arena| - 1], t).logs
    ensures Attached(arena, t.id, {Log}) == Attached(arena[..|arena| - 1], t.id, {Log})
  {
    OtherKeepsLogs(arena, t);
    OtherKeepsAttached(arena, t.id, Log);
  }

  lemma OtherKeepsLogs(arena: seq<Annotation>, t: Annotation)
    requires |arena| > 0
    requires !(arena[|arena| - 1].Qualification? && arena[|arena| - 1].primary == t.id
               && arena[|arena| - 1].qkind == Log)
    ensures QualsOf(arena, t).logs == QualsOf(arena[..|arena| - 1], t).logs
  {
    var p := arena[..|arena| - 1];
    var q := arena[|arena| - 1];
    if q.Qualification? && q.primary == t.id {
      assert QualsOf(arena, t) == QualifyWith(t, QualsOf(p, t), q);
      QualifyWithKeepsLogs(t, QualsOf(p, t), q);
    }
  }

  /** A last annotation that is not a qualification of kind `k` naming `id` adds nothing to
      the attached list. */
  lemma OtherKeepsAttached(arena: seq<Annotation>, id: nat, k: QualKind)
    requires |arena| > 0
    requires !(arena[|arena| - 1].Qualification? && arena[|arena| - 1].primary == id
               && arena[|arena| - 1].qkind == k)
    ensures Attached(arena, id, {k}) == Attached(arena[..|arena| - 1], id, {k})
  {
    var a := Attached(arena[..|arena| - 1], id, {k});
    assert a + [] == a;
  }

  lemma QualifyWithKeepsLogs(target: Annotation, qs: Quals, q: Annotation)
    requires q.Qualification? && q.qkind != Log
    ensures QualifyWith(target, qs, q).logs == qs.logs
  {
  }

  lemma ValuesSnoc(a: seq<Annotation>, q: Annotation)
    ensures Values(a + [q]) == Values(a) + [q.value]
  {
    assert (a + [q])[..|a|] == a;
  }

  /** `description()`: a Desc answers its own text, every other annotation the text of the
      Desc attached to it, or null. */
  function Description(arena: seq<Annotation>, a: Annotation): Option<string>
  {
    if a.IsDesc() then DescText(a) else QualsOf(arena, a).desc
  }

  /** `descriptionClean()`: the description with each literal backslash-n made a space. */
  function DescriptionClean(arena: seq<Annotation>, a: Annotation): (r: Option<string>)
    ensures r.None? <==> Description(arena, a).None?
    ensures r.Some? ==> !HasEscapedNewline(r.value)
    ensures r.Some? && !HasEscapedNewline(Description(arena, a).value) ==>
              r == Description(arena, a)
  {
    match Description(arena, a)
    case None => None
    case Some(d) =>
      ReplaceEscapedNewlinesKeepsClean(d);
      Some(ReplaceEscapedNewlines(d))
  }

  /** Constructing a Desc attaches it to its primary, which then reports its text: the
      description of a primary is the text of the last Desc naming it. */
  lemma LastDescWins(arena: seq<Annotation>, d: Annotation, t: Annotation)
    requires d.IsDesc() && d.primary == t.id && !t.IsDesc()
    ensures Description(arena + [d], t) == DescText(d)
  {
    assert (arena + [d])[..|arena|] == arena;
  }

  /** The URI slot of a Flow annotation is last-write-wins between `@uri` and `@file`. */
  lemma LastUriWins(arena: seq<Annotation>, u: Annotation, t: Annotation)
    requires u.IsUri() && u.primary == t.id && t.IsFlow()
    ensures QualsOf(arena + [u], t).uri == Some(u.value)
  {
    assert (arena + [u])[..|arena|] == arena;
  }

  /** Call is not a Flow class: whatever is attached, it has no URI and no alias. */
  lemma CallHasNoUriOrAlias(arena: seq<Annotation>, t: Annotation)
    requires t.IsCall()
    ensures QualsOf(arena, t).uri.None? && QualsOf(arena, t).alias.None?
    ensures QualsOf(arena, t).logs == []
  {
    UriSlotIsLastUri(arena, t);
    AliasSlotIsLastAs(arena, t);
    LogListIsEveryLog(arena, t);
  }

  /** An arena as the parser builds it: ids are positions and every qualification names an
      annotation of the stream. */
  predicate ValidArena(arena: seq<Annotation>) {
    forall i :: 0 <= i < |arena| ==>
      arena[i].id == i && (arena[i].Qualification? ==> arena[i].primary < |arena|)
  }

  /** Flow's `toString`: `keyword{value=v`, then `,alias=a` when aliased, then
      `,description=d` when described, then `}`. */
  function FlowToString(arena: seq<Annotation>, a: Annotation): (r: string)
    requires a.IsFlow()
    ensures |r| > |a.keyword + "{value=" + a.value| && r[|r| - 1] == '}'
    ensures r[..|a.keyword + "{value=" + a.value|] == a.keyword + "{value=" + a.value
    ensures QualsOf(arena, a).alias.None? && Description(arena, a).None? ==>
              r == a.keyword + "{value=" + a.value + "}"
    ensures QualsOf(arena, a).alias.Some? && Description(arena, a).None? ==>
              r == a.keyword + "{value=" + a.value + ",alias=" + QualsOf(arena, a).alias.value + "}"
    ensures QualsOf(arena, a).alias.None? && Description(arena, a).Some? ==>
              r == a.keyword + "{value=" + a.value + ",description=" + Description(arena, a).value + "}"
    ensures QualsOf(arena, a).alias.Some? && Description(arena, a).Some? ==>
              r == a.keyword + "{value=" + a.value + ",alias=" + QualsOf(arena, a).alias.value
                   + ",description=" + Description(arena, a).value + "}"
  {
    var qs := QualsOf(arena, a);
    var head := a.keyword + "{value=" + a.value;
    var aliasPart := if qs.alias.Some? then ",alias=" + qs.alias.value else "";
    var descPart := if Description(arena, a).Some? then ",description=" + Description(arena, a).value else "";
    assert (head + aliasPart + descPart + "}")[..|head|] == head;
    assert qs.alias.None? ==> head + aliasPart == head;
    head + aliasPart + descPart + "}"
  }

  /** Call's `toString`: `keyword{value=v`, then `,description=d` when described, then `}`. */
  function CallToString(arena: seq<Annotation>, a: Annotation): (r: string)
    requires a.IsCall()
    ensures |r| > |a.keyword + "{value=" + a.value| && r[|r| - 1] == '}'
    ensures r[..|a.keyword + "{value=" + a.value|] == a.keyword + "{value=" + a.value
    ensures Description(arena, a).None? ==> r == a.keyword + "{value=" + a.value + "}"
    ensures Description(arena, a).Some? ==>
              r == a.keyword + "{value=" + a.value + ",description=" + Description(arena, a).value + "}"
  {
    var head := a.keyword + "{value=" + a.value;
    var descPart := match Description(arena, a) case Some(d) => ",description=" + d case None => "";
    assert (head + descPart + "}")[..|head|] == head;
    head + descPart + "}"
  }

  /** Call prints like a Flow annotation that has no alias. */
  lemma CallPrintsLikeUnaliasedFlow(arena: seq<Annotation>, c: Annotation, f: Annotation)
    requires c.IsCall() && f.IsFlow()
    requires c.keyword == f.keyword && c.value == f.value
    requires Description(arena, c) == Description(arena, f) && QualsOf(arena, f).alias.None?
    ensures CallToString(arena, c) == FlowToString(arena, f)
  {
  }

  /** The `toString` of Desc, UriAnnotation and FileUri: the value (a null for an empty
      Desc). */
  function QualificationToString(q: Annotation): (r: Option<string>)
    requires q.IsDesc() || q.IsUri()
    ensures r.Some? ==> r.value == q.value
    ensures r.None? <==> q.IsDesc() && q.value == ""
  {
    if q.IsDesc() then DescText(q) else Some(q.value)
  }
}
