# YesWorkflow annotations to PROV: a Dafny model

YesWorkflow reads `@begin`, `@end`, `@in`, `@param`, `@out`, `@return`, `@call`
annotations and their qualifications (`@desc`, `@as`, `@uri`, `@file`, `@log`) from
comments in a script. From them it builds a W3C PROV document:
- one activity per `@begin`;
- one entity per data flow or called function;
- `used` and `wasGeneratedBy` edges between them;
- `alternateOf` pairs for aliases.

This project models the core of that pipeline and proves properties of it. It covers three
stages.

1. **Annotations** (`text.dfy`, `annotations.dfy`, `statements.dfy`).
   - How a comment becomes an annotation. The keyword is checked case-insensitively and
     the second token becomes the value; a Desc joins its remaining tokens.
   - How qualifications attach to their primary annotation. A primary has a description
     slot; a Flow (`@in`, `@param`, `@out`, `@return`) also has a URI slot and an alias; an
     Out also keeps a list of logs.
   - Which PROV statement each annotation class yields (`getProvenanceInfo`).

   The annotation stream is an arena: an annotation's `id` is its position, and a
   qualification names its primary by position. The slots a primary holds once parsing is
   done are a left fold of `qualifyWith` over the stream (`Annotations.QualsOf`).
2. **Blocks** (`blocks.dfy`, `builder.dfy`). `AnnotationBlockBuilder` sorts the stream into
   a flat list of blocks of lines in one left fold. Its only state is whether the previous
   annotation was an `@end`. A block's activity is found by `getBegin`.
3. **The PROV document** (`qnames.dfy`, `labels.dfy`, `document.dfy`, `document_facts.dfy`).
   - `ExtractProvenance.createDocument` walks the blocks in source order.
   - Names are escaped into qualified-name local parts.
   - Statements are keyed by id in a map and merged by label on collision.
   - Edge ids join the entity, the relation (`GEN`, `USE`, `CALL`) and the activity.
   - `@log` labels go onto the enclosing activity.

   The document is a map from local name to statement plus a set of `alternateOf` pairs.
   The source dereferences a missing `@begin` without a check; here that is the error
   `MissingBegin`, which ends the whole pass.

Two example files work through streams from the sample scripts:
- `examples_greetings.dfy`: the `print_greeting` procedure of `greetings.py`;
- `examples_descriptions.dfy`: a description and a URI label from the larger samples.

Where the written design of the system and its code differ, the model follows the code:
- An In, Param, Out or Return entity is named by its value, never by its `@as` alias. An
  aliased output therefore creates no entity named by the alias, only the `alternateOf`
  pair (`Statements.AliasDoesNotRenameFlowEntity`).
- A Flow entity's label is the URI, else the raw description, with its literal `\n`
  sequences intact. It is not the cleaned description.
- The merge case "stored statement has labels, new statement cannot hold labels" replaces
  the stored statement unconditionally. The test "replace only when the annotation has a
  description" belongs to the case where the stored statement cannot hold labels. Every
  statement with an id can hold labels, so the pass reaches neither case
  (`Document.HandleIdentifiable`).
- A `@log` in a block without a `@begin` fails the pass just as an In, Out or Call does.

## Model

| member | source | states |
|---|---|---|
| `Text.Tokens` | src/main/java/org/yesworkflow/annotations/Annotation.java:33-45 | every token of a comment is non-empty and holds none of the tokenizer's default delimiters (space, tab, newline, carriage return, form feed) |
| `Text.TokensKeepContent` | src/main/java/org/yesworkflow/annotations/Annotation.java:33 | tokenising loses nothing but delimiters: the tokens, concatenated, are the comment with its delimiters removed, in order |
| `Text.TokensOfJoinSpaced` | src/main/java/org/yesworkflow/annotations/Desc.java:25-32 | tokens joined by single spaces tokenise back into exactly those tokens |
| `Text.Trim` | src/main/java/org/yesworkflow/annotations/Annotation.java:68 | `trim` yields a slice of its input with only characters up to U+0020 cut off around it, and the slice neither starts nor ends with such a character |
| `Text.TrimIdempotent` | src/main/java/org/yesworkflow/annotations/Flow.java:65 | trimming a trimmed value changes nothing |
| `Text.ReplaceEscapedNewlines` | src/main/java/org/yesworkflow/annotations/Annotation.java:63-65 | the cleaned text holds no backslash-n pair, is no longer than the input, and is empty only for empty input |
| `Text.ReplaceAtFirstEscapedNewline` | src/main/java/org/yesworkflow/annotations/Annotation.java:64 | each backslash-n becomes one space in place: the text before the first one is kept and cleaning continues after it, even when that text ends in a backslash |
| `Text.ReplaceEscapedNewlinesKeepsClean` | src/main/java/org/yesworkflow/annotations/Annotation.java:63-65 | text with no backslash-n is returned unchanged, so cleaning is idempotent |
| `Annotations.KeywordAndValue` | src/main/java/org/yesworkflow/annotations/Annotation.java:33-46 | succeeds exactly when the first token equals `@`+tag ignoring case and a second token exists, and returns those two tokens. Otherwise it reports the wrong keyword (expected and found), the missing argument (keyword and line), or, for a comment without tokens, the exception of the unguarded first `nextToken` |
| `Annotations.NewPrimary` | src/main/java/org/yesworkflow/annotations/Annotation.java:25-46 | a primary annotation is built exactly when the keyword checks pass. It holds the given id, line, class and tag, the keyword token and the value token; a failure carries the checks' error |
| `Annotations.NewQualification` | src/main/java/org/yesworkflow/annotations/Desc.java:13-19 | a qualification is built exactly when the keyword checks pass. It holds its class's own tag and its primary's id. A Desc's value is the built description, any other class's value the second token |
| `Annotations.DescriptionCollapsesWhitespace` | src/main/java/org/yesworkflow/annotations/Desc.java:25-32 | for visible tokens the description is the tokens joined by single spaces, and it tokenises back into those tokens |
| `Annotations.DescriptionOfBlankIsNull` | src/main/java/org/yesworkflow/annotations/Desc.java:25-32 | when every token after `@desc` consists only of characters up to U+0020 (none of them a delimiter), the built description is empty |
| `Annotations.VerticalTabDescIsNull` | src/main/java/org/yesworkflow/annotations/Desc.java:13-32 | `@desc` followed by a vertical tab passes the keyword and argument checks (the tab is a token), and the Desc's value is empty, so its description is null |
| `Annotations.DescSlotIsLastDesc` | src/main/java/org/yesworkflow/annotations/Annotation.java:48-53 | the description slot of any annotation holds the text of the last Desc naming it |
| `Annotations.UriSlotIsLastUri` | src/main/java/org/yesworkflow/annotations/Flow.java:19-28 | the URI slot of a Flow annotation holds the value of the last `@uri` or `@file` naming it; any other class never has one |
| `Annotations.AliasSlotIsLastAs` | src/main/java/org/yesworkflow/extract/ExtractProvenance.java:153-156 | the alias of a Flow annotation is the value of the last `@as` naming it; any other class never has one |
| `Annotations.LogListIsEveryLog` | src/main/java/org/yesworkflow/annotations/Out.java:26-40 | an Out or Return keeps every `@log` naming it, in arrival order, none replaced; it starts empty, and logs attached to other classes are dropped |
| `Annotations.DescriptionClean` | src/main/java/org/yesworkflow/annotations/Annotation.java:59-65 | null exactly when the description is null. The result holds no backslash-n, and a description without one is returned as it is |
| `Annotations.LastDescWins` | src/main/java/org/yesworkflow/annotations/Desc.java:18 | once a Desc naming an annotation is constructed, that annotation's `description()` is the Desc's text |
| `Annotations.LastUriWins` | src/main/java/org/yesworkflow/annotations/FileUri.java:10-14 | `@uri` and `@file` share one slot on a Flow annotation, and the later one wins |
| `Annotations.CallHasNoUriOrAlias` | src/main/java/org/yesworkflow/annotations/Call.java:10 | a Call is not a Flow: whatever is attached, it has no URI, no alias and no logs |
| `Annotations.FlowToString` | src/main/java/org/yesworkflow/annotations/Flow.java:35-57 | the text is `keyword{value=v`, then `,alias=a` when an alias is attached, then `,description=d` when a description is, then `}`; all four combinations are stated |
| `Annotations.CallToString` | src/main/java/org/yesworkflow/annotations/Call.java:20-37 | the text is `keyword{value=v`, then `,description=d` when a description is attached, then `}` |
| `Annotations.CallPrintsLikeUnaliasedFlow` | src/main/java/org/yesworkflow/annotations/Call.java:21-37 | a Call prints exactly like a Flow annotation with the same keyword, value and description and no alias |
| `Annotations.QualificationToString` | src/main/java/org/yesworkflow/annotations/Desc.java:34-36 | a Desc, `@uri` or `@file` prints as its value; only a Desc with no text prints as null |
| `Blocks.Block.LastLine` | src/main/java/org/yesworkflow/annotations/util/AnnotationBlock.java:21-26 | null exactly when the block has no line, otherwise the final line |
| `Blocks.Block.BeginOf` | src/main/java/org/yesworkflow/annotations/util/AnnotationBlock.java:28-37 | the first annotation, scanning lines and then annotations in order, whose tag is BEGIN; null exactly when no annotation of the block carries that tag |
| `Blocks.NewBlockHasNoLastLine` | src/main/java/org/yesworkflow/annotations/AnnotationBlock.java:10-23 | a new block has no lines, so no last line and no Begin |
| `BlockBuilder.Place` | src/main/java/org/yesworkflow/extract/AnnotationBlockBuilder.java:76-97 | BLOCK appends a block whose only line is the annotation; LINE and APPEND change only the last block, which gains the annotation at its end and keeps its first annotation; SKIP changes nothing |
| `BlockBuilder.Add` | src/main/java/org/yesworkflow/extract/AnnotationBlockBuilder.java:48-74 | the annotation is kept unless it is an End right after an End, and it goes last in reading order. A block is opened exactly while there is none or for a Begin. Every line stays non-empty, block heads never change, and the flag records whether this annotation was an End, skipped or not |
| `BlockBuilder.Build` | src/main/java/org/yesworkflow/extract/AnnotationBlockBuilder.java:37-46 | every block holds at least one line and every line at least one annotation, the flag says whether the last annotation was an End, and there are no blocks exactly for the empty stream |
| `BlockBuilder.BuildKeepsOrder` | src/main/java/org/yesworkflow/extract/AnnotationBlockBuilder.java:41-43 | flattening blocks, lines and annotations gives back the stream in order, minus each End that directly follows an End |
| `BlockBuilder.KeptDropsOnlyRepeatedEnds` | src/main/java/org/yesworkflow/extract/AnnotationBlockBuilder.java:64-67 | an End is dropped exactly when the annotation right before it, of any class, was an End; any other annotation is kept |
| `BlockBuilder.BuildHeads` | src/main/java/org/yesworkflow/extract/AnnotationBlockBuilder.java:49-62 | the blocks' first annotations are exactly the stream's first annotation (whatever its class) followed by every later Begin, in order |
| `BlockBuilder.BlockCount` | src/main/java/org/yesworkflow/extract/AnnotationBlockBuilder.java:54-60 | there are as many blocks as Begins, plus one when the stream is non-empty and does not start with a Begin; the first annotation heads the first block |
| `BlockBuilder.QualificationAppends` | src/main/java/org/yesworkflow/extract/AnnotationBlockBuilder.java:55-56 | once a block exists, a qualification joins the end of the last line of the last block, and nothing else changes |
| `BlockBuilder.PrimaryOpensLine` | src/main/java/org/yesworkflow/extract/AnnotationBlockBuilder.java:57-58 | once a block exists, a kept primary annotation other than Begin opens a new last line holding only itself |
| `BlockBuilder.BeginOpensBlock` | src/main/java/org/yesworkflow/extract/AnnotationBlockBuilder.java:59-60 | a Begin opens a new last block whose only line holds only the Begin |
| `BlockBuilder.RepeatedEndSkipped` | src/main/java/org/yesworkflow/extract/AnnotationBlockBuilder.java:65-73 | an End right after an End leaves the blocks as they are and keeps the flag set |
| `BlockBuilder.BuildBeginsOnlyAtHeads` | src/main/java/org/yesworkflow/extract/AnnotationBlockBuilder.java:82-85 | in the built blocks a Begin can only be a block's first annotation, and every block after the first starts with one |
| `BlockBuilder.BlocksComeFromStream` | src/main/java/org/yesworkflow/extract/AnnotationBlockBuilder.java:41-43 | every annotation in a block is an annotation of the stream |
| `QNames.Escape` | src/main/java/org/yesworkflow/extract/ExtractProvenance.java:75-86 | the length is kept; each character of the forbidden set becomes `_`, and every other character stays where it is |
| `QNames.EscapeSequentialIsEscape` | src/main/java/org/yesworkflow/extract/ExtractProvenance.java:79-83 | the loop of one `replaceAll` per forbidden character, in array order, computes exactly the per-character escape |
| `QNames.EscapeLeavesOnlyUnderscore` | src/main/java/org/yesworkflow/extract/ExtractProvenance.java:77-78 | no forbidden character other than `_` survives the escape |
| `QNames.EscapeIdempotent` | src/main/java/org/yesworkflow/extract/ExtractProvenance.java:77-82 | escaping an escaped name changes nothing |
| `QNames.EscapeFixedPoint` | src/main/java/org/yesworkflow/extract/ExtractProvenance.java:75-86 | a name is left alone exactly when its only forbidden character, if any, is `_` |
| `QNames.EdgeLocal` | src/main/java/org/yesworkflow/extract/ExtractProvenance.java:92-95 | an edge name is the escaped first name, `__`, the connector, `__`, then the escaped second name, each at its fixed position |
| `QNames.EdgeRelationsDistinct` | src/main/java/org/yesworkflow/extract/ExtractProvenance.java:165-205 | the same entity and activity give three different edge names for GEN, USE and CALL |
| `QNames.EdgeLocalIsEscaped` | src/main/java/org/yesworkflow/extract/ExtractProvenance.java:171 | an edge name needs no further escaping when its connector has no forbidden character |
| `Statements.FlowLabel` | src/main/java/org/yesworkflow/annotations/Flow.java:61-63 | the URI when one is attached, otherwise the raw description |
| `Statements.ProvenanceInfo` | src/main/java/org/yesworkflow/annotations/Annotation.java:67-69 | exactly Begin, the Flow classes, Call and As yield a statement. A Begin yields an activity named by its trimmed escaped value and labelled with the cleaned description. A Flow annotation yields an untyped entity named by its value, labelled by the flow label. A Call yields an entity typed `calledFunction`. An As yields the pair of its own name and its primary's name |
| `Statements.FlowProvenanceInfo` | src/main/java/org/yesworkflow/annotations/Flow.java:59-68 | an entity labelled by the flow label, named by the trimmed alias when one is attached and by the trimmed value otherwise |
| `Statements.FlowOverridesIgnoreAlias` | src/main/java/org/yesworkflow/annotations/In.java:28 | the In, Param, Out and Return overrides name the entity by the escaped trimmed value, and agree with Flow's version whenever no alias is attached |
| `Statements.AliasDoesNotRenameFlowEntity` | src/main/java/org/yesworkflow/annotations/Out.java:48 | attaching an `@as` to an In, Param, Out or Return leaves its statement unchanged |
| `Statements.FlowLabelPrecedence` | src/main/java/org/yesworkflow/annotations/Param.java:19-21 | the label list is the URI if attached, else the raw description, else empty |
| `Labels.AddIfAbsent` | src/main/java/org/yesworkflow/extract/ExtractProvenance.java:264-266 | the label is in the result; the stored labels stay in front; the list grows by one exactly when the value was absent |
| `Labels.AddDescriptionLabel` | src/main/java/org/yesworkflow/extract/ExtractProvenance.java:255-267 | the stored labels stay in front, at most one label is added, and the labels afterwards are the stored ones plus the description if non-null |
| `Labels.AddLabelsKeepsStored` | src/main/java/org/yesworkflow/extract/ExtractProvenance.java:241-253 | merging keeps the stored labels in front, in order |
| `Labels.AddLabelsContents` | src/main/java/org/yesworkflow/extract/ExtractProvenance.java:247-252 | a label of the result is a stored one or a new one, and every new one is in the result |
| `Labels.AddLabelsNoDuplicates` | src/main/java/org/yesworkflow/extract/ExtractProvenance.java:245-251 | merging into a list without repeated values gives a list without repeated values |
| `Labels.AddLabelsOfStored` | src/main/java/org/yesworkflow/extract/ExtractProvenance.java:249-250 | new labels that are all stored already change nothing |
| `Labels.AddLabelsIdempotent` | src/main/java/org/yesworkflow/extract/ExtractProvenance.java:241-253 | merging the same labels twice is merging them once |
| `Document.DocStatements` | src/main/java/org/yesworkflow/extract/ExtractProvenance.java:130-133 | the document holds exactly the map's statements and one alternate-of statement per collected pair |
| `Document.WellKeyedIdsUnique` | src/main/java/org/yesworkflow/extract/ExtractProvenance.java:98-99 | in a map keyed by id, two different keys hold statements with different ids |
| `Document.HandleIdentifiable` | src/main/java/org/yesworkflow/extract/ExtractProvenance.java:210-239 | only the statement's own key is added or changed. An absent key is inserted. A stored statement with an empty label list is replaced. A stored labelled one keeps its kind and id; its labels keep the stored ones in front, are exactly the stored, new and cleaned-description labels, and repeat no value when the stored ones repeated none. A stored statement without label support is replaced only when the annotation has a description. Keys stay ids, and a map whose label lists repeat no value keeps that property when the new statement's labels repeat none |
| `Document.Edge` | src/main/java/org/yesworkflow/extract/ExtractProvenance.java:165-205 | GEN gives a generation record from the entity to the activity, USE and CALL give a usage record from the activity to the entity; the id is the joined edge name |
| `Document.Connect` | src/main/java/org/yesworkflow/extract/ExtractProvenance.java:180-190 | fails exactly for an entity in a block without Begin. For an entity it puts (overwriting) the edge under its joined name and changes nothing else; for anything else it changes nothing; keys stay ids |
| `Document.LogEntity` | src/main/java/org/yesworkflow/extract/ExtractProvenance.java:150-157 | a log names an aliasable annotation that has an alias by the alias, and any other annotation by its raw value |
| `Document.HandleLog` | src/main/java/org/yesworkflow/extract/ExtractProvenance.java:141-160 | fails exactly without a Begin. When an Activity is stored under the block's activity name, its labels keep the stored ones in front and gain exactly `log_<entity>: <message>`, added only when absent, so no value is repeated; otherwise nothing changes. No key is added and no other entry changes |
| `Document.Record` | src/main/java/org/yesworkflow/extract/ExtractProvenance.java:106-113 | a statement with an id goes through `handleIdentifiable` and leaves the pairs alone; an alternate-of pair goes into the set and leaves the map alone; no statement changes nothing |
| `Document.Dispatch` | src/main/java/org/yesworkflow/extract/ExtractProvenance.java:115-125 | fails exactly for an In, Param, Out, Return, Call or Log in a block without Begin; otherwise keys are only added and the pairs are unchanged |
| `Document.Step` | src/main/java/org/yesworkflow/extract/ExtractProvenance.java:105-126 | fails exactly for an annotation needing a Begin in a block without one. Keys are only added, an As adds its pair and nothing else adds one, keys stay ids, and no label list gains a repeated value |
| `Document.VisitAnnotations` | src/main/java/org/yesworkflow/extract/ExtractProvenance.java:104-127 | fails exactly when the block has no Begin and holds an annotation needing one; the pairs gained are exactly those of the block's As annotations; keys are only added and stay ids |
| `Document.VisitBlocks` | src/main/java/org/yesworkflow/extract/ExtractProvenance.java:103-128 | fails exactly when some block needs a Begin and has none; keys are only added and stay ids |
| `Document.CreateDocument` | src/main/java/org/yesworkflow/extract/ExtractProvenance.java:97-136 | the pass over the given blocks fails exactly when some block needs a Begin and has none; a finished document keys every statement by its own id, so no two stored statements share an id, and no stored label list repeats a value |
| `Document.Extract` | src/main/java/org/yesworkflow/extract/ExtractProvenance.java:269-272 | building the blocks of a stream and then the document fails exactly when some block needs a Begin and has none; otherwise every statement is keyed by its id and no activity or entity carries the same label twice |
| `DocumentFacts.AsPairsMembers` | src/main/java/org/yesworkflow/annotations/As.java:17-20 | a pair is collected exactly when some As of the annotations contributes it: its own escaped trimmed value and its primary's |
| `DocumentFacts.ExtractAlternates` | src/main/java/org/yesworkflow/extract/ExtractProvenance.java:112-113 | the document's alternate-of pairs are exactly those of the stream's As annotations, however the stream was cut into blocks |
| `DocumentFacts.AsPairsKept` | src/main/java/org/yesworkflow/extract/AnnotationBlockBuilder.java:64-67 | dropping repeated Ends loses no As pair |
| `DocumentFacts.ExtractFailsOnlyInFirstBlock` | src/main/java/org/yesworkflow/extract/ExtractProvenance.java:170 | when Begins carry the BEGIN tag, only the first block (annotations before the first Begin) can lack a Begin and fail the pass |
| `DocumentFacts.EntityOfFlowOrCall` | src/main/java/org/yesworkflow/annotations/Call.java:39-48 | an In, Param, Out, Return or Call yields an entity named by its escaped trimmed value |
| `DocumentFacts.StepConnects` | src/main/java/org/yesworkflow/extract/ExtractProvenance.java:180-205 | under a Begin, an In, Param, Out, Return or Call leaves its entity's key in the map and puts the GEN, USE or CALL edge to the activity under the joined name |
| `DocumentFacts.StepBegins` | src/main/java/org/yesworkflow/annotations/Annotation.java:67-69 | a Begin stores an activity under its escaped trimmed name, and a new one is labelled with the cleaned description |
| `DocumentFacts.StepLogs` | src/main/java/org/yesworkflow/extract/ExtractProvenance.java:142-159 | a Log under a Begin whose activity is stored leaves its log label on that activity |
| `DocumentFacts.LaterMergesOrReplaces` | src/main/java/org/yesworkflow/extract/ExtractProvenance.java:217-232 | a later statement under a taken id leaves a labelled stored activity or entity in place (same kind, types and first label) and only adds labels; an unlabelled one it replaces |
| `DocumentFacts.CallThenBeginSameName` | src/main/java/org/yesworkflow/extract/ExtractProvenance.java:210-239 | a described `@call` followed by a `@begin` of the same name leaves an entity typed `calledFunction` and no activity; an undescribed call is replaced by the activity |
| `DocumentFacts.BeginThenCallSameName` | src/main/java/org/yesworkflow/extract/ExtractProvenance.java:210-239 | a described `@begin` followed by a `@call` of the same name keeps the activity; an undescribed begin is replaced by the call entity |
| `DocumentFacts.ActivityKeyOfTrimmed` | src/main/java/org/yesworkflow/extract/ExtractProvenance.java:142 | the activity name edges and logs look up (escaped, untrimmed) is the one the Begin stored, whenever the Begin's value does not start or end with a character up to U+0020 |
| `DocumentFacts.EdgeKeyIsNotEntityKey` | src/main/java/org/yesworkflow/extract/ExtractProvenance.java:186 | an edge never overwrites the entity it starts from |
| `DocumentFacts.VisitAnnotationsConnects` | src/main/java/org/yesworkflow/extract/ExtractProvenance.java:104-126 | after a block is visited, the map has a key for the entity of each of its In, Param, Out, Return and Call annotations and for that entity's edge to the block's activity; what is stored under the entity key may since have been merged or replaced by a later statement with the same id |
| `DocumentFacts.VisitBlocksConnects` | src/main/java/org/yesworkflow/extract/ExtractProvenance.java:103-128 | after all blocks are visited, the map has a key for the entity of every In, Param, Out, Return and Call of every block and for its edge to that block's activity (keys, not the statements under them) |
| `DocumentFacts.ExtractConnects` | src/main/java/org/yesworkflow/extract/ExtractProvenance.java:115-122 | in a document the pass produced, every In, Param, Out, Return and Call has a Begin in its block, and the keys of its entity and of its edge are in the map |
| `Greetings.OneProcedureBlocks` | src/main/java/org/yesworkflow/extract/AnnotationBlockBuilder.java:48-97 | a stream Begin, Desc, In, As, Desc, Out, As, File, End, End gives one block of four lines, each primary with the qualifications after it, and no second End |
| `Greetings.PrintGreetingBlocks` | instances/greetings/greetings.py:19-25 | the `print_greeting` procedure becomes one block of four lines, and the enclosing procedure's `@end` is dropped |
| `DescriptionExamples.PidsDescriptionCleaned` | instances/large/inst_l.py:176 | the description `determine PIDs stored\nin trace logs` is cleaned to `determine PIDs stored in trace logs` |
| `DescriptionExamples.UriTemplateLabel` | instances/medium/inst_m.py:104 | `@return out_file @uri file:{out}` yields the entity `out_file` labelled with the URI template `file:{out}` as written, unescaped |
| `DescriptionExamples.DoubleBackslashBeforeN` | src/main/java/org/yesworkflow/annotations/Annotation.java:64 | two backslashes and an `n` clean to one backslash and a space |

## Left out

- Writing the document: ProvToolbox's factories, the namespace registration, the output
  format and extension choice, and `saveFile`. These are foreign library calls and file
  output. Qualified names are their local parts only, since every name shares the
  document's single prefix.
- HashMap and HashSet iteration order. The document is a Dafny map plus a set, so the order
  in which statements come out is not modelled.
- The live list `getLines` returns. The builder is a pure fold that rebuilds blocks instead
  of appending through shared references; the resulting contents are the same.
- The CLI tests, the comment scanner that finds annotations in a script, and the sample
  scripts' own logic. The samples serve only as annotation streams in the examples.
- The `{param}` placeholders in URIs. URI values are opaque strings; nothing in the model
  resolves them.
- The classes Begin, Log, Return, Qualification, AliasableAnnotation, Delimiter and
  YWKeywords are not part of this model; their behaviour is inferred from their uses.
  - Begin yields the default activity.
  - Log yields no statement.
  - Return behaves as Out, and Param as In.
  - An `@as` fills the alias of a Flow annotation.
  - The annotation classes' own `escapeForQName` equals the document builder's.
- Usage and generation records are taken to support labels and to be created with none. So
  `handleIdentifiable`'s "stored statement has no label support" branch is reachable only
  by alternate-of pairs, which never enter the map.
- `Annotations.KeywordAndValue`: `equalsIgnoreCase` is modelled with case folding of ASCII
  letters only. Keywords are ASCII, so only a non-ASCII first token could be judged
  differently.
- `Document.HandleLog`: it looks up the activity by the escaped, untrimmed value of the
  block's Begin, as the source does, while the Begin stores its activity under the trimmed
  value. The two differ only for a value that starts or ends with a control character that
  the tokenizer does not split on (`DocumentFacts.ActivityKeyOfTrimmed`). In that case
  the edges name an activity that was never stored, and the log label is silently
  dropped, because no activity is found under the untrimmed key (unless another Begin's
  activity happens to be stored there, which then receives it).
- A `@call` and a `@begin` with the same name share one id, so they do not stand apart.
  The later of the two merges its labels into the earlier one when the earlier one has a
  label, and replaces it otherwise; which statement survives therefore depends on stream
  order (`DocumentFacts.CallThenBeginSameName`, `DocumentFacts.BeginThenCallSameName`).
  The model keeps this behaviour as written.
