# Relation extraction: a verified model of the feature pipeline

This project models the core of a relation-extraction system for pairs of named
entities. The system reads annotated entity-pair lines ("two tokens"). For every
pair it builds a `RelInstance`, then turns the pair into an ordered list of
feature strings. It uses the sentence's POS tags and its constituency parse:
the words between the entities, the nearest common ancestor in the parse, the
internal-node labels of that subtree, bigrams, the dependency flag, the target
POS tags and the border words. It writes the instances as training and test
lines for an external classifier. Finally it scores the classifier's labels
against the gold labels with integer counters and a confusion table.

The model has these modules:

- `Text`: the string operations the code uses. These are `join`, `split("_")`,
  `split('.')[0]`, Python's whitespace `split()`, and substring containment.
- `ParseTree`: the parse-tree datatype and the tree searches.
  - `words_in_tree` is a containment test.
  - `get_subtree_between_words` is modelled twice. `Walk` is the accumulator
    recursion as written. `Deepest` is a reference definition, and the two
    are proved equal.
  - `get_tree_labels` lists the internal-node labels.
- `Instances`: `RelInstance`, a class whose `features` field is appended to in
  place.
- `FeatureExtraction`:
  - the per-mention feature computations;
  - `create_rel_inst_list`;
  - `get_relations_list_from_gold_files`;
  - the `FeatureExtractor` class, whose `featurize_*` loops update the
    instances in place.
  - A ghost `Slot` map records the position of every instance. This proves
    that each step touches only the instance at its own (document, mention)
    position.
- `CorpusReader`: the `TwoTokens` record.
- `RelationExtractor`:
  - the `featurize` flattening;
  - the training, test, gold and output line formats, each proved to read
    back through whitespace splitting;
  - the `RelExtractor` driver.
- `Evaluator`: the tag-list reading, the counting loop and the confusion-table
  loop, with their counting invariants.
- `Scenarios`: small concrete instances of the tree search and of the
  in-between and border-word features.

The extractor reads a mention's sentence offset, token boundaries, surface
tokens, entity types, tag and dependency label. The `TwoTokens` constructor in
`corpus_reader.py` sets none of the offset or boundary fields. So the extractor
is modelled over its own `Mention` record, which carries exactly those fields.
The source's index accesses can fail: a sentence offset out of range, a token
index past the sentence, or a short annotation line. These are handled in two
ways:

- In the extractor, they become preconditions, such as `SpanDefined` and
  `BorderDefined`.
- In the line readers, where a short line is ordinary input, they become
  `None` results.
- In the evaluator, a system tag list shorter than the gold tag list is
  excluded by a precondition; see "## Left out".

The code behaves as follows in places where a reader might expect otherwise,
and the model does what the code does:

- The relation label of an instance is the tag exactly as read. It is not
  stripped at the first `.`.
- Training lines carry the unstripped label. A stripped `rel_type` is computed
  for them but never used.
- An output line is the second whitespace field of the classifier's line. It
  is not a label chosen by score.
- In a gold annotation line the tag is the first column, not the last.

## Model

| member | source | states |
|---|---|---|
| Text.Split | relation_feature_extractor.py:155 | splitting at `_` yields at least one piece and no piece contains `_` |
| Text.SplitJoin | relation_feature_extractor.py:155-156 | joining the pieces of a `_` split with `_` gives the original text back |
| Text.JoinInfix | relation_feature_extractor.py:204-210 | the space-joined text of a contiguous run of words is a substring of the space-joined text of the whole list |
| Text.BeforeFirst | relation_extractor.py:69 | the part before the first `.` contains no `.` and is a prefix of the label; it is the whole label when there is no `.`, and otherwise it is followed by a `.` |
| Text.BeforeFirstIdempotent | relation_extractor.py:69 | stripping a label at its first `.` twice gives the same result as once |
| Text.Fields | relation-evaluator.py:24 | whitespace splitting yields only non-empty fields that contain no whitespace |
| Text.FieldsEmptyIffBlank | relation-evaluator.py:20-26 | a line splits into no fields exactly when it matches the blank-line pattern, so `parts[0]` exists for every non-blank line |
| Text.FieldsOfJoinedLine | relation_extractor.py:44-46 | splitting a space-joined, newline-terminated line of words on whitespace gives the words back |
| ParseTree.WordsInTree | relation_feature_extractor.py:204-210 | definition: the space-joined target occurs in the space-joined leaves; `ChildContainmentLifts` and `AncestorContainment` characterise it |
| ParseTree.ChildContainmentLifts | relation_feature_extractor.py:204-210 | if a child subtree contains the target words, so does its parent |
| ParseTree.AncestorContainment | relation_feature_extractor.py:204-210 | every ancestor of a subtree that contains the target also contains it |
| ParseTree.LastContaining | relation_feature_extractor.py:196-198 | the index of the last tree child, in order, that contains the target; no later child contains it |
| ParseTree.Walk | relation_feature_extractor.py:189-201 | definition: the accumulator recursion as written, with the default list rebound and never mutated; `WalkFindsDeepest` characterises it |
| ParseTree.WalkChildren | relation_feature_extractor.py:196-200 | definition: the loop over the children from position `i`; `WalkChildrenFindsDeepest` characterises it |
| ParseTree.Deepest | relation_feature_extractor.py:189-201 | the node reached by descending into the last containing child: it is a node of the tree, it contains the target, and none of its children does |
| ParseTree.WalkFindsDeepest | relation_feature_extractor.py:189-201 | the accumulator recursion returns `Deepest` when the node contains the target, and otherwise the accumulator it was given |
| ParseTree.WalkChildrenFindsDeepest | relation_feature_extractor.py:196-198 | the loop over the children from position `i` ends with `Deepest` of the last containing child if that child is at `i` or later, and otherwise with the accumulator |
| ParseTree.SubtreeBetweenWords | relation_feature_extractor.py:189-201 | the result is the non-tree default exactly when the tree does not contain the target; otherwise it is `Deepest`, a containing descendant-or-self none of whose children contains the target |
| ParseTree.TreeLabels | relation_feature_extractor.py:213-218 | definition: the node's label, then the labels of each internal child in order; `LabelsCountNodes` and `LabelsAreNodeLabels` characterise it |
| ParseTree.LabelsCountNodes | relation_feature_extractor.py:213-218 | the label list has one entry per internal node and starts with the root's label |
| ParseTree.LabelsAreNodeLabels | relation_feature_extractor.py:213-218 | a label is listed exactly when some internal node of the tree carries it; leaves contribute nothing |
| ParseTree.LabelsFromAreNodeLabels | relation_feature_extractor.py:215-217 | the labels gathered from the children at and after position `i` are exactly the labels of the internal nodes below those children |
| Instances.RelInstance.constructor | relation_extractor.py:18-21 | a new instance has `tokens == entity1 + "_" + entity2`, the given relation type and no features |
| FeatureExtraction.InBetween | relation_feature_extractor.py:131-137 | the span is empty when `end_token1 >= begin_token2`, and otherwise holds the sentence tokens from `end_token1` up to, but not including, `begin_token2` |
| FeatureExtraction.InBetweenWordsAndPos | relation_feature_extractor.py:128-138 | the loop returns word and tag lists of equal length `max(0, begin_token2 - end_token1)`, holding the words and tags of the in-between tokens in order |
| FeatureExtraction.BigramsOf | relation_feature_extractor.py:145-147 | there is one bigram fewer than words, and bigram `k` is `w[k] + "_" + w[k+1]` |
| FeatureExtraction.GetBigrams | relation_feature_extractor.py:141-148 | the loop yields the bigrams of first token, in-between words and second token: exactly one more than the number of in-between words |
| FeatureExtraction.BigramEnds | relation_feature_extractor.py:144-147 | the first bigram starts with `token1 + "_"` and the last ends with `"_" + token2` |
| FeatureExtraction.InBetweenFeatures | relation_feature_extractor.py:76-86 | `2n` features for `n` in-between tokens: all `inbetweenpos__` tags first, then all `inbetweenwords__` words, each in sentence order |
| FeatureExtraction.EntityTypeFeatures | relation_feature_extractor.py:70-74 | definition: the one feature `<type1>_<type2>` |
| FeatureExtraction.TokenFeatures | relation_feature_extractor.py:101-107 | definition: `token__<token1>` then `token__<token2>` |
| FeatureExtraction.BothTokenFeatures | relation_feature_extractor.py:110-115 | definition: the one feature `both_token__<token1>_<token2>` |
| FeatureExtraction.BigramFeatures | relation_feature_extractor.py:118-125 | one `bigram__` feature per adjacent word pair of first token, in-between words and second token |
| FeatureExtraction.AncestorFeatures | relation_feature_extractor.py:150-165 | `comm._ancestor__` plus the category of the deepest containing node, or `no_comm_subtree` exactly when the sentence tree does not contain the `_`-split entities around the in-between words |
| FeatureExtraction.MinimalTreeNodeFeatures | relation_feature_extractor.py:168-186 | `subtree_node_labels__` plus the `_`-joined pre-order labels of that node, or `no_comm_subtree` exactly when the tree does not contain the target |
| FeatureExtraction.DependencyFeatures | relation_feature_extractor.py:60-67 | two features, `d_relation__<label>` and then `in_d_relation__False` if and only if the label is empty (`__True` otherwise) |
| FeatureExtraction.TargetPos | relation_feature_extractor.py:232-235 | definition: the POS tags at `begin_token1` and `begin_token2` of the mention's sentence |
| FeatureExtraction.TargetPosFeatures | relation_feature_extractor.py:220-229 | definition: `targetpos_<tag1>` then `targetpos_<tag2>`; `AllFeaturesEndWithTargetAndBorder` places them in the feature list |
| FeatureExtraction.BorderWords | relation_feature_extractor.py:250-268 | the before-word is `<start>` when `begin_token1 == 0` and otherwise the previous word; the after-word is `<end>` when `end_token2` equals the sentence length and otherwise the word at `end_token2`; the two border bigrams join these with the entities' first words |
| FeatureExtraction.BorderWordFeatures | relation_feature_extractor.py:237-245 | exactly a `BEFOREWORD__` and an `AFTERWORD__` feature carrying those words, with the sentinels at the sentence edges |
| FeatureExtraction.ComputeStep | relation_feature_extractor.py:60-245 | the body of each `featurize_*` loop computes, through the list-building routines it calls, exactly what that step appends for the mention |
| FeatureExtraction.AllFeaturesEndWithTargetAndBorder | relation_feature_extractor.py:25-36 | every mention's feature list ends with the two `targetpos_` tags of its entities' first tokens, directly followed by its `BEFOREWORD__` and `AFTERWORD__` features, since those are the last two steps `featurize` runs |
| FeatureExtraction.CreateRelInstList | relation_feature_extractor.py:48-58 | one list per document and one new instance per mention, in order; each instance has the pair identifier, the tag when reading a gold file and `""` otherwise, and no features; no instance appears twice |
| FeatureExtraction.RelationPairsLastWins | relation_feature_extractor.py:38-46 | a pair key is in the dictionary exactly when some mention with a tag other than `no_rel` has it, and it maps to the tag of the last such mention |
| FeatureExtraction.FeatureExtractor.RelationsListFromGoldFiles | relation_feature_extractor.py:38-46 | the nested loop builds the pair-to-tag dictionary over all mentions in document order |
| FeatureExtraction.FeatureExtractor.constructor | relation_feature_extractor.py:19-23 | the extractor holds the documents, the gold flag and the instance list as `create_rel_inst_list` builds it |
| FeatureExtraction.FeatureExtractor.RunStepOnDoc | relation_feature_extractor.py:71-74 | one document's pass of a step appends the step's output to each of that document's instances and touches nothing else |
| FeatureExtraction.FeatureExtractor.RunStep | relation_feature_extractor.py:60-67 | a `featurize_*` method appends to each instance exactly the features of its own (document, mention) pair; the old features remain a prefix |
| FeatureExtraction.FeatureExtractor.Featurize | relation_feature_extractor.py:25-36 | running the ten steps in their fixed order leaves every instance with its old features followed by all step outputs in that order |
| CorpusReader.NewTwoTokensAsWritten | corpus_reader.py:33-51 | as written: a record exists exactly when the line has 13 or more entries; the columns are the first 13 entries of the line as given; a gold line's tag is entry 0 and the stored line drops it; otherwise no tag and the line is kept |
| CorpusReader.AsWrittenGoldDocNumIsTag | corpus_reader.py:37-39 | as written, the document number of every gold record is its own relation tag |
| CorpusReader.AsWrittenMisreadsGoldLine | corpus_reader.py:36-51 | on a concrete gold line, every column is read one position too early, so the columns disagree with the stored line |
| CorpusReader.NewTwoTokens | corpus_reader.py:33-51 | corrected: the columns are the first 13 entries of the stored line; a gold line needs 14 entries and a plain line 13; all fields are kept as strings |
| CorpusReader.GoldLineIsTaggedPlainLine | corpus_reader.py:36-38 | reading `[tag] + fields` as gold gives the record of `fields` read as plain, with the tag added |
| CorpusReader.ColumnsRoundTrip | corpus_reader.py:39-51 | listing the columns of a record read from a 13-entry line gives the line back |
| CorpusReader.CorrectedAgreesOffGold | corpus_reader.py:34-51 | the corrected reading and the reading as written agree on non-gold lines |
| RelationExtractor.Flatten | relation_extractor.py:36 | definition: the per-document lists concatenated in order; `FlattenSameLength` and `FlattenAligned` characterise it |
| RelationExtractor.FlattenSameLength | relation_extractor.py:36 | flattening two lists of the same shape gives lists of the same length |
| RelationExtractor.FlattenAligned | relation_extractor.py:36 | every flat position comes from the same (inner list, position) pair in two lists of the same shape |
| RelationExtractor.Featurize | relation_extractor.py:31-37 | returns one instance per mention, document after document; the instance at each flat position has that mention's identifier, label and complete feature list; the incoming list is ignored |
| RelationExtractor.OutputLine | relation_extractor.py:74-75 | an output line exists exactly when the labelled line has at least two fields |
| RelationExtractor.TrainingLine | relation_extractor.py:44-46 | definition: identifier, unstripped label and space-joined features, space-separated and newline-terminated; `TrainingLineFields` reads it back |
| RelationExtractor.TestLine | relation_extractor.py:59-60 | definition: identifier and space-joined features; `TestLineFields` reads it back |
| RelationExtractor.GoldLine | relation_extractor.py:69-70 | definition: the label cut at its first `.`, newline-terminated; `GoldLineFields` reads it back and `Text.BeforeFirst` fixes the cut |
| RelationExtractor.TrainingLineFields | relation_extractor.py:44-46 | a training line splits back into identifier, unstripped label and features |
| RelationExtractor.TestLineFields | relation_extractor.py:59-60 | a test line splits back into identifier and features, with no label |
| RelationExtractor.GoldLineFields | relation_extractor.py:69-70 | a gold line splits back into its one label |
| RelationExtractor.OutputLineFields | relation_extractor.py:74-75 | an output line splits back into the second field of its labelled line |
| RelationExtractor.GoldFileTags | relation_extractor.py:67-70 | the scorer's tag list of a written gold file is the stripped labels of the test instances, in order |
| RelationExtractor.OutputFileTags | relation_extractor.py:72-75 | the scorer's tag list of a written output file is the second fields of the labelled lines, in order |
| RelationExtractor.TrainingLines | relation_extractor.py:43-46 | one training line per instance, in order |
| RelationExtractor.TestLines | relation_extractor.py:58-60 | one test line per instance, in order |
| RelationExtractor.GoldLines | relation_extractor.py:68-70 | one gold line per test instance, in order |
| RelationExtractor.OutputLines | relation_extractor.py:74-75 | one output line per labelled line, in order, or failure exactly when some labelled line has fewer than two fields |
| RelationExtractor.RelExtractor.constructor | relation_extractor.py:27-29 | both instance lists start empty |
| RelationExtractor.RelExtractor.Train | relation_extractor.py:39-46 | the training instances become the featurized gold corpus; the test instances are unchanged; the file holds one training line per instance |
| RelationExtractor.RelExtractor.Test | relation_extractor.py:52-60 | the test instances become the featurized corpus, read as gold; the training instances are unchanged; the file holds one test line per instance |
| RelationExtractor.RelExtractor.Evaluate | relation_extractor.py:64-75 | the gold file holds one stripped label per test instance; the output file holds one line per labelled line, and it fails exactly when some labelled line has fewer than two fields |
| Evaluator.TagList | relation-evaluator.py:22-33 | the first field of each non-blank line, in order; each tag is a non-empty word and there are no more tags than lines |
| Evaluator.TagListOfWordLines | relation-evaluator.py:22-26 | a file of one-word lines reads back as exactly those words |
| Evaluator.BuildTagList | relation-evaluator.py:22-33 | the reading loop produces the tag list of the file's lines |
| Evaluator.Bump | relation-evaluator.py:49 | `d[k] = d.get(k, 0) + 1` adds `k` to the keys, raises its count by one, and leaves every other count unchanged |
| Evaluator.CountTags | relation-evaluator.py:46-55 | the loop's counters are the number of gold and of system tags other than `no_rel` (system tags counted up to the gold length), the number of correct positions, and the per-type tables of each |
| Evaluator.CountErrors | relation-evaluator.py:77-82 | the loop builds the confusion table of mismatched positions |
| Evaluator.TypeTotalsSum | relation-evaluator.py:46-52 | each per-type total table sums to its overall total |
| Evaluator.TypeTotalsCount | relation-evaluator.py:46-52 | a type is a key of a per-type table exactly when it is not `no_rel` and occurs in the tags, and its count is its number of occurrences |
| Evaluator.CorrectAtMostTotals | relation-evaluator.py:46-55 | `correct <= gold_total` and `correct <= test_total` |
| Evaluator.CorrectTypesSum | relation-evaluator.py:53-55 | the per-type correct counts sum to `correct` |
| Evaluator.CorrectTypesBounded | relation-evaluator.py:89-95 | every key of `correct_type` is a key of both total tables, with a count of at least 1 and at most either total, so the lookups succeed and both per-type denominators are positive |
| Evaluator.ErrorCountsSum | relation-evaluator.py:77-82 | the confusion counts sum to the number of positions where the gold and system labels differ |
| Evaluator.ErrorCountsKeys | relation-evaluator.py:77-82 | each confusion key is `GOLD_<g>\tTEST_<t>` for a gold label and a different system label at the same position |
| Scenarios.WholeSentenceSpannedByRoot | relation_feature_extractor.py:189-201 | in `(S (NP a b) (VP c))` the search for `a b c` ends at the root `S` |
| Scenarios.AbsentWordHasNoSubtree | relation_feature_extractor.py:194-200 | the search for a word absent from the tree returns the non-tree default |
| Scenarios.JohnWorksAtAcme | relation_feature_extractor.py:128-138 | for "John works at Acme" with the pair (John, Acme): the in-between words are `works at`, their tags `VBZ IN`, and both border words are the sentence-edge sentinels |
| Scenarios.RelEmploysCut | relation_extractor.py:69 | the label `rel.employs` cut at its first `.` is `rel` |
| Scenarios.JohnGoldLabel | relation_extractor.py:67-70 | John's mention, tagged `rel.employs`, is written to the gold file as the line `rel`, which the scorer reads back as the single label `rel` |

## Left out

- File reading and writing: `get_file_lines`, the `open`/`write` blocks of `train`, `test` and `evaluate`, and the confusion and per-type score files. A written file is modelled as the sequence of its lines, and a read file as a given sequence of lines.
- The external classifier calls in `train`, `test` and `evaluate`, and the evaluator script invocation. The labelled test file is a parameter of `Evaluate`.
- Precision, recall and F1, overall and per type: floating-point arithmetic. Only the integer counts, and the positivity of the per-type denominators, are modelled.
- `CorpusReader.read_corpus`: it is unfinished. It splits each line, builds no documents and returns nothing. So the documents are a parameter of the `FeatureExtractor` constructor, and loading parses, POS tags and dependency labels from side files is not part of this model.
- `RelInstance.__str__`: it refers to names that are not defined.
- The `__main__` drivers, their printing, and the command-line argument check of the evaluator.
- The nltk parse-tree library: it is replaced by the `Tree` datatype. The source's `isinstance(x, nltk.tree.Tree)` test becomes "is a `Node`" or "is `Some`". `nltk` is not imported in the files shown, so as written that test would fail at run time; the model gives the evidently intended test.
- The second, identical definition of `featurize_get_in_between_words` (relation_feature_extractor.py:88-98): it replaces the first one, and both do the same thing, so it is modelled once.
- Python negative indexing: a negative sentence offset or token index would silently index from the end of the list. The extractor's preconditions require non-negative indices, so those inputs are not modelled.
- Whitespace: `Text.Fields` and the blank-line test treat space, tab, newline, carriage return, vertical tab and form feed as whitespace. Python also counts further Unicode separators.
- FeatureExtraction.FeatureExtractor.Featurize: it is written as a loop over the ten steps in their fixed order. Each step's per-instance effect is the same as the corresponding `featurize_*` method's.
- RelationExtractor.RelExtractor.Evaluate: the gold file is still written when the labelled file later fails. The model returns the gold lines together with `None` for the output.
- Evaluator.CountTags: its `requires |gold| <= |test|` excludes a system tag file shorter than the gold tag file. On such input the script fails with an index error at relation-evaluator.py:50; the model promises nothing for it. `Evaluator.CountErrors` and the reference counts `Correct`, `CorrectTypes`, `Mismatches` and `ErrorCounts` carry the same precondition, for the same index error at relation-evaluator.py:79.
- The `Document` class of corpus_reader.py:25-28 stores only a title and the gold flag, and nothing reads it, since `read_corpus` builds no documents. The extractor's document is the `FeatureExtraction.Doc` record, which holds the POS-tagged sentences, parses and mentions the extractor reads.
- The ghost `Slot` map in the extractor records each instance's position. It is what rules out aliasing between instances. The source never shares an instance between two positions, because `create_rel_inst_list` builds a new one for each.

## Findings

| source | as written | input that shows it | evidently intended | confidence | as-written member | corrected member |
|---|---|---|---|---|---|---|
| corpus_reader.py:36-51 | for a gold line, the tag is removed into the stored `split_line`, but every column is then read from the original list, so each field is one column early | the gold line `rel.employs doc1 0 0 1 PER e1 John 0 2 3 ORG e2 Acme` gives `doc_num == "rel.employs"` and `token1 == "e1"` | read the columns from the list after the tag is removed, so that a gold line is its tag followed by an ordinary line | not executed | CorpusReader.AsWrittenMisreadsGoldLine | CorpusReader.GoldLineIsTaggedPlainLine |
