/** The feature extractor: for every annotated entity pair of every document, an ordered
    list of feature strings, built by a fixed sequence of steps that each append to the
    pair's `RelInstance`. */
module FeatureExtraction {
  import opened Wrappers
  import opened Text
  import opened ParseTree
  import opened Instances

  /** One token of a POS-tagged sentence: `sent[k][0]` is the word, `sent[k][1]` the tag. */
  datatype TaggedWord = TaggedWord(word: string, pos: string)

  type Sentence = seq<TaggedWord>

  /** An annotated entity pair with the fields the extractor reads. Token indices are
      positions in the sentence `sentOffset1`; an end index is exclusive.
      `inDependencyRelation` is the dependency label joining the two tokens, or "". */
  datatype Mention = Mention(
    sentOffset1: int, beginToken1: int, endToken1: int, beginToken2: int, endToken2: int,
    token1: string, token2: string, entityType1: string, entityType2: string,
    tag: string, inDependencyRelation: string)

  /** A loaded document: its POS-tagged sentences, one parse tree per sentence, and its
      entity pairs in file order. */
  datatype Doc = Doc(posTaggedSents: seq<Sentence>, parses: seq<Tree>, twoTokens: seq<Mention>)

  const NoCommSubtree := "no_comm_subtree"

  // ---------------------------------------------------------------------------
  // What each step needs of a mention so that none of its list lookups fails

  predicate SentenceDefined(doc: Doc, tt: Mention)
  {
    0 <= tt.sentOffset1 < |doc.posTaggedSents|
  }

  function SentenceOf(doc: Doc, tt: Mention): Sentence
    requires SentenceDefined(doc, tt)
  {
    doc.posTaggedSents[tt.sentOffset1]
  }

  /** `range(end_token1, begin_token2)` indexes the sentence only when it is not empty. */
  predicate SpanDefined(doc: Doc, tt: Mention)
  {
    SentenceDefined(doc, tt) && 0 <= tt.endToken1 &&
    (tt.endToken1 < tt.beginToken2 ==> tt.beginToken2 <= |SentenceOf(doc, tt)|)
  }

  /** The tree searches also need the sentence's parse, which is a tree node. */
  predicate ParseDefined(doc: Doc, tt: Mention)
  {
    SpanDefined(doc, tt) && tt.sentOffset1 < |doc.parses| && doc.parses[tt.sentOffset1].Node?
  }

  function ParseOf(doc: Doc, tt: Mention): Tree
    requires ParseDefined(doc, tt)
  {
    doc.parses[tt.sentOffset1]
  }

  /** `sent[begin_token1]` and `sent[begin_token2]` exist. */
  predicate TargetsDefined(doc: Doc, tt: Mention)
  {
    SentenceDefined(doc, tt) &&
    0 <= tt.beginToken1 < |SentenceOf(doc, tt)| && 0 <= tt.beginToken2 < |SentenceOf(doc, tt)|
  }

  /** Border words also read `sent[end_token2]` unless it is one past the end. */
  predicate BorderDefined(doc: Doc, tt: Mention)
  {
    TargetsDefined(doc, tt) && 0 <= tt.endToken2 <= |SentenceOf(doc, tt)|
  }

  /** Every step can run on this mention. */
  predicate MentionDefined(doc: Doc, tt: Mention)
  {
    ParseDefined(doc, tt) && BorderDefined(doc, tt)
  }

  // ---------------------------------------------------------------------------
  // get_in_between_words_and_pos

  function Words(ts: Sentence): (ws: seq<string>)
    ensures |ws| == |ts| && forall k :: 0 <= k < |ts| ==> ws[k] == ts[k].word
  {
    seq(|ts|, k requires 0 <= k < |ts| => ts[k].word)
  }

  function Tags(ts: Sentence): (ps: seq<string>)
    ensures |ps| == |ts| && forall k :: 0 <= k < |ts| ==> ps[k] == ts[k].pos
  {
    seq(|ts|, k requires 0 <= k < |ts| => ts[k].pos)
  }

  /** The tokens strictly between the two entities, `sent[start:end]`; empty when
      `start >= end`. */
  function InBetween(sent: Sentence, start: int, end: int): (span: Sentence)
    requires 0 <= start && (start < end ==> end <= |sent|)
    ensures |span| == if start < end then end - start else 0
    ensures forall k :: 0 <= k < |span| ==> span[k] == sent[start + k]
  {
    if start < end then sent[start..end] else []
  }

  function InBetweenWords(doc: Doc, tt: Mention): seq<string>
    requires SpanDefined(doc, tt)
  {
    Words(InBetween(SentenceOf(doc, tt), tt.endToken1, tt.beginToken2))
  }

  function InBetweenPos(doc: Doc, tt: Mention): seq<string>
    requires SpanDefined(doc, tt)
  {
    Tags(InBetween(SentenceOf(doc, tt), tt.endToken1, tt.beginToken2))
  }

  /** `get_in_between_words_and_pos`: the words and the tags of the tokens from
      `end_token1` up to (not including) `begin_token2`, in sentence order. */
  method InBetweenWordsAndPos(doc: Doc, tt: Mention) returns (words: seq<string>, pos: seq<string>)
    requires SpanDefined(doc, tt)
    ensures |words| == |pos| == if tt.endToken1 < tt.beginToken2 then tt.beginToken2 - tt.endToken1 else 0
    ensures forall k :: 0 <= k < |words| ==>
              words[k] == SentenceOf(doc, tt)[tt.endToken1 + k].word &&
              pos[k] == SentenceOf(doc, tt)[tt.endToken1 + k].pos
    ensures words == InBetweenWords(doc, tt) && pos == InBetweenPos(doc, tt)
  {
    var sent := doc.posTaggedSents[tt.sentOffset1];
    var start, end := tt.endToken1, tt.beginToken2;
    words, pos := [], [];
    assert start < end ==> end <= |sent|;
    var k := start;
    while k < end
      invariant start <= k && (start < end ==> k <= end) && (end <= start ==> k == start)
      invariant |words| == |pos| == k - start
      invariant forall j :: 0 <= j < k - start ==> words[j] == sent[start + j].word && pos[j] == sent[start + j].pos
    {
      words := words + [sent[k].word];
      pos := pos + [sent[k].pos];
      k := k + 1;
    }
  }

  // ---------------------------------------------------------------------------
  // get_bigrams

  /** Adjacent pairs of a word list, each joined by `_`. */
  function BigramsOf(allWords: seq<string>): (bigrams: seq<string>)
    ensures |bigrams| == if |allWords| == 0 then 0 else |allWords| - 1
    ensures forall k :: 0 <= k < |bigrams| ==> bigrams[k] == allWords[k] + "_" + allWords[k + 1]
  {
    if |allWords| == 0 then []
    else seq(|allWords| - 1, k requires 0 <= k < |allWords| - 1 => allWords[k] + "_" + allWords[k + 1])
  }

  /** The first entity, the in-between words, the second entity. */
  function AllWords(doc: Doc, tt: Mention): seq<string>
    requires SpanDefined(doc, tt)
  {
    [tt.token1] + InBetweenWords(doc, tt) + [tt.token2]
  }

  /** `get_bigrams`: one bigram per adjacent pair of the entity-and-in-between word list,
      so one more than there are in-between words; the first begins with the first entity
      and the last ends with the second. */
  method GetBigrams(doc: Doc, tt: Mention) returns (bigrams: seq<string>)
    requires SpanDefined(doc, tt)
    ensures bigrams == BigramsOf(AllWords(doc, tt))
    ensures |bigrams| == |InBetweenWords(doc, tt)| + 1
  {
    var inBetween, _ := InBetweenWordsAndPos(doc, tt);
    var allWords := [tt.token1] + inBetween + [tt.token2];
    assert allWords == AllWords(doc, tt);
    var n := |allWords|;
    bigrams := [];
    for index := 0 to n
      invariant |bigrams| == if index == n then n - 1 else index
      invariant forall k :: 0 <= k < |bigrams| ==> bigrams[k] == allWords[k] + "_" + allWords[k + 1]
    {
      if index != n - 1 {
        bigrams := bigrams + [allWords[index] + "_" + allWords[index + 1]];
      }
    }
    assert bigrams == BigramsOf(allWords);
  }

  /** The first bigram begins with the first entity and `_`; the last ends with `_` and the
      second entity. */
  lemma BigramEnds(doc: Doc, tt: Mention)
    requires SpanDefined(doc, tt)
    ensures var bigrams := BigramsOf(AllWords(doc, tt));
            |bigrams| >= 1 &&
            bigrams[0][..|tt.token1| + 1] == tt.token1 + "_" &&
            var last := bigrams[|bigrams| - 1];
            |last| >= |tt.token2| + 1 && last[|last| - |tt.token2| - 1..] == "_" + tt.token2
  {
    var ws := AllWords(doc, tt);
    var bigrams := BigramsOf(ws);
    assert bigrams[0] == tt.token1 + "_" + ws[1];
    var last := bigrams[|bigrams| - 1];
    assert last == ws[|ws| - 2] + ("_" + tt.token2);
  }

  // ---------------------------------------------------------------------------
  // The features of one step for one mention

  /** Each element of `xs` with `prefix` in front of it. */
  function Prefixed(prefix: string, xs: seq<string>): (r: seq<string>)
    ensures |r| == |xs| && forall k :: 0 <= k < |xs| ==> r[k] == prefix + xs[k]
  {
    seq(|xs|, k requires 0 <= k < |xs| => prefix + xs[k])
  }

  /** `featurize_get_in_between_words`: first one feature per in-between tag, then one per
      in-between word. */
  function InBetweenFeatures(doc: Doc, tt: Mention): (r: seq<string>)
    requires SpanDefined(doc, tt)
    ensures var n := if tt.endToken1 < tt.beginToken2 then tt.beginToken2 - tt.endToken1 else 0;
            |r| == 2 * n &&
            (forall k :: 0 <= k < n ==> r[k] == "inbetweenpos__" + SentenceOf(doc, tt)[tt.endToken1 + k].pos) &&
            (forall k :: n <= k < 2 * n ==> r[k] == "inbetweenwords__" + SentenceOf(doc, tt)[tt.endToken1 + k - n].word)
  {
    Prefixed("inbetweenpos__", InBetweenPos(doc, tt)) + Prefixed("inbetweenwords__", InBetweenWords(doc, tt))
  }

  /** `featurize_get_entity_types`. */
  function EntityTypeFeatures(tt: Mention): seq<string>
  {
    [tt.entityType1 + "_" + tt.entityType2]
  }

  /** `featurize_get_tokens_v1`. */
  function TokenFeatures(tt: Mention): seq<string>
  {
    ["token__" + tt.token1, "token__" + tt.token2]
  }

  /** `featurize_get_tokens_v2`. */
  function BothTokenFeatures(tt: Mention): seq<string>
  {
    ["both_token__" + tt.token1 + "_" + tt.token2]
  }

  /** `featurize_get_bigrams`: one `bigram__` feature per adjacent pair of the first
      entity, the in-between words and the second entity. */
  function BigramFeatures(doc: Doc, tt: Mention): (r: seq<string>)
    requires SpanDefined(doc, tt)
    ensures var ws := AllWords(doc, tt);
            |r| == |InBetweenWords(doc, tt)| + 1 &&
            forall k :: 0 <= k < |r| ==> r[k] == "bigram__" + ws[k] + "_" + ws[k + 1]
  {
    Prefixed("bigram__", BigramsOf(AllWords(doc, tt)))
  }

  /** The sequence searched for in the parse: the entity surface texts split at `_`
      around the in-between words. */
  function AncestorTarget(doc: Doc, tt: Mention): seq<string>
    requires SpanDefined(doc, tt)
  {
    Split(tt.token1, '_') + InBetweenWords(doc, tt) + Split(tt.token2, '_')
  }

  /** The subtree found for the mention, or `None` for the non-tree default. */
  function CommonSubtree(doc: Doc, tt: Mention): Option<Tree>
    requires ParseDefined(doc, tt)
  {
    SubtreeBetweenWords(ParseOf(doc, tt), AncestorTarget(doc, tt))
  }

  /** `featurize_get_nearest_common_ancestor`: the category of the node the search finds,
      or `no_comm_subtree` exactly when the sentence's tree does not contain the target. */
  function AncestorFeatures(doc: Doc, tt: Mention): (r: seq<string>)
    requires ParseDefined(doc, tt)
    ensures var tree, target := ParseOf(doc, tt), AncestorTarget(doc, tt);
            r == if WordsInTree(tree, target) then ["comm._ancestor__" + Deepest(tree, target).category]
                 else ["comm._ancestor__" + NoCommSubtree]
  {
    match CommonSubtree(doc, tt)
    case Some(s) => ["comm._ancestor__" + s.category]
    case None => ["comm._ancestor__" + NoCommSubtree]
  }

  /** `featurize_add_minimal_tree_nodes`: the pre-order labels of the found node joined by
      `_`, or `no_comm_subtree` exactly when the tree does not contain the target. */
  function MinimalTreeNodeFeatures(doc: Doc, tt: Mention): (r: seq<string>)
    requires ParseDefined(doc, tt)
    ensures var tree, target := ParseOf(doc, tt), AncestorTarget(doc, tt);
            r == if WordsInTree(tree, target)
                 then ["subtree_node_labels__" + Join("_", TreeLabels(Deepest(tree, target)))]
                 else ["subtree_node_labels__" + NoCommSubtree]
  {
    match CommonSubtree(doc, tt)
    case Some(s) => ["subtree_node_labels__" + Join("_", TreeLabels(s))]
    case None => ["subtree_node_labels__" + NoCommSubtree]
  }

  /** `featurize_in_dependency_relation`: the dependency label, then the flag that is
      `False` exactly when the label is empty. */
  function DependencyFeatures(tt: Mention): (r: seq<string>)
    ensures |r| == 2 && r[0] == "d_relation__" + tt.inDependencyRelation
    ensures r[1] == "in_d_relation__False" <==> tt.inDependencyRelation == ""
    ensures r[1] == "in_d_relation__True" <==> tt.inDependencyRelation != ""
  {
    ["d_relation__" + tt.inDependencyRelation] +
    if tt.inDependencyRelation == "" then ["in_d_relation__False"] else ["in_d_relation__True"]
  }

  /** `get_target_pos`: the tags of the first token of each entity. */
  function TargetPos(doc: Doc, tt: Mention): (string, string)
    requires TargetsDefined(doc, tt)
  {
    var sent := SentenceOf(doc, tt);
    (sent[tt.beginToken1].pos, sent[tt.beginToken2].pos)
  }

  /** `featurize_target_pos`. */
  function TargetPosFeatures(doc: Doc, tt: Mention): seq<string>
    requires TargetsDefined(doc, tt)
  {
    var (pos1, pos2) := TargetPos(doc, tt);
    ["targetpos_" + pos1, "targetpos_" + pos2]
  }

  /** `get_border_words`: the word before the first entity (`<start>` when it begins the
      sentence), the word after the second (`<end>` when it ends the sentence), and the two
      border bigrams, which the extractor computes but does not emit. */
  function BorderWords(doc: Doc, tt: Mention): (r: (string, string, string, string))
    requires BorderDefined(doc, tt)
    ensures var sent := SentenceOf(doc, tt);
            (tt.beginToken1 == 0 ==> r.0 == "<start>") &&
            (tt.beginToken1 > 0 ==> r.0 == sent[tt.beginToken1 - 1].word) &&
            (tt.endToken2 == |sent| ==> r.1 == "<end>") &&
            (tt.endToken2 < |sent| ==> r.1 == sent[tt.endToken2].word)
    ensures var sent := SentenceOf(doc, tt);
            r.2 == r.0 + "_" + sent[tt.beginToken1].word && r.3 == sent[tt.beginToken2].word + "_" + r.1
  {
    var sent := SentenceOf(doc, tt);
    var beforeInd := tt.beginToken1 - 1;
    var afterInd := tt.endToken2;
    var beforeWord := if beforeInd == -1 then "<start>" else sent[beforeInd].word;
    var afterWord := if afterInd == |sent| then "<end>" else sent[afterInd].word;
    var word1 := sent[tt.beginToken1].word;
    var word2 := sent[tt.beginToken2].word;
    JoinPair("_", beforeWord, word1);
    JoinPair("_", word2, afterWord);
    (beforeWord, afterWord, Join("_", [beforeWord, word1]), Join("_", [word2, afterWord]))
  }

  /** `featurize_border_words`. */
  function BorderWordFeatures(doc: Doc, tt: Mention): (r: seq<string>)
    requires BorderDefined(doc, tt)
    ensures |r| == 2
    ensures tt.beginToken1 == 0 ==> r[0] == "BEFOREWORD__<start>"
    ensures tt.endToken2 == |SentenceOf(doc, tt)| ==> r[1] == "AFTERWORD__<end>"
    ensures tt.beginToken1 > 0 ==> r[0] == "BEFOREWORD__" + SentenceOf(doc, tt)[tt.beginToken1 - 1].word
    ensures tt.endToken2 < |SentenceOf(doc, tt)| ==> r[1] == "AFTERWORD__" + SentenceOf(doc, tt)[tt.endToken2].word
  {
    var (beforeWord, afterWord, _, _) := BorderWords(doc, tt);
    ["BEFOREWORD__" + beforeWord, "AFTERWORD__" + afterWord]
  }

  // ---------------------------------------------------------------------------
  // The steps

  datatype Step =
    | InBetweenWordsStep
    | NearestCommonAncestorStep
    | TokensV1Step
    | TokensV2Step
    | EntityTypesStep
    | MinimalTreeNodesStep
    | BigramsStep
    | InDependencyRelationStep
    | TargetPosStep
    | BorderWordsStep

  predicate StepDefined(step: Step, doc: Doc, tt: Mention)
  {
    match step
    case InBetweenWordsStep => SpanDefined(doc, tt)
    case BigramsStep => SpanDefined(doc, tt)
    case NearestCommonAncestorStep => ParseDefined(doc, tt)
    case MinimalTreeNodesStep => ParseDefined(doc, tt)
    case TargetPosStep => TargetsDefined(doc, tt)
    case BorderWordsStep => BorderDefined(doc, tt)
    case _ => true
  }

  /** What one step appends for one mention. */
  function StepFeatures(step: Step, doc: Doc, tt: Mention): seq<string>
    requires StepDefined(step, doc, tt)
  {
    match step
    case InBetweenWordsStep => InBetweenFeatures(doc, tt)
    case NearestCommonAncestorStep => AncestorFeatures(doc, tt)
    case TokensV1Step => TokenFeatures(tt)
    case TokensV2Step => BothTokenFeatures(tt)
    case EntityTypesStep => EntityTypeFeatures(tt)
    case MinimalTreeNodesStep => MinimalTreeNodeFeatures(doc, tt)
    case BigramsStep => BigramFeatures(doc, tt)
    case InDependencyRelationStep => DependencyFeatures(tt)
    case TargetPosStep => TargetPosFeatures(doc, tt)
    case BorderWordsStep => BorderWordFeatures(doc, tt)
  }

  /** The steps `featurize` calls, in its order. */
  const FeatureOrder: seq<Step> := [
    InBetweenWordsStep, NearestCommonAncestorStep, TokensV1Step, TokensV2Step,
    EntityTypesStep, MinimalTreeNodesStep, BigramsStep, InDependencyRelationStep,
    TargetPosStep, BorderWordsStep]

  /** A mention on which every step can run can run any one of them. */
  lemma MentionDefinedForStep(step: Step, doc: Doc, tt: Mention)
    requires MentionDefined(doc, tt)
    ensures StepDefined(step, doc, tt)
  {
  }

  /** The outputs of `steps` for one mention, concatenated in order. */
  function StepsFeatures(steps: seq<Step>, doc: Doc, tt: Mention): seq<string>
    requires MentionDefined(doc, tt)
  {
    if |steps| == 0 then []
    else
      MentionDefinedForStep(steps[|steps| - 1], doc, tt);
      StepsFeatures(steps[..|steps| - 1], doc, tt) + StepFeatures(steps[|steps| - 1], doc, tt)
  }

  /** The complete feature list of a mention: every step's output in `featurize` order. */
  function AllFeatures(doc: Doc, tt: Mention): seq<string>
    requires MentionDefined(doc, tt)
  {
    StepsFeatures(FeatureOrder, doc, tt)
  }

  /** The last two steps of `featurize` put the two `targetpos_` tags directly before the
      two border words, at the end of every mention's feature list. */
  lemma AllFeaturesEndWithTargetAndBorder(doc: Doc, tt: Mention)
    requires MentionDefined(doc, tt)
    ensures var all, sent := AllFeatures(doc, tt), SentenceOf(doc, tt);
            var b := BorderWords(doc, tt);
            |all| >= 4 &&
            all[|all| - 4..] == ["targetpos_" + sent[tt.beginToken1].pos, "targetpos_" + sent[tt.beginToken2].pos,
                                 "BEFOREWORD__" + b.0, "AFTERWORD__" + b.1]
  {
    var steps := FeatureOrder;
    assert steps[..9] == steps[..|steps| - 1] && steps[|steps| - 1] == BorderWordsStep;
    assert steps[..8] == steps[..9][..8] && steps[..9][8] == TargetPosStep;
    var head := StepsFeatures(steps[..8], doc, tt);
    assert StepsFeatures(steps[..9], doc, tt) == head + TargetPosFeatures(doc, tt);
    assert AllFeatures(doc, tt) == head + TargetPosFeatures(doc, tt) + BorderWordFeatures(doc, tt);
  }

  /** The body of a `featurize_*` loop for one mention: the features that step appends,
      computed with the list-building routines the Python code calls. */
  method ComputeStep(step: Step, doc: Doc, tt: Mention) returns (feats: seq<string>)
    requires StepDefined(step, doc, tt)
    ensures feats == StepFeatures(step, doc, tt)
  {
    match step
    case InBetweenWordsStep =>
      var words, pos := InBetweenWordsAndPos(doc, tt);
      feats := Prefixed("inbetweenpos__", pos) + Prefixed("inbetweenwords__", words);
    case NearestCommonAncestorStep =>
      var words, _ := InBetweenWordsAndPos(doc, tt);
      var subtree := SubtreeBetweenWords(doc.parses[tt.sentOffset1], Split(tt.token1, '_') + words + Split(tt.token2, '_'));
      var category := if subtree.Some? then subtree.value.category else NoCommSubtree;
      feats := ["comm._ancestor__" + category];
    case TokensV1Step =>
      feats := ["token__" + tt.token1, "token__" + tt.token2];
    case TokensV2Step =>
      feats := ["both_token__" + tt.token1 + "_" + tt.token2];
    case EntityTypesStep =>
      feats := [tt.entityType1 + "_" + tt.entityType2];
    case MinimalTreeNodesStep =>
      var words, _ := InBetweenWordsAndPos(doc, tt);
      var subtree := SubtreeBetweenWords(doc.parses[tt.sentOffset1], Split(tt.token1, '_') + words + Split(tt.token2, '_'));
      var labels := if subtree.Some? then Join("_", TreeLabels(subtree.value)) else NoCommSubtree;
      feats := ["subtree_node_labels__" + labels];
    case BigramsStep =>
      var bigrams := GetBigrams(doc, tt);
      feats := Prefixed("bigram__", bigrams);
    case InDependencyRelationStep =>
      feats := ["d_relation__" + tt.inDependencyRelation];
      if tt.inDependencyRelation == "" {
        feats := feats + ["in_d_relation__False"];
      } else {
        feats := feats + ["in_d_relation__True"];
      }
    case TargetPosStep =>
      var (pos1, pos2) := TargetPos(doc, tt);
      feats := ["targetpos_" + pos1, "targetpos_" + pos2];
    case BorderWordsStep =>
      var (beforeWord, afterWord, _, _) := BorderWords(doc, tt);
      feats := ["BEFOREWORD__" + beforeWord, "AFTERWORD__" + afterWord];
  }

  // ---------------------------------------------------------------------------
  // create_rel_inst_list

  /** The instance a mention starts with: its pair identifier, its tag when reading a gold
      file and "" otherwise, and no features yet. */
  predicate StartsFor(inst: RelInstance, tt: Mention, readingGoldFile: bool)
    reads inst
  {
    inst.tokens == tt.token1 + "_" + tt.token2 &&
    inst.relType == (if readingGoldFile then tt.tag else "") &&
    inst.features == []
  }

  /** `create_rel_inst_list`: one list per document and one new instance per mention, in
      the same order. `slot` records the (document, mention) position of every instance,
      so that no instance sits at two positions. */
  method CreateRelInstList(docs: seq<Doc>, readingGoldFile: bool)
    returns (relInstList: seq<seq<RelInstance>>, ghost repr: set<RelInstance>, ghost slot: map<RelInstance, (int, int)>)
    ensures |relInstList| == |docs|
    ensures forall d :: 0 <= d < |docs| ==> |relInstList[d]| == |docs[d].twoTokens|
    ensures forall d, m :: 0 <= d < |docs| && 0 <= m < |docs[d].twoTokens| ==>
              StartsFor(relInstList[d][m], docs[d].twoTokens[m], readingGoldFile) &&
              relInstList[d][m] in repr && relInstList[d][m] in slot && slot[relInstList[d][m]] == (d, m)
    ensures fresh(repr)
  {
    relInstList, repr, slot := [], {}, map[];
    for d := 0 to |docs|
      invariant |relInstList| == d
      invariant forall d' :: 0 <= d' < d ==> |relInstList[d']| == |docs[d'].twoTokens|
      invariant forall d', m :: 0 <= d' < d && 0 <= m < |docs[d'].twoTokens| ==>
                  StartsFor(relInstList[d'][m], docs[d'].twoTokens[m], readingGoldFile) &&
                  relInstList[d'][m] in repr && relInstList[d'][m] in slot && slot[relInstList[d'][m]] == (d', m)
      invariant fresh(repr)
    {
      var docList := [];
      for m := 0 to |docs[d].twoTokens|
        invariant |docList| == m
        invariant forall m' :: 0 <= m' < m ==>
                    StartsFor(docList[m'], docs[d].twoTokens[m'], readingGoldFile) &&
                    docList[m'] in repr && docList[m'] in slot && slot[docList[m']] == (d, m')
        invariant forall d', m' :: 0 <= d' < d && 0 <= m' < |docs[d'].twoTokens| ==>
                    StartsFor(relInstList[d'][m'], docs[d'].twoTokens[m'], readingGoldFile) &&
                    relInstList[d'][m'] in repr && relInstList[d'][m'] in slot && slot[relInstList[d'][m']] == (d', m')
        invariant fresh(repr)
      {
        var tt := docs[d].twoTokens[m];
        var inst;
        if readingGoldFile {
          inst := new RelInstance(tt.token1, tt.token2, tt.tag);
        } else {
          inst := new RelInstance(tt.token1, tt.token2, "");
        }
        docList := docList + [inst];
        repr := repr + {inst};
        slot := slot[inst := (d, m)];
      }
      relInstList := relInstList + [docList];
    }
  }

  // ---------------------------------------------------------------------------
  // get_relations_list_from_gold_files

  /** All mentions, document by document, in order. */
  function MentionsOf(docs: seq<Doc>): (ms: seq<Mention>)
  {
    if |docs| == 0 then [] else MentionsOf(docs[..|docs| - 1]) + docs[|docs| - 1].twoTokens
  }

  /** The dictionary key of a mention, `token1_token2`. */
  function PairKey(tt: Mention): string
  {
    tt.token1 + "_" + tt.token2
  }

  /** The dictionary after visiting `ms` in order: every mention whose tag is not
      `no_rel` stores its tag under its key, overwriting an earlier entry. */
  function RelationPairs(ms: seq<Mention>): map<string, string>
  {
    if |ms| == 0 then map[]
    else
      var pairs := RelationPairs(ms[..|ms| - 1]);
      var tt := ms[|ms| - 1];
      if tt.tag != "no_rel" then pairs[PairKey(tt) := tt.tag] else pairs
  }

  lemma MentionsOfSnoc(docs: seq<Doc>, d: int)
    requires 0 <= d < |docs|
    ensures MentionsOf(docs[..d + 1]) == MentionsOf(docs[..d]) + docs[d].twoTokens[..|docs[d].twoTokens|]
  {
    assert docs[..d + 1][..d] == docs[..d];
  }

  lemma RelationPairsSnoc(before: seq<Mention>, ttl: seq<Mention>, m: int)
    requires 0 <= m < |ttl|
    ensures RelationPairs(before + ttl[..m + 1]) ==
              if ttl[m].tag != "no_rel" then RelationPairs(before + ttl[..m])[PairKey(ttl[m]) := ttl[m].tag]
              else RelationPairs(before + ttl[..m])
  {
    assert (before + ttl[..m + 1])[..|before| + m] == before + ttl[..m];
  }

  /** Mention `i` of `ms` is a relation under key `k`. */
  predicate Relates(ms: seq<Mention>, i: int, k: string)
  {
    0 <= i < |ms| && ms[i].tag != "no_rel" && PairKey(ms[i]) == k
  }

  /** A key is in the dictionary exactly when some related mention has it, and its value
      is the tag of the last such mention. */
  lemma {:induction false} RelationPairsLastWins(ms: seq<Mention>, k: string)
    ensures k in RelationPairs(ms) <==> exists i :: Relates(ms, i, k)
    ensures k in RelationPairs(ms) ==>
              exists i :: Relates(ms, i, k) && RelationPairs(ms)[k] == ms[i].tag &&
                          forall j :: i < j < |ms| ==> !Relates(ms, j, k)
  {
    if |ms| > 0 {
      var n := |ms| - 1;
      var prefix := ms[..n];
      var pairs, earlier := RelationPairs(ms), RelationPairs(prefix);
      RelationPairsLastWins(prefix, k);
      forall i | 0 <= i < n ensures Relates(ms, i, k) == Relates(prefix, i, k) {
        assert ms[i] == prefix[i];
      }
      if Relates(ms, n, k) {
        assert pairs[k] == ms[n].tag;
      } else {
        assert k in pairs <==> k in earlier;
        if k in earlier {
          assert pairs[k] == earlier[k];
          var i :| Relates(prefix, i, k) && earlier[k] == prefix[i].tag &&
                   forall j :: i < j < |prefix| ==> !Relates(prefix, j, k);
          assert Relates(ms, i, k);
        }
      }
    }
  }

  // ---------------------------------------------------------------------------
  // The extractor

  class FeatureExtractor {
    const readingGoldFile: bool
    const docs: seq<Doc>
    /** `rel_inst_list[doc_i][tt_i]` is the instance of mention `tt_i` of document `doc_i`. */
    const relInstList: seq<seq<RelInstance>>
    /** All instances of `relInstList`. */
    ghost const Repr: set<RelInstance>
    /** The position of each instance in `relInstList`. */
    ghost const Slot: map<RelInstance, (int, int)>

    /** The list has the documents' shape and holds a distinct instance at every position. */
    ghost predicate Valid()
    {
      |relInstList| == |docs| &&
      (forall d :: 0 <= d < |docs| ==> |relInstList[d]| == |docs[d].twoTokens|) &&
      (forall d, m :: 0 <= d < |docs| && 0 <= m < |docs[d].twoTokens| ==>
         relInstList[d][m] in Repr && relInstList[d][m] in Slot && Slot[relInstList[d][m]] == (d, m))
    }

    /** `FeatureExtractor.__init__` given the loaded documents: the instance list as built
        by `create_rel_inst_list`. */
    constructor (docs: seq<Doc>, readingGoldFile: bool)
      ensures this.docs == docs && this.readingGoldFile == readingGoldFile
      ensures Valid() && fresh(Repr)
      ensures forall d, m :: 0 <= d < |docs| && 0 <= m < |docs[d].twoTokens| ==>
                StartsFor(relInstList[d][m], docs[d].twoTokens[m], readingGoldFile)
    {
      this.docs := docs;
      this.readingGoldFile := readingGoldFile;
      var list, repr, slot := CreateRelInstList(docs, readingGoldFile);
      relInstList := list;
      Repr := repr;
      Slot := slot;
    }

    /** `get_relations_list_from_gold_files`: the pair-to-tag dictionary over all mentions
        in document order. */
    method RelationsListFromGoldFiles() returns (relationPairs: map<string, string>)
      ensures relationPairs == RelationPairs(MentionsOf(docs))
    {
      relationPairs := map[];
      for d := 0 to |docs|
        invariant relationPairs == RelationPairs(MentionsOf(docs[..d]))
      {
        var ttl := docs[d].twoTokens;
        ghost var before := MentionsOf(docs[..d]);
        assert before + ttl[..0] == before;
        for m := 0 to |ttl|
          invariant relationPairs == RelationPairs(before + ttl[..m])
        {
          var tt := ttl[m];
          RelationPairsSnoc(before, ttl, m);
          if tt.tag != "no_rel" {
            relationPairs := relationPairs[tt.token1 + "_" + tt.token2 := tt.tag];
          }
        }
        MentionsOfSnoc(docs, d);
      }
      assert docs[..|docs|] == docs;
    }

    /** The instances of document `d`. */
    ghost function DocInstances(d: int): set<RelInstance>
      requires Valid() && 0 <= d < |docs|
    {
      set m | 0 <= m < |relInstList[d]| :: relInstList[d][m]
    }

    /** One document's pass of a `featurize_*` loop: the step's features are appended to
        the instance of each of its mentions. */
    method RunStepOnDoc(step: Step, d: int)
      requires Valid() && 0 <= d < |docs|
      requires forall m :: 0 <= m < |docs[d].twoTokens| ==> StepDefined(step, docs[d], docs[d].twoTokens[m])
      modifies DocInstances(d)
      ensures forall m :: 0 <= m < |docs[d].twoTokens| ==>
                relInstList[d][m].features ==
                old(relInstList[d][m].features) + StepFeatures(step, docs[d], docs[d].twoTokens[m])
    {
      var doc, insts := docs[d], relInstList[d];
      for m := 0 to |doc.twoTokens|
        invariant forall m' :: 0 <= m' < m ==>
                    insts[m'].features == old(insts[m'].features) + StepFeatures(step, doc, doc.twoTokens[m'])
        invariant forall m' :: m <= m' < |doc.twoTokens| ==> insts[m'].features == old(insts[m'].features)
      {
        var feats := ComputeStep(step, doc, doc.twoTokens[m]);
        var inst := insts[m];
        forall m' | 0 <= m' < |doc.twoTokens| && m' != m ensures insts[m'] != inst {
          assert Slot[insts[m']] == (d, m');
        }
        inst.features := inst.features + feats;
      }
    }

    /** One `featurize_*` method: for every document and every mention, append what the
        step computes to that mention's instance. Only those appends happen: every other
        field stays, earlier features stay a prefix. */
    method RunStep(step: Step)
      requires Valid()
      requires forall d, m :: 0 <= d < |docs| && 0 <= m < |docs[d].twoTokens| ==>
                 StepDefined(step, docs[d], docs[d].twoTokens[m])
      modifies Repr
      ensures forall d, m :: 0 <= d < |docs| && 0 <= m < |docs[d].twoTokens| ==>
                relInstList[d][m].features ==
                old(relInstList[d][m].features) + StepFeatures(step, docs[d], docs[d].twoTokens[m])
    {
      for d := 0 to |docs|
        invariant forall d', m :: 0 <= d' < d && 0 <= m < |docs[d'].twoTokens| ==>
                    relInstList[d'][m].features ==
                    old(relInstList[d'][m].features) + StepFeatures(step, docs[d'], docs[d'].twoTokens[m])
        invariant forall d', m :: d <= d' < |docs| && 0 <= m < |docs[d'].twoTokens| ==>
                    relInstList[d'][m].features == old(relInstList[d'][m].features)
      {
        forall d', m | 0 <= d' < |docs| && d' != d && 0 <= m < |docs[d'].twoTokens|
          ensures relInstList[d'][m] !in DocInstances(d)
        {
          forall k | 0 <= k < |relInstList[d]| ensures relInstList[d][k] != relInstList[d'][m] {
            assert Slot[relInstList[d][k]] == (d, k) && Slot[relInstList[d'][m]] == (d', m);
          }
        }
        RunStepOnDoc(step, d);
      }
    }

    /** `featurize`: the ten steps in their fixed order, so that each instance ends with the
        concatenation of the steps' outputs after what it held before. */
    method Featurize()
      requires Valid()
      requires forall d, m :: 0 <= d < |docs| && 0 <= m < |docs[d].twoTokens| ==>
                 MentionDefined(docs[d], docs[d].twoTokens[m])
      modifies Repr
      ensures forall d, m :: 0 <= d < |docs| && 0 <= m < |docs[d].twoTokens| ==>
                relInstList[d][m].features ==
                old(relInstList[d][m].features) + AllFeatures(docs[d], docs[d].twoTokens[m])
    {
      for i := 0 to |FeatureOrder|
        invariant forall d, m :: 0 <= d < |docs| && 0 <= m < |docs[d].twoTokens| ==>
                    relInstList[d][m].features ==
                    old(relInstList[d][m].features) + StepsFeatures(FeatureOrder[..i], docs[d], docs[d].twoTokens[m])
      {
        var step := FeatureOrder[i];
        forall d, m | 0 <= d < |docs| && 0 <= m < |docs[d].twoTokens|
          ensures StepDefined(step, docs[d], docs[d].twoTokens[m])
        {
          MentionDefinedForStep(step, docs[d], docs[d].twoTokens[m]);
        }
        RunStep(step);
        assert FeatureOrder[..i + 1][..i] == FeatureOrder[..i];
      }
      assert FeatureOrder[..|FeatureOrder|] == FeatureOrder;
    }
  }
}
