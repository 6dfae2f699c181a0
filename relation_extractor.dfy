/**
 * The relation extractor's driver: featurizing a corpus into one flat list of
 * instances, and the text lines written for training, testing and evaluation.
 * The files themselves and the external classifier are outside the model: a
 * written file is the sequence of its lines, and the classifier's labelled file
 * is given as a sequence of lines.
 */
module RelationExtractor {
  import opened Wrappers
  import opened Text
  import opened Instances
  import opened FeatureExtraction
  import Evaluator

  // ---------------------------------------------------------------------------
  // Flattening

  /** The concatenation of the inner lists, in order. */
  function Flatten<T>(xss: seq<seq<T>>): seq<T>
  {
    if |xss| == 0 then [] else Flatten(xss[..|xss| - 1]) + xss[|xss| - 1]
  }

  /** Two lists of lists with the same number of inner lists, of pairwise equal lengths. */
  predicate SameShape<A, B>(xss: seq<seq<A>>, yss: seq<seq<B>>)
  {
    |xss| == |yss| && forall d :: 0 <= d < |xss| ==> |xss[d]| == |yss[d]|
  }

  lemma {:induction false} FlattenSameLength<A, B>(xss: seq<seq<A>>, yss: seq<seq<B>>)
    requires SameShape(xss, yss)
    ensures |Flatten(xss)| == |Flatten(yss)|
  {
    if |xss| > 0 {
      FlattenSameLength(xss[..|xss| - 1], yss[..|yss| - 1]);
    }
  }

  /** Flattening two lists of the same shape puts the elements of the same inner
      position at the same flat position. */
  lemma {:induction false} FlattenAligned<A, B>(xss: seq<seq<A>>, yss: seq<seq<B>>, k: int) returns (d: nat, m: nat)
    requires SameShape(xss, yss)
    requires 0 <= k < |Flatten(xss)|
    ensures d < |xss| && m < |xss[d]|
    ensures |Flatten(yss)| == |Flatten(xss)|
    ensures Flatten(xss)[k] == xss[d][m] && Flatten(yss)[k] == yss[d][m]
  {
    var n := |xss| - 1;
    var xp, yp := xss[..n], yss[..n];
    assert SameShape(xp, yp) by {
      forall i | 0 <= i < n ensures |xp[i]| == |yp[i]| {
        assert xp[i] == xss[i] && yp[i] == yss[i];
      }
    }
    FlattenSameLength(xp, yp);
    FlattenSameLength(xss, yss);
    if k < |Flatten(xp)| {
      d, m := FlattenAligned(xp, yp, k);
      assert xp[d] == xss[d] && yp[d] == yss[d];
    } else {
      d, m := n, k - |Flatten(xp)|;
    }
  }

  // ---------------------------------------------------------------------------
  // featurize

  /** The (document, mention) pair behind every instance position. */
  function Pairs(docs: seq<Doc>): (pairs: seq<seq<(Doc, Mention)>>)
    ensures |pairs| == |docs|
    ensures forall d :: 0 <= d < |docs| ==> |pairs[d]| == |docs[d].twoTokens|
    ensures forall d, m :: 0 <= d < |docs| && 0 <= m < |docs[d].twoTokens| ==>
              pairs[d][m] == (docs[d], docs[d].twoTokens[m])
  {
    seq(|docs|, d requires 0 <= d < |docs| =>
      seq(|docs[d].twoTokens|, m requires 0 <= m < |docs[d].twoTokens| => (docs[d], docs[d].twoTokens[m])))
  }

  /** The instance a featurized mention ends as. */
  predicate Featurized(inst: RelInstance, pair: (Doc, Mention), readingGoldFile: bool)
    reads inst
  {
    var (doc, tt) := pair;
    MentionDefined(doc, tt) &&
    inst.tokens == tt.token1 + "_" + tt.token2 &&
    inst.relType == (if readingGoldFile then tt.tag else "") &&
    inst.features == AllFeatures(doc, tt)
  }

  /** `insts` are the featurized mentions of `docs`, document after document. */
  predicate FeaturizedList(insts: seq<RelInstance>, docs: seq<Doc>, readingGoldFile: bool)
    reads insts
  {
    |insts| == |Flatten(Pairs(docs))| &&
    forall k :: 0 <= k < |insts| ==> Featurized(insts[k], Flatten(Pairs(docs))[k], readingGoldFile)
  }

  predicate MentionsDefined(docs: seq<Doc>)
  {
    forall d, m :: 0 <= d < |docs| && 0 <= m < |docs[d].twoTokens| ==>
      MentionDefined(docs[d], docs[d].twoTokens[m])
  }

  /** `RelExtractor.featurize`: builds and featurizes an extractor over `docs` and returns
      its instances, document after document; the incoming list is not used. */
  method Featurize(docs: seq<Doc>, relInstList: seq<RelInstance>, readingGoldFile: bool)
    returns (insts: seq<RelInstance>)
    requires MentionsDefined(docs)
    ensures FeaturizedList(insts, docs, readingGoldFile)
  {
    var fe := new FeatureExtractor(docs, readingGoldFile);
    fe.Featurize();
    insts := Flatten(fe.relInstList);
    var pairs := Pairs(docs);
    FlattenSameLength(fe.relInstList, pairs);
    forall k | 0 <= k < |insts| ensures Featurized(insts[k], Flatten(pairs)[k], readingGoldFile) {
      var d, m := FlattenAligned(fe.relInstList, pairs, k);
    }
  }

  // ---------------------------------------------------------------------------
  // Line formats

  /** A line of the training file: pair identifier, relation label, then the features. */
  function TrainingLine(tokens: string, relType: string, features: seq<string>): string
  {
    tokens + " " + relType + " " + Join(" ", features) + "\n"
  }

  /** A line of the test file: pair identifier, then the features, no label. */
  function TestLine(tokens: string, features: seq<string>): string
  {
    tokens + " " + Join(" ", features) + "\n"
  }

  /** A line of the gold file: the relation label up to its first dot. */
  function GoldLine(relType: string): string
  {
    BeforeFirst(relType, '.') + "\n"
  }

  /** A line of the output file: the second field of a labelled line, which must have one. */
  function OutputLine(labeledLine: string): (r: Option<string>)
    ensures r.Some? <==> |Fields(labeledLine)| >= 2
  {
    var fields := Fields(labeledLine);
    if |fields| < 2 then None else Some(fields[1] + "\n")
  }

  /** Splitting a test line on whitespace gives back its identifier and its features. */
  lemma TestLineFields(tokens: string, features: seq<string>)
    requires IsWord(tokens)
    requires forall k :: 0 <= k < |features| ==> IsWord(features[k])
    ensures Fields(TestLine(tokens, features)) == [tokens] + features
  {
    var tail := Join(" ", features) + "\n";
    assert TestLine(tokens, features) == tokens + [' '] + tail;
    FieldsOfWordThen(tokens, ' ', tail);
    FieldsOfJoinedLine(features);
  }

  /** A training line is the identifier and a space in front of a test line of the label
      and the features. */
  lemma TrainingLineIsLabelledTestLine(tokens: string, relType: string, features: seq<string>)
    ensures TrainingLine(tokens, relType, features) == tokens + [' '] + TestLine(relType, features)
  {
  }

  /** Splitting a training line on whitespace gives back its identifier, its label and
      its features, provided none of them is empty or contains whitespace. */
  lemma TrainingLineFields(tokens: string, relType: string, features: seq<string>)
    requires IsWord(tokens) && IsWord(relType)
    requires forall k :: 0 <= k < |features| ==> IsWord(features[k])
    ensures Fields(TrainingLine(tokens, relType, features)) == [tokens, relType] + features
  {
    var rest := TestLine(relType, features);
    TrainingLineIsLabelledTestLine(tokens, relType, features);
    FieldsOfWordThen(tokens, ' ', rest);
    TestLineFields(relType, features);
    assert [tokens] + ([relType] + features) == [tokens, relType] + features;
  }

  /** A gold line whose label is a word reads back as that one field. */
  lemma GoldLineFields(relType: string)
    requires IsWord(BeforeFirst(relType, '.'))
    ensures Fields(GoldLine(relType)) == [BeforeFirst(relType, '.')]
  {
    FieldsOfJoinedLine([BeforeFirst(relType, '.')]);
  }

  /** An output line reads back as the one field it copied. */
  lemma OutputLineFields(labeledLine: string)
    requires |Fields(labeledLine)| >= 2
    ensures Fields(OutputLine(labeledLine).value) == [Fields(labeledLine)[1]]
  {
    FieldsOfJoinedLine([Fields(labeledLine)[1]]);
  }

  /** The scorer reads a gold file back as the stripped labels, one per instance, when
      every stripped label is a non-empty word. */
  lemma GoldFileTags(relTypes: seq<string>, lines: seq<string>)
    requires |lines| == |relTypes|
    requires forall k :: 0 <= k < |relTypes| ==> lines[k] == GoldLine(relTypes[k]) && IsWord(BeforeFirst(relTypes[k], '.'))
    ensures Evaluator.TagList(lines) == seq(|relTypes|, k requires 0 <= k < |relTypes| => BeforeFirst(relTypes[k], '.'))
  {
    var labels := seq(|relTypes|, k requires 0 <= k < |relTypes| => BeforeFirst(relTypes[k], '.'));
    Evaluator.TagListOfWordLines(labels, lines);
  }

  /** The scorer reads an output file back as the second fields of the labelled lines. */
  lemma OutputFileTags(labeledTest: seq<string>, lines: seq<string>)
    requires |lines| == |labeledTest|
    requires forall k :: 0 <= k < |labeledTest| ==>
               |Fields(labeledTest[k])| >= 2 && lines[k] == OutputLine(labeledTest[k]).value
    ensures Evaluator.TagList(lines) == seq(|labeledTest|, k requires 0 <= k < |labeledTest| => Fields(labeledTest[k])[1])
  {
    var labels := seq(|labeledTest|, k requires 0 <= k < |labeledTest| => Fields(labeledTest[k])[1]);
    Evaluator.TagListOfWordLines(labels, lines);
  }

  // ---------------------------------------------------------------------------
  // Writing the files

  /** The lines of the training file, one per instance in order. */
  method TrainingLines(insts: seq<RelInstance>) returns (lines: seq<string>)
    ensures |lines| == |insts|
    ensures forall k :: 0 <= k < |insts| ==>
              lines[k] == TrainingLine(insts[k].tokens, insts[k].relType, insts[k].features)
  {
    lines := [];
    for k := 0 to |insts|
      invariant |lines| == k
      invariant forall j :: 0 <= j < k ==>
                  lines[j] == TrainingLine(insts[j].tokens, insts[j].relType, insts[j].features)
    {
      var featureStr := Join(" ", insts[k].features);
      lines := lines + [insts[k].tokens + " " + insts[k].relType + " " + featureStr + "\n"];
    }
  }

  /** The lines of the test file, one per instance in order. */
  method TestLines(insts: seq<RelInstance>) returns (lines: seq<string>)
    ensures |lines| == |insts|
    ensures forall k :: 0 <= k < |insts| ==> lines[k] == TestLine(insts[k].tokens, insts[k].features)
  {
    lines := [];
    for k := 0 to |insts|
      invariant |lines| == k
      invariant forall j :: 0 <= j < k ==> lines[j] == TestLine(insts[j].tokens, insts[j].features)
    {
      var featureStr := Join(" ", insts[k].features);
      lines := lines + [insts[k].tokens + " " + featureStr + "\n"];
    }
  }

  /** The lines of the gold file, one per instance in order. */
  method GoldLines(insts: seq<RelInstance>) returns (lines: seq<string>)
    ensures |lines| == |insts|
    ensures forall k :: 0 <= k < |insts| ==> lines[k] == GoldLine(insts[k].relType)
  {
    lines := [];
    for k := 0 to |insts|
      invariant |lines| == k
      invariant forall j :: 0 <= j < k ==> lines[j] == GoldLine(insts[j].relType)
    {
      var relType := BeforeFirst(insts[k].relType, '.');
      lines := lines + [relType + "\n"];
    }
  }

  /** The lines of the output file, one per labelled line in order, or `None` when some
      labelled line has fewer than two fields. */
  method OutputLines(labeledTest: seq<string>) returns (lines: Option<seq<string>>)
    ensures lines.Some? <==> forall k :: 0 <= k < |labeledTest| ==> OutputLine(labeledTest[k]).Some?
    ensures lines.Some? ==>
              |lines.value| == |labeledTest| &&
              forall k :: 0 <= k < |labeledTest| ==> lines.value[k] == OutputLine(labeledTest[k]).value
  {
    var output := [];
    var k := 0;
    while k < |labeledTest|
      invariant 0 <= k <= |labeledTest|
      invariant |output| == k
      invariant forall j :: 0 <= j < k ==> OutputLine(labeledTest[j]).Some? && output[j] == OutputLine(labeledTest[j]).value
    {
      var fields := Fields(labeledTest[k]);
      if |fields| < 2 {
        return None;
      }
      output := output + [fields[1] + "\n"];
      k := k + 1;
    }
    lines := Some(output);
  }

  // ---------------------------------------------------------------------------
  // The extractor

  class RelExtractor {
    var trainInstances: seq<RelInstance>
    var testInstances: seq<RelInstance>

    constructor ()
      ensures trainInstances == [] && testInstances == []
    {
      trainInstances := [];
      testInstances := [];
    }

    /** `train` up to the classifier: featurizes the gold training corpus and returns the
        lines of the training file, one per instance. */
    method Train(docs: seq<Doc>) returns (featurizedTraining: seq<string>)
      requires MentionsDefined(docs)
      modifies this
      ensures FeaturizedList(trainInstances, docs, true)
      ensures testInstances == old(testInstances)
      ensures |featurizedTraining| == |trainInstances|
      ensures forall k :: 0 <= k < |trainInstances| ==>
                featurizedTraining[k] ==
                TrainingLine(trainInstances[k].tokens, trainInstances[k].relType, trainInstances[k].features)
    {
      trainInstances := Featurize(docs, trainInstances, true);
      featurizedTraining := TrainingLines(trainInstances);
    }

    /** `test` up to the classifier: featurizes the gold test corpus and returns the lines
        of the test file, one per instance. */
    method Test(docs: seq<Doc>) returns (featurizedTest: seq<string>)
      requires MentionsDefined(docs)
      modifies this
      ensures FeaturizedList(testInstances, docs, true)
      ensures trainInstances == old(trainInstances)
      ensures |featurizedTest| == |testInstances|
      ensures forall k :: 0 <= k < |testInstances| ==>
                featurizedTest[k] == TestLine(testInstances[k].tokens, testInstances[k].features)
    {
      testInstances := Featurize(docs, testInstances, true);
      featurizedTest := TestLines(testInstances);
    }

    /** `evaluate` up to the scorer: the gold file, one line per test instance, and the
        output file, one line per labelled line. */
    method Evaluate(labeledTest: seq<string>) returns (goldTest: seq<string>, outputTest: Option<seq<string>>)
      ensures |goldTest| == |testInstances|
      ensures forall k :: 0 <= k < |testInstances| ==> goldTest[k] == GoldLine(testInstances[k].relType)
      ensures outputTest.Some? <==> forall k :: 0 <= k < |labeledTest| ==> OutputLine(labeledTest[k]).Some?
      ensures outputTest.Some? ==>
                |outputTest.value| == |labeledTest| &&
                forall k :: 0 <= k < |labeledTest| ==> outputTest.value[k] == OutputLine(labeledTest[k]).value
    {
      goldTest := GoldLines(testInstances);
      outputTest := OutputLines(labeledTest);
    }
  }
}
