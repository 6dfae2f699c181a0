/**
 * The scorer: the gold and system tag lists read from two files of lines, the
 * counts of relations found, expected and correct, overall and per relation
 * type, and the table of confused label pairs. Precision, recall and F1 are
 * floating-point quotients of these counts and are not modelled; the lemmas here
 * show that the denominators the per-type quotients use are positive.
 */
module Evaluator {
  import opened Text

  /** The label of a pair that has no relation. */
  const NoRel := "no_rel"

  // ---------------------------------------------------------------------------
  // Tag lists

  /** The first field of every line that is not blank, in order. */
  function TagList(lines: seq<string>): (tags: seq<string>)
    ensures forall k :: 0 <= k < |tags| ==> IsWord(tags[k])
    ensures |tags| <= |lines|
  {
    if |lines| == 0 then []
    else
      var line := lines[|lines| - 1];
      FieldsEmptyIffBlank(line);
      TagList(lines[..|lines| - 1]) + (if IsBlank(line) then [] else [Fields(line)[0]])
  }

  /** Reading a file of lines that are each one word, say a gold file, gives back those words. */
  lemma {:induction false} TagListOfWordLines(words: seq<string>, lines: seq<string>)
    requires |lines| == |words|
    requires forall k :: 0 <= k < |words| ==> IsWord(words[k]) && lines[k] == words[k] + "\n"
    ensures TagList(lines) == words
  {
    if |lines| > 0 {
      var n := |lines| - 1;
      TagListOfWordLines(words[..n], lines[..n]);
      FieldsOfJoinedLine([words[n]]);
      FieldsEmptyIffBlank(lines[n]);
      assert words == words[..n] + [words[n]];
    }
  }

  /** The tag-list loop over the lines of one file. */
  method BuildTagList(lines: seq<string>) returns (tags: seq<string>)
    ensures tags == TagList(lines)
  {
    tags := [];
    for i := 0 to |lines|
      invariant tags == TagList(lines[..i])
    {
      var line := lines[i];
      if !IsBlank(line) {
        FieldsEmptyIffBlank(line);
        var parts := Fields(line);
        tags := tags + [parts[0]];
      }
      assert lines[..i + 1][..i] == lines[..i];
    }
    assert lines[..|lines|] == lines;
  }

  // ---------------------------------------------------------------------------
  // Counting

  /** `d[k] = d.get(k, 0) + 1`. */
  function Bump(d: map<string, nat>, k: string): (r: map<string, nat>)
    ensures r.Keys == d.Keys + {k}
    ensures r[k] == (if k in d then d[k] else 0) + 1
    ensures forall j :: j in d && j != k ==> r[j] == d[j]
  {
    d[k := (if k in d then d[k] else 0) + 1]
  }

  /** Number of tags other than `no_rel`. */
  function Positives(tags: seq<string>): nat
  {
    if |tags| == 0 then 0
    else Positives(tags[..|tags| - 1]) + (if tags[|tags| - 1] != NoRel then 1 else 0)
  }

  /** Number of occurrences of each tag other than `no_rel`. */
  function TypeTotals(tags: seq<string>): map<string, nat>
  {
    if |tags| == 0 then map[]
    else
      var totals := TypeTotals(tags[..|tags| - 1]);
      var tag := tags[|tags| - 1];
      if tag != NoRel then Bump(totals, tag) else totals
  }

  /** Number of positions of `gold` holding a relation that `test` repeats. */
  function Correct(gold: seq<string>, test: seq<string>): nat
    requires |gold| <= |test|
  {
    if |gold| == 0 then 0
    else
      var i := |gold| - 1;
      Correct(gold[..i], test) + (if gold[i] != NoRel && gold[i] == test[i] then 1 else 0)
  }

  /** Per relation type, the number of positions of `gold` holding it that `test` repeats. */
  function CorrectTypes(gold: seq<string>, test: seq<string>): map<string, nat>
    requires |gold| <= |test|
  {
    if |gold| == 0 then map[]
    else
      var i := |gold| - 1;
      var correct := CorrectTypes(gold[..i], test);
      if gold[i] != NoRel && gold[i] == test[i] then Bump(correct, gold[i]) else correct
  }

  /** The key of the confusion table for a gold label and a differing system label. */
  function ErrorName(goldType: string, testType: string): string
  {
    "GOLD_" + goldType + "\tTEST_" + testType
  }

  /** Number of positions of `gold` whose label `test` does not repeat. */
  function Mismatches(gold: seq<string>, test: seq<string>): nat
    requires |gold| <= |test|
  {
    if |gold| == 0 then 0
    else
      var i := |gold| - 1;
      Mismatches(gold[..i], test) + (if gold[i] != test[i] then 1 else 0)
  }

  /** The confusion table: per (gold, system) label pair that differ, how often it occurs. */
  function ErrorCounts(gold: seq<string>, test: seq<string>): map<string, nat>
    requires |gold| <= |test|
  {
    if |gold| == 0 then map[]
    else
      var i := |gold| - 1;
      var errors := ErrorCounts(gold[..i], test);
      if gold[i] != test[i] then Bump(errors, ErrorName(gold[i], test[i])) else errors
  }

  /** How the totals grow by one position. */
  lemma TotalsStep(tags: seq<string>, i: int)
    requires 0 <= i < |tags|
    ensures Positives(tags[..i + 1]) == Positives(tags[..i]) + (if tags[i] != NoRel then 1 else 0)
    ensures TypeTotals(tags[..i + 1]) == if tags[i] != NoRel then Bump(TypeTotals(tags[..i]), tags[i]) else TypeTotals(tags[..i])
  {
    assert tags[..i + 1][..i] == tags[..i];
  }

  /** How the correct counts grow by one gold position. */
  lemma CorrectStep(gold: seq<string>, test: seq<string>, i: int)
    requires 0 <= i < |gold| <= |test|
    ensures Correct(gold[..i + 1], test) == Correct(gold[..i], test) + (if gold[i] != NoRel && gold[i] == test[i] then 1 else 0)
    ensures CorrectTypes(gold[..i + 1], test) ==
              if gold[i] != NoRel && gold[i] == test[i] then Bump(CorrectTypes(gold[..i], test), gold[i])
              else CorrectTypes(gold[..i], test)
  {
    assert gold[..i + 1][..i] == gold[..i];
  }

  /** The counting loop over the gold positions: the three totals and the three per-type
      tables. Only the first `|gold|` system tags are read. */
  method CountTags(gold: seq<string>, test: seq<string>)
    returns (goldTotal: nat, testTotal: nat, correct: nat,
             goldTotalsType: map<string, nat>, testTotalsType: map<string, nat>, correctType: map<string, nat>)
    requires |gold| <= |test|
    ensures goldTotal == Positives(gold) && goldTotalsType == TypeTotals(gold)
    ensures testTotal == Positives(test[..|gold|]) && testTotalsType == TypeTotals(test[..|gold|])
    ensures correct == Correct(gold, test) && correctType == CorrectTypes(gold, test)
  {
    goldTotal, testTotal, correct := 0, 0, 0;
    goldTotalsType, testTotalsType, correctType := map[], map[], map[];
    for i := 0 to |gold|
      invariant goldTotal == Positives(gold[..i]) && goldTotalsType == TypeTotals(gold[..i])
      invariant testTotal == Positives(test[..i]) && testTotalsType == TypeTotals(test[..i])
      invariant correct == Correct(gold[..i], test) && correctType == CorrectTypes(gold[..i], test)
    {
      TotalsStep(gold, i);
      TotalsStep(test, i);
      CorrectStep(gold, test, i);
      if gold[i] != NoRel {
        goldTotal := goldTotal + 1;
        goldTotalsType := Bump(goldTotalsType, gold[i]);
      }
      if test[i] != NoRel {
        testTotal := testTotal + 1;
        testTotalsType := Bump(testTotalsType, test[i]);
      }
      if gold[i] != NoRel && gold[i] == test[i] {
        correctType := Bump(correctType, gold[i]);
        correct := correct + 1;
      }
    }
    assert gold[..|gold|] == gold;
  }

  /** The confusion-table loop over the gold positions. */
  method CountErrors(gold: seq<string>, test: seq<string>) returns (errorDict: map<string, nat>)
    requires |gold| <= |test|
    ensures errorDict == ErrorCounts(gold, test)
  {
    errorDict := map[];
    for ind := 0 to |gold|
      invariant errorDict == ErrorCounts(gold[..ind], test)
    {
      assert gold[..ind + 1][..ind] == gold[..ind];
      var goldType := gold[ind];
      var testType := test[ind];
      if goldType != testType {
        var errorName := "GOLD_" + goldType + "\tTEST_" + testType;
        errorDict := Bump(errorDict, errorName);
      }
    }
    assert gold[..|gold|] == gold;
  }

  // ---------------------------------------------------------------------------
  // Properties of the counts

  /** Some key of a non-empty table. */
  ghost function Pick(keys: set<string>): (k: string)
    requires keys != {}
    ensures k in keys
  {
    var k :| k in keys; k
  }

  /** The sum of the values of a table. */
  ghost function SumValues(d: map<string, nat>): nat
    decreases |d|
  {
    if |d| == 0 then 0
    else
      var k := Pick(d.Keys);
      d[k] + SumValues(d - {k})
  }

  /** Any key can be taken out first. */
  lemma {:induction false} SumValuesRemove(d: map<string, nat>, k: string)
    requires k in d
    ensures SumValues(d) == d[k] + SumValues(d - {k})
    decreases |d|
  {
    var j := Pick(d.Keys);
    assert SumValues(d) == d[j] + SumValues(d - {j});
    if j != k {
      SumValuesRemove(d - {j}, k);
      SumValuesRemove(d - {k}, j);
      assert d - {j} - {k} == d - {k} - {j};
    }
  }

  /** Counting one more occurrence adds one to the sum. */
  lemma SumValuesBump(d: map<string, nat>, k: string)
    ensures SumValues(Bump(d, k)) == SumValues(d) + 1
  {
    var r := Bump(d, k);
    SumValuesRemove(r, k);
    if k in d {
      SumValuesRemove(d, k);
      assert r - {k} == d - {k};
    } else {
      assert r - {k} == d;
    }
  }

  /** Each per-type table's values sum to the overall total. */
  lemma {:induction false} TypeTotalsSum(tags: seq<string>)
    ensures SumValues(TypeTotals(tags)) == Positives(tags)
  {
    if |tags| > 0 {
      var n := |tags| - 1;
      TypeTotalsSum(tags[..n]);
      if tags[n] != NoRel {
        SumValuesBump(TypeTotals(tags[..n]), tags[n]);
      }
    }
  }

  /** Each per-type table has a key for exactly the relation types present, holding the
      number of their occurrences. */
  lemma {:induction false} TypeTotalsCount(tags: seq<string>, t: string)
    ensures t in TypeTotals(tags) <==> t != NoRel && t in tags
    ensures t in TypeTotals(tags) ==> TypeTotals(tags)[t] == multiset(tags)[t]
  {
    if |tags| > 0 {
      var n := |tags| - 1;
      TypeTotalsCount(tags[..n], t);
      assert tags == tags[..n] + [tags[n]];
      assert multiset(tags)[t] == multiset(tags[..n])[t] + multiset([tags[n]])[t];
    }
  }

  /** No more relations are correct than the gold file has or the system proposed. */
  lemma {:induction false} CorrectAtMostTotals(gold: seq<string>, test: seq<string>)
    requires |gold| <= |test|
    ensures Correct(gold, test) <= Positives(gold)
    ensures Correct(gold, test) <= Positives(test[..|gold|])
  {
    if |gold| > 0 {
      var i := |gold| - 1;
      CorrectAtMostTotals(gold[..i], test);
      assert test[..|gold|][..i] == test[..i];
    }
  }

  /** The per-type correct counts sum to the overall correct count. */
  lemma {:induction false} CorrectTypesSum(gold: seq<string>, test: seq<string>)
    requires |gold| <= |test|
    ensures SumValues(CorrectTypes(gold, test)) == Correct(gold, test)
  {
    if |gold| > 0 {
      var i := |gold| - 1;
      CorrectTypesSum(gold[..i], test);
      if gold[i] != NoRel && gold[i] == test[i] {
        SumValuesBump(CorrectTypes(gold[..i], test), gold[i]);
      }
    }
  }

  /** Every correct relation type is counted in both per-type totals, at least once and no
      more often than either: the per-type lookups find their keys and divide by a positive
      count. */
  lemma {:induction false} CorrectTypesBounded(gold: seq<string>, test: seq<string>, t: string)
    requires |gold| <= |test|
    ensures t in CorrectTypes(gold, test) ==>
              t in TypeTotals(gold) && t in TypeTotals(test[..|gold|]) &&
              1 <= CorrectTypes(gold, test)[t] <= TypeTotals(gold)[t] &&
              CorrectTypes(gold, test)[t] <= TypeTotals(test[..|gold|])[t]
  {
    if |gold| > 0 {
      var i := |gold| - 1;
      CorrectTypesBounded(gold[..i], test, t);
      assert test[..|gold|][..i] == test[..i];
    }
  }

  /** The confusion table's counts sum to the number of mismatched positions. */
  lemma {:induction false} ErrorCountsSum(gold: seq<string>, test: seq<string>)
    requires |gold| <= |test|
    ensures SumValues(ErrorCounts(gold, test)) == Mismatches(gold, test)
  {
    if |gold| > 0 {
      var i := |gold| - 1;
      ErrorCountsSum(gold[..i], test);
      if gold[i] != test[i] {
        SumValuesBump(ErrorCounts(gold[..i], test), ErrorName(gold[i], test[i]));
      }
    }
  }

  /** Each key of the confusion table names a gold label and a different system label
      found at one position. */
  lemma {:induction false} ErrorCountsKeys(gold: seq<string>, test: seq<string>, k: string)
    requires |gold| <= |test|
    ensures k in ErrorCounts(gold, test) ==>
              exists i :: 0 <= i < |gold| && gold[i] != test[i] && k == ErrorName(gold[i], test[i])
  {
    if |gold| > 0 {
      var i := |gold| - 1;
      ErrorCountsKeys(gold[..i], test, k);
      if k in ErrorCounts(gold[..i], test) {
        var j :| 0 <= j < i && gold[..i][j] != test[j] && k == ErrorName(gold[..i][j], test[j]);
        assert gold[..i][j] == gold[j];
      }
    }
  }
}
