/** Worked instances of the extractor's behaviour on small concrete inputs. */
module Scenarios {
  import opened Wrappers
  import opened Text
  import opened ParseTree
  import opened FeatureExtraction
  import RelationExtractor

  /** The tree `(S (NP a b) (VP c))`. */
  function SmallTree(): Tree
  {
    Node("S", [Node("NP", [Leaf("a"), Leaf("b")]), Node("VP", [Leaf("c")])])
  }

  lemma SmallTreeLeaves()
    ensures Leaves(SmallTree()) == ["a", "b", "c"]
    ensures Join(" ", Leaves(SmallTree())) == "a b c"
  {
    var t := SmallTree();
    assert Leaves(t.children[0]) == ["a", "b"] by {
      assert LeavesFrom(t.children[0], 2) == [];
      assert LeavesFrom(t.children[0], 1) == ["b"];
    }
    assert Leaves(t.children[1]) == ["c"] by {
      assert LeavesFrom(t.children[1], 1) == [];
    }
    assert LeavesFrom(t, 2) == [];
    assert LeavesFrom(t, 1) == ["c"];
  }

  /** The whole sentence is spanned only by the root: the common ancestor is `S`. */
  lemma WholeSentenceSpannedByRoot()
    ensures SubtreeBetweenWords(SmallTree(), ["a", "b", "c"]) == Some(SmallTree())
  {
    var t := SmallTree();
    var target := ["a", "b", "c"];
    SmallTreeLeaves();
    assert Join(" ", target) == "a b c";
    assert OccursAt("a b c", "a b c", 0);
    assert Leaves(t.children[0]) == ["a", "b"] by {
      assert LeavesFrom(t.children[0], 2) == [];
      assert LeavesFrom(t.children[0], 1) == ["b"];
    }
    assert Leaves(t.children[1]) == ["c"] by {
      assert LeavesFrom(t.children[1], 1) == [];
    }
    assert Join(" ", ["a", "b"]) == "a b";
    assert !NodeContains(t.children[0], target);
    assert !NodeContains(t.children[1], target);
    assert LastContaining(t, target, 2) == -1;
  }

  /** A word absent from the tree has no containing subtree, so the ancestor feature is
      the `no_comm_subtree` default. */
  lemma AbsentWordHasNoSubtree()
    ensures SubtreeBetweenWords(SmallTree(), ["z"]) == None
  {
    SmallTreeLeaves();
    assert Join(" ", ["z"]) == "z";
    forall i | 0 <= i <= 4 ensures !OccursAt("z", "a b c", i) {
      assert "a b c"[i] != 'z';
    }
  }

  /** The sentence "John works at Acme" with the pair (John, Acme). */
  function JohnDoc(): Doc
  {
    Doc([[TaggedWord("John", "NNP"), TaggedWord("works", "VBZ"),
          TaggedWord("at", "IN"), TaggedWord("Acme", "NNP")]],
        [],
        [JohnMention()])
  }

  function JohnMention(): Mention
  {
    Mention(0, 0, 1, 3, 4, "John", "Acme", "PER", "ORG", "rel.employs", "")
  }

  /** The words between the two mentions, their tags, and the sentence-edge sentinels on
      both sides. */
  lemma JohnWorksAtAcme()
    ensures SpanDefined(JohnDoc(), JohnMention()) && BorderDefined(JohnDoc(), JohnMention())
    ensures InBetweenWords(JohnDoc(), JohnMention()) == ["works", "at"]
    ensures InBetweenPos(JohnDoc(), JohnMention()) == ["VBZ", "IN"]
    ensures BorderWords(JohnDoc(), JohnMention()).0 == "<start>"
    ensures BorderWords(JohnDoc(), JohnMention()).1 == "<end>"
  {
    var sent := SentenceOf(JohnDoc(), JohnMention());
    assert InBetween(sent, 1, 3) == sent[1..3];
  }

  /** The tag `rel.employs` cut at its first dot is `rel`. */
  lemma RelEmploysCut()
    ensures BeforeFirst("rel.employs", '.') == "rel"
  {
    var tag := "rel.employs";
    assert tag[3] == '.';
    var r := BeforeFirst(tag, '.');
    assert |r| == 3;
    assert r == tag[..3];
  }

  /** John's mention carries the tag `rel.employs`; the gold file records it cut at the
      dot, and the scorer reads that line back as the one label `rel`. */
  lemma JohnGoldLabel()
    ensures RelationExtractor.GoldLine(JohnMention().tag) == "rel\n"
    ensures Fields(RelationExtractor.GoldLine(JohnMention().tag)) == ["rel"]
  {
    RelEmploysCut();
    assert IsWord("rel");
    RelationExtractor.GoldLineFields(JohnMention().tag);
  }
}
