/** `RelInstance`: the unit exchanged with the classifier. Its `features` list is
    appended to in place by the feature extractor. */
module Instances {
  import opened Text

  class RelInstance {
    /** The entity pair identifier `entity1_entity2`. */
    const tokens: string
    /** The relation label, or "" when unlabelled. */
    const relType: string
    var features: seq<string>

    constructor (entity1: string, entity2: string, relType: string)
      ensures tokens == entity1 + "_" + entity2
      ensures this.relType == relType
      ensures features == []
    {
      JoinPair("_", entity1, entity2);
      tokens := Join("_", [entity1, entity2]);
      this.relType := relType;
      features := [];
    }
  }
}
