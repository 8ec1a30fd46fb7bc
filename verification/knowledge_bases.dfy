/**
 * The statistic records the report is made of. A knowledge base and a feature
 * model are built by external libraries (the PC/Renault benchmark classes, the
 * feature-model parsers, the FM-to-CSP encoding); the model only sees the
 * numbers they expose, which it takes verbatim.
 */
module KnowledgeBases {

  /** What a knowledge base exposes: name, provenance and four counts. */
  datatype KB = KB(
    name: string,
    source: string,
    numVariables: nat,
    numConstraints: nat,
    numChocoVars: nat,
    numChocoConstraints: nat)

  /** The relationship and cross-tree constraint kinds a feature model counts. */
  datatype RelationshipType = MANDATORY | OPTIONAL | ALTERNATIVE | OR | REQUIRES | EXCLUDES

  /** What a parsed feature model exposes: three totals and one count per relationship kind. */
  datatype FeatureModel = FeatureModel(
    numFeatures: nat,
    numRelationships: nat,
    numConstraints: nat,
    numMandatory: nat,
    numOptional: nat,
    numAlternative: nat,
    numOr: nat,
    numRequires: nat,
    numExcludes: nat)
  {
    /** The number of relationships of one kind. */
    function NumOfRelationships(t: RelationshipType): nat {
      match t
      case MANDATORY => numMandatory
      case OPTIONAL => numOptional
      case ALTERNATIVE => numAlternative
      case OR => numOr
      case REQUIRES => numRequires
      case EXCLUDES => numExcludes
    }
  }
}
