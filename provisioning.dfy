/** Index provisioning: list the existing index names and create the design-docs
    index (1536 dimensions, cosine metric, serverless on aws) only when absent. */
module Provisioning {

  datatype Metric = Cosine | Euclidean | DotProduct

  /** `ServerlessSpec(cloud=..., region=...)`. */
  datatype ServerlessSpec = ServerlessSpec(cloud: string, region: string)

  datatype IndexSpec = IndexSpec(dimension: nat, metric: Metric, placement: ServerlessSpec)

  /** What `create_index` answers: the index was made, or the name was taken. */
  datatype CreateOutcome = Created | AlreadyExists

  const DesignDocsIndex: string := "design-docs-index"
  const EmbeddingDimension: nat := 1536
  const Cloud: string := "aws"

  /** The spec the handler passes to `create_index`; the region is the configured
      Pinecone environment. */
  function RequestedSpec(region: string): IndexSpec
  {
    IndexSpec(EmbeddingDimension, Cosine, ServerlessSpec(Cloud, region))
  }

  /** The index specs after ensure-exists: unchanged when `name` exists, otherwise
      extended by a fresh index with the requested spec. */
  function Provisioned(specs: map<string, IndexSpec>, name: string, region: string): map<string, IndexSpec>
  {
    if name in specs then specs else specs[name := RequestedSpec(region)]
  }

  /** How many `create_index` calls ensure-exists makes. */
  function CreatesNeeded(names: set<string>, name: string): nat
  {
    if name in names then 0 else 1
  }

  /** After ensure-exists the index is present, every other index is untouched, a fresh
      index has 1536 dimensions and the cosine metric, and an existing one keeps its
      spec whatever it is (it is not checked against the requested one). */
  lemma LemmaProvisionedState(specs: map<string, IndexSpec>, name: string, region: string)
    ensures Provisioned(specs, name, region).Keys == specs.Keys + {name}
    ensures forall other :: other in specs && other != name ==> Provisioned(specs, name, region)[other] == specs[other]
    ensures name !in specs ==>
      Provisioned(specs, name, region)[name].dimension == 1536
      && Provisioned(specs, name, region)[name].metric == Cosine
      && Provisioned(specs, name, region)[name].placement == ServerlessSpec("aws", region)
    ensures name in specs ==> Provisioned(specs, name, region)[name] == specs[name]
  {
  }

  /** Ensure-exists is idempotent: a second run creates nothing and changes nothing. */
  lemma LemmaProvisionedIdempotent(specs: map<string, IndexSpec>, name: string, region: string)
    ensures Provisioned(Provisioned(specs, name, region), name, region) == Provisioned(specs, name, region)
    ensures CreatesNeeded(Provisioned(specs, name, region).Keys, name) == 0
  {
  }

  /** The Pinecone control plane: the names of the existing indexes and their specs. */
  class Catalog {
    var names: set<string>
    var specs: map<string, IndexSpec>
    ghost var createCalls: nat

    ghost predicate Valid()
      reads this
    {
      names == specs.Keys
    }

    constructor (existing: map<string, IndexSpec>)
      ensures Valid() && specs == existing && createCalls == 0
    {
      names := existing.Keys;
      specs := existing;
      createCalls := 0;
    }

    /** `pc.list_indexes().names()`. */
    method ListIndexNames() returns (r: set<string>)
      requires Valid()
      ensures r == names && r == specs.Keys
    {
      r := names;
    }

    /** `pc.create_index(...)`: adds the index, or refuses a name that is taken. */
    method CreateIndex(name: string, spec: IndexSpec) returns (outcome: CreateOutcome)
      requires Valid()
      modifies this
      ensures Valid()
      ensures createCalls == old(createCalls) + 1
      ensures outcome == (if name in old(names) then AlreadyExists else Created)
      ensures specs == if name in old(names) then old(specs) else old(specs)[name := spec]
    {
      createCalls := createCalls + 1;
      if name in names {
        outcome := AlreadyExists;
      } else {
        names := names + {name};
        specs := specs[name := spec];
        outcome := Created;
      }
    }

    /** Check-then-create: `create_index` is called only when `name` is not listed. */
    method EnsureIndex(name: string, region: string)
      requires Valid()
      modifies this
      ensures Valid()
      ensures names == old(names) + {name}
      ensures specs == Provisioned(old(specs), name, region)
      ensures createCalls == old(createCalls) + CreatesNeeded(old(names), name)
    {
      var existing := ListIndexNames();
      if name !in existing {
        var _ := CreateIndex(name, RequestedSpec(region));
      }
    }
  }

  /** Running ensure-exists twice in a row creates at most once and ends in the state
      one run reaches. */
  method EnsureIndexTwice(catalog: Catalog, name: string, region: string)
    requires catalog.Valid()
    modifies catalog
    ensures catalog.Valid()
    ensures catalog.names == old(catalog.names) + {name}
    ensures catalog.specs == Provisioned(old(catalog.specs), name, region)
    ensures catalog.createCalls == old(catalog.createCalls) + CreatesNeeded(old(catalog.names), name)
    ensures catalog.createCalls <= old(catalog.createCalls) + 1
  {
    catalog.EnsureIndex(name, region);
    LemmaProvisionedIdempotent(old(catalog.specs), name, region);
    catalog.EnsureIndex(name, region);
  }
}
