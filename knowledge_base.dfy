/**
 * The knowledge retriever: a fixed corpus of six job-role descriptions loaded
 * into a collection once, and a top-1 query that falls back to a fixed string.
 */
module KnowledgeBase {
  import opened Wrappers
  import opened VectorStore

  /** `JOB_ROLES_KNOWLEDGE`: role key to description. */
  const JobRoles: map<string, string> := map[
    "backend" := "For backend roles, employers seek skills in cloud services (AWS, GCP), containerization (Docker, Kubernetes), database management (SQL, NoSQL), and building scalable RESTful APIs.",
    "frontend" := "For frontend roles, demand is high for modern JavaScript frameworks (React, Vue), state management tools (Redux), and experience with build tools like Vite or Webpack.",
    "ai_ml" := "For AI/ML roles, key skills include Python, frameworks like PyTorch or TensorFlow, understanding of MLOps, and deploying models as APIs.",
    "data_science" := "For Data Science roles, skills in data analysis, statistical modeling, data visualization, and libraries like Pandas and Scikit-learn are essential.",
    "devops" := "For DevOps, skills in CI/CD (Jenkins, GitHub Actions), infrastructure as code (Terraform), and container orchestration (Kubernetes) are critical.",
    "fullstack" := "For Fullstack roles, a mix of frontend and backend skills is required, including a primary web framework, database skills, and deployment knowledge."
  ]

  const Fallback := "General software engineering principles are always in demand."

  /** `list(JOB_ROLES_KNOWLEDGE.keys())`: the keys in insertion order. */
  const RoleIds: seq<string> := ["backend", "frontend", "ai_ml", "data_science", "devops", "fullstack"]

  /** `list(JOB_ROLES_KNOWLEDGE.values())`: the values in the same order. */
  function RoleTexts(): (texts: seq<string>)
    ensures |texts| == |RoleIds|
  {
    seq(|RoleIds|, i requires 0 <= i < |RoleIds| => JobRoles[RoleIds[i]])
  }

  /** No metadata is passed with the corpus. */
  function NoMetadata(): seq<Metadata>
  {
    seq(|RoleIds|, _ => map[])
  }

  /** The documents the corpus becomes once added. */
  function Corpus(): seq<Document>
  {
    Batch(RoleIds, RoleTexts(), NoMetadata())
  }

  /** The key list holds six distinct keys, exactly the dictionary's keys. */
  lemma RoleIdsAreKeys()
    ensures |RoleIds| == 6
    ensures forall i, j :: 0 <= i < j < |RoleIds| ==> RoleIds[i] != RoleIds[j]
    ensures forall k :: k in JobRoles <==> k in RoleIds
  {
  }

  /** The loaded corpus holds one document per dictionary key: id = key, text = that key's value. */
  lemma {:induction false} CorpusIsDictionary()
    ensures |Corpus()| == 6 && UniqueIds(Corpus())
    ensures forall d :: d in Corpus() ==> d.id in JobRoles && JobRoles[d.id] == d.text
    ensures forall k :: k in JobRoles ==> exists d :: d in Corpus() && d.id == k
  {
    RoleIdsAreKeys();
    var c := Corpus();
    forall d | d in c ensures d.id in JobRoles && JobRoles[d.id] == d.text {
      var i :| 0 <= i < 6 && c[i] == d;
      assert d.id == RoleIds[i];
    }
    forall k | k in JobRoles ensures exists d :: d in c && d.id == k {
      var i :| 0 <= i < 6 && RoleIds[i] == k;
      assert c[i] in c && c[i].id == k;
    }
  }

  /**
   * `setup_knowledge_base`: add the whole corpus in one batch; `fault` is a failure of
   * the store or the embedding function. Without a fault it succeeds exactly when no
   * role key is stored yet; when it fails the collection is left as it was.
   */
  method Setup(collection: Collection, fault: Option<string>) returns (err: Option<StoreError>)
    requires collection.Valid()
    modifies collection
    ensures collection.Valid()
    ensures err == AddError(old(collection.docs), RoleIds, RoleTexts(), NoMetadata(), fault)
    ensures err.None? <==> fault.None? && forall d :: d in old(collection.docs) ==> d.id !in RoleIds
    ensures err.None? ==> collection.docs == old(collection.docs) + Corpus()
    ensures err.Some? ==> collection.docs == old(collection.docs)
    ensures old(collection.docs) == [] && fault.None? ==> err.None? && collection.docs == Corpus()
  {
    RoleIdsAreKeys();
    err := collection.Add(RoleIds, RoleTexts(), NoMetadata(), fault);
    assert err.None? <==> fault.None? && forall d :: d in old(collection.docs) ==> d.id !in RoleIds by {
      if !(forall d :: d in old(collection.docs) ==> d.id !in RoleIds) {
        var d :| d in old(collection.docs) && d.id in RoleIds;
        var i :| 0 <= i < |RoleIds| && RoleIds[i] == d.id;
      }
    }
  }

  /** Once the corpus is stored, adding it again is refused for its duplicate ids. */
  lemma {:induction false} SecondSetupRefused(docs: seq<Document>)
    requires Corpus() <= docs
    ensures AddError(docs, RoleIds, RoleTexts(), NoMetadata(), None) == Some(DuplicateId)
  {
    RoleIdsAreKeys();
    assert docs[0] in docs && docs[0].id == RoleIds[0];
  }

  /**
   * Two setups of a fresh collection: the first loads the corpus, the second is
   * refused, and the collection holds exactly one document per role key.
   */
  method SetupTwice() returns (first: Option<StoreError>, second: Option<StoreError>, collection: Collection)
    ensures first == None && second == Some(DuplicateId)
    ensures collection.docs == Corpus()
  {
    collection := new Collection();
    first := Setup(collection, None);
    SecondSetupRefused(collection.docs);
    second := Setup(collection, None);
  }

  /**
   * `get_market_context`: the text of the single nearest document, or the fallback
   * when the query yields nothing. Reads the collection and never changes it.
   */
  function MarketContext(collection: Collection, goal: string, dist: Distance): (r: string)
    reads collection
    ensures collection.docs == [] ==> r == Fallback
    ensures collection.docs != [] ==>
              exists d :: d in collection.docs && r == d.text &&
                forall e :: e in collection.docs ==> dist(goal, d.text) <= dist(goal, e.text)
  {
    match Nearest(collection.docs, goal, dist)
    case None => Fallback
    case Some(m) => m.doc.text
  }

  /** Over the loaded corpus the answer is always one of the six descriptions, the nearest one. */
  lemma {:induction false} MarketContextFromCorpus(collection: Collection, goal: string, dist: Distance)
    requires collection.docs == Corpus()
    ensures MarketContext(collection, goal, dist) in RoleTexts()
    ensures forall i :: 0 <= i < 6 ==>
              dist(goal, MarketContext(collection, goal, dist)) <= dist(goal, RoleTexts()[i])
  {
    RoleIdsAreKeys();
    var r := MarketContext(collection, goal, dist);
    var d :| d in Corpus() && r == d.text &&
             forall e :: e in Corpus() ==> dist(goal, d.text) <= dist(goal, e.text);
    var k :| 0 <= k < 6 && Corpus()[k] == d;
    assert RoleTexts()[k] == r;
    forall i | 0 <= i < 6 ensures dist(goal, r) <= dist(goal, RoleTexts()[i]) {
      assert Corpus()[i] in Corpus();
    }
  }
}
