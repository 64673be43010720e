/** `find_similar_profiles` of code_editor/utils.py: the user's interests
    and everyone else's become documents (the user's first), the documents
    become TF-IDF rows, the rows are clustered, and the other profiles that
    land in the user's cluster are returned in their original order. */
module Similarity {
  import opened Common
  import opened Numeric
  import opened TfIdf
  import opened KMeans

  /** A profile as the engine sees it: an owner and a free-text list of
      interests. */
  datatype Profile = Profile(owner: string, interests: string)

  /** The `max_iterations` default of `kmeans_clustering`. */
  const MaxIterations: int := 100

  /** `[user_profile.interests] + [profile.interests for profile in profiles]`. */
  function Documents(user: Profile, profiles: seq<Profile>): (docs: seq<string>)
    ensures |docs| == |profiles| + 1 && docs[0] == user.interests
    ensures forall i :: 0 <= i < |profiles| ==> docs[i + 1] == profiles[i].interests
  {
    [user.interests] + seq(|profiles|, i requires 0 <= i < |profiles| => profiles[i].interests)
  }

  /** The second result of `create_tfidf_matrix`: one row per document, all
      of the vocabulary's length. */
  function Matrix(docs: seq<string>, m: MathLib): (rows: seq<seq<real>>)
    ensures |rows| == |docs|
    ensures forall d :: 0 <= d < |docs| ==> |rows[d]| == |VocabularyOrder(docs)|
    ensures Wide(rows)
  {
    seq(|docs|, d requires 0 <= d < |docs| => TfIdfVector(docs, d, m))
  }

  /** `min(len(profiles), max_clusters)`. */
  function NumClusters(profiles: seq<Profile>, maxClusters: int): (k: int)
    ensures k <= |profiles| && k <= maxClusters
    ensures k == |profiles| || k == maxClusters
  {
    if |profiles| <= maxClusters then |profiles| else maxClusters
  }

  /** What the random draw inside `kmeans_clustering` must supply for this
      call: k distinct row indices whenever clustering actually happens. */
  ghost predicate SampleFits(profiles: seq<Profile>, maxClusters: int, sample: seq<nat>) {
    var k := NumClusters(profiles, maxClusters);
    !Degenerate(|profiles| + 1, k) ==> IsSample(sample, |profiles| + 1, k)
  }

  /** `[profiles[i] for i in range(len(profiles)) if labels[i] == c]`, where
      `labels` are the cluster ids of the other profiles. */
  function SameCluster(profiles: seq<Profile>, labels: seq<nat>, c: nat): seq<Profile>
    requires |labels| == |profiles|
  {
    if profiles == [] then []
    else (if labels[0] == c then [profiles[0]] else []) + SameCluster(profiles[1..], labels[1..], c)
  }

  /** The whole of `find_similar_profiles(user_profile, profiles, max_clusters)`,
      with `sample` standing for the indices `random.sample` draws. `None`
      stands for the `IndexError` of `clusters[0]` when clustering returned
      no ids, which happens exactly when `max_clusters <= 0` and there are
      other profiles. */
  function FindSimilarProfiles(user: Profile, profiles: seq<Profile>, maxClusters: int,
                               sample: seq<nat>, m: MathLib): (r: Option<seq<Profile>>)
    requires SampleFits(profiles, maxClusters, sample)
    ensures r.None? <==> profiles != [] && maxClusters <= 0
    ensures profiles == [] ==> r == Some([])
  {
    if profiles == [] then Some([])
    else
      var docs := Documents(user, profiles);
      var matrix := Matrix(docs, m);
      var k := NumClusters(profiles, maxClusters);
      var run := KMeansRun(matrix, k, MaxIterations, sample, m.sqrt);
      KMeansShape(matrix, k, MaxIterations, sample, m.sqrt);
      if run.clusters == [] then None
      else Some(SameCluster(profiles, run.clusters[1..], run.clusters[0]))
  }

  /** The cluster ids of all documents, the user's first, on the inputs where
      clustering happens. */
  function Labels(user: Profile, profiles: seq<Profile>, maxClusters: int,
                  sample: seq<nat>, m: MathLib): (labels: seq<nat>)
    requires SampleFits(profiles, maxClusters, sample)
    requires profiles != [] && maxClusters > 0
    ensures |labels| == |profiles| + 1
    ensures forall i :: 0 <= i < |labels| ==> labels[i] < NumClusters(profiles, maxClusters)
  {
    var docs := Documents(user, profiles);
    var matrix := Matrix(docs, m);
    var k := NumClusters(profiles, maxClusters);
    KMeansShape(matrix, k, MaxIterations, sample, m.sqrt);
    KMeansRun(matrix, k, MaxIterations, sample, m.sqrt).clusters
  }

  // ---------------------------------------------------------------------
  // Properties
  // ---------------------------------------------------------------------

  /** The filter keeps the order of `profiles` and adds nothing. */
  lemma {:induction false} SameClusterIsSubsequence(profiles: seq<Profile>, labels: seq<nat>, c: nat)
    requires |labels| == |profiles|
    ensures IsSubsequence(SameCluster(profiles, labels, c), profiles)
  {
    if profiles != [] {
      SameClusterIsSubsequence(profiles[1..], labels[1..], c);
      var rest := SameCluster(profiles[1..], labels[1..], c);
      var kept := SameCluster(profiles, labels, c);
      if labels[0] == c {
        assert kept == [profiles[0]] + rest;
        assert kept[0] == profiles[0] && kept[1..] == rest;
      } else {
        assert kept == rest;
        SkipHead(rest, profiles);
      }
    }
  }

  /** A subsequence of the tail is a subsequence of the whole. */
  lemma {:induction false} SkipHead<T>(a: seq<T>, b: seq<T>)
    requires b != [] && IsSubsequence(a, b[1..])
    ensures IsSubsequence(a, b)
    decreases |b|, 1
  {
    if a != [] && a[0] == b[0] {
      SubsequenceTail(a, b[1..]);
    }
  }

  /** Dropping the first element keeps a subsequence. */
  lemma {:induction false} SubsequenceTail<T>(a: seq<T>, b: seq<T>)
    requires a != [] && IsSubsequence(a, b)
    ensures IsSubsequence(a[1..], b)
    decreases |b|, 2
  {
    if a[0] == b[0] {
      SkipHead(a[1..], b);
    } else {
      SubsequenceTail(a, b[1..]);
      SkipHead(a[1..], b);
    }
  }

  /** The filter holds exactly as many profiles as there are labels equal
      to `c`. */
  lemma {:induction false} SameClusterCount(profiles: seq<Profile>, labels: seq<nat>, c: nat)
    requires |labels| == |profiles|
    ensures |SameCluster(profiles, labels, c)| == Count(labels, c)
  {
    if profiles != [] {
      SameClusterCount(profiles[1..], labels[1..], c);
      CountCons(labels, c);
    }
  }

  /** `Count` seen from the front. */
  lemma {:induction false} CountCons<T>(s: seq<T>, x: T)
    requires s != []
    ensures Count(s, x) == (if s[0] == x then 1 else 0) + Count(s[1..], x)
  {
    if |s| > 1 {
      var n := |s| - 1;
      assert s[1..][..n - 1] == s[..n][1..];
      CountCons(s[..n], x);
    }
  }

  /** A profile is kept exactly when one of its occurrences is labelled `c`. */
  lemma {:induction false} SameClusterMembers(profiles: seq<Profile>, labels: seq<nat>, c: nat, p: Profile)
    requires |labels| == |profiles|
    ensures p in SameCluster(profiles, labels, c) <==>
      exists i :: 0 <= i < |profiles| && labels[i] == c && profiles[i] == p
  {
    if profiles != [] {
      SameClusterMembers(profiles[1..], labels[1..], c, p);
      if exists i :: 0 <= i < |profiles| && labels[i] == c && profiles[i] == p {
        var i :| 0 <= i < |profiles| && labels[i] == c && profiles[i] == p;
        if i > 0 {
          assert labels[1..][i - 1] == c && profiles[1..][i - 1] == p;
        }
      }
      if p in SameCluster(profiles[1..], labels[1..], c) {
        var i :| 0 <= i < |profiles| - 1 && labels[1..][i] == c && profiles[1..][i] == p;
        assert labels[i + 1] == c && profiles[i + 1] == p;
      }
    }
  }

  /** The result is the ordered selection of the other profiles whose
      cluster id equals the user's (id 0 of the clustering): it keeps their
      order, holds exactly the profiles labelled like the user, and has as
      many entries as there are such labels. */
  lemma SimilarProfilesAreTheUsersCluster(user: Profile, profiles: seq<Profile>, maxClusters: int,
                                          sample: seq<nat>, m: MathLib)
    requires SampleFits(profiles, maxClusters, sample)
    requires profiles != [] && maxClusters > 0
    ensures var r := FindSimilarProfiles(user, profiles, maxClusters, sample, m);
      var labels := Labels(user, profiles, maxClusters, sample, m);
      && r.Some?
      && IsSubsequence(r.value, profiles)
      && |r.value| == Count(labels[1..], labels[0])
      && (forall p :: p in r.value <==>
            exists i :: 0 <= i < |profiles| && labels[i + 1] == labels[0] && profiles[i] == p)
  {
    var labels := Labels(user, profiles, maxClusters, sample, m);
    var rest := labels[1..];
    var r := FindSimilarProfiles(user, profiles, maxClusters, sample, m);
    assert r == Some(SameCluster(profiles, rest, labels[0]));
    SameClusterIsSubsequence(profiles, rest, labels[0]);
    SameClusterCount(profiles, rest, labels[0]);
    forall p
      ensures p in r.value <==>
        exists i :: 0 <= i < |profiles| && labels[i + 1] == labels[0] && profiles[i] == p
    {
      SameClusterMembers(profiles, rest, labels[0], p);
      if exists i :: 0 <= i < |profiles| && labels[i + 1] == labels[0] && profiles[i] == p {
        var i :| 0 <= i < |profiles| && labels[i + 1] == labels[0] && profiles[i] == p;
        assert rest[i] == labels[0];
      }
    }
  }

  /** Everything returned is one of the given profiles. */
  lemma SimilarProfilesComeFromProfiles(user: Profile, profiles: seq<Profile>, maxClusters: int,
                                        sample: seq<nat>, m: MathLib, p: Profile)
    requires SampleFits(profiles, maxClusters, sample)
    requires FindSimilarProfiles(user, profiles, maxClusters, sample, m).Some?
    requires p in FindSimilarProfiles(user, profiles, maxClusters, sample, m).value
    ensures p in profiles
  {
    if profiles != [] {
      SimilarProfilesAreTheUsersCluster(user, profiles, maxClusters, sample, m);
      SubsequenceElements(FindSimilarProfiles(user, profiles, maxClusters, sample, m).value, profiles, p);
    }
  }

  /** Two documents with the same text get the same TF-IDF row. */
  lemma SameTextSameRow(docs: seq<string>, a: nat, b: nat, m: MathLib)
    requires a < |docs| && b < |docs| && docs[a] == docs[b]
    ensures TfIdfVector(docs, a, m) == TfIdfVector(docs, b, m)
  {
    assert RawVector(docs, a, m.log) == RawVector(docs, b, m.log);
  }

  /** A profile whose interests read exactly like the user's is always
      returned: its row equals the user's, and equal rows share a cluster. */
  lemma SameInterestsAreSimilar(user: Profile, profiles: seq<Profile>, maxClusters: int,
                                sample: seq<nat>, m: MathLib, i: nat)
    requires SampleFits(profiles, maxClusters, sample)
    requires maxClusters > 0 && i < |profiles| && profiles[i].interests == user.interests
    ensures var r := FindSimilarProfiles(user, profiles, maxClusters, sample, m);
      r.Some? && profiles[i] in r.value
  {
    var docs := Documents(user, profiles);
    var matrix := Matrix(docs, m);
    var k := NumClusters(profiles, maxClusters);
    SameTextSameRow(docs, 0, i + 1, m);
    EqualPointsShareCluster(matrix, k, MaxIterations, sample, m.sqrt, 0, i + 1);
    SimilarProfilesAreTheUsersCluster(user, profiles, maxClusters, sample, m);
  }
}
