/**
 * An abstract document store: collections of documents by path, single
 * documents by path, and the set of paths the backend refuses. Paths are
 * the strings src/utils/firestore.ts and src/utils/dataMigration.ts build.
 */
module Store {
  import opened Wrappers
  import opened Values

  /** A stored document: the id the store assigned and its data. */
  datatype Doc = Doc(id: string, data: Fields)

  /**
   * A snapshot of the store. `refused` holds the paths whose reads and writes
   * fail (a denied permission, an unreachable backend); `nextId` feeds the
   * ids `addDoc` assigns.
   */
  datatype Db = Db(
    collections: map<string, seq<Doc>>,
    documents: map<string, Fields>,
    refused: set<string>,
    nextId: nat)

  datatype StoreError = Refused(path: string)

  /** The four list entities; the profile is a single document. */
  datatype Entity = Projects | Achievements | Education | Extracurriculars

  const LegacyProfilePath: string := "profile/main"

  /** The root of one user's content area. */
  function UserContentRoot(uid: string): string
  {
    "users/" + uid + "/content/"
  }

  function UserProfilePath(uid: string): string
  {
    UserContentRoot(uid) + "profile"
  }

  /** The item-collection name under a user's content area. */
  function UserCollectionName(e: Entity): string
  {
    match e
    case Projects => "projects/items"
    case Achievements => "academicAchievements/items"
    case Education => "education/items"
    case Extracurriculars => "extracurricularActivities/items"
  }

  function UserPath(e: Entity, uid: string): string
  {
    UserContentRoot(uid) + UserCollectionName(e)
  }

  /** The global collection used before content moved under users. */
  function LegacyPath(e: Entity): string
  {
    match e
    case Projects => "projects"
    case Achievements => "achievements"
    case Education => "education"
    case Extracurriculars => "extracurriculars"
  }

  /** The documents stored at a collection path; a missing collection is empty. */
  function Docs(db: Db, path: string): seq<Doc>
  {
    if path in db.collections then db.collections[path] else []
  }

  /** `getDocs` on a whole collection. */
  function GetDocs(db: Db, path: string): Result<seq<Doc>, StoreError>
  {
    if path in db.refused then Failure(Refused(path)) else Success(Docs(db, path))
  }

  /** `getDoc`: the document's data when it exists. */
  function GetDoc(db: Db, path: string): Result<Option<Fields>, StoreError>
  {
    if path in db.refused then Failure(Refused(path))
    else if path in db.documents then Success(Some(db.documents[path]))
    else Success(None)
  }

  // ---------------------------------------------------------------------
  // The query `where('featured', '==', true)` (optional), `orderBy('order')`
  // ---------------------------------------------------------------------

  /** `orderBy('order')` only returns documents that have the field. */
  predicate HasOrder(d: Doc)
  {
    "order" in d.data && d.data["order"].Num?
  }

  function OrderOf(d: Doc): int
    requires HasOrder(d)
  {
    d.data["order"].n
  }

  predicate IsFeatured(d: Doc)
  {
    "featured" in d.data && d.data["featured"] == Bool(true)
  }

  /** Every record of a list carries `featured: true`. */
  predicate AllFeatured(items: seq<Fields>)
  {
    forall i :: 0 <= i < |items| ==> "featured" in items[i] && items[i]["featured"] == Bool(true)
  }

  predicate Matches(d: Doc, featuredOnly: bool)
  {
    HasOrder(d) && (featuredOnly ==> IsFeatured(d))
  }

  /** The documents the query's conditions admit, in storage order. */
  function Filter(docs: seq<Doc>, featuredOnly: bool): (r: seq<Doc>)
    ensures forall d :: d in r ==> Matches(d, featuredOnly)
    ensures forall d :: d in docs && Matches(d, featuredOnly) ==> d in r
    ensures multiset(r) <= multiset(docs)
    // every matching document is kept as often as it occurs, and no other
    ensures forall d :: multiset(r)[d] == if Matches(d, featuredOnly) then multiset(docs)[d] else 0
  {
    if docs == [] then []
    else
      var rest := Filter(docs[1..], featuredOnly);
      assert docs == [docs[0]] + docs[1..];
      if Matches(docs[0], featuredOnly) then [docs[0]] + rest else rest
  }

  predicate AllHaveOrder(docs: seq<Doc>)
  {
    forall i :: 0 <= i < |docs| ==> HasOrder(docs[i])
  }

  predicate SortedByOrder(docs: seq<Doc>)
  {
    AllHaveOrder(docs) &&
    forall i, j :: 0 <= i < j < |docs| ==> OrderOf(docs[i]) <= OrderOf(docs[j])
  }

  /** Prepending a document no larger than the head keeps the order. */
  lemma SortedCons(d: Doc, sorted: seq<Doc>)
    requires HasOrder(d) && SortedByOrder(sorted)
    requires sorted != [] ==> OrderOf(d) <= OrderOf(sorted[0])
    ensures SortedByOrder([d] + sorted)
  {
    var r := [d] + sorted;
    forall i, j | 0 <= i < j < |r|
      ensures OrderOf(r[i]) <= OrderOf(r[j])
    {
      if i > 0 {
        assert r[i] == sorted[i - 1] && r[j] == sorted[j - 1];
      } else {
        assert r[j] == sorted[j - 1];
      }
    }
  }

  lemma SortedTail(sorted: seq<Doc>)
    requires SortedByOrder(sorted) && sorted != []
    ensures SortedByOrder(sorted[1..])
  {
    var tail := sorted[1..];
    forall i, j | 0 <= i < j < |tail|
      ensures OrderOf(tail[i]) <= OrderOf(tail[j])
    {
      assert tail[i] == sorted[i + 1] && tail[j] == sorted[j + 1];
    }
  }

  /** Places `d` before the first document with a larger order. */
  function Insert(d: Doc, sorted: seq<Doc>): (r: seq<Doc>)
    requires HasOrder(d) && SortedByOrder(sorted)
    ensures SortedByOrder(r)
    ensures multiset(r) == multiset(sorted) + multiset{d}
    ensures |r| == |sorted| + 1
    ensures sorted != [] ==> r[0] == d || r[0] == sorted[0]
  {
    if sorted == [] then [d]
    else if OrderOf(d) <= OrderOf(sorted[0]) then
      SortedCons(d, sorted);
      [d] + sorted
    else
      var tail := sorted[1..];
      SortedTail(sorted);
      var rest := Insert(d, tail);
      assert OrderOf(sorted[0]) <= OrderOf(rest[0]) by {
        if tail != [] {
          assert rest[0] == d || rest[0] == sorted[1];
        }
      }
      SortedCons(sorted[0], rest);
      assert sorted == [sorted[0]] + tail;
      [sorted[0]] + rest
  }

  /** A stable sort by ascending `order`. */
  function SortByOrder(docs: seq<Doc>): (r: seq<Doc>)
    requires AllHaveOrder(docs)
    ensures SortedByOrder(r)
    ensures multiset(r) == multiset(docs)
  {
    if docs == [] then []
    else
      assert docs == [docs[0]] + docs[1..];
      Insert(docs[0], SortByOrder(docs[1..]))
  }

  /** The query result: the matching documents in ascending `order`. */
  function RunQuery(docs: seq<Doc>, featuredOnly: bool): (r: seq<Doc>)
    ensures SortedByOrder(r)
    ensures forall d :: d in r ==> Matches(d, featuredOnly)
    ensures forall d :: d in docs && Matches(d, featuredOnly) ==> d in r
    ensures multiset(r) <= multiset(docs)
    ensures forall d :: multiset(r)[d] == if Matches(d, featuredOnly) then multiset(docs)[d] else 0
  {
    var kept := Filter(docs, featuredOnly);
    assert forall i :: 0 <= i < |kept| ==> kept[i] in kept;
    var r := SortByOrder(kept);
    assert forall d :: d in r <==> d in multiset(r);
    assert forall d :: d in kept <==> d in multiset(kept);
    r
  }

  /** An empty query snapshot means no stored document matches. */
  lemma RunQueryEmpty(docs: seq<Doc>, featuredOnly: bool)
    ensures RunQuery(docs, featuredOnly) == [] <==> forall d :: d in docs ==> !Matches(d, featuredOnly)
  {
    var r := RunQuery(docs, featuredOnly);
    if r != [] {
      assert r[0] in multiset(r);
      assert r[0] in multiset(docs);
      assert r[0] in docs && Matches(r[0], featuredOnly);
    }
  }

  /** Sorting a sequence already in ascending order changes nothing. */
  lemma {:induction false} SortKeepsSorted(docs: seq<Doc>)
    requires SortedByOrder(docs)
    ensures SortByOrder(docs) == docs
  {
    if docs != [] {
      SortedTail(docs);
      SortKeepsSorted(docs[1..]);
      assert SortByOrder(docs[1..]) == docs[1..];
      if |docs| > 1 {
        assert OrderOf(docs[0]) <= OrderOf(docs[1..][0]);
      }
      assert docs == [docs[0]] + docs[1..];
    }
  }

  /** Filtering documents that all match keeps them all, in order. */
  lemma {:induction false} FilterKeepsMatching(docs: seq<Doc>, featuredOnly: bool)
    requires forall i :: 0 <= i < |docs| ==> Matches(docs[i], featuredOnly)
    ensures Filter(docs, featuredOnly) == docs
  {
    if docs != [] {
      FilterKeepsMatching(docs[1..], featuredOnly);
      assert docs == [docs[0]] + docs[1..];
    }
  }
}
