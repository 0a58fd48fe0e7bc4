/**
 * The content readers of src/utils/firestore.ts: each picks the per-user or
 * the legacy path, runs its query, falls back to the legacy path when a
 * user's own result is empty, attaches document ids, converts timestamps,
 * and turns any store failure into an empty result.
 */
module Readers {
  import opened Wrappers
  import opened Values
  import opened Store

  /** JavaScript truthiness of `userId`: neither null nor the empty string. */
  predicate Present(userId: Option<string>)
  {
    userId.Some? && userId.value != ""
  }

  /**
   * `convertTimestamps({ id: doc.id, ...doc.data() })`: the stored fields
   * plus the document id, where a stored field named `id` wins over it.
   */
  function Render(d: Doc): (r: Fields)
    ensures r.Keys == d.data.Keys + {"id"}
    ensures "id" !in d.data ==> r["id"] == Str(d.id)
    ensures "id" in d.data ==> r["id"] == Normalize(d.data["id"])
    ensures forall k :: k in d.data ==> r[k] == Normalize(d.data[k])
  {
    NormalizeFields(map["id" := Str(d.id)] + d.data)
  }

  function RenderAll(docs: seq<Doc>): seq<Fields>
  {
    seq(|docs|, i requires 0 <= i < |docs| => Render(docs[i]))
  }

  /** One query against one path: its snapshot, or the store's failure. */
  function QueryAt(db: Db, path: string, featuredOnly: bool): Result<seq<Doc>, StoreError>
  {
    match GetDocs(db, path)
    case Failure(e) => Failure(e)
    case Success(docs) => Success(RunQuery(docs, featuredOnly))
  }

  /** What a reader returns from a single path, with failure read as empty. */
  function ListFrom(db: Db, path: string, featuredOnly: bool): seq<Fields>
  {
    match QueryAt(db, path, featuredOnly)
    case Failure(_) => []
    case Success(snapshot) => RenderAll(snapshot)
  }

  /** Every item has a numeric `order`, and they ascend. */
  predicate OrderedByOrderField(items: seq<Fields>)
  {
    (forall i :: 0 <= i < |items| ==> "order" in items[i] && items[i]["order"].Num?) &&
    forall i, j :: 0 <= i < j < |items| ==> items[i]["order"].n <= items[j]["order"].n
  }

  /** The shape every list result has, whichever path it came from. */
  predicate WellFormedList(items: seq<Fields>, featuredOnly: bool)
  {
    && OrderedByOrderField(items)
    && (featuredOnly ==> AllFeatured(items))
    && (forall i :: 0 <= i < |items| ==> "id" in items[i])
    && (forall i :: 0 <= i < |items| ==> TimestampFree(Obj(items[i])))
  }

  lemma RenderKeepsQueryFields(d: Doc)
    requires HasOrder(d)
    ensures "order" in Render(d) && Render(d)["order"] == d.data["order"]
    ensures IsFeatured(d) ==> "featured" in Render(d) && Render(d)["featured"] == Bool(true)
    ensures TimestampFree(Obj(Render(d)))
  {
    var r := Render(d);
    forall k | k in r
      ensures TimestampFree(r[k])
    {
      NormalizeRemovesTimestamps((map["id" := Str(d.id)] + d.data)[k]);
    }
  }

  lemma ListFromWellFormed(db: Db, path: string, featuredOnly: bool)
    ensures WellFormedList(ListFrom(db, path, featuredOnly), featuredOnly)
  {
    if path !in db.refused {
      var snapshot := RunQuery(Docs(db, path), featuredOnly);
      var items := RenderAll(snapshot);
      forall i | 0 <= i < |snapshot|
        ensures "order" in items[i] && items[i]["order"] == snapshot[i].data["order"]
        ensures featuredOnly ==> "featured" in items[i] && items[i]["featured"] == Bool(true)
        ensures TimestampFree(Obj(items[i]))
      {
        assert snapshot[i] in snapshot;
        RenderKeepsQueryFields(snapshot[i]);
      }
      assert forall i, j :: 0 <= i < j < |snapshot| ==> OrderOf(snapshot[i]) <= OrderOf(snapshot[j]);
    }
  }

  /**
   * The shared body of getProjects, getAchievements, getEducation and
   * getExtracurriculars.
   */
  function ReadList(db: Db, e: Entity, featuredOnly: bool, userId: Option<string>): (r: seq<Fields>)
    // without a user only the legacy collection is read
    ensures !Present(userId) ==> r == ListFrom(db, LegacyPath(e), featuredOnly)
    // a user's own non-empty result is returned as it is, never merged
    ensures Present(userId) && QueryAt(db, UserPath(e, userId.value), featuredOnly).Success?
            && QueryAt(db, UserPath(e, userId.value), featuredOnly).value != []
            ==> r == RenderAll(RunQuery(Docs(db, UserPath(e, userId.value)), featuredOnly))
    // an empty user result falls back to exactly the legacy result
    ensures Present(userId) && QueryAt(db, UserPath(e, userId.value), featuredOnly) == Success([])
            ==> r == ListFrom(db, LegacyPath(e), featuredOnly)
    // a refused user read is caught before any fallback
    ensures Present(userId) && UserPath(e, userId.value) in db.refused ==> r == []
    ensures WellFormedList(r, featuredOnly)
  {
    var path := if Present(userId) then UserPath(e, userId.value) else LegacyPath(e);
    ListFromWellFormed(db, path, featuredOnly);
    ListFromWellFormed(db, LegacyPath(e), featuredOnly);
    match QueryAt(db, path, featuredOnly)
    case Failure(_) => []
    case Success(snapshot) =>
      if snapshot == [] && Present(userId) then ListFrom(db, LegacyPath(e), featuredOnly)
      else RenderAll(snapshot)
  }

  /** getProjects(featuredOnly, userId). */
  function GetProjects(db: Db, featuredOnly: bool, userId: Option<string>): (r: seq<Fields>)
    ensures WellFormedList(r, featuredOnly)
  {
    ReadList(db, Projects, featuredOnly, userId)
  }

  /** getAchievements(userId). */
  function GetAchievements(db: Db, userId: Option<string>): (r: seq<Fields>)
    ensures WellFormedList(r, false)
  {
    ReadList(db, Achievements, false, userId)
  }

  /** getEducation(userId). */
  function GetEducation(db: Db, userId: Option<string>): (r: seq<Fields>)
    ensures WellFormedList(r, false)
  {
    ReadList(db, Education, false, userId)
  }

  /** getExtracurriculars(userId). */
  function GetExtracurriculars(db: Db, userId: Option<string>): (r: seq<Fields>)
    ensures WellFormedList(r, false)
  {
    ReadList(db, Extracurriculars, false, userId)
  }

  /** What getProfile returns from a single document path. */
  function ProfileFrom(db: Db, path: string): (r: Option<Fields>)
    // a missing document and a failed read both give null
    ensures r.Some? <==> path !in db.refused && path in db.documents
    ensures r.Some? ==> r.value == NormalizeFields(db.documents[path])
    ensures r.Some? ==> TimestampFree(Obj(r.value))
  {
    match GetDoc(db, path)
    case Failure(_) => None
    case Success(None) => None
    case Success(Some(data)) =>
      NormalizeFieldsRemovesTimestamps(data);
      Some(NormalizeFields(data))
  }

  /**
   * getProfile(userId): the stored profile with its timestamps converted
   * and no id attached.
   */
  function GetProfile(db: Db, userId: Option<string>): (r: Option<Fields>)
    ensures !Present(userId) ==> r == ProfileFrom(db, LegacyProfilePath)
    ensures Present(userId) && UserProfilePath(userId.value) !in db.refused
            && UserProfilePath(userId.value) in db.documents
            ==> r == Some(NormalizeFields(db.documents[UserProfilePath(userId.value)]))
    ensures Present(userId) && UserProfilePath(userId.value) !in db.refused
            && UserProfilePath(userId.value) !in db.documents
            ==> r == ProfileFrom(db, LegacyProfilePath)
    ensures Present(userId) && UserProfilePath(userId.value) in db.refused ==> r == None
    ensures r.Some? ==> TimestampFree(Obj(r.value))
  {
    var path := if Present(userId) then UserProfilePath(userId.value) else LegacyProfilePath;
    match GetDoc(db, path)
    case Failure(_) => None
    case Success(None) => if Present(userId) then ProfileFrom(db, LegacyProfilePath) else None
    case Success(Some(data)) =>
      NormalizeFieldsRemovesTimestamps(data);
      Some(NormalizeFields(data))
  }
}
