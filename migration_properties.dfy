/**
 * What one run of `migrateAllData` does to the store, what it reports, what
 * running it again does, and what the readers of src/utils/firestore.ts
 * return afterwards.
 */
module MigrationProperties {
  import opened Wrappers
  import opened Values
  import opened Store
  import opened Seeds
  import opened Readers
  import opened Migration
  import opened Paths

  /** The store after `migrateAllData`. */
  function After(db: Db, uid: string, p: Payload): Db
  {
    MigrateAll(db, uid, p).db
  }

  /** `after` is `before` followed by one document per item, in item order. */
  predicate AppendedWith(before: seq<Doc>, after: seq<Doc>, items: seq<Fields>)
  {
    && |after| == |before| + |items|
    && after[..|before|] == before
    && forall k :: 0 <= k < |items| ==> after[|before| + k].data == items[k]
  }

  /** Every list of the payload has at least one record. */
  predicate WritesEveryList(p: Payload)
  {
    p.projects != [] && p.achievements != [] && p.education != [] && p.extracurriculars != []
  }

  lemma ShapedWritesEveryList(p: Payload)
    requires SeedShaped(p)
    ensures WritesEveryList(p)
  {
  }

  /** The four collection paths and the profile path of one user are distinct. */
  lemma UserPathsDistinct(uid: string)
    ensures forall e1, e2 :: e1 != e2 ==> UserPath(e1, uid) != UserPath(e2, uid)
    ensures forall e :: UserPath(e, uid) != UserProfilePath(uid)
  {
    forall e1, e2 | UserPath(e1, uid) == UserPath(e2, uid)
      ensures e1 == e2
    {
      assert TargetPath(ListOf(e1), uid) == TargetPath(ListOf(e2), uid);
      SameTarget(ListOf(e1), uid, ListOf(e2), uid);
    }
    forall e
      ensures UserPath(e, uid) != UserProfilePath(uid)
    {
      if UserPath(e, uid) == UserProfilePath(uid) {
        SameTarget(ListOf(e), uid, ProfileDoc, uid);
      }
    }
  }

  lemma MintedAppended(before: seq<Doc>, items: seq<Fields>, first: nat)
    ensures AppendedWith(before, before + Minted(items, first), items)
  {
    var after := before + Minted(items, first);
    assert after[..|before|] == before;
  }

  /** An empty user id is rejected before anything is written. */
  lemma EmptyUserIdWritesNothing(db: Db, p: Payload)
    ensures MigrateAll(db, "", p) == Outcome(db, Failure(MissingUserId))
    ensures After(db, "", p) == db
  {
  }

  /**
   * One run appends the payload's records to each of the user's collections
   * the store accepts, after whatever was already there, and leaves a
   * refused collection as it was.
   */
  lemma MigrationAppends(db: Db, uid: string, p: Payload, e: Entity)
    requires uid != ""
    ensures After(db, uid, p).refused == db.refused
    ensures UserPath(e, uid) in db.refused ==> Docs(After(db, uid, p), UserPath(e, uid)) == Docs(db, UserPath(e, uid))
    ensures UserPath(e, uid) !in db.refused ==>
              AppendedWith(Docs(db, UserPath(e, uid)), Docs(After(db, uid, p), UserPath(e, uid)), p.Items(e))
  {
    UserPathsDistinct(uid);
    var s1 := SetDocStep(db, UserProfilePath(uid), p.profile);
    var s2 := AppendStep(s1.db, UserPath(Projects, uid), p.projects);
    var s3 := AppendStep(s2.db, UserPath(Achievements, uid), p.achievements);
    var s4 := AppendStep(s3.db, UserPath(Education, uid), p.education);
    var s5 := AppendStep(s4.db, UserPath(Extracurriculars, uid), p.extracurriculars);
    SetDocEffect(db, UserProfilePath(uid), p.profile);
    AppendEffect(s1.db, UserPath(Projects, uid), p.projects);
    AppendEffect(s2.db, UserPath(Achievements, uid), p.achievements);
    AppendEffect(s3.db, UserPath(Education, uid), p.education);
    AppendEffect(s4.db, UserPath(Extracurriculars, uid), p.extracurriculars);
    assert After(db, uid, p) == s5.db;
    var path := UserPath(e, uid);
    var before := Docs(db, path);
    assert Docs(s1.db, path) == before;
    match e {
      case Projects =>
        AppendStepFrame(s2.db, UserPath(Achievements, uid), p.achievements, path);
        AppendStepFrame(s3.db, UserPath(Education, uid), p.education, path);
        AppendStepFrame(s4.db, UserPath(Extracurriculars, uid), p.extracurriculars, path);
        MintedAppended(before, p.projects, s1.db.nextId);
      case Achievements =>
        AppendStepFrame(s1.db, UserPath(Projects, uid), p.projects, path);
        AppendStepFrame(s3.db, UserPath(Education, uid), p.education, path);
        AppendStepFrame(s4.db, UserPath(Extracurriculars, uid), p.extracurriculars, path);
        MintedAppended(before, p.achievements, s2.db.nextId);
      case Education =>
        AppendStepFrame(s1.db, UserPath(Projects, uid), p.projects, path);
        AppendStepFrame(s2.db, UserPath(Achievements, uid), p.achievements, path);
        AppendStepFrame(s4.db, UserPath(Extracurriculars, uid), p.extracurriculars, path);
        MintedAppended(before, p.education, s3.db.nextId);
      case Extracurriculars =>
        AppendStepFrame(s1.db, UserPath(Projects, uid), p.projects, path);
        AppendStepFrame(s2.db, UserPath(Achievements, uid), p.achievements, path);
        AppendStepFrame(s3.db, UserPath(Education, uid), p.education, path);
        MintedAppended(before, p.extracurriculars, s4.db.nextId);
    }
  }

  /**
   * The profile document is overwritten with the payload's profile when the
   * store accepts it, and no other single document changes.
   */
  lemma ProfileOverwritten(db: Db, uid: string, p: Payload)
    requires uid != ""
    ensures UserProfilePath(uid) !in db.refused ==>
              After(db, uid, p).documents == db.documents[UserProfilePath(uid) := p.profile]
    ensures UserProfilePath(uid) in db.refused ==> After(db, uid, p).documents == db.documents
  {
    var out := After(db, uid, p);
    var s1 := SetDocStep(db, UserProfilePath(uid), p.profile);
    var s2 := AppendStep(s1.db, UserPath(Projects, uid), p.projects);
    var s3 := AppendStep(s2.db, UserPath(Achievements, uid), p.achievements);
    var s4 := AppendStep(s3.db, UserPath(Education, uid), p.education);
    SetDocEffect(db, UserProfilePath(uid), p.profile);
    AppendEffect(s1.db, UserPath(Projects, uid), p.projects);
    AppendEffect(s2.db, UserPath(Achievements, uid), p.achievements);
    AppendEffect(s3.db, UserPath(Education, uid), p.education);
    AppendEffect(s4.db, UserPath(Extracurriculars, uid), p.extracurriculars);
    assert out.documents == s1.db.documents;
    if UserProfilePath(uid) !in db.refused {
      assert s1.db.documents == db.documents[UserProfilePath(uid) := p.profile] by {
        assert s1.db.documents.Keys == db.documents.Keys + {UserProfilePath(uid)} by {
          forall q | q in s1.db.documents && q != UserProfilePath(uid)
            ensures q in db.documents
          {
            assert q in s1.db.documents - {UserProfilePath(uid)};
          }
          forall q | q in db.documents && q != UserProfilePath(uid)
            ensures q in s1.db.documents
          {
            assert q in db.documents - {UserProfilePath(uid)};
          }
        }
        forall q | q in db.documents && q != UserProfilePath(uid)
          ensures s1.db.documents[q] == db.documents[q]
        {
          assert (s1.db.documents - {UserProfilePath(uid)})[q] == (db.documents - {UserProfilePath(uid)})[q];
        }
      }
    }
  }

  /** No collection outside the five written paths changes. */
  lemma MigrationFrame(db: Db, uid: string, p: Payload, q: string)
    requires q !in WrittenPaths(uid)
    ensures Docs(After(db, uid, p), q) == Docs(db, q)
  {
    if uid != "" {
      var s1 := SetDocStep(db, UserProfilePath(uid), p.profile);
      var s2 := AppendStep(s1.db, UserPath(Projects, uid), p.projects);
      var s3 := AppendStep(s2.db, UserPath(Achievements, uid), p.achievements);
      var s4 := AppendStep(s3.db, UserPath(Education, uid), p.education);
      var s5 := AppendStep(s4.db, UserPath(Extracurriculars, uid), p.extracurriculars);
      SetDocEffect(db, UserProfilePath(uid), p.profile);
      AppendEffect(s1.db, UserPath(Projects, uid), p.projects);
      AppendEffect(s2.db, UserPath(Achievements, uid), p.achievements);
      AppendEffect(s3.db, UserPath(Education, uid), p.education);
      AppendEffect(s4.db, UserPath(Extracurriculars, uid), p.extracurriculars);
      assert After(db, uid, p) == s5.db;
      assert q != UserPath(Projects, uid) && q != UserPath(Achievements, uid);
      assert q != UserPath(Education, uid) && q != UserPath(Extracurriculars, uid);
      AppendStepFrame(s1.db, UserPath(Projects, uid), p.projects, q);
      AppendStepFrame(s2.db, UserPath(Achievements, uid), p.achievements, q);
      AppendStepFrame(s3.db, UserPath(Education, uid), p.education, q);
      AppendStepFrame(s4.db, UserPath(Extracurriculars, uid), p.extracurriculars, q);
    }
  }

  /** How a write to `path` fails when it fails: the store refuses the path. */
  function RefusalOf(db: Db, path: string): Option<MigrationError>
  {
    if path in db.refused then Some(WriteFailed(Refused(path))) else None
  }

  /** The written paths, in the order `migrateAllData` lists its sub-migrations. */
  function WriteOrder(uid: string): (r: seq<string>)
    ensures |r| == 5 && r[0] == UserProfilePath(uid)
    ensures forall q :: q in r <==> q in WrittenPaths(uid)
  {
    [UserProfilePath(uid), UserPath(Projects, uid), UserPath(Achievements, uid),
     UserPath(Education, uid), UserPath(Extracurriculars, uid)]
  }

  /** The refusal each sub-migration meets, in list order. */
  function Refusals(db: Db, uid: string): (r: seq<Option<MigrationError>>)
    ensures |r| == 5
    ensures forall i :: 0 <= i < 5 ==> r[i] == RefusalOf(db, WriteOrder(uid)[i])
  {
    var order := WriteOrder(uid);
    seq(5, i requires 0 <= i < 5 => RefusalOf(db, order[i]))
  }

  /** Each sub-migration fails exactly when its own path is refused. */
  lemma StepFailures(db: Db, uid: string, p: Payload)
    requires uid != "" && WritesEveryList(p)
    ensures MigrateAll(db, uid, p).result == FirstFailure(Refusals(db, uid))
  {
    var s1 := SetDocStep(db, UserProfilePath(uid), p.profile);
    var s2 := AppendStep(s1.db, UserPath(Projects, uid), p.projects);
    var s3 := AppendStep(s2.db, UserPath(Achievements, uid), p.achievements);
    var s4 := AppendStep(s3.db, UserPath(Education, uid), p.education);
    var s5 := AppendStep(s4.db, UserPath(Extracurriculars, uid), p.extracurriculars);
    SetDocEffect(db, UserProfilePath(uid), p.profile);
    AppendEffect(s1.db, UserPath(Projects, uid), p.projects);
    AppendEffect(s2.db, UserPath(Achievements, uid), p.achievements);
    AppendEffect(s3.db, UserPath(Education, uid), p.education);
    AppendEffect(s4.db, UserPath(Extracurriculars, uid), p.extracurriculars);
    assert s4.db.refused == s3.db.refused == s2.db.refused == s1.db.refused == db.refused;
    assert Refusals(db, uid) == [s1.failure, s2.failure, s3.failure, s4.failure, s5.failure];
  }

  /** What the first refusal among the written paths amounts to. */
  lemma RefusalsVerdict(db: Db, uid: string)
    ensures FirstFailure(Refusals(db, uid)).Success? <==> WrittenPaths(uid) !! db.refused
    ensures FirstFailure(Refusals(db, uid)).Failure? ==>
              exists q :: q in WrittenPaths(uid) && q in db.refused
                          && FirstFailure(Refusals(db, uid)).error == WriteFailed(Refused(q))
    ensures UserProfilePath(uid) in db.refused ==>
              FirstFailure(Refusals(db, uid)) == Failure(WriteFailed(Refused(UserProfilePath(uid))))
  {
    var order, failures := WriteOrder(uid), Refusals(db, uid);
    var r := FirstFailure(failures);
    if r.Failure? {
      var i :| 0 <= i < 5 && failures[i] == Some(r.error);
      assert order[i] in order;
    } else {
      forall q | q in WrittenPaths(uid)
        ensures q !in db.refused
      {
        var i :| 0 <= i < 5 && order[i] == q;
        assert failures[i].None?;
      }
    }
  }

  /**
   * `migrateAllData` resolves to true exactly when a user id was given and
   * the store accepts all five written paths; otherwise it rejects with the
   * failure of a refused written path, the profile's first.
   */
  lemma MigrationResult(db: Db, uid: string, p: Payload)
    requires WritesEveryList(p)
    ensures MigrateAll(db, uid, p).result.Success? <==> uid != "" && WrittenPaths(uid) !! db.refused
    ensures MigrateAll(db, uid, p).result.Success? ==> MigrateAll(db, uid, p).result.value
    ensures uid != "" && MigrateAll(db, uid, p).result.Failure? ==>
              exists q :: q in WrittenPaths(uid) && q in db.refused
                          && MigrateAll(db, uid, p).result.error == WriteFailed(Refused(q))
    ensures uid != "" && UserProfilePath(uid) in db.refused ==>
              MigrateAll(db, uid, p).result == Failure(WriteFailed(Refused(UserProfilePath(uid))))
  {
    if uid != "" {
      StepFailures(db, uid, p);
      RefusalsVerdict(db, uid);
    }
  }

  /** One run grows an accepted collection by the number of records written to it. */
  lemma MigrationGrows(db: Db, uid: string, p: Payload, e: Entity)
    requires uid != "" && UserPath(e, uid) !in db.refused
    ensures |Docs(After(db, uid, p), UserPath(e, uid))| == |Docs(db, UserPath(e, uid))| + |p.Items(e)|
    ensures After(db, uid, p).refused == db.refused
  {
    MigrationAppends(db, uid, p, e);
  }

  /** `n` runs of `run`, one after another. */
  function Iterate(run: Db -> Db, db: Db, n: nat): Db
  {
    if n == 0 then db else run(Iterate(run, db, n - 1))
  }

  /** A run that keeps the refused paths and adds `c` documents to `path` adds `n * c` in `n` runs. */
  lemma {:induction false} IterateGrows(run: Db -> Db, db: Db, n: nat, path: string, c: nat)
    requires forall d: Db {:trigger run(d)} :: d.refused == db.refused ==>
               run(d).refused == d.refused && |Docs(run(d), path)| == |Docs(d, path)| + c
    ensures Iterate(run, db, n).refused == db.refused
    ensures |Docs(Iterate(run, db, n), path)| == |Docs(db, path)| + n * c
  {
    if n > 0 {
      var prev := Iterate(run, db, n - 1);
      IterateGrows(run, db, n - 1, path, c);
      assert Iterate(run, db, n) == run(prev);
      assert |Docs(run(prev), path)| == |Docs(prev, path)| + c;
      MulStep(n, c);
    }
  }

  lemma MulStep(n: nat, c: nat)
    requires n > 0
    ensures n * c == (n - 1) * c + c
  {
  }

  /** A run that keeps the refused paths and sets `path` to `v` leaves it at `v` however often it runs. */
  lemma {:induction false} IterateSettles(run: Db -> Db, db: Db, n: nat, path: string, v: Fields)
    requires n > 0
    requires forall d: Db {:trigger run(d)} :: d.refused == db.refused ==>
               run(d).refused == d.refused && run(d).documents == d.documents[path := v]
    ensures Iterate(run, db, n).documents == db.documents[path := v]
  {
    if n > 1 {
      IterateSettles(run, db, n - 1, path, v);
      IterateKeepsRefused(run, db, n - 1, path, v);
      assert db.documents[path := v][path := v] == db.documents[path := v];
    }
  }

  lemma {:induction false} IterateKeepsRefused(run: Db -> Db, db: Db, n: nat, path: string, v: Fields)
    requires forall d: Db {:trigger run(d)} :: d.refused == db.refused ==>
               run(d).refused == d.refused && run(d).documents == d.documents[path := v]
    ensures Iterate(run, db, n).refused == db.refused
  {
    if n > 0 {
      IterateKeepsRefused(run, db, n - 1, path, v);
    }
  }

  /**
   * `n` runs for the same user append the records `n` times over: nothing
   * guards against running again.
   */
  lemma RepeatedMigration(db: Db, uid: string, p: Payload, n: nat, e: Entity)
    requires uid != "" && UserPath(e, uid) !in db.refused
    ensures |Docs(Iterate(d => After(d, uid, p), db, n), UserPath(e, uid))|
            == |Docs(db, UserPath(e, uid))| + n * |p.Items(e)|
  {
    var run := d => After(d, uid, p);
    var path := UserPath(e, uid);
    forall d: Db | d.refused == db.refused
      ensures run(d).refused == d.refused && |Docs(run(d), path)| == |Docs(d, path)| + |p.Items(e)|
    {
      MigrationGrows(d, uid, p, e);
    }
    IterateGrows(run, db, n, path, |p.Items(e)|);
  }

  /** However often it runs, the profile document is only overwritten, never duplicated. */
  lemma RepeatedProfile(db: Db, uid: string, p: Payload, n: nat)
    requires uid != "" && UserProfilePath(uid) !in db.refused && n > 0
    ensures Iterate(d => After(d, uid, p), db, n).documents == db.documents[UserProfilePath(uid) := p.profile]
  {
    var run := d => After(d, uid, p);
    forall d: Db | d.refused == db.refused
      ensures run(d).refused == d.refused && run(d).documents == d.documents[UserProfilePath(uid) := p.profile]
    {
      ProfileOverwritten(d, uid, p);
      MigrationAppends(d, uid, p, Projects);
    }
    IterateSettles(run, db, n, UserProfilePath(uid), p.profile);
  }

  /** The appended documents carry the items' `order` and `featured` fields. */
  lemma AppendedShape(before: seq<Doc>, after: seq<Doc>, items: seq<Fields>)
    requires AppendedWith(before, after, items) && OrderedFromZero(items)
    ensures forall k :: |before| <= k < |after| ==>
              "order" in after[k].data && after[k].data["order"] == Num(k - |before|)
    ensures AllFeatured(items) ==> forall k :: |before| <= k < |after| ==> IsFeatured(after[k])
  {
    forall k | |before| <= k < |after|
      ensures after[k].data == items[k - |before|]
    {
      assert after[|before| + (k - |before|)].data == items[k - |before|];
    }
  }

  /**
   * With the seeded payload each accepted collection grows by 3, 4, 2 or 3
   * records whose `order` is 0, 1, 2, … in write order, projects all featured.
   */
  lemma SeededGrowth(db: Db, uid: string, p: Payload, e: Entity)
    requires uid != "" && UserPath(e, uid) !in db.refused && SeedShaped(p)
    ensures var before, after := Docs(db, UserPath(e, uid)), Docs(After(db, uid, p), UserPath(e, uid));
            && |after| == |before| + SeedCount(e)
            && after[..|before|] == before
            && (forall k :: |before| <= k < |after| ==>
                  "order" in after[k].data && after[k].data["order"] == Num(k - |before|))
            && (e == Projects ==> forall k :: |before| <= k < |after| ==> IsFeatured(after[k]))
  {
    MigrationAppends(db, uid, p, e);
    ShapedItems(p, e);
    AppendedShape(Docs(db, UserPath(e, uid)), Docs(After(db, uid, p), UserPath(e, uid)), p.Items(e));
  }

  /**
   * The legacy collections, the legacy profile and every other user's
   * content are left as they were.
   */
  lemma OthersUntouched(db: Db, uid: string, p: Payload, other: string, e: Entity)
    requires other != uid
    ensures Docs(After(db, uid, p), LegacyPath(e)) == Docs(db, LegacyPath(e))
    ensures Docs(After(db, uid, p), UserPath(e, other)) == Docs(db, UserPath(e, other))
    ensures After(db, uid, p).documents - WrittenPaths(uid) == db.documents - WrittenPaths(uid)
  {
    WrittenPathsNotLegacy(uid);
    WrittenPathsDisjoint(uid, other);
    assert UserPath(e, other) in WrittenPaths(other) by {
      match e
      case Projects =>
      case Achievements =>
      case Education =>
      case Extracurriculars =>
    }
    MigrationFrame(db, uid, p, LegacyPath(e));
    MigrationFrame(db, uid, p, UserPath(e, other));
    if uid != "" {
      ProfileOverwritten(db, uid, p);
      assert UserProfilePath(uid) in WrittenPaths(uid);
    }
  }

  /**
   * A failed run is not rolled back: with the profile path refused the run
   * rejects, yet the accepted project collection has still grown.
   */
  lemma NoRollback(db: Db, uid: string, p: Payload)
    requires uid != "" && WritesEveryList(p)
    requires UserProfilePath(uid) in db.refused && UserPath(Projects, uid) !in db.refused
    ensures MigrateAll(db, uid, p).result == Failure(WriteFailed(Refused(UserProfilePath(uid))))
    ensures |Docs(After(db, uid, p), UserPath(Projects, uid))| == |Docs(db, UserPath(Projects, uid))| + |p.projects|
  {
    MigrationResult(db, uid, p);
    MigrationGrows(db, uid, p, Projects);
  }

  /**
   * A collection whose tail is a run of records carrying `order` 0, 1, 2, …
   * (all featured, when only featured ones are asked for) is served as it
   * is: the user's query is not empty, so the reader does not fall back.
   */
  lemma ReadAppended(out: Db, e: Entity, uid: string, before: seq<Doc>, items: seq<Fields>, featuredOnly: bool)
    requires uid != "" && UserPath(e, uid) !in out.refused
    requires AppendedWith(before, Docs(out, UserPath(e, uid)), items) && items != []
    requires OrderedFromZero(items) && (featuredOnly ==> AllFeatured(items))
    ensures ReadList(out, e, featuredOnly, Some(uid)) == RenderAll(RunQuery(Docs(out, UserPath(e, uid)), featuredOnly))
    ensures ReadList(out, e, featuredOnly, Some(uid)) != []
  {
    var after := Docs(out, UserPath(e, uid));
    var d := after[|before|];
    assert d.data == items[0];
    assert Matches(d, featuredOnly);
    assert d in after;
    assert d in RunQuery(after, featuredOnly);
  }

  /** The query keeps a run of records carrying `order` 0, 1, 2, …, whole and in order. */
  lemma QueryKeepsRun(docs: seq<Doc>, items: seq<Fields>, featuredOnly: bool)
    requires AppendedWith([], docs, items)
    requires OrderedFromZero(items) && (featuredOnly ==> AllFeatured(items))
    ensures RunQuery(docs, featuredOnly) == docs
  {
    forall k | 0 <= k < |docs|
      ensures Matches(docs[k], featuredOnly) && OrderOf(docs[k]) == k
    {
      assert docs[0 + k].data == items[k];
    }
    FilterKeepsMatching(docs, featuredOnly);
    SortKeepsSorted(docs);
  }

  /** Rendering a record keeps its fields, adds `id`, and leaves its `order` alone. */
  lemma RenderOrdered(d: Doc, k: int)
    requires "order" in d.data && d.data["order"] == Num(k)
    ensures Render(d).Keys == d.data.Keys + {"id"} && Render(d)["order"] == Num(k)
  {
  }

  /** Rendering keeps each record's fields, adds `id`, and leaves `order` alone. */
  lemma RenderRun(docs: seq<Doc>)
    requires forall k :: 0 <= k < |docs| ==> "order" in docs[k].data && docs[k].data["order"] == Num(k)
    ensures forall k :: 0 <= k < |docs| ==>
              RenderAll(docs)[k].Keys == docs[k].data.Keys + {"id"} && RenderAll(docs)[k]["order"] == Num(k)
  {
    forall k | 0 <= k < |docs|
      ensures RenderAll(docs)[k].Keys == docs[k].data.Keys + {"id"} && RenderAll(docs)[k]["order"] == Num(k)
    {
      RenderOrdered(docs[k], k);
    }
  }

  /** A fresh run of records renders to one result per record, with its fields and `id`. */
  lemma RenderFresh(docs: seq<Doc>, items: seq<Fields>)
    requires AppendedWith([], docs, items) && OrderedFromZero(items)
    ensures |RenderAll(docs)| == |items|
    ensures forall k :: 0 <= k < |items| ==>
              RenderAll(docs)[k].Keys == items[k].Keys + {"id"} && RenderAll(docs)[k]["order"] == Num(k)
    ensures forall k, f :: 0 <= k < |items| && f in items[k] ==> RenderAll(docs)[k][f] == Normalize(items[k][f])
  {
    forall k | 0 <= k < |docs|
      ensures docs[k].data == items[k]
    {
      assert docs[0 + k].data == items[k];
    }
    RenderRun(docs);
  }

  /** A run of records carrying `order` 0, 1, 2, … is read back whole, in order. */
  lemma ReadFresh(out: Db, e: Entity, uid: string, items: seq<Fields>, featuredOnly: bool)
    requires uid != "" && UserPath(e, uid) !in out.refused
    requires AppendedWith([], Docs(out, UserPath(e, uid)), items) && items != []
    requires OrderedFromZero(items) && (featuredOnly ==> AllFeatured(items))
    ensures ReadList(out, e, featuredOnly, Some(uid)) == RenderAll(Docs(out, UserPath(e, uid)))
  {
    ReadAppended(out, e, uid, [], items, featuredOnly);
    QueryKeepsRun(Docs(out, UserPath(e, uid)), items, featuredOnly);
  }

  /**
   * After a run whose writes to collection `e` succeeded, the reader serves
   * the user's own collection and never falls back to the legacy one.
   */
  lemma ReadAfterMigration(db: Db, uid: string, p: Payload, e: Entity, featuredOnly: bool)
    requires uid != "" && UserPath(e, uid) !in db.refused && SeedShaped(p)
    requires featuredOnly ==> e == Projects
    ensures var out := After(db, uid, p);
            ReadList(out, e, featuredOnly, Some(uid)) == RenderAll(RunQuery(Docs(out, UserPath(e, uid)), featuredOnly))
    ensures ReadList(After(db, uid, p), e, featuredOnly, Some(uid)) != []
  {
    MigrationAppends(db, uid, p, e);
    ShapedItems(p, e);
    ReadAppended(After(db, uid, p), e, uid, Docs(db, UserPath(e, uid)), p.Items(e), featuredOnly);
  }

  /**
   * A list read back record for record from the seed records `items`: the
   * same fields plus `id`, `order` counting from 0, every field converted.
   */
  predicate ReadsBack(r: seq<Fields>, items: seq<Fields>)
  {
    && |r| == |items|
    && (forall k :: 0 <= k < |r| ==> r[k].Keys == items[k].Keys + {"id"} && "order" in r[k] && r[k]["order"] == Num(k))
    && (forall k, f :: 0 <= k < |r| && f in items[k] ==> r[k][f] == Normalize(items[k][f]))
  }

  /**
   * A user whose collection was empty reads back exactly the seeded records,
   * in seed order, each with its id attached and its `order` equal to its
   * position.
   */
  lemma FreshReadAfterMigration(db: Db, uid: string, p: Payload, e: Entity, featuredOnly: bool)
    requires uid != "" && UserPath(e, uid) !in db.refused && SeedShaped(p)
    requires featuredOnly ==> e == Projects
    requires Docs(db, UserPath(e, uid)) == []
    ensures var r := ReadList(After(db, uid, p), e, featuredOnly, Some(uid));
            |r| == SeedCount(e) && ReadsBack(r, p.Items(e))
  {
    var out := After(db, uid, p);
    MigrationAppends(db, uid, p, e);
    ShapedItems(p, e);
    ReadFresh(out, e, uid, p.Items(e), featuredOnly);
    RenderFresh(Docs(out, UserPath(e, uid)), p.Items(e));
  }

  /**
   * The code's own seed data: each accepted collection grows by 3, 4, 2 or
   * 3 records whose `order` is 0, 1, 2, … after the old ones, projects all
   * featured.
   */
  lemma DefaultMigrationGrowth(db: Db, uid: string, now: int, e: Entity)
    requires uid != "" && UserPath(e, uid) !in db.refused
    ensures var before, after := Docs(db, UserPath(e, uid)), Docs(After(db, uid, DefaultPayload(now)), UserPath(e, uid));
            && |after| == |before| + SeedCount(e)
            && after[..|before|] == before
            && (forall k :: |before| <= k < |after| ==>
                  "order" in after[k].data && after[k].data["order"] == Num(k - |before|))
            && (e == Projects ==> forall k :: |before| <= k < |after| ==> IsFeatured(after[k]))
  {
    DefaultPayloadShape(now);
    SeededGrowth(db, uid, DefaultPayload(now), e);
  }

  /**
   * With the code's own seed data, a user whose collection was empty reads
   * back exactly the seeded records, in seed order.
   */
  lemma DefaultFreshReadBack(db: Db, uid: string, now: int, e: Entity, featuredOnly: bool)
    requires uid != "" && UserPath(e, uid) !in db.refused
    requires featuredOnly ==> e == Projects
    requires Docs(db, UserPath(e, uid)) == []
    ensures var r := ReadList(After(db, uid, DefaultPayload(now)), e, featuredOnly, Some(uid));
            |r| == SeedCount(e) && ReadsBack(r, DefaultPayload(now).Items(e))
  {
    DefaultPayloadShape(now);
    FreshReadAfterMigration(db, uid, DefaultPayload(now), e, featuredOnly);
  }

  /** With the code's own seed data and no written path refused, the migration returns true. */
  lemma DefaultMigrationSucceeds(db: Db, uid: string, now: int)
    requires uid != "" && WrittenPaths(uid) !! db.refused
    ensures MigrateAll(db, uid, DefaultPayload(now)).result == Success(true)
  {
    DefaultPayloadShape(now);
    SeededMigrationSucceeds(db, uid, DefaultPayload(now));
  }

  /** After a run whose profile write succeeded, getProfile serves it, converted. */
  lemma ProfileAfterMigration(db: Db, uid: string, p: Payload)
    requires uid != "" && UserProfilePath(uid) !in db.refused
    ensures GetProfile(After(db, uid, p), Some(uid)) == Some(NormalizeFields(p.profile))
  {
    ProfileOverwritten(db, uid, p);
  }

  /** A store that accepts the written paths accepts each of the five. */
  lemma AcceptedPaths(db: Db, uid: string)
    requires WrittenPaths(uid) !! db.refused
    ensures UserProfilePath(uid) !in db.refused
    ensures forall e :: UserPath(e, uid) !in db.refused
  {
    assert UserProfilePath(uid) in WrittenPaths(uid);
    forall e
      ensures UserPath(e, uid) !in db.refused
    {
      assert UserPath(e, uid) == TargetPath(ListOf(e), uid);
      match e
      case Projects =>
      case Achievements =>
      case Education =>
      case Extracurriculars =>
    }
  }

  /**
   * A run whose every write is accepted overwrites the profile and appends
   * every record of every list.
   */
  lemma AcceptedMigrationWritesAll(db: Db, uid: string, p: Payload)
    requires uid != "" && WrittenPaths(uid) !! db.refused
    ensures After(db, uid, p).documents == db.documents[UserProfilePath(uid) := p.profile]
    ensures forall e :: |Docs(After(db, uid, p), UserPath(e, uid))| == |Docs(db, UserPath(e, uid))| + |p.Items(e)|
  {
    AcceptedPaths(db, uid);
    ProfileOverwritten(db, uid, p);
    forall e
      ensures |Docs(After(db, uid, p), UserPath(e, uid))| == |Docs(db, UserPath(e, uid))| + |p.Items(e)|
    {
      MigrationGrows(db, uid, p, e);
    }
  }

  /** With seed-shaped data, a run whose every write is accepted resolves to true. */
  lemma SeededMigrationSucceeds(db: Db, uid: string, p: Payload)
    requires uid != "" && WrittenPaths(uid) !! db.refused && SeedShaped(p)
    ensures MigrateAll(db, uid, p).result == Success(true)
  {
    ShapedWritesEveryList(p);
    AcceptedMigrationSucceeds(db, uid, p);
  }

  /**
   * A run keeps the store's ids valid: every record it adds gets an id that
   * no other document of its collection has.
   */
  lemma MigrationKeepsIds(db: Db, uid: string, p: Payload)
    requires IdsValid(db)
    ensures IdsValid(After(db, uid, p))
  {
    if uid != "" {
      var s1 := SetDocStep(db, UserProfilePath(uid), p.profile);
      SetDocEffect(db, UserProfilePath(uid), p.profile);
      IdsValidOfSameCollections(db, s1.db);
      var s2 := AppendStep(s1.db, UserPath(Projects, uid), p.projects);
      AppendKeepsIds(s1.db, UserPath(Projects, uid), p.projects);
      var s3 := AppendStep(s2.db, UserPath(Achievements, uid), p.achievements);
      AppendKeepsIds(s2.db, UserPath(Achievements, uid), p.achievements);
      var s4 := AppendStep(s3.db, UserPath(Education, uid), p.education);
      AppendKeepsIds(s3.db, UserPath(Education, uid), p.education);
      AppendKeepsIds(s4.db, UserPath(Extracurriculars, uid), p.extracurriculars);
    }
  }

  /** A migration whose every write is accepted resolves to true. */
  lemma AcceptedMigrationSucceeds(db: Db, uid: string, p: Payload)
    requires uid != "" && WrittenPaths(uid) !! db.refused && WritesEveryList(p)
    ensures MigrateAll(db, uid, p).result == Success(true)
  {
    MigrationResult(db, uid, p);
  }

  /** A profile field written as a server timestamp reads back as a date at that instant. */
  lemma ProfileTimestampReadsBack(db: Db, uid: string, p: Payload, k: string)
    requires uid != "" && UserProfilePath(uid) !in db.refused
    requires k in p.profile && p.profile[k].Timestamp?
    ensures var profile := GetProfile(After(db, uid, p), Some(uid));
            profile.Some? && k in profile.value && profile.value[k] == Date(p.profile[k].millis)
  {
    ProfileAfterMigration(db, uid, p);
    FieldNormalization(p.profile, k);
  }
}
