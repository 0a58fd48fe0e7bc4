/**
 * The migration runner of src/utils/dataMigration.ts: a store object whose
 * methods overwrite the profile document and append the seeded records to
 * the user's four collections, each method tied to a pure function of the
 * store it starts from.
 */
module Migration {
  import opened Wrappers
  import opened Values
  import opened Store
  import opened Seeds

  datatype MigrationError = MissingUserId | WriteFailed(cause: StoreError)

  /** What one write step leaves behind: the new store and, if it threw, why. */
  datatype Step = Step(db: Db, failure: Option<MigrationError>)

  /** What `migrateAllData` leaves behind: the new store and its outcome. */
  datatype Outcome = Outcome(db: Db, result: Result<bool, MigrationError>)

  function DigitChar(d: nat): char
    requires d < 10
  {
    "0123456789"[d]
  }

  /** The id `addDoc` assigns to the n-th document it creates, in decimal. */
  function AutoId(n: nat): (r: string)
    ensures |r| > 0
    ensures r[|r| - 1] == DigitChar(n % 10)
  {
    if n < 10 then [DigitChar(n)] else AutoId(n / 10) + [DigitChar(n % 10)]
  }

  /** Items stored with consecutive ids, starting at `first`. */
  function Minted(items: seq<Fields>, first: nat): seq<Doc>
  {
    seq(|items|, k requires 0 <= k < |items| => Doc(AutoId(first + k), items[k]))
  }

  lemma DigitCharInjective(d: nat, e: nat)
    requires d < 10 && e < 10 && DigitChar(d) == DigitChar(e)
    ensures d == e
  {
  }

  /** A one-digit counter gives a one-character id, a larger one a longer id. */
  lemma AutoIdLength(n: nat)
    ensures n < 10 <==> |AutoId(n)| == 1
  {
  }

  /** Different counter values give different ids. */
  lemma {:induction false} AutoIdInjective(n: nat, m: nat)
    requires AutoId(n) == AutoId(m)
    ensures n == m
  {
    DigitCharInjective(n % 10, m % 10);
    AutoIdLength(n);
    AutoIdLength(m);
    if n >= 10 && m >= 10 {
      var a := AutoId(n);
      assert AutoId(n / 10) == a[..|a| - 1];
      assert AutoId(m / 10) == a[..|a| - 1];
      AutoIdInjective(n / 10, m / 10);
    }
  }

  lemma MintedSnoc(items: seq<Fields>, first: nat, i: nat)
    requires i < |items|
    ensures Minted(items[..i + 1], first) == Minted(items[..i], first) + [Doc(AutoId(first + i), items[i])]
  {
  }

  /** `setDoc`: overwrite the document at `path`, or fail leaving the store as it was. */
  function SetDocStep(db: Db, path: string, data: Fields): Step
  {
    if path in db.refused then Step(db, Some(WriteFailed(Refused(path))))
    else Step(db.(documents := db.documents[path := data]), None)
  }

  /** A `setDoc` fails exactly on a refused path and otherwise changes that one document. */
  lemma SetDocEffect(db: Db, path: string, data: Fields)
    ensures var r := SetDocStep(db, path, data);
            && (r.failure.Some? <==> path in db.refused)
            && (r.failure.Some? ==> r.db == db && r.failure.value == WriteFailed(Refused(path)))
            && (r.failure.None? ==> path in r.db.documents && r.db.documents[path] == data)
            && r.db.documents - {path} == db.documents - {path}
            && r.db.collections == db.collections && r.db.refused == db.refused && r.db.nextId == db.nextId
  {
  }

  /** `addDoc`: append one document with a fresh id, or fail leaving the store as it was. */
  function AddDocStep(db: Db, path: string, data: Fields): Step
  {
    if path in db.refused then Step(db, Some(WriteFailed(Refused(path))))
    else Step(db.(collections := db.collections[path := Docs(db, path) + [Doc(AutoId(db.nextId), data)]],
                  nextId := db.nextId + 1), None)
  }

  /** The `for ... of` loop of `addDoc` calls, stopping at the first failure. */
  function AppendStep(db: Db, path: string, items: seq<Fields>): Step
  {
    if items == [] then Step(db, None)
    else if path in db.refused then Step(db, Some(WriteFailed(Refused(path))))
    else Step(db.(collections := db.collections[path := Docs(db, path) + Minted(items, db.nextId)],
                  nextId := db.nextId + |items|), None)
  }

  /**
   * The loop fails exactly when it has something to write to a refused path;
   * otherwise the items follow the collection's old documents, in order,
   * under the next ids of the counter.
   */
  lemma AppendEffect(db: Db, path: string, items: seq<Fields>)
    ensures var r := AppendStep(db, path, items);
            && (r.failure.Some? <==> items != [] && path in db.refused)
            && (r.failure.Some? ==> r.db == db && r.failure.value == WriteFailed(Refused(path)))
            && (r.failure.None? ==> Docs(r.db, path) == Docs(db, path) + Minted(items, db.nextId)
                                    && r.db.nextId == db.nextId + |items|)
            && r.db.documents == db.documents && r.db.refused == db.refused
  {
  }

  /** The loop changes no collection but its own. */
  lemma AppendStepFrame(db: Db, path: string, items: seq<Fields>, q: string)
    requires q != path
    ensures Docs(AppendStep(db, path, items).db, q) == Docs(db, q)
  {
  }

  /** One more `addDoc` extends the appended run by the next item. */
  lemma AppendOneMore(db: Db, path: string, items: seq<Fields>, i: nat)
    requires i < |items| && path !in db.refused
    ensures AddDocStep(AppendStep(db, path, items[..i]).db, path, items[i])
         == AppendStep(db, path, items[..i + 1])
  {
    var before := AppendStep(db, path, items[..i]).db;
    MintedSnoc(items, db.nextId, i);
    assert Docs(before, path) == Docs(db, path) + Minted(items[..i], db.nextId);
    assert Docs(db, path) + Minted(items[..i + 1], db.nextId)
        == (Docs(db, path) + Minted(items[..i], db.nextId)) + [Doc(AutoId(db.nextId + i), items[i])];
  }

  /** `id` is one that `addDoc` hands out at counter value `n` or later. */
  ghost predicate MintedFrom(id: string, n: nat)
  {
    exists k: nat :: n <= k && id == AutoId(k)
  }

  predicate UniqueIds(docs: seq<Doc>)
  {
    forall i, j :: 0 <= i < j < |docs| ==> docs[i].id != docs[j].id
  }

  /**
   * The ids of a store: within each collection no two documents share an id,
   * and no stored id is one the counter has yet to hand out.
   */
  ghost predicate IdsValid(db: Db)
  {
    && (forall path :: path in db.collections ==> UniqueIds(db.collections[path]))
    && (forall path, i :: path in db.collections && 0 <= i < |db.collections[path]| ==>
          !MintedFrom(db.collections[path][i].id, db.nextId))
  }

  /** Validity of ids depends only on the collections and the counter. */
  lemma IdsValidOfSameCollections(a: Db, b: Db)
    requires IdsValid(a) && a.collections == b.collections && a.nextId == b.nextId
    ensures IdsValid(b)
  {
  }

  /** One `addDoc` gives its document an id new to its collection, and keeps ids valid. */
  lemma AddDocKeepsIds(db: Db, path: string, data: Fields)
    requires IdsValid(db)
    ensures var r := AddDocStep(db, path, data);
            && IdsValid(r.db)
            && (r.failure.None? ==> forall d :: d in Docs(db, path) ==> d.id != AutoId(db.nextId))
  {
    if path !in db.refused {
      var newId := AutoId(db.nextId);
      var r := AddDocStep(db, path, data).db;
      forall d | d in Docs(db, path)
        ensures d.id != newId
      {
        var i :| 0 <= i < |Docs(db, path)| && Docs(db, path)[i] == d;
        assert path in db.collections && db.collections[path][i] == d;
        assert !MintedFrom(d.id, db.nextId);
        assert MintedFrom(newId, db.nextId);
      }
      forall q, i | q in r.collections && 0 <= i < |r.collections[q]|
        ensures !MintedFrom(r.collections[q][i].id, r.nextId)
      {
        var id := r.collections[q][i].id;
        if MintedFrom(id, r.nextId) {
          var k: nat :| r.nextId <= k && id == AutoId(k);
          if q == path && i == |Docs(db, path)| {
            AutoIdInjective(k, db.nextId);
          } else {
            assert q in db.collections && id == db.collections[q][i].id;
            assert MintedFrom(id, db.nextId);
          }
        }
      }
      forall q | q in r.collections
        ensures UniqueIds(r.collections[q])
      {
        if q == path {
          var s := r.collections[q];
          forall i, j | 0 <= i < j < |s|
            ensures s[i].id != s[j].id
          {
            if j == |Docs(db, path)| {
              assert s[i] in Docs(db, path);
            } else {
              assert s[i] == Docs(db, path)[i] && s[j] == Docs(db, path)[j];
            }
          }
        }
      }
    }
  }

  lemma {:induction false} AppendPrefixKeepsIds(db: Db, path: string, items: seq<Fields>, i: nat)
    requires i <= |items| && path !in db.refused && IdsValid(db)
    ensures IdsValid(AppendStep(db, path, items[..i]).db)
  {
    if i == 0 {
      assert items[..0] == [];
    } else {
      var prev := AppendStep(db, path, items[..i - 1]).db;
      AppendPrefixKeepsIds(db, path, items, i - 1);
      AppendOneMore(db, path, items, i - 1);
      AddDocKeepsIds(prev, path, items[i - 1]);
      assert AppendStep(db, path, items[..i]).db == AddDocStep(prev, path, items[i - 1]).db;
    }
  }

  /**
   * The `addDoc` loop keeps ids valid: every document it adds has an id no
   * other document of its collection has.
   */
  lemma AppendKeepsIds(db: Db, path: string, items: seq<Fields>)
    requires IdsValid(db)
    ensures IdsValid(AppendStep(db, path, items).db)
  {
    if path !in db.refused {
      AppendPrefixKeepsIds(db, path, items, |items|);
      assert items[..|items|] == items;
    }
  }

  /** The first failure among the sub-migrations, in the order they are listed. */
  function FirstFailure(failures: seq<Option<MigrationError>>): (r: Result<bool, MigrationError>)
    ensures r.Success? <==> forall i :: 0 <= i < |failures| ==> failures[i].None?
    ensures r.Success? ==> r.value
    ensures r.Failure? ==> exists i :: 0 <= i < |failures| && failures[i] == Some(r.error)
  {
    if failures == [] then Success(true)
    else if failures[0].Some? then Failure(failures[0].value)
    else
      var rest := FirstFailure(failures[1..]);
      assert forall i :: 1 <= i < |failures| ==> failures[i] == failures[1..][i - 1];
      if rest.Failure? then
        var j :| 0 <= j < |failures[1..]| && failures[1..][j] == Some(rest.error);
        assert failures[j + 1] == Some(rest.error);
        rest
      else rest
  }

  /**
   * `migrateAllData(userId)`: reject an empty id before any write; otherwise
   * run all five sub-migrations — each one runs whether or not another
   * failed, and nothing is rolled back — and report the first failure.
   */
  function MigrateAll(db: Db, uid: string, p: Payload): Outcome
  {
    if uid == "" then Outcome(db, Failure(MissingUserId))
    else
      var s1 := SetDocStep(db, UserProfilePath(uid), p.profile);
      var s2 := AppendStep(s1.db, UserPath(Projects, uid), p.projects);
      var s3 := AppendStep(s2.db, UserPath(Achievements, uid), p.achievements);
      var s4 := AppendStep(s3.db, UserPath(Education, uid), p.education);
      var s5 := AppendStep(s4.db, UserPath(Extracurriculars, uid), p.extracurriculars);
      Outcome(s5.db, FirstFailure([s1.failure, s2.failure, s3.failure, s4.failure, s5.failure]))
  }

  /** The store, with the writes the migration makes. */
  class ContentStore {
    var collections: map<string, seq<Doc>>
    var documents: map<string, Fields>
    const refused: set<string>
    var nextId: nat

    function State(): Db
      reads this
    {
      Db(collections, documents, refused, nextId)
    }

    constructor (db: Db)
      ensures State() == db
    {
      collections := db.collections;
      documents := db.documents;
      refused := db.refused;
      nextId := db.nextId;
    }

    method SetDoc(path: string, data: Fields) returns (failure: Option<MigrationError>)
      modifies this
      ensures Step(State(), failure) == SetDocStep(old(State()), path, data)
    {
      if path in refused {
        return Some(WriteFailed(Refused(path)));
      }
      documents := documents[path := data];
      failure := None;
    }

    method AddDoc(path: string, data: Fields) returns (failure: Option<MigrationError>)
      modifies this
      ensures Step(State(), failure) == AddDocStep(old(State()), path, data)
    {
      if path in refused {
        return Some(WriteFailed(Refused(path)));
      }
      var existing := if path in collections then collections[path] else [];
      collections := collections[path := existing + [Doc(AutoId(nextId), data)]];
      nextId := nextId + 1;
      failure := None;
    }

    /** `for (const item of items) await addDoc(collection, item)`. */
    method AddAll(path: string, items: seq<Fields>) returns (failure: Option<MigrationError>)
      modifies this
      ensures Step(State(), failure) == AppendStep(old(State()), path, items)
    {
      ghost var start := State();
      failure := None;
      var i := 0;
      while i < |items|
        invariant 0 <= i <= |items|
        invariant path in start.refused ==> i == 0
        invariant State() == AppendStep(start, path, items[..i]).db
        invariant failure.None?
      {
        failure := AddDoc(path, items[i]);
        if failure.Some? {
          return;
        }
        AppendOneMore(start, path, items, i);
        i := i + 1;
      }
      assert items[..i] == items;
    }

    method MigrateProfile(uid: string, now: int) returns (failure: Option<MigrationError>)
      modifies this
      ensures Step(State(), failure) == SetDocStep(old(State()), UserProfilePath(uid), ProfileSeed(now))
    {
      failure := SetDoc(UserProfilePath(uid), ProfileSeed(now));
    }

    method MigrateProjects(uid: string, now: int) returns (failure: Option<MigrationError>)
      modifies this
      ensures Step(State(), failure) == AppendStep(old(State()), UserPath(Projects, uid), ProjectSeeds(now))
    {
      failure := AddAll(UserPath(Projects, uid), ProjectSeeds(now));
    }

    method MigrateAchievements(uid: string, now: int) returns (failure: Option<MigrationError>)
      modifies this
      ensures Step(State(), failure) == AppendStep(old(State()), UserPath(Achievements, uid), AchievementSeeds(now))
    {
      failure := AddAll(UserPath(Achievements, uid), AchievementSeeds(now));
    }

    method MigrateEducation(uid: string, now: int) returns (failure: Option<MigrationError>)
      modifies this
      ensures Step(State(), failure) == AppendStep(old(State()), UserPath(Education, uid), EducationSeeds(now))
    {
      failure := AddAll(UserPath(Education, uid), EducationSeeds(now));
    }

    method MigrateExtracurriculars(uid: string, now: int) returns (failure: Option<MigrationError>)
      modifies this
      ensures Step(State(), failure) == AppendStep(old(State()), UserPath(Extracurriculars, uid), ExtracurricularSeeds(now))
    {
      failure := AddAll(UserPath(Extracurriculars, uid), ExtracurricularSeeds(now));
    }

    /** `migrateAllData(userId)`, with `now` the server's clock. */
    method MigrateAllData(uid: string, now: int) returns (result: Result<bool, MigrationError>)
      modifies this
      ensures Outcome(State(), result) == MigrateAll(old(State()), uid, DefaultPayload(now))
      ensures uid == "" ==> result == Failure(MissingUserId) && State() == old(State())
      ensures result.Success? ==> result.value
    {
      if uid == "" {
        return Failure(MissingUserId);
      }
      var f1 := MigrateProfile(uid, now);
      var f2 := MigrateProjects(uid, now);
      var f3 := MigrateAchievements(uid, now);
      var f4 := MigrateEducation(uid, now);
      var f5 := MigrateExtracurriculars(uid, now);
      result := FirstFailure([f1, f2, f3, f4, f5]);
    }
  }
}
