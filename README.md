# Portfolio content store: readers and per-user migration

This project models the data layer of a personal portfolio web site whose
content (a profile, projects, academic achievements, education and
extracurricular activities) lives in a Firestore document store.

* `src/utils/firestore.ts` reads the content. `convertTimestamps` turns every
  store `Timestamp` into a JavaScript `Date`, descending into nested plain
  objects but not into arrays. `getProfile` and the four list readers
  (`getProjects`, `getAchievements`, `getEducation`, `getExtracurriculars`)
  read from a user's own area `users/{uid}/content/...` when a user id is
  given, and from the legacy global collections otherwise. They fall back to
  the legacy data when the user's own result is empty, order lists by their
  `order` field, attach each document's id, and turn any store failure into
  `null` or `[]`.
* `src/utils/dataMigration.ts` seeds a user's content area.
  `migrateAllData(userId)` rejects an empty id. Otherwise it runs five
  sub-migrations: one overwrites the user's profile document with `setDoc`,
  and the other four append fixed records, one `addDoc` at a time, to the
  user's four item collections. It reports the failure of any of them.

The model is split into these modules:

* `Values`: field values, and `convertTimestamps` as a loop over the
  object's keys proved against the recursive function `Normalize`.
* `Store`: a snapshot of the store. It holds the collections, the single
  documents, the set of paths whose reads and writes fail, and a counter for
  generated ids. It also defines the query (filter, then a stable sort by
  `order`).
* `Readers`: the five readers, as functions of a snapshot.
* `Seeds`: the seeded profile and records.
* `Migration`: the write steps as functions, plus the class `ContentStore`.
  Its methods change the store in place, and each is proved equal to its
  step function.
* `Paths`: facts about the paths both files build.
* `MigrationProperties`: what one migration run (or several runs) does to
  the store and to what the readers then return.

`convertTimestamps` is not idempotent. A `Date` is an object, so a second
pass rebuilds it from its own enumerable keys, of which it has none, and the
date becomes `{}` (`Values.NormalizeTwiceLosesDates`).

The store itself is a plain snapshot with no contracts of its own to prove:
`Store.GetDocs` and `Store.GetDoc` read a collection or a document, failing
on a refused path. `Readers.QueryAt` is `getDocs` on a query, and
`Readers.RenderAll` maps `Readers.Render` over a snapshot. `Migration.Minted`
pairs each item with the next counter id. These are transparent definitions
that the lemmas below unfold. The legacy profile lives at the constant
`Store.LegacyProfilePath` (`profile/main`, `src/utils/firestore.ts` line 44).

## Model

| member | source | states |
|---|---|---|
| Values.Normalize | src/utils/firestore.ts:23-28 | the value left under one key: a timestamp becomes a date, a plain object (or a `Date`) is rebuilt from its converted own fields, anything else is kept |
| Values.NormalizeFields | src/utils/firestore.ts:20-32 | the converted object has exactly the keys of the input object |
| Values.ConvertTimestamps | src/utils/firestore.ts:20-32 | the loop over `Object.keys(obj)` on a copy of `obj` yields the recursive conversion of `obj`'s own fields |
| Values.NormalizePlainObject | src/utils/firestore.ts:26-27 | converting a nested plain object (or a `Date`, which is an object) rebuilds it from its converted own fields |
| Values.FieldNormalization | src/utils/firestore.ts:23-28 | per key: a timestamp becomes the date of the same instant, a plain object is converted recursively, anything else is kept unchanged |
| Values.NormalizeRemovesTimestamps | src/utils/firestore.ts:20-32 | no timestamp is left in a converted value outside arrays, which the conversion does not enter |
| Values.NormalizeFieldsRemovesTimestamps | src/utils/firestore.ts:20-32 | no timestamp is left in a converted object outside arrays, which the conversion does not enter |
| Values.NormalizeKeepsPlain | src/utils/firestore.ts:20-32 | a value without timestamps and without dates is returned unchanged |
| Values.ArraysAreNotEntered | src/utils/firestore.ts:26 | a timestamp inside an array stays a timestamp, while the same timestamp inside a nested object becomes a date |
| Values.NormalizeTwiceLosesDates | src/utils/firestore.ts:26-27 | a second conversion turns a converted date field into an empty object, so the conversion is not idempotent |
| Store.UserProfilePath | src/utils/firestore.ts:41 | the user's own profile document `users/{uid}/content/profile` |
| Store.UserPath | src/utils/firestore.ts:78 | a user's own item collection, e.g. `users/{uid}/content/projects/items` |
| Store.LegacyPath | src/utils/firestore.ts:81 | the legacy global collection, e.g. `projects` |
| Store.Filter | src/utils/firestore.ts:86-97 | keeps exactly the documents with a numeric `order` (and `featured == true` when asked), and each of them exactly as often as it occurs in the input, so none is added or duplicated |
| Store.Insert | src/utils/firestore.ts:90 | inserting into a list sorted by `order` keeps it sorted and adds exactly that document |
| Store.SortByOrder | src/utils/firestore.ts:95 | the result is sorted by ascending `order` and is a permutation of the input |
| Store.RunQuery | src/utils/firestore.ts:86-99 | the query result is sorted by `order`, holds only matching documents, holds every matching document exactly as often as the collection does, and no other |
| Store.RunQueryEmpty | src/utils/firestore.ts:102 | a query result is empty iff no document of the collection matches |
| Store.SortKeepsSorted | src/utils/firestore.ts:90 | sorting a list already in ascending `order` returns it unchanged |
| Store.FilterKeepsMatching | src/utils/firestore.ts:89 | filtering a list whose documents all match leaves it as it is |
| Readers.Render | src/utils/firestore.ts:118-123 | a rendered document has the stored keys plus `id`; `id` is the document id unless the data has its own `id`, which wins; every field is converted |
| Readers.Present | src/utils/firestore.ts:39 | the truthiness test on `userId`: present and not the empty string |
| Readers.ListFrom | src/utils/firestore.ts:104-127 | one query against one path, rendered, with a failed read giving `[]` |
| Readers.ListFromWellFormed | src/utils/firestore.ts:86-127 | whatever a single path yields is ordered by a numeric `order`, featured when asked, carries `id`, and holds no timestamp outside arrays |
| Readers.ReadList | src/utils/firestore.ts:72-128 | without a user only the legacy collection is read; a non-empty user result is returned alone; an empty user result gives exactly the legacy result; a refused user read gives `[]`; the result is always well formed |
| Readers.GetProjects | src/utils/firestore.ts:72-128 | the projects list is ordered, featured-only when asked, has ids and no timestamp outside arrays |
| Readers.GetAchievements | src/utils/firestore.ts:131-174 | the achievements list is ordered, has ids and no timestamp outside arrays |
| Readers.GetEducation | src/utils/firestore.ts:177-220 | the education list is ordered, has ids and no timestamp outside arrays |
| Readers.GetExtracurriculars | src/utils/firestore.ts:223-266 | the extracurriculars list is ordered, has ids and no timestamp outside arrays |
| Readers.ProfileFrom | src/utils/firestore.ts:51-64 | a profile is returned iff the read succeeds and the document exists, and it is then the converted stored data, with no timestamp left outside arrays; otherwise `null` |
| Readers.GetProfile | src/utils/firestore.ts:35-69 | without a user the legacy profile is read; a stored user profile is returned converted, without an id; a missing one falls back to the legacy profile; a refused read gives `null`; no timestamp outside arrays |
| Seeds.ProfileSeed | src/utils/dataMigration.ts:41-51 | the profile fields `migrateProfile` writes |
| Seeds.ProjectSeeds | src/utils/dataMigration.ts:67-101 | the three project records `migrateProjects` writes, in order |
| Seeds.AchievementSeeds | src/utils/dataMigration.ts:122-151 | the four achievement records `migrateAchievements` writes, in order |
| Seeds.EducationSeeds | src/utils/dataMigration.ts:172-196 | the two education records `migrateEducation` writes, in order |
| Seeds.ExtracurricularSeeds | src/utils/dataMigration.ts:217-249 | the three activity records `migrateExtracurriculars` writes, in order |
| Seeds.Record | src/utils/dataMigration.ts:67-101 | a seeded record carries its own fields plus `order` (its position) and `createdAt` |
| Seeds.ProfileSeedStamped | src/utils/dataMigration.ts:49-50 | the seeded profile's `createdAt` and `updatedAt` are the server's timestamp |
| Seeds.Project | src/utils/dataMigration.ts:67-101 | every seeded project is featured and carries its `order` |
| Seeds.ProjectSeedShape | src/utils/dataMigration.ts:67-101 | three projects, with `order` 0, 1, 2 in write order, all featured |
| Seeds.AchievementSeedShape | src/utils/dataMigration.ts:122-151 | four achievements, with `order` 0 to 3 in write order |
| Seeds.EducationSeedShape | src/utils/dataMigration.ts:172-196 | two education records, with `order` 0 and 1 in write order |
| Seeds.ExtracurricularSeedShape | src/utils/dataMigration.ts:217-249 | three extracurricular records, with `order` 0 to 2 in write order |
| Seeds.DefaultPayloadShape | src/utils/dataMigration.ts:61-254 | the data the migration writes has 3/4/2/3 records ordered from zero, with the projects featured |
| Migration.AutoId | src/utils/dataMigration.ts:105 | a generated id is a non-empty decimal numeral ending in the counter's last digit |
| Migration.AutoIdInjective | src/utils/dataMigration.ts:105 | different counter values give different ids |
| Migration.SetDocStep | src/utils/dataMigration.ts:41-51 | `setDoc` as a step on the store: overwrite one document, or fail on a refused path |
| Migration.AddDocStep | src/utils/dataMigration.ts:105 | `addDoc` as a step on the store: append one document under the next counter id, or fail on a refused path |
| Migration.AppendStep | src/utils/dataMigration.ts:104-106 | the whole `for ... of` loop of `addDoc` calls as one step |
| Migration.AddDocKeepsIds | src/utils/dataMigration.ts:105 | on a store whose ids are valid, `addDoc` gives its document an id no document of that collection has, and the store's ids stay valid |
| Migration.AppendKeepsIds | src/utils/dataMigration.ts:104-106 | the `addDoc` loop keeps a store's ids valid: ids stay unique within each collection, and none is one the counter has yet to hand out |
| Migration.SetDocEffect | src/utils/dataMigration.ts:41-51 | `setDoc` fails iff the path is refused, leaving the store unchanged; otherwise it overwrites exactly that document and nothing else |
| Migration.AppendEffect | src/utils/dataMigration.ts:104-106 | the `addDoc` loop fails iff there is an item and the path is refused, leaving the store unchanged; otherwise the collection grows by the items, in order, under the next counter ids, and no document is touched |
| Migration.AppendStepFrame | src/utils/dataMigration.ts:104-106 | the `addDoc` loop leaves every other collection as it was |
| Migration.MigrateAll | src/utils/dataMigration.ts:12-32 | `migrateAllData` on a snapshot: reject an empty id, else run the five steps in listed order, each whatever the others did, and report the first failure |
| Migration.FirstFailure | src/utils/dataMigration.ts:18-31 | the run succeeds (with `true`) iff no sub-migration failed, and otherwise reports an error one of them raised |
| Migration.ContentStore.constructor | src/utils/dataMigration.ts:9 | the store object starts from the given snapshot |
| Migration.ContentStore.SetDoc | src/utils/dataMigration.ts:41-51 | the in-place `setDoc` leaves the state and failure of the `setDoc` step |
| Migration.ContentStore.AddDoc | src/utils/dataMigration.ts:105 | the in-place `addDoc` leaves the state and failure of one append |
| Migration.ContentStore.AddAll | src/utils/dataMigration.ts:104-106 | the loop of `addDoc` calls, stopping at the first failure, leaves the state and failure of the whole append step |
| Migration.ContentStore.MigrateProfile | src/utils/dataMigration.ts:35-58 | overwrites `users/{uid}/content/profile` with the seeded profile, or fails leaving the store unchanged |
| Migration.ContentStore.MigrateProjects | src/utils/dataMigration.ts:61-113 | appends the three seeded projects to the user's projects collection, or fails |
| Migration.ContentStore.MigrateAchievements | src/utils/dataMigration.ts:116-163 | appends the four seeded achievements to the user's academic achievements collection, or fails |
| Migration.ContentStore.MigrateEducation | src/utils/dataMigration.ts:166-208 | appends the two seeded education records to the user's education collection, or fails |
| Migration.ContentStore.MigrateExtracurriculars | src/utils/dataMigration.ts:211-261 | appends the three seeded activities to the user's extracurricular activities collection, or fails |
| Migration.ContentStore.MigrateAllData | src/utils/dataMigration.ts:12-32 | an empty user id is rejected before any write; otherwise all five sub-migrations run and the outcome is the migration function's; success is always `true` |
| Paths.TargetPath | src/utils/dataMigration.ts:38-64 | the written paths are the user's profile document and the user's item collections |
| Paths.SameTarget | src/utils/dataMigration.ts:38-64 | two equal written paths name the same document or collection, whoever the users are |
| Paths.DistinctUsers | src/utils/firestore.ts:39-41 | the same content for two different users lives at two different paths |
| Paths.TargetPathInjective | src/utils/dataMigration.ts:38-64 | each written path belongs to exactly one user and one target |
| Paths.WrittenPathsInUserArea | src/utils/dataMigration.ts:38-64 | every written path lies under `users/{uid}/content/` |
| Paths.WrittenPathsNotLegacy | src/utils/firestore.ts:43-44 | no written path is the legacy profile or a legacy collection |
| Paths.WrittenPathsDisjoint | src/utils/dataMigration.ts:38-64 | two different users have no written path in common |
| MigrationProperties.ShapedWritesEveryList | src/utils/dataMigration.ts:67-101 | seeded payloads write at least one record to every list |
| MigrationProperties.UserPathsDistinct | src/utils/dataMigration.ts:38-64 | one user's four collections and profile are five different paths |
| MigrationProperties.EmptyUserIdWritesNothing | src/utils/dataMigration.ts:13-15 | an empty user id is rejected and the store is untouched |
| MigrationProperties.MigrationAppends | src/utils/dataMigration.ts:104-106 | after a run each accepted user collection is its old contents followed by the seeded records in order; a refused one is unchanged |
| MigrationProperties.ProfileOverwritten | src/utils/dataMigration.ts:41-51 | a run replaces the user's profile document and leaves every other document as it was |
| MigrationProperties.MigrationFrame | src/utils/dataMigration.ts:12-32 | a run leaves every collection it does not write unchanged |
| MigrationProperties.WriteOrder | src/utils/dataMigration.ts:18-24 | the five written paths, profile first, in the order they are listed |
| MigrationProperties.StepFailures | src/utils/dataMigration.ts:18-31 | the run's result is the first refusal among the five written paths, in listed order |
| MigrationProperties.RefusalsVerdict | src/utils/dataMigration.ts:18-31 | no refusal among the written paths iff success; otherwise the error names a refused written path; a refused profile is the one reported |
| MigrationProperties.MigrationResult | src/utils/dataMigration.ts:12-32 | the run succeeds iff the id is non-empty and no written path is refused; a failure names a refused written path, the profile first |
| MigrationProperties.MigrationGrows | src/utils/dataMigration.ts:104-106 | an accepted collection grows by exactly the number of seeded records |
| MigrationProperties.IterateGrows | src/utils/dataMigration.ts:104-106 | a run that adds `c` records adds `n * c` in `n` runs |
| MigrationProperties.IterateSettles | src/utils/dataMigration.ts:41-51 | a run that sets one document leaves it set, however often it runs |
| MigrationProperties.RepeatedMigration | src/utils/dataMigration.ts:12-32 | nothing guards against a second run: `n` runs append the seeded records `n` times |
| MigrationProperties.RepeatedProfile | src/utils/dataMigration.ts:41-51 | however often the migration runs, the profile document is overwritten, not duplicated |
| MigrationProperties.SeededGrowth | src/utils/dataMigration.ts:61-254 | with the seeded data each accepted collection grows by 3/4/2/3 records whose `order` is 0, 1, 2, … after the old ones, projects all featured |
| MigrationProperties.OthersUntouched | src/utils/dataMigration.ts:12-32 | the legacy collections, other users' collections, and every document other than the user's five paths are left as they were |
| MigrationProperties.NoRollback | src/utils/dataMigration.ts:18-31 | a refused profile makes the run fail, yet the accepted projects collection has still grown |
| MigrationProperties.ReadAppended | src/utils/firestore.ts:99-123 | after records ordered from zero are appended, the user read returns its own query result, non-empty, with no legacy fallback |
| MigrationProperties.QueryKeepsRun | src/utils/firestore.ts:86-97 | a collection of records ordered 0, 1, 2, … (featured when asked) is its own query result |
| MigrationProperties.RenderFresh | src/utils/firestore.ts:118-123 | rendering such a run keeps one entry per record, with its keys plus `id` and its `order` |
| MigrationProperties.ReadFresh | src/utils/firestore.ts:99-123 | reading such a collection renders exactly its documents, in stored order |
| MigrationProperties.ReadAfterMigration | src/utils/firestore.ts:72-128 | after a run the user's list reader returns the user's own sorted collection and is not empty |
| MigrationProperties.FreshReadAfterMigration | src/utils/firestore.ts:72-128 | for a user with an empty collection, the reader returns exactly the seeded records in order, each with its keys plus `id`, `order` equal to its position, and every seeded field's value converted |
| MigrationProperties.ProfileAfterMigration | src/utils/firestore.ts:35-69 | after a run `getProfile` returns the converted seeded profile |
| MigrationProperties.AcceptedMigrationWritesAll | src/utils/dataMigration.ts:12-32 | when no written path is refused, the profile is overwritten and every list grows by all of its records |
| MigrationProperties.DefaultMigrationGrowth | src/utils/dataMigration.ts:61-254 | with the code's own seed data each accepted collection grows by 3, 4, 2 or 3 records whose `order` is 0, 1, 2, … after the old ones, projects all featured |
| MigrationProperties.DefaultFreshReadBack | src/utils/firestore.ts:72-128 | with the code's own seed data, a user whose collection was empty reads back exactly the seeded records in seed order, each with its keys plus `id`, `order` equal to its position, and every field converted |
| MigrationProperties.DefaultMigrationSucceeds | src/utils/dataMigration.ts:12-32 | with the code's own seed data and no written path refused, the migration returns `true` |
| MigrationProperties.SeededMigrationSucceeds | src/utils/dataMigration.ts:12-32 | with the seeded data and no written path refused, the migration returns `true` |
| MigrationProperties.MigrationKeepsIds | src/utils/dataMigration.ts:12-32 | a run keeps the store's ids valid, so every record it adds has an id unique in its collection |
| MigrationProperties.AcceptedMigrationSucceeds | src/utils/dataMigration.ts:12-32 | with a non-empty id and no written path refused, the migration returns `true` |
| MigrationProperties.ProfileTimestampReadsBack | src/utils/firestore.ts:24-25 | a timestamp written into the profile is read back as the date of the same instant |

## Left out

- The store is an in-memory snapshot. Network I/O, latency, offline caches, and the store's security rules are not modelled. Any failure is modelled as a path in `refused`, and reads and writes on it fail.
- A failure is therefore a property of a path. A transient failure part-way through an `addDoc` loop, after some records on the same path succeeded, is not modelled.
- `Promise.all` concurrency: the five sub-migrations run one after another, in listed order. The error reported is the first one in that order, whereas in the code it is the first promise to reject in time. Every sub-migration still runs to its end, and nothing is rolled back, as in the code.
- `serverTimestamp()` is `Timestamp(now)`, with `now` a parameter. `Timestamp.toDate()` keeps the instant in milliseconds, and sub-millisecond precision is not modelled.
- Generated document ids come from a counter (`AutoId`), not Firestore's random 20-character ids.
- AppendEffect: the ids it assigns are the counter's next values. They are unique in their collection only on a store satisfying `Migration.IdsValid` (proved kept by `AppendKeepsIds` and `MigrationKeepsIds`). The store type does not enforce that, so a store already holding a counter id is not excluded.
- Numbers are integers (`Value.Num`). JavaScript numbers are doubles, so a fractional `order` such as 1.5, and its place in the sort, is not representable.
- Firestore's `GeoPoint`, `DocumentReference` and `Bytes` values are not part of `Value`. `convertTimestamps` would treat them as plain objects and rebuild them from their own fields.
- One `now` stamps every write of a run. In the code each awaited `addDoc` is its own commit, with its own server time.
- A `userId` whose `/` separators leave a path with the wrong number of segments for `doc()` or `collection()`, or with an empty segment (a leading, trailing or doubled `/`), makes those calls throw. The readers would catch that and return `null` or `[]` without a fallback, and the migrations would rethrow it. The model instead reads and writes at the resulting path string. Any other `userId` containing `/` (such as `a/b/c`, which adds an even number of segments) gives valid deeper paths, and there the model agrees with the code.
- Store.SortByOrder: ties in `order` keep insertion order. Firestore breaks ties by document id, which this model does not reproduce.
- Store.Filter: a document whose `order` is missing or not a number is left out of a query result. Firestore leaves out documents without the field, but sorts non-numeric values by type. The model only keeps numeric ones.
- Migration.ContentStore.MigrateAllData: `userId` is a string. The JavaScript `null` and `undefined` ids are both rejected by `!userId` like the empty string, and are not modelled separately.
- `console.log`/`console.error` output is left out.
- The readers are functions of a store snapshot. Two reads inside one reader see the same snapshot.
- The React components and contexts that call these functions, the authentication context, `server.js` and the build configuration are not part of this model.
