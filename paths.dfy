/**
 * Facts about the store paths both source files build: the five paths a
 * migration writes for one user are inside that user's content area, are
 * pairwise distinct, differ from every legacy path, and differ from every
 * path written for any other user.
 */
module Paths {
  import opened Store

  /** A document or collection a migration writes. */
  datatype Target = ProfileDoc | ListOf(e: Entity)

  function TargetName(t: Target): string
  {
    match t
    case ProfileDoc => "profile"
    case ListOf(e) => UserCollectionName(e)
  }

  /** `users/{uid}/content/profile` and the four `users/{uid}/content/.../items`. */
  function TargetPath(t: Target, uid: string): (r: string)
    ensures t == ProfileDoc ==> r == UserProfilePath(uid)
    ensures t.ListOf? ==> r == UserPath(t.e, uid)
  {
    UserContentRoot(uid) + TargetName(t)
  }

  function WrittenPaths(uid: string): set<string>
  {
    {TargetPath(ProfileDoc, uid), TargetPath(ListOf(Projects), uid), TargetPath(ListOf(Achievements), uid),
     TargetPath(ListOf(Education), uid), TargetPath(ListOf(Extracurriculars), uid)}
  }

  /** `s` starts with `prefix`. */
  predicate HasPrefix(s: string, prefix: string)
  {
    |prefix| <= |s| && s[..|prefix|] == prefix
  }

  /** The `/content/...` part of a written path. */
  function Tail(t: Target): string
  {
    "/content/" + TargetName(t)
  }

  lemma SplitPath(t: Target, uid: string)
    ensures TargetPath(t, uid) == ("users/" + uid) + Tail(t)
  {
  }

  /**
   * The last character and the 7th, 8th and 9th from the end. On a tail
   * the last character tells `profile` (`e`) from the `.../items`
   * collections (`s`); on those the 7th to 9th from the end are the last
   * three letters of the collection name before `/items`, read backwards.
   */
  function EndMarks(s: string): seq<char>
    requires |s| >= 9
  {
    [s[|s| - 1], s[|s| - 7], s[|s| - 8], s[|s| - 9]]
  }

  /**
   * The end marks of each target's tail: `profile` ends `.../profile`,
   * and `projects`, `academicAchievements`, `education` and
   * `extracurricularActivities` end in `cts`, `nts`, `ion` and `ies`.
   * No two targets share them.
   */
  function Marks(t: Target): seq<char>
  {
    match t
    case ProfileDoc => "ep/t"
    case ListOf(Projects) => "sstc"
    case ListOf(Achievements) => "sstn"
    case ListOf(Education) => "snoi"
    case ListOf(Extracurriculars) => "ssei"
  }

  lemma TailMarks(t: Target)
    ensures |Tail(t)| >= 9 && EndMarks(Tail(t)) == Marks(t)
  {
    match t
    case ProfileDoc =>
    case ListOf(Projects) =>
    case ListOf(Achievements) =>
    case ListOf(Education) =>
    case ListOf(Extracurriculars) =>
  }

  lemma MarksInjective(t1: Target, t2: Target)
    requires Marks(t1) == Marks(t2)
    ensures t1 == t2
  {
  }

  /** A prefix does not change the characters near the end. */
  lemma EndMarksOfConcat(x: string, s: string)
    requires |s| >= 9
    ensures EndMarks(x + s) == EndMarks(s)
  {
  }

  /** Equal written paths name the same target, whatever the users. */
  lemma SameTarget(t1: Target, u1: string, t2: Target, u2: string)
    requires TargetPath(t1, u1) == TargetPath(t2, u2)
    ensures t1 == t2
  {
    SplitPath(t1, u1);
    SplitPath(t2, u2);
    TailMarks(t1);
    TailMarks(t2);
    EndMarksOfConcat("users/" + u1, Tail(t1));
    EndMarksOfConcat("users/" + u2, Tail(t2));
    MarksInjective(t1, t2);
  }

  lemma SameTail(x: string, y: string, s: string)
    requires x + s == y + s
    ensures x == y
  {
    assert |x| == |y|;
    assert x == (x + s)[..|x|];
    assert y == (y + s)[..|y|];
  }

  /** One target of two different users gives two different paths. */
  lemma DistinctUsers(t: Target, u1: string, u2: string)
    requires u1 != u2
    ensures TargetPath(t, u1) != TargetPath(t, u2)
  {
    SplitPath(t, u1);
    SplitPath(t, u2);
    var x, y, s := "users/" + u1, "users/" + u2, Tail(t);
    assert x[6..] == u1 && y[6..] == u2;
    if x + s == y + s {
      SameTail(x, y, s);
      assert false;
    }
  }

  /** Each written path names exactly one target of exactly one user. */
  lemma TargetPathInjective(t1: Target, u1: string, t2: Target, u2: string)
    requires TargetPath(t1, u1) == TargetPath(t2, u2)
    ensures t1 == t2 && u1 == u2
  {
    SameTarget(t1, u1, t2, u2);
    if u1 != u2 {
      DistinctUsers(t1, u1, u2);
    }
  }

  /** Every written path lies in the user's content area. */
  lemma WrittenPathsInUserArea(uid: string)
    ensures forall path :: path in WrittenPaths(uid) ==> HasPrefix(path, UserContentRoot(uid))
  {
    forall t: Target
      ensures HasPrefix(TargetPath(t, uid), UserContentRoot(uid))
    {
      var root := UserContentRoot(uid);
      assert (root + TargetName(t))[..|root|] == root;
    }
  }

  /** Every written path starts with `u`, as in `users/`. */
  lemma WrittenPathStart(t: Target, uid: string)
    ensures |TargetPath(t, uid)| > 0 && TargetPath(t, uid)[0] == 'u'
  {
    assert TargetPath(t, uid) == "users/" + (uid + Tail(t));
  }

  /** No legacy path starts with `u`. */
  lemma LegacyStart(e: Entity)
    ensures |LegacyPath(e)| > 0 && LegacyPath(e)[0] != 'u'
  {
    match e
    case Projects =>
    case Achievements =>
    case Education =>
    case Extracurriculars =>
  }

  /** No written path is a path of the legacy global layout. */
  lemma WrittenPathsNotLegacy(uid: string)
    ensures LegacyProfilePath !in WrittenPaths(uid)
    ensures forall e :: LegacyPath(e) !in WrittenPaths(uid)
  {
    forall t: Target
      ensures TargetPath(t, uid) != LegacyProfilePath
    {
      WrittenPathStart(t, uid);
    }
    forall t: Target, e
      ensures TargetPath(t, uid) != LegacyPath(e)
    {
      WrittenPathStart(t, uid);
      LegacyStart(e);
    }
  }

  /** Two different users have no written path in common. */
  lemma WrittenPathsDisjoint(uid: string, other: string)
    requires other != uid
    ensures WrittenPaths(uid) !! WrittenPaths(other)
  {
    forall t1, t2
      ensures TargetPath(t1, uid) != TargetPath(t2, other)
    {
      if TargetPath(t1, uid) == TargetPath(t2, other) {
        TargetPathInjective(t1, uid, t2, other);
      }
    }
  }
}
