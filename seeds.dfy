/**
 * The fixed default content that src/utils/dataMigration.ts seeds into a
 * user's content area. `now` is the instant the server resolves each
 * `serverTimestamp()` to.
 */
module Seeds {
  import opened Values
  import opened Store

  // The long texts of the seeded records, kept as named constants.
  const ProfileBio: string :=
    "I'm a passionate high school student interested in software development, mathematics, and competitive programming. I enjoy building applications and solving complex problems."
  const VisualizerDescription: string :=
    "An interactive web application that visualizes how neural networks learn and make predictions. Built with React and TensorFlow.js."
  const SolverDescription: string :=
    "A platform that helps users solve algorithmic problems by visualizing the solution process and providing step-by-step explanations."
  const SchedulerDescription: string :=
    "An application that creates optimized study schedules based on spaced repetition principles to maximize learning efficiency."
  const MeritDescription: string :=
    "Recognized as a National Merit Scholar Finalist based on PSAT/NMSQT scores and academic achievements."
  const OlympiadDescription: string :=
    "Qualified for the Gold Division in the USA Computing Olympiad by demonstrating advanced algorithmic problem-solving skills."
  const APScholarDescription: string :=
    "Earned the AP Scholar with Distinction award by achieving an average score of 3.5 on all AP exams taken, and scores of 3 or higher on five or more of these exams."
  const MathMedalDescription: string :=
    "Won a silver medal at the International Mathematics Competition for High School Students."
  const HighSchoolDescription: string :=
    "Advanced coursework in Computer Science, Mathematics, and Physics. Participated in multiple research projects and programming competitions."
  const CertificationDescription: string :=
    "Completed comprehensive certification program covering neural networks, computer vision, natural language processing, and reinforcement learning."
  const ClubDescription: string :=
    "Founded and lead the competitive programming club at school, mentoring peers in algorithm design and problem-solving techniques."
  const HackathonDescription: string :=
    "Participated in multiple hackathons, developing innovative solutions under time constraints and collaborating with diverse teams."
  const MathTeamDescription: string :=
    "Member of the school's mathematics team, competing in regional and national competitions and strengthening problem-solving skills."

  /** `serverTimestamp()`, as the server stores it. */
  function ServerTimestamp(now: int): Value
  {
    Timestamp(now)
  }

  /**
   * A list record as the migration writes it: its own fields plus
   * `order` and `createdAt: serverTimestamp()`.
   */
  function Record(fields: Fields, order: int, now: int): (r: Fields)
    ensures "order" in r && r["order"] == Num(order)
    ensures r.Keys == fields.Keys + {"order", "createdAt"}
  {
    fields["createdAt" := ServerTimestamp(now)]["order" := Num(order)]
  }

  function ProfileSeed(now: int): Fields
  {
    map[
      "name" := Str("Atharv Gokule"),
      "subtitle" := Str("Student & Developer"),
      "bio" := Str(ProfileBio),
      "location" := Str("California, USA"),
      "email" := Str("gokuleatharv06@gmail.com"),
      "github" := Str("https://github.com/username121546434"),
      "website" := Str("https://theatharv.co"),
      "createdAt" := ServerTimestamp(now),
      "updatedAt" := ServerTimestamp(now)
    ]
  }

  /** The seeded profile is stamped with the server's time on creation and update. */
  lemma ProfileSeedStamped(now: int)
    ensures "createdAt" in ProfileSeed(now) && ProfileSeed(now)["createdAt"] == Timestamp(now)
    ensures "updatedAt" in ProfileSeed(now) && ProfileSeed(now)["updatedAt"] == Timestamp(now)
  {
  }

  function Project(title: string, description: string, technologies: Value,
                   projectUrl: string, demoUrl: string, order: int, now: int): (r: Fields)
    ensures "order" in r && r["order"] == Num(order)
    ensures "featured" in r && r["featured"] == Bool(true)
  {
    var fields := map[
      "title" := Str(title),
      "description" := Str(description),
      "technologies" := technologies,
      "imageUrl" := Str("https://placehold.co/600x400/png"),
      "projectUrl" := Str(projectUrl),
      "demoUrl" := Str(demoUrl)
    ];
    Record(fields["featured" := Bool(true)], order, now)
  }

  function ProjectSeeds(now: int): seq<Fields>
  {
    [
      Project("Neural Network Visualizer",
        VisualizerDescription,
        Arr([Str("React"), Str("TypeScript"), Str("TensorFlow.js"), Str("D3.js")]),
        "https://github.com/example/neural-visualizer", "https://neural-visualizer.example.com", 0, now),
      Project("Algorithmic Problem Solver",
        SolverDescription,
        Arr([Str("Python"), Str("Django"), Str("JavaScript"), Str("AlgorithmX")]),
        "https://github.com/example/algo-solver", "https://algo-solver.example.com", 1, now),
      Project("Smart Study Scheduler",
        SchedulerDescription,
        Arr([Str("React Native"), Str("Firebase"), Str("Redux"), Str("Machine Learning")]),
        "https://github.com/example/study-scheduler", "https://study-scheduler.example.com", 2, now)
    ]
  }

  function Achievement(title: string, description: string, year: int, order: int, now: int): Fields
  {
    Record(map["title" := Str(title), "description" := Str(description), "year" := Num(year)], order, now)
  }

  function AchievementSeeds(now: int): seq<Fields>
  {
    [
      Achievement("National Merit Scholar Finalist",
        MeritDescription,
        2023, 0, now),
      Achievement("USA Computing Olympiad - Gold Division",
        OlympiadDescription,
        2022, 1, now),
      Achievement("AP Scholar with Distinction",
        APScholarDescription,
        2023, 2, now),
      Achievement("International Mathematics Competition - Silver Medal",
        MathMedalDescription,
        2022, 3, now)
    ]
  }

  function EducationSeeds(now: int): seq<Fields>
  {
    [
      Record(map[
        "institution" := Str("Prestigious High School"),
        "degree" := Str("High School Diploma"),
        "fieldOfStudy" := Str("Advanced STEM Curriculum"),
        "startDate" := Str("2020"),
        "endDate" := Str("2024"),
        "present" := Bool(true),
        "description" := Str(HighSchoolDescription),
        "gpa" := Str("4.0")
      ], 0, now),
      Record(map[
        "institution" := Str("Online Learning Platform"),
        "degree" := Str("Certification"),
        "fieldOfStudy" := Str("Machine Learning & Artificial Intelligence"),
        "startDate" := Str("2022"),
        "endDate" := Str("2022"),
        "present" := Bool(false),
        "description" := Str(CertificationDescription)
      ], 1, now)
    ]
  }

  function ExtracurricularSeeds(now: int): seq<Fields>
  {
    [
      Record(map[
        "title" := Str("Competitive Programming Club"),
        "organization" := Str("School Club"),
        "description" := Str(ClubDescription),
        "startDate" := Str("2023"),
        "endDate" := Str(""),
        "present" := Bool(true),
        "role" := Str("Founder & President")
      ], 0, now),
      Record(map[
        "title" := Str("Hackathon Participant"),
        "organization" := Str("Various Events"),
        "description" := Str(HackathonDescription),
        "startDate" := Str("2022"),
        "endDate" := Str(""),
        "present" := Bool(true)
      ], 1, now),
      Record(map[
        "title" := Str("Math Team"),
        "organization" := Str("School Team"),
        "description" := Str(MathTeamDescription),
        "startDate" := Str("2023"),
        "endDate" := Str(""),
        "present" := Bool(true)
      ], 2, now)
    ]
  }

  /** Each seeded record carries `order` equal to its position. */
  predicate OrderedFromZero(items: seq<Fields>)
  {
    forall k :: 0 <= k < |items| ==> "order" in items[k] && items[k]["order"] == Num(k)
  }


  lemma ProjectSeedShape(now: int)
    ensures |ProjectSeeds(now)| == 3
    ensures OrderedFromZero(ProjectSeeds(now)) && AllFeatured(ProjectSeeds(now))
  {
    var s := ProjectSeeds(now);
    assert s[0]["order"] == Num(0) && s[1]["order"] == Num(1) && s[2]["order"] == Num(2);
  }

  lemma AchievementSeedShape(now: int)
    ensures |AchievementSeeds(now)| == 4 && OrderedFromZero(AchievementSeeds(now))
  {
    var s := AchievementSeeds(now);
    assert s[0]["order"] == Num(0) && s[1]["order"] == Num(1);
    assert s[2]["order"] == Num(2) && s[3]["order"] == Num(3);
  }

  lemma EducationSeedShape(now: int)
    ensures |EducationSeeds(now)| == 2 && OrderedFromZero(EducationSeeds(now))
  {
    var s := EducationSeeds(now);
    assert s[0]["order"] == Num(0) && s[1]["order"] == Num(1);
  }

  lemma ExtracurricularSeedShape(now: int)
    ensures |ExtracurricularSeeds(now)| == 3 && OrderedFromZero(ExtracurricularSeeds(now))
  {
    var s := ExtracurricularSeeds(now);
    assert s[0]["order"] == Num(0) && s[1]["order"] == Num(1) && s[2]["order"] == Num(2);
  }

  /** Everything one migration writes: the profile and the four item lists. */
  datatype Payload = Payload(
    profile: Fields,
    projects: seq<Fields>,
    achievements: seq<Fields>,
    education: seq<Fields>,
    extracurriculars: seq<Fields>)
  {
    /** The records seeded into an entity's collection, in write order. */
    function Items(e: Entity): seq<Fields>
    {
      match e
      case Projects => projects
      case Achievements => achievements
      case Education => education
      case Extracurriculars => extracurriculars
    }
  }

  function DefaultPayload(now: int): Payload
  {
    Payload(ProfileSeed(now), ProjectSeeds(now), AchievementSeeds(now), EducationSeeds(now), ExtracurricularSeeds(now))
  }

  /** How many records a migration appends to each collection: 3, 4, 2 and 3. */
  function SeedCount(e: Entity): nat
  {
    match e
    case Projects => 3
    case Achievements => 4
    case Education => 2
    case Extracurriculars => 3
  }

  /**
   * The shape of the seeded lists: 3 / 4 / 2 / 3 records carrying `order`
   * 0, 1, 2, … in write order, with every project featured.
   */
  predicate SeedShaped(p: Payload)
  {
    && |p.projects| == 3 && OrderedFromZero(p.projects) && AllFeatured(p.projects)
    && |p.achievements| == 4 && OrderedFromZero(p.achievements)
    && |p.education| == 2 && OrderedFromZero(p.education)
    && |p.extracurriculars| == 3 && OrderedFromZero(p.extracurriculars)
  }

  lemma ShapedItems(p: Payload, e: Entity)
    requires SeedShaped(p)
    ensures |p.Items(e)| == SeedCount(e) && OrderedFromZero(p.Items(e))
    ensures e == Projects ==> AllFeatured(p.Items(e))
  {
  }

  lemma DefaultPayloadShape(now: int)
    ensures SeedShaped(DefaultPayload(now))
  {
    ProjectSeedShape(now);
    AchievementSeedShape(now);
    EducationSeedShape(now);
    ExtracurricularSeedShape(now);
  }
}
