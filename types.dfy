/** The enumerations and records declared in types.ts. They carry no behaviour. */
module Types {
  import opened Wrappers

  /** The screens of the wizard; exactly one is current at any time. */
  datatype AppState =
    | UserTypeSelection
    | SignIn
    | SignUp
    | ProfileBuilding
    | ResumeBuilder
    | Generating
    | Results

  /** Whether the user is still studying or has finished. */
  datatype UserType = InEducation | CompletedEducation

  /** An authenticated identity, as returned by the sign-in service. */
  datatype User = User(id: string, name: string, email: string, userType: UserType, verified: bool)

  /** One row of the education history entered on the profile form. */
  datatype EducationEntry = EducationEntry(
    id: string,
    level: string,
    field: string,
    specialization: string,
    institution: string,
    grade: string,
    startYear: string,
    endYear: string)

  /** An uploaded resume file; only its identity matters here. */
  datatype ResumeFile = ResumeFile(token: nat)

  /** Every profile field other than the identity (name and email). */
  datatype ProfileDetails = ProfileDetails(
    phone: string,
    age: string,
    location: string,
    education10th: string,
    education10thSchool: string,
    education12th: string,
    education12thSchool: string,
    education12thStream: string,
    educationHistory: seq<EducationEntry>,
    hardSkills: string,
    softSkills: string,
    toolsAndSoftware: string,
    certifications: string,
    languages: string,
    internships: string,
    projects: string,
    favoriteSubjects: string,
    subjectProficiency: map<string, string>,
    quizAnswers: map<string, string>,
    preferredIndustries: string,
    workPreferences: string,
    higherStudies: string,
    dreamJobRoles: string,
    resume: Option<ResumeFile>)

  /** The data the user accumulates across the forms. Name and email are kept
      apart because sign-in seeds exactly those two. */
  datatype UserProfile = UserProfile(name: string, email: string, details: ProfileDetails)

  datatype LearningStep = LearningStep(step: string, recommendation: string, details: string)

  datatype Resource = Resource(title: string, url: string)

  /** One recommendation produced by the recommendation service; read-only here. */
  datatype CareerRecommendation = CareerRecommendation(
    careerTitle: string,
    description: string,
    relevanceJustification: string,
    skillGaps: seq<string>,
    learningPath: seq<LearningStep>,
    youtubeTutorials: seq<Resource>,
    freeCourses: seq<Resource>,
    ebooksOrBlogs: seq<Resource>)
}
