/** The records the application exchanges with its database and with the
    résumé parser: posts, profiles and parsed résumés. Optional properties are
    `Option`s; JavaScript numbers are `real` where they may be fractional and
    `int` where they count things.
 */
module Interfaces {
  import opened Wrappers

  /** A feed post as returned by the `get_posts_with_details` query, with the
      like information computed for the requesting user. `author_name` is
      declared a string, but the post card reads it with optional chaining, so
      a missing name is admitted. */
  datatype Post = Post(
    id: string,
    user_id: string,
    content: string,
    created_at: string,
    updated_at: string,
    like_count: int,
    is_liked_by_user: bool,
    author_name: Option<string>,
    author_pfp_url: Option<string>)

  datatype PersonalInfo = PersonalInfo(
    name: Option<string>,
    email: Option<string>,
    phone: Option<string>,
    location: Option<string>,
    linkedin: Option<string>,
    github: Option<string>,
    website: Option<string>)

  datatype WorkExperience = WorkExperience(
    title: Option<string>,
    company: Option<string>,
    startDate: Option<string>,
    endDate: Option<string>,
    description: Option<string>,
    achievements: Option<seq<string>>)

  datatype Education = Education(
    degree: Option<string>,
    institution: Option<string>,
    startDate: Option<string>,
    endDate: Option<string>,
    fieldOfStudy: Option<string>,
    gpa: Option<string>)

  datatype Skill = Skill(name: Option<string>)

  datatype Language = Language(language: Option<string>, level: Option<string>)

  datatype Certification = Certification(
    name: Option<string>,
    issuer: Option<string>,
    date: Option<string>,
    expiryDate: Option<string>,
    credentialId: Option<string>)

  datatype Project = Project(
    name: Option<string>,
    description: Option<string>,
    startDate: Option<string>,
    endDate: Option<string>,
    technologies: Option<seq<string>>,
    url: Option<string>)

  /** A parsed résumé in which every part may be missing. */
  datatype ParsedResume = ParsedResume(
    personalInfo: Option<PersonalInfo>,
    summary: Option<string>,
    experiences: Option<seq<WorkExperience>>,
    education: Option<seq<Education>>,
    skills: Option<seq<Skill>>,
    certifications: Option<seq<Certification>>,
    projects: Option<seq<Project>>,
    languages: Option<seq<Language>>)

  /** A profile row as the application reads it from the `profiles` table:
      the declared profile fields plus the columns the code reads beside them
      (`pfp_url`, `parsed_resume`, `total_yoe`). */
  datatype Profile = Profile(
    user_id: string,
    name: string,
    email: string,
    pfp_url: Option<string>,
    role: string,
    bio: string,
    gender: string,
    location: string,
    date_of_birth: string,
    parsed_resume: Option<ParsedResume>,
    total_yoe: Option<real>)

  /** An authenticated user of the auth service; only its id is observed. */
  datatype User = User(id: string)
}
