/** The sign-in / registration form (components/AuthForm.tsx). There is no
    credential check: submitting builds a profile from the chosen role, the
    mode and the typed fields, and hands it to the root's login handler. */
module AuthForm {
  import opened Types

  /** The typed fields; the password is collected but never read. */
  datatype FormFields = FormFields(name: string, email: string, password: string, affiliation: string)

  /** Each role carries its own status field: students a job-search status,
      businesses a hiring status, coordinators neither. */
  predicate RoleStatusConsistent(p: UserProfile)
  {
    && (p.ojtStatus.Some? <==> p.role == Student)
    && (p.companyStatus.Some? <==> p.role == Business)
  }

  const StudentBio := "Passionate software engineering student looking for challenges."
  const StaffBio := "Leading innovation in the tech sector."

  const StudentPhoto := "1539571696357-5a69c17a67c6"
  const StaffPhoto := "1494790108377-be9c29b29330"

  function AvatarUrl(photo: string): string
  {
    "https://images.unsplash.com/photo-" + photo + "?w=200&h=200&fit=crop"
  }

  /** `handleSubmit`'s record. `isLogin` is the sign-in mode (as opposed to
      registration); `id` and `joinedAt` stand for the random id and the
      clock reading. */
  function BuildProfile(isLogin: bool, role: UserRole, form: FormFields, id: string, joinedAt: int): (p: UserProfile)
    ensures p.id == id && p.joinedAt == joinedAt
    ensures p.role == role && p.email == form.email
    ensures p.name == if isLogin then (if role == Student then "Alex Rivera" else "Sarah Chen") else form.name
    ensures p.isVerified == Some(role != Business)
    ensures RoleStatusConsistent(p)
    ensures p.ojtStatus.Some? ==> p.ojtStatus.value == Searching
    ensures p.companyStatus.Some? ==> p.companyStatus.value == Hiring
    ensures p.affiliation.Some? && p.affiliation.value != []
    ensures form.affiliation != [] ==> p.affiliation == Some(form.affiliation)
    ensures form.affiliation == [] ==>
              p.affiliation == Some(if role == Business then "Nexus Labs" else "State University")
    ensures p.visibility == Public && p.notificationsEnabled
    ensures p.skills == if role == Student then ["React", "TypeScript"] else ["Product Strategy"]
    ensures p.bio == Some(if role == Student then StudentBio else StaffBio)
    ensures p.avatar == AvatarUrl(if role == Student then StudentPhoto else StaffPhoto)
  {
    UserProfile(
      id := id,
      name := if isLogin then (if role == Student then "Alex Rivera" else "Sarah Chen") else form.name,
      role := role,
      email := form.email,
      skills := if role == Student then ["React", "TypeScript"] else ["Product Strategy"],
      avatar := AvatarUrl(if role == Student then StudentPhoto else StaffPhoto),
      affiliation := Some(if form.affiliation != [] then form.affiliation
                          else if role == Business then "Nexus Labs" else "State University"),
      bio := Some(if role == Student then StudentBio else StaffBio),
      isVerified := Some(role != Business),
      joinedAt := joinedAt,
      visibility := Public,
      notificationsEnabled := true,
      ojtStatus := if role == Student then Some(Searching) else None,
      companyStatus := if role == Business then Some(Hiring) else None)
  }

  /** Only businesses start unverified; a new coordinator carries no status
      at all. */
  lemma NewProfileStatus(isLogin: bool, role: UserRole, form: FormFields, id: string, joinedAt: int)
    ensures var p := BuildProfile(isLogin, role, form, id, joinedAt);
            (p.isVerified == Some(false) <==> role == Business)
            && (role == Coordinator ==> p.ojtStatus == None && p.companyStatus == None)
  {
  }
}
