/** Records and enumerations shared by every component (types.ts). */
module Types {

  datatype Option<+T> = None | Some(value: T)

  /** The three mutually exclusive account kinds. */
  datatype UserRole = Student | Business | Coordinator

  datatype OjtStatus = Searching | Hired | Completed | Inactive

  datatype CompanyStatus = Hiring | Closed

  datatype Visibility = Public | Private

  /** A user account. Optional fields of the record are `Option`s;
      `location` is never read by the modelled code and is left out. */
  datatype UserProfile = UserProfile(
    id: string,
    name: string,
    role: UserRole,
    email: string,
    skills: seq<string>,
    avatar: string,
    affiliation: Option<string>,
    bio: Option<string>,
    isVerified: Option<bool>,
    joinedAt: int,
    visibility: Visibility,
    notificationsEnabled: bool,
    ojtStatus: Option<OjtStatus>,
    companyStatus: Option<CompanyStatus>)

  datatype PostingStatus = Active | ClosedPosting

  datatype Category = Tech | Design | Management | Engineering | Marketing

  /** The category as the string the discovery filter compares against. */
  function CategoryName(c: Category): (s: string)
    ensures |s| > 0
  {
    match c
    case Tech => "Tech"
    case Design => "Design"
    case Management => "Management"
    case Engineering => "Engineering"
    case Marketing => "Marketing"
  }

  /** An internship posting; `lat` and `lng` are carried, never computed with. */
  datatype Posting = Posting(
    id: string,
    companyName: string,
    title: string,
    description: string,
    address: string,
    lat: real,
    lng: real,
    requiredSkills: seq<string>,
    slotsAvailable: int,
    status: PostingStatus,
    category: Category)

  datatype Message = Message(
    id: string,
    senderId: string,
    receiverId: string,
    text: string,
    timestamp: int)

  datatype LogStatus = Pending | Approved | Rejected

  /** A work log; `hours` is carried, never summed. */
  datatype DailyLog = DailyLog(
    id: string,
    studentId: string,
    studentName: string,
    businessId: string,
    date: string,
    hours: real,
    tasks: string,
    status: LogStatus)

  /** The chat partner the session is talking to (App.tsx:15). */
  datatype Contact = Contact(id: string, name: string, avatar: string)
}
