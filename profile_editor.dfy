/** The profile editor (components/ProfileEditor.tsx): a draft copy of the
    user's profile that handlers replace field by field, and a save button
    that runs IDLE -> SAVING -> SAVED -> IDLE, committing the draft on the
    way. */
module ProfileEditor {
  import opened Types
  import Seqs
  import AuthForm

  predicate NoDuplicates(skills: seq<string>)
  {
    forall i, j :: 0 <= i < j < |skills| ==> skills[i] != skills[j]
  }

  /** `addSkill`: appends a non-empty skill that is not already listed;
      otherwise the draft is returned as it was. */
  function AddSkill(d: UserProfile, skill: string): (r: UserProfile)
    ensures r == d.(skills := r.skills)
    ensures skill != [] && skill !in d.skills ==> r.skills == d.skills + [skill]
    ensures skill == [] || skill in d.skills ==> r == d
  {
    if skill != [] && skill !in d.skills then d.(skills := d.skills + [skill]) else d
  }

  /** `removeSkill`: keeps every listed skill that differs from `skill`. */
  function RemoveSkill(d: UserProfile, skill: string): UserProfile
  {
    d.(skills := Seqs.Filter(d.skills, (s: string) => s != skill))
  }

  /** Adding never introduces a duplicate. */
  lemma AddSkillNoDuplicates(d: UserProfile, skill: string)
    requires NoDuplicates(d.skills)
    ensures NoDuplicates(AddSkill(d, skill).skills)
    ensures |AddSkill(d, skill).skills| <= |d.skills| + 1
  {
  }

  /** Removing drops every occurrence of the skill, keeps every copy of
      every other skill, keeps their order, and touches no other field. */
  lemma RemoveSkillDropsAll(d: UserProfile, skill: string)
    ensures var r := RemoveSkill(d, skill);
            r == d.(skills := r.skills)
            && skill !in r.skills
            && (forall x :: x in r.skills <==> x in d.skills && x != skill)
            && multiset(r.skills) == multiset(d.skills)[skill := 0]
            && Seqs.IsSubsequence(r.skills, d.skills)
  {
    var keep := (s: string) => s != skill;
    Seqs.FilterMembers(d.skills, keep);
    Seqs.FilterSubsequence(d.skills, keep);
    forall x {
      Seqs.FilterMultiplicity(d.skills, keep, x);
    }
  }

  /** Adding a new skill and then removing it gives back the draft. */
  lemma AddThenRemove(d: UserProfile, skill: string)
    requires skill != [] && skill !in d.skills
    ensures RemoveSkill(AddSkill(d, skill), skill) == d
  {
    var keep := (s: string) => s != skill;
    Seqs.FilterAppend(d.skills, [skill], keep);
    Seqs.FilterKeepsAll(d.skills, keep);
    assert Seqs.Filter([skill], keep) == [];
  }

  function ToggleVisibility(d: UserProfile): (r: UserProfile)
    ensures r.visibility != d.visibility
  {
    d.(visibility := if d.visibility == Public then Private else Public)
  }

  function ToggleNotifications(d: UserProfile): (r: UserProfile)
    ensures r.notificationsEnabled != d.notificationsEnabled
  {
    d.(notificationsEnabled := !d.notificationsEnabled)
  }

  /** Both switches undo themselves. */
  lemma TogglesAreInvolutions(d: UserProfile)
    ensures ToggleVisibility(ToggleVisibility(d)) == d
    ensures ToggleNotifications(ToggleNotifications(d)) == d
  {
  }

  /** An option of the status selector: students are offered job-search
      states, every other role hiring states. */
  datatype StatusChoice = OjtChoice(ojt: OjtStatus) | CompanyChoice(company: CompanyStatus)

  predicate OfferedTo(role: UserRole, choice: StatusChoice)
  {
    choice.OjtChoice? <==> role == Student
  }

  /** The selector's change handler: the student field for a student, the
      company field for anybody else. */
  function ChangeStatus(d: UserProfile, choice: StatusChoice): (r: UserProfile)
    requires OfferedTo(d.role, choice)
    ensures d.role == Student ==> r == d.(ojtStatus := Some(choice.ojt))
    ensures d.role != Student ==> r == d.(companyStatus := Some(choice.company))
  {
    if d.role == Student then d.(ojtStatus := Some(choice.ojt))
    else d.(companyStatus := Some(choice.company))
  }

  /** The draft handlers. */
  datatype DraftEdit =
    | AddSkillEdit(skill: string)
    | RemoveSkillEdit(skill: string)
    | ToggleVisibilityEdit
    | ToggleNotificationsEdit
    | ChangeStatusEdit(choice: StatusChoice)
    | EditName(name: string)
    | EditAffiliation(affiliation: string)
    | EditBio(bio: string)

  /** The status selector only lists options for the draft's own role. */
  predicate EditOffered(d: UserProfile, e: DraftEdit)
  {
    e.ChangeStatusEdit? ==> OfferedTo(d.role, e.choice)
  }

  function ApplyEdit(d: UserProfile, e: DraftEdit): UserProfile
    requires EditOffered(d, e)
  {
    match e
    case AddSkillEdit(s) => AddSkill(d, s)
    case RemoveSkillEdit(s) => RemoveSkill(d, s)
    case ToggleVisibilityEdit => ToggleVisibility(d)
    case ToggleNotificationsEdit => ToggleNotifications(d)
    case ChangeStatusEdit(c) => ChangeStatus(d, c)
    case EditName(n) => d.(name := n)
    case EditAffiliation(a) => d.(affiliation := Some(a))
    case EditBio(b) => d.(bio := Some(b))
  }

  /** Each handler changes one field of the draft and nothing else; none
      of them changes the id or the role. */
  lemma EditChangesOneField(d: UserProfile, e: DraftEdit)
    requires EditOffered(d, e)
    ensures var r := ApplyEdit(d, e);
            r.id == d.id && r.role == d.role
            && match e
               case AddSkillEdit(_) => r == d.(skills := r.skills)
               case RemoveSkillEdit(_) => r == d.(skills := r.skills)
               case ToggleVisibilityEdit => r == d.(visibility := r.visibility)
               case ToggleNotificationsEdit => r == d.(notificationsEnabled := r.notificationsEnabled)
               case ChangeStatusEdit(_) =>
                 r == d.(ojtStatus := r.ojtStatus) || r == d.(companyStatus := r.companyStatus)
               case EditName(_) => r == d.(name := r.name)
               case EditAffiliation(_) => r == d.(affiliation := r.affiliation)
               case EditBio(_) => r == d.(bio := r.bio)
  {
  }

  /** What editing does keep: a job-search status only on a student, a
      hiring status never on a student. */
  predicate StatusFieldsPlaced(p: UserProfile)
  {
    (p.ojtStatus.Some? ==> p.role == Student) && (p.companyStatus.Some? ==> p.role != Student)
  }

  /** Profiles built at sign-in satisfy it, and every edit keeps it. */
  lemma EditKeepsStatusPlacement(d: UserProfile, e: DraftEdit)
    requires EditOffered(d, e)
    ensures AuthForm.RoleStatusConsistent(d) ==> StatusFieldsPlaced(d)
    ensures StatusFieldsPlaced(d) ==> StatusFieldsPlaced(ApplyEdit(d, e))
  {
  }

  /** The stricter sign-in invariant is not kept: a coordinator's selector
      writes the company field, so a coordinator can end up with a hiring
      status. */
  lemma CoordinatorGainsCompanyStatus(d: UserProfile)
    requires d.role == Coordinator && AuthForm.RoleStatusConsistent(d)
    ensures !AuthForm.RoleStatusConsistent(ApplyEdit(d, ChangeStatusEdit(CompanyChoice(Hiring))))
  {
  }

  datatype SaveStatus = Idle | Saving | Saved

  /** The editor component: the draft, the save indicator, and the timers
      still to fire. Every press schedules a save timer whose callback
      commits the draft as it was at that press; save timers have the same
      delay, so they fire in press order. Every save timer schedules a
      reset timer, and nothing cancels one, so a reset left over from an
      earlier save may fire while a later save is pending. */
  class Editor {
    var formData: UserProfile
    var saveStatus: SaveStatus
    var pendingSaves: seq<UserProfile>
    var pendingResets: nat

    /** SAVING is only ever shown with a save to come, and SAVED only with a
        reset to come; the converse does not hold once timers overlap. */
    predicate Valid()
      reads this
    {
      (saveStatus == Saving ==> pendingSaves != [])
      && (saveStatus == Saved ==> pendingResets > 0)
    }

    constructor (user: UserProfile)
      ensures Valid() && formData == user && saveStatus == Idle
      ensures pendingSaves == [] && pendingResets == 0
    {
      formData := user;
      saveStatus := Idle;
      pendingSaves := [];
      pendingResets := 0;
    }

    /** Any draft handler; the save indicator and the timers are left
        alone. */
    method Edit(e: DraftEdit)
      requires Valid() && EditOffered(formData, e)
      modifies this`formData
      ensures Valid() && formData == ApplyEdit(old(formData), e)
    {
      formData := ApplyEdit(formData, e);
    }

    /** `handleSave`. The button is disabled only while SAVING, so a press
        then has no effect; from IDLE or SAVED it schedules one more save of
        the current draft. */
    method PressSave()
      requires Valid()
      modifies this`saveStatus, this`pendingSaves
      ensures Valid() && saveStatus == Saving
      ensures old(saveStatus) == Saving ==> pendingSaves == old(pendingSaves)
      ensures old(saveStatus) != Saving ==> pendingSaves == old(pendingSaves) + [formData]
    {
      if saveStatus != Saving {
        saveStatus := Saving;
        pendingSaves := pendingSaves + [formData];
      }
    }

    /** The earliest save timer: hands its captured draft to `onUpdate`
        (returned here), shows SAVED and schedules a reset. */
    method SaveTimerFires() returns (committed: UserProfile)
      requires Valid() && pendingSaves != []
      modifies this`saveStatus, this`pendingSaves, this`pendingResets
      ensures Valid() && saveStatus == Saved
      ensures committed == old(pendingSaves)[0] && pendingSaves == old(pendingSaves)[1..]
      ensures pendingResets == old(pendingResets) + 1
    {
      committed := pendingSaves[0];
      pendingSaves := pendingSaves[1..];
      saveStatus := Saved;
      pendingResets := pendingResets + 1;
    }

    /** A reset timer: back to IDLE, whatever is showing, even SAVING. */
    method ResetTimerFires()
      requires Valid() && pendingResets > 0
      modifies this`saveStatus, this`pendingResets
      ensures Valid() && saveStatus == Idle && pendingResets == old(pendingResets) - 1
    {
      saveStatus := Idle;
      pendingResets := pendingResets - 1;
    }
  }

  /** A whole save from IDLE: the indicator goes SAVING, SAVED, IDLE, and the
      profile committed is the draft at the moment of the press, even if
      the draft is edited while the save is pending. */
  method SaveSequence(user: UserProfile, late: DraftEdit) returns (committed: UserProfile)
    requires EditOffered(user, late)
    ensures committed == user
  {
    var editor := new Editor(user);
    editor.PressSave();
    assert editor.saveStatus == Saving;
    editor.Edit(late);
    committed := editor.SaveTimerFires();
    assert editor.saveStatus == Saved;
    editor.ResetTimerFires();
    assert editor.saveStatus == Idle && editor.pendingSaves == [] && editor.pendingResets == 0;
  }

  /** Saves can overlap: press, let the save land, press again while SAVED
      with an edited draft; the first save's reset then shows IDLE while the
      second save is still pending, so the button is enabled and a third
      press schedules a second pending save. Both later saves then commit,
      in press order, the draft of their own press. */
  method OverlappingSaves(user: UserProfile, e1: DraftEdit, e2: DraftEdit)
      returns (first: UserProfile, second: UserProfile, third: UserProfile)
    requires EditOffered(user, e1) && EditOffered(ApplyEdit(user, e1), e2)
    ensures first == user
    ensures second == ApplyEdit(user, e1)
    ensures third == ApplyEdit(ApplyEdit(user, e1), e2)
  {
    var editor := new Editor(user);
    editor.PressSave();
    first := editor.SaveTimerFires();
    editor.Edit(e1);
    editor.PressSave();
    editor.ResetTimerFires();
    assert editor.saveStatus == Idle && |editor.pendingSaves| == 1;
    editor.Edit(e2);
    editor.PressSave();
    assert |editor.pendingSaves| == 2;
    second := editor.SaveTimerFires();
    third := editor.SaveTimerFires();
  }
}
