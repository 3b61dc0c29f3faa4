/** The application root (App.tsx): the optional signed-in user, the current
    view, the active chat contact, and the one browser-storage slot
    ('mapmyojt_user') that outlives a reload. */
module App {
  import opened Types
  import opened Navigation

  /** `setInitialView`: the view a role lands on after sign-in or restore. */
  function DefaultView(role: UserRole): View
  {
    match role
    case Student => MapView
    case Business => BusinessDashboardView
    case Coordinator => CoordinatorDashboardView
  }

  /** Every role lands on a view its own sidebar offers, and no two roles
      share a landing view. */
  lemma DefaultViewInMenu(role: UserRole)
    ensures DefaultView(role) in Ids(VisibleItems(role))
    ensures forall other :: other != role ==> DefaultView(other) != DefaultView(role)
  {
    match role
    case Student => StudentMenu();
    case Business => BusinessMenu();
    case Coordinator => CoordinatorMenu();
  }

  /** The whole observable state of the root component. `stored` is the
      storage slot, as the profile it holds. */
  datatype Session = Session(
    user: Option<UserProfile>,
    currentView: View,
    activeContact: Option<Contact>,
    stored: Option<UserProfile>)

  /** What can happen to the root: the four handlers, a view change (sidebar
      entry, header avatar, or the verification overlay's button) and a pick
      in the fixed contact list. */
  datatype Event =
    | Login(profile: UserProfile)
    | Logout
    | UpdateUser(profile: UserProfile)
    | StartChat(posting: Posting)
    | Navigate(view: View)
    | SelectContact(contact: Contact)

  /** The avatar address `handleStartChat` derives from the company name. */
  function CompanyAvatar(companyName: string): string
  {
    "https://picsum.photos/seed/" + companyName + "/200"
  }

  /** Mounting the root: the initial state (no user, view 'map', no contact)
      followed by the restore effect, which adopts a saved profile together
      with its role's default view. */
  function Restore(saved: Option<UserProfile>): (s: Session)
  {
    match saved
    case None => Session(None, MapView, None, None)
    case Some(p) => Session(Some(p), DefaultView(p.role), None, saved)
  }

  /** One handler run. */
  function Step(s: Session, e: Event): Session
  {
    match e
    case Login(p) => s.(user := Some(p), stored := Some(p), currentView := DefaultView(p.role))
    case Logout => s.(user := None, stored := None)
    case UpdateUser(p) => s.(user := Some(p), stored := Some(p))
    case StartChat(posting) =>
      s.(activeContact := Some(Contact(posting.id, posting.companyName, CompanyAvatar(posting.companyName))),
         currentView := ChatView)
    case Navigate(v) => s.(currentView := v)
    case SelectContact(c) => s.(activeContact := Some(c))
  }

  /** Handlers run one after another. */
  function Run(s: Session, events: seq<Event>): Session
    decreases |events|
  {
    if events == [] then s else Run(Step(s, events[0]), events[1..])
  }

  /** The storage slot and the current user agree. */
  predicate Persisted(s: Session)
  {
    s.stored == s.user
  }

  /** Every handler keeps the slot equal to the current user. */
  lemma StepKeepsPersisted(s: Session, e: Event)
    requires Persisted(s)
    ensures Persisted(Step(s, e))
  {
  }

  /** From any mount, whatever handlers run, the storage slot holds exactly
      the signed-in user (and nothing once signed out). */
  lemma {:induction false} PersistedAlways(saved: Option<UserProfile>, events: seq<Event>)
    ensures Persisted(Run(Restore(saved), events))
  {
    RunKeepsPersisted(Restore(saved), events);
  }

  lemma {:induction false} RunKeepsPersisted(s: Session, events: seq<Event>)
    requires Persisted(s)
    ensures Persisted(Run(s, events))
    decreases |events|
  {
    if events != [] {
      StepKeepsPersisted(s, events[0]);
      RunKeepsPersisted(Step(s, events[0]), events[1..]);
    }
  }

  /** A reload after any sequence of handlers brings back the same user, on
      that user's default view (or the signed-out screen on 'map'). */
  lemma {:induction false} ReloadRestoresUser(saved: Option<UserProfile>, events: seq<Event>)
    ensures var s := Run(Restore(saved), events);
            Restore(s.stored).user == s.user
            && Restore(s.stored).currentView == (if s.user.Some? then DefaultView(s.user.value.role) else MapView)
  {
    PersistedAlways(saved, events);
  }

  /** Signing in sets the user, stores the same profile and lands on the
      role's default view; signing out then leaves nothing to restore, while
      the view and the contact stay as they were. */
  lemma LoginLogout(s: Session, p: UserProfile)
    ensures var t := Step(s, Login(p));
            t.user == Some(p) && t.stored == Some(p) && t.currentView == DefaultView(p.role)
            && Restore(t.stored) == Session(Some(p), DefaultView(p.role), None, Some(p))
    ensures var u := Step(Step(s, Login(p)), Logout);
            u.user == None && u.stored == None && Restore(u.stored).user == None
            && u.currentView == DefaultView(p.role) && u.activeContact == s.activeContact
  {
  }

  /** Saving a profile replaces the user and the stored copy, and moves
      neither the view nor the contact. */
  lemma UpdateKeepsView(s: Session, p: UserProfile)
    ensures Step(s, UpdateUser(p)).user == Some(p) && Step(s, UpdateUser(p)).stored == Some(p)
    ensures Step(s, UpdateUser(p)).currentView == s.currentView
    ensures Step(s, UpdateUser(p)).activeContact == s.activeContact
  {
  }

  /** Starting a chat from a posting opens the chat view with that company,
      identified by the posting's id. */
  lemma StartChatOpensChat(s: Session, posting: Posting)
    ensures var t := Step(s, StartChat(posting));
            t.currentView == ChatView && t.activeContact.Some?
            && t.activeContact.value.id == posting.id && t.activeContact.value.name == posting.companyName
            && t.user == s.user && t.stored == s.stored
  {
  }

  /** The "Verification Pending" overlay: a business whose `isVerified` is
      not true sees it on every view except its dashboard and the profile. */
  predicate VerificationGateShown(user: UserProfile, view: View)
  {
    user.role == Business && user.isVerified != Some(true)
    && view != BusinessDashboardView && view != ProfileView
  }

  /** The slot manager renders only for a business on 'slots'. */
  predicate SlotsPanelShown(user: UserProfile, view: View)
  {
    view == SlotsView && user.role == Business
  }

  /** The verification queue renders only for a coordinator on 'verifications'. */
  predicate VerificationsPanelShown(user: UserProfile, view: View)
  {
    view == VerificationsView && user.role == Coordinator
  }

  /** The company name handed to the slot manager: the affiliation, or
      'Nexus Labs' when it is absent or empty. */
  function SlotsCompanyName(user: UserProfile): (name: string)
    ensures name != []
    ensures user.affiliation.Some? && user.affiliation.value != [] ==> name == user.affiliation.value
    ensures !(user.affiliation.Some? && user.affiliation.value != []) ==> name == "Nexus Labs"
  {
    match user.affiliation
    case Some(a) => if a != [] then a else "Nexus Labs"
    case None => "Nexus Labs"
  }

  /** An unverified business that opens 'slots' gets the overlay on top of
      the slot manager; the overlay's button takes it to the dashboard,
      where the overlay is gone. Verified businesses and the other roles
      never see it. */
  lemma GateScenario(s: Session, p: UserProfile)
    requires p.role == Business && p.isVerified != Some(true)
    ensures var t := Step(Step(s, Login(p)), Navigate(SlotsView));
            VerificationGateShown(p, t.currentView) && SlotsPanelShown(p, t.currentView)
            && !VerificationGateShown(p, Step(t, Navigate(BusinessDashboardView)).currentView)
    ensures forall q: UserProfile, v :: q.role != Business || q.isVerified == Some(true)
              ==> !VerificationGateShown(q, v)
  {
  }

  /** The root component: its state hooks and the storage slot. */
  class AppRoot {
    var user: Option<UserProfile>
    var currentView: View
    var activeContact: Option<Contact>
    var stored: Option<UserProfile>

    function State(): Session
      reads this
    {
      Session(user, currentView, activeContact, stored)
    }

    /** The slot holds exactly the signed-in user. */
    predicate Valid()
      reads this
    {
      Persisted(State())
    }

    /** Mount, including the restore effect over what the slot held. */
    constructor (saved: Option<UserProfile>)
      ensures State() == Restore(saved) && Valid()
    {
      match saved {
        case None =>
          user, currentView, activeContact, stored := None, MapView, None, None;
        case Some(p) =>
          user, currentView, activeContact, stored := Some(p), DefaultView(p.role), None, saved;
      }
    }

    /** With no user, only the sign-in form renders. */
    function ShowsAuthForm(): bool
      reads this
    {
      user.None?
    }

    method HandleLogin(newUser: UserProfile)
      requires Valid()
      modifies this
      ensures State() == Step(old(State()), Login(newUser)) && Valid()
      ensures user == Some(newUser) && stored == Some(newUser) && currentView == DefaultView(newUser.role)
    {
      user := Some(newUser);
      stored := Some(newUser);
      currentView := DefaultView(newUser.role);
    }

    method HandleLogout()
      requires Valid()
      modifies this
      ensures State() == Step(old(State()), Logout) && Valid()
      ensures user == None && stored == None
      ensures currentView == old(currentView) && activeContact == old(activeContact)
    {
      user := None;
      stored := None;
    }

    method HandleUpdateUser(updated: UserProfile)
      requires Valid()
      modifies this
      ensures State() == Step(old(State()), UpdateUser(updated)) && Valid()
      ensures currentView == old(currentView) && activeContact == old(activeContact)
    {
      user := Some(updated);
      stored := Some(updated);
    }

    method HandleStartChat(posting: Posting)
      requires Valid()
      modifies this
      ensures State() == Step(old(State()), StartChat(posting)) && Valid()
    {
      activeContact := Some(Contact(posting.id, posting.companyName, CompanyAvatar(posting.companyName)));
      currentView := ChatView;
    }

    /** `setCurrentView`, as the sidebar, the header avatar and the
        verification overlay call it. */
    method SetCurrentView(v: View)
      requires Valid()
      modifies this
      ensures State() == Step(old(State()), Navigate(v)) && Valid()
    {
      currentView := v;
    }

    /** `setActiveContact` from the contact list. */
    method SetActiveContact(c: Contact)
      requires Valid()
      modifies this
      ensures State() == Step(old(State()), SelectContact(c)) && Valid()
    {
      activeContact := Some(c);
    }
  }
}
