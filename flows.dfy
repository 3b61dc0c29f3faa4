/** How the components meet at the root: a profile built by the sign-in
    form, handed to the root's login handler, decides the landing view, the
    verification overlay and the slot manager's company. */
module Flows {
  import opened Types
  import opened Navigation
  import App
  import AuthForm
  import SlotManagement
  import ProfileEditor
  import Seed

  /** A business signing up or in through the form is unverified: it lands
      on its dashboard without the overlay, meets the overlay on 'slots',
      and its slot manager works for the typed affiliation, or for
      'Nexus Labs' (with that company's seed posting) when none was typed. */
  lemma BusinessSignInFlow(s: App.Session, isLogin: bool, form: AuthForm.FormFields, id: string, joinedAt: int)
    ensures var p := AuthForm.BuildProfile(isLogin, Business, form, id, joinedAt);
            var t := App.Step(s, App.Login(p));
            t.currentView == BusinessDashboardView
            && !App.VerificationGateShown(p, t.currentView)
            && App.VerificationGateShown(p, App.Step(t, App.Navigate(SlotsView)).currentView)
            && App.SlotsCompanyName(p) == (if form.affiliation != [] then form.affiliation else "Nexus Labs")
            && (form.affiliation == [] ==> SlotManagement.InitialPostings(App.SlotsCompanyName(p)) == [Seed.P1])
  {
    SlotManagement.NexusLabsStartsWithP1();
  }

  /** Students and coordinators built by the form never meet the overlay,
      and land on an entry of their own sidebar. */
  lemma OthersNeverGated(s: App.Session, isLogin: bool, role: UserRole, form: AuthForm.FormFields, id: string, joinedAt: int, v: View)
    requires role != Business
    ensures var p := AuthForm.BuildProfile(isLogin, role, form, id, joinedAt);
            !App.VerificationGateShown(p, v)
            && App.Step(s, App.Login(p)).currentView in Ids(VisibleItems(role))
  {
    App.DefaultViewInMenu(role);
  }

  /** A business that clears its affiliation in the profile editor and
      saves keeps its view, and the slot manager then works for
      'Nexus Labs', starting with that company's seed posting. */
  lemma ClearedAffiliationFallsBack(s: App.Session, d: UserProfile)
    ensures var p := ProfileEditor.ApplyEdit(d, ProfileEditor.EditAffiliation(""));
            var t := App.Step(s, App.UpdateUser(p));
            t.user == Some(p) && t.currentView == s.currentView
            && App.SlotsCompanyName(p) == "Nexus Labs"
            && SlotManagement.InitialPostings(App.SlotsCompanyName(p)) == [Seed.P1]
  {
    SlotManagement.NexusLabsStartsWithP1();
  }
}
