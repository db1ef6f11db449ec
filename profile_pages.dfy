/**
 * The two wizard pages in front of the database setup: the information page,
 * where the user chooses to create, select or edit a profile, and the
 * profile page, where the chosen profile is named, filled from the driver
 * form, saved and put in use.
 */
module ProfilePages {
  import opened Options
  import opened Profiles
  import opened DriverForms

  /** The radio button checked on the information page (none is possible). */
  datatype ProfileChoice = NewProfile | SelectExisting | EditExisting | NoChoice

  /** The page the wizard shows after the information page. */
  datatype PageId = ConfigPage | SetupPage

  /**
   * The information page's `validatePage`: creating a new profile is always
   * valid; otherwise a profile name must be chosen, must exist, and may be
   * edited only when that profile is editable.
   */
  function ValidateInfo(choice: ProfileChoice, name: string, profiles: map<string, Profile>): (ok: bool)
    ensures choice == NewProfile ==> ok
    ensures choice != NewProfile && name == "" ==> !ok
    ensures choice != NewProfile && name !in profiles ==> !ok
    ensures choice == EditExisting && name in profiles && !profiles[name].editable ==> !ok
  {
    if choice == NewProfile then true
    else if name == "" then false
    else if name !in profiles then false
    else if !profiles[name].editable && choice == EditExisting then false
    else true
  }

  /** The information page's `isComplete`: valid, and complete as any page. */
  function InfoComplete(choice: ProfileChoice, name: string, profiles: map<string, Profile>, baseComplete: bool): (ok: bool)
    ensures ok <==> ValidateInfo(choice, name, profiles) && baseComplete
  {
    if ValidateInfo(choice, name, profiles) then baseComplete else false
  }

  /**
   * The information page's `nextId`: creating or editing goes to the profile
   * page, selecting (or no choice) straight to the setup page.
   */
  function NextPage(choice: ProfileChoice): (next: PageId)
    ensures next == ConfigPage <==> choice == NewProfile || choice == EditExisting
  {
    if choice == NewProfile || choice == EditExisting then ConfigPage
    else if choice == SelectExisting then SetupPage
    else SetupPage
  }

  /** Selecting an existing profile is valid exactly when it exists. */
  lemma SelectValidIffKnown(name: string, profiles: map<string, Profile>)
    ensures ValidateInfo(SelectExisting, name, profiles) <==> name != "" && name in profiles
  {
  }

  /** Editing an existing profile is valid exactly when it exists and is editable. */
  lemma EditValidIffEditable(name: string, profiles: map<string, Profile>)
    ensures ValidateInfo(EditExisting, name, profiles) <==>
      name != "" && name in profiles && profiles[name].editable
  {
  }

  /** What the profile page decides to save. */
  datatype Resolution =
    | SelectedMissing
    | NameTaken
    | Chosen(profile: Profile)

  /**
   * The profile page's choice of profile: the selected one under its own
   * name, the selected one renamed to an unused name, or a new profile of
   * the current driver when nothing was selected; a selected name that no
   * longer exists, or a new name already taken by another profile, is refused.
   */
  function Resolve(profiles: map<string, Profile>, selected: string, newName: string, driver: string): (r: Resolution)
    requires newName != ""
    ensures r.Chosen? && newName != selected ==> r.profile.name == newName
    ensures r.Chosen? && newName == selected ==> selected in profiles && r.profile == profiles[selected]
  {
    if selected != "" && selected !in profiles then SelectedMissing
    else if newName == selected then Chosen(profiles[selected])
    else if newName in profiles then NameTaken
    else if selected != "" then Chosen(profiles[selected].(name := newName))
    else Chosen(Profile(newName, driver, true, map[]))
  }

  /** The profile page's decisions, case by case. */
  lemma ResolveCases(profiles: map<string, Profile>, selected: string, newName: string, driver: string)
    requires newName != ""
    ensures Resolve(profiles, selected, newName, driver) == NameTaken <==>
      (selected == "" || selected in profiles) && newName != selected && newName in profiles
    ensures Resolve(profiles, selected, newName, driver) == SelectedMissing <==>
      selected != "" && selected !in profiles
    ensures selected in profiles && newName == selected ==>
      Resolve(profiles, selected, newName, driver) == Chosen(profiles[selected])
    ensures selected != "" && selected in profiles && newName != selected && newName !in profiles ==>
      Resolve(profiles, selected, newName, driver) == Chosen(profiles[selected].(name := newName))
    ensures selected == "" && newName !in profiles ==>
      Resolve(profiles, selected, newName, driver) == Chosen(Profile(newName, driver, true, map[]))
  {
  }

  /** A chosen profile is never one that another name already holds. */
  lemma ChosenNameIsFree(profiles: map<string, Profile>, selected: string, newName: string, driver: string)
    requires newName != ""
    requires Resolve(profiles, selected, newName, driver).Chosen?
    ensures newName in profiles ==> newName == selected
  {
  }

  /**
   * The profile page's `validatePage`: on a refusal nothing is saved; else
   * the chosen profile is filled from the current driver's form, saved under
   * the new name and put in use.
   */
  method ValidateProfilePage(store: ProfileStore, form: DriverForm, selected: string, newName: string)
    returns (ok: bool)
    requires newName != "" && store.Valid()
    modifies store
    ensures store.Valid()
    ensures var r := Resolve(old(store.profiles), selected, newName, form.driver);
      && (ok <==> r.Chosen?)
      && (!ok ==> store.profiles == old(store.profiles) && store.inUse == old(store.inUse))
      && (ok ==> store.profiles == old(store.profiles)[newName := form.Filled(r.profile)]
                 && store.inUse == Some(newName))
  {
    var selectedProfile: Option<Profile> := None;
    if selected != "" {
      var found := store.Get(selected);
      if found.None? {
        return false;
      }
      selectedProfile := found;
    }
    var profile: Profile;
    if newName == selected {
      profile := selectedProfile.value;
    } else {
      var existing := store.Get(newName);
      if existing.Some? {
        return false;
      }
      if selectedProfile.Some? {
        profile := selectedProfile.value.(name := newName);
      } else {
        profile := Profile(newName, form.driver, true, map[]);
      }
    }
    var saved := form.Save(profile, store);
    store.Use(form.Filled(profile));
    ok := true;
  }
}
