/** The role selection page: two buttons, each storing its role string
    in the "role" slot and then navigating. */
module RoleSelection {
  import opened Common
  import opened BrowserStorage
  import opened AppRoutes

  /** The only two strings the page's buttons pass. */
  const RoleChoices: seq<string> := ["institute", "participant"]

  /** Where `handleSelect` navigates after storing the role. */
  function NavigationTarget(selectedRole: string): (target: string)
    ensures target == CreateBattlePath <==> selectedRole == "institute"
    ensures target == ParticipatePath <==> selectedRole != "institute"
  {
    if selectedRole == "institute" then CreateBattlePath else ParticipatePath
  }

  /** `handleSelect`: the storage write happens first, then the navigation,
      whose target is returned. */
  method HandleSelect(storage: LocalStorage, selectedRole: string) returns (target: string)
    modifies storage
    ensures storage.items == old(storage.items)[RoleSlot := selectedRole]
    ensures target == NavigationTarget(selectedRole)
  {
    storage.SetItem(RoleSlot, selectedRole);
    if selectedRole == "institute" {
      target := CreateBattlePath;
    } else {
      target := ParticipatePath;
    }
  }

  /** Selecting the same role twice leaves the storage as selecting it once;
      the slot holds the role and no other slot changes. */
  method SelectTwice(saved: map<string, string>, selectedRole: string)
    returns (once: map<string, string>, twice: map<string, string>)
    ensures once == twice
    ensures RoleSlot in twice && twice[RoleSlot] == selectedRole
    ensures forall k :: k in saved && k != RoleSlot ==> k in twice && twice[k] == saved[k]
  {
    var first := new LocalStorage(saved);
    var _ := HandleSelect(first, selectedRole);
    once := first.items;
    var second := new LocalStorage(saved);
    var _ := HandleSelect(second, selectedRole);
    var _ := HandleSelect(second, selectedRole);
    twice := second.items;
  }

  /** With the role it has just stored in effect, each button's target
      renders its page. */
  lemma ChoiceTargetAcceptsChoice(choice: string)
    requires choice in RoleChoices
    ensures Route(NavigationTarget(choice), Some(choice))
         == (if choice == "institute" then CreateBattle else Participate)
  {
    if choice == "institute" {
      GuardedRoutes(Some("institute"));
    } else {
      assert choice == "participant";
      GuardedRoutes(Some("participant"));
    }
  }

  /** The shell as written: it mounted before the selection, so its role
      state is whatever storage held then. A visitor with nothing stored
      who picks a role is sent to its page and bounced back to role
      selection, whichever role was picked. */
  method SelectAfterMount(saved: map<string, string>, choice: string) returns (shown: View)
    ensures shown == Route(NavigationTarget(choice), Lookup(saved, RoleSlot))
    ensures RoleSlot !in saved ==> shown == Redirect(SelectRolePath)
  {
    var storage := new LocalStorage(saved);
    var app := new AppShell();
    app.Mount(storage);
    var target := HandleSelect(storage, choice);
    shown := app.Show(target);
    GuardedRoutes(None);
  }

  /** The evident intent: the guard sees the role just selected (here by
      reading the slot again after the selection), so each choice reaches
      its page whatever was stored before. */
  method SelectThenRereadRole(saved: map<string, string>, choice: string) returns (shown: View)
    requires choice in RoleChoices
    ensures shown == (if choice == "institute" then CreateBattle else Participate)
  {
    var storage := new LocalStorage(saved);
    var app := new AppShell();
    app.Mount(storage);
    var target := HandleSelect(storage, choice);
    app.Mount(storage);
    shown := app.Show(target);
    ChoiceTargetAcceptsChoice(choice);
  }
}
