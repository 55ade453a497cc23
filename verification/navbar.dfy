/** The navigation bar: the role label, the two menus and the password
    modal flag. */
module Navbar {
  import opened Wrappers
  import AuthContext

  /** `getRoleDisplayName(role)`: the three known roles get a label; any
      other value, `undefined` included, comes back unchanged. */
  function RoleDisplayName(role: Option<string>): (r: Option<string>)
    ensures role == Some("admin") ==> r == Some("System Administrator")
    ensures role == Some("user") ==> r == Some("User")
    ensures role == Some("store_owner") ==> r == Some("Store Owner")
    ensures role != Some("admin") && role != Some("user") && role != Some("store_owner") ==> r == role
  {
    if role == Some("admin") then Some("System Administrator")
    else if role == Some("user") then Some("User")
    else if role == Some("store_owner") then Some("Store Owner")
    else role
  }

  /** The three labels are distinct, so the label determines a known role. */
  lemma RoleLabelsDistinct(a: Option<string>, b: Option<string>)
    requires a in {Some("admin"), Some("user"), Some("store_owner")}
    requires b in {Some("admin"), Some("user"), Some("store_owner")}
    ensures RoleDisplayName(a) == RoleDisplayName(b) ==> a == b
  {
  }

  /** The flags of the bar. */
  datatype MenuFlags = MenuFlags(userMenu: bool, mobileMenu: bool, passwordModal: bool)

  class NavbarState {
    const session: AuthContext.AuthProvider
    var showUserMenu: bool
    var showMobileMenu: bool
    var showPasswordModal: bool

    constructor (session: AuthContext.AuthProvider)
      ensures this.session == session
      ensures Flags() == MenuFlags(false, false, false)
    {
      this.session := session;
      showUserMenu, showMobileMenu, showPasswordModal := false, false, false;
    }

    function Flags(): MenuFlags
      reads this
    {
      MenuFlags(showUserMenu, showMobileMenu, showPasswordModal)
    }

    /** The password modal is rendered exactly when its flag is set. */
    predicate PasswordModalRendered()
      reads this
    {
      showPasswordModal
    }

    method ToggleUserMenu()
      modifies this
      ensures Flags() == old(Flags()).(userMenu := !old(showUserMenu))
    {
      showUserMenu := !showUserMenu;
    }

    method ToggleMobileMenu()
      modifies this
      ensures Flags() == old(Flags()).(mobileMenu := !old(showMobileMenu))
    {
      showMobileMenu := !showMobileMenu;
    }

    /** "Change Password" in the desktop user menu. */
    method ChangePasswordFromUserMenu()
      modifies this
      ensures Flags() == old(Flags()).(passwordModal := true, userMenu := false)
    {
      showPasswordModal := true;
      showUserMenu := false;
    }

    /** "Change Password" in the mobile menu. */
    method ChangePasswordFromMobileMenu()
      modifies this
      ensures Flags() == old(Flags()).(passwordModal := true, mobileMenu := false)
    {
      showPasswordModal := true;
      showMobileMenu := false;
    }

    /** The password modal's `onClose`. */
    method ClosePasswordModal()
      modifies this
      ensures Flags() == old(Flags()).(passwordModal := false)
      ensures !PasswordModalRendered()
    {
      showPasswordModal := false;
    }

    /** `handleLogout`: the session logs out and the user menu closes; the
      mobile menu keeps its state. */
    method HandleLogout()
      modifies this, session, session.api, session.api.window
      ensures session.State() == AuthContext.LoggedOut(old(session.State()))
      ensures Flags() == old(Flags()).(userMenu := false)
    {
      session.Logout();
      showUserMenu := false;
    }
  }
}
