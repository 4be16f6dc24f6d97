/** The application shell (App.tsx): the current screen, the colour theme, and
    the two login flows. The driver login keeps the chosen driver, the typed
    password and an error message; the manager login keeps its own password
    and error. */
module App {
  import opened Base
  import opened JsText
  import opened Types
  import opened Db

  const WRONG_PASSWORD: string := "Senha incorreta. Tente novamente."

  /** The theme after a toggle: "dark" from "light", "light" from anything else. */
  function ToggledTheme(theme: string): (r: string)
    ensures r == "light" || r == "dark"
  {
    if theme == "light" then "dark" else "light"
  }

  /** Toggling twice restores a light or dark theme, and from any other stored
      value reaches "dark". */
  lemma ToggledThemeTwice(theme: string)
    ensures theme == "light" || theme == "dark" ==> ToggledTheme(ToggledTheme(theme)) == theme
    ensures theme != "light" && theme != "dark" ==> ToggledTheme(ToggledTheme(theme)) == "dark"
    ensures ToggledTheme(theme) != theme
  {
  }

  class Shell {
    const store: Store
    var view: ViewState
    var theme: string
    var loginSelectedDriverId: Option<Id>
    var loginPassword: string
    var loginError: string
    var adminPassword: string
    var adminLoginError: string

    /** Starts on the role choice, with the stored theme or "light". */
    constructor (store: Store, storedTheme: Option<string>)
      ensures this.store == store && view == RoleSelect && theme == OrElse(storedTheme, "light")
      ensures loginSelectedDriverId == None && loginPassword == "" && loginError == ""
      ensures adminPassword == "" && adminLoginError == ""
    {
      this.store := store;
      view := RoleSelect;
      theme := OrElse(storedTheme, "light");
      loginSelectedDriverId := None;
      loginPassword, loginError, adminPassword, adminLoginError := "", "", "", "";
    }

    method ToggleTheme()
      modifies this`theme
      ensures theme == ToggledTheme(old(theme))
    {
      theme := if theme == "light" then "dark" else "light";
    }

    method ChooseDriverRole()
      modifies this`view
      ensures view == DriverLogin
    {
      view := DriverLogin;
    }

    method ChooseAdminRole()
      modifies this`view
      ensures view == AdminLogin
    {
      view := AdminLogin;
    }

    /** Back from the manager login: the role choice, without the error. */
    method AdminLoginBack()
      modifies this`view, this`adminLoginError
      ensures view == RoleSelect && adminLoginError == ""
    {
      view := RoleSelect;
      adminLoginError := "";
    }

    /** Typing in the manager password field clears the error. */
    method TypeAdminPassword(text: string)
      modifies this`adminPassword, this`adminLoginError
      ensures adminPassword == text && adminLoginError == ""
    {
      adminPassword := text;
      adminLoginError := "";
    }

    /** The manager reaches the dashboard, with the password and the error
        cleared, exactly when the password verifies; otherwise only the error
        is set. */
    method ConfirmAdminLogin()
      modifies this`view, this`adminPassword, this`adminLoginError
      ensures old(adminPassword) == AdminPassword(store.adminPasswordSetting) ==>
        view == AdminDashboard && adminPassword == "" && adminLoginError == ""
      ensures old(adminPassword) != AdminPassword(store.adminPasswordSetting) ==>
        view == old(view) && adminPassword == old(adminPassword) && adminLoginError == WRONG_PASSWORD
    {
      var valid := store.VerifyAdminPassword(adminPassword);
      if valid {
        view := AdminDashboard;
        adminPassword := "";
        adminLoginError := "";
      } else {
        adminLoginError := WRONG_PASSWORD;
      }
    }

    method DriverLoginBack()
      modifies this`view
      ensures view == RoleSelect
    {
      view := RoleSelect;
    }

    /** Picking a driver opens the password prompt for that driver, empty and without error. */
    method HandleDriverLoginAttempt(driverId: Id)
      modifies this`loginSelectedDriverId, this`loginPassword, this`loginError
      ensures loginSelectedDriverId == Some(driverId) && loginPassword == "" && loginError == ""
    {
      loginSelectedDriverId := Some(driverId);
      loginPassword := "";
      loginError := "";
    }

    /** Typing in the driver password field clears the error. */
    method TypeDriverPassword(text: string)
      modifies this`loginPassword, this`loginError
      ensures loginPassword == text && loginError == ""
    {
      loginPassword := text;
      loginError := "";
    }

    /** Cancel closes the password prompt. */
    method CancelDriverLogin()
      modifies this`loginSelectedDriverId
      ensures loginSelectedDriverId == None
    {
      loginSelectedDriverId := None;
    }

    /** Without a chosen driver nothing happens. With valid credentials the
        driver's screen opens for exactly the chosen driver and the prompt is
        cleared; otherwise only the error is set. */
    method ConfirmDriverLogin(selectFails: bool)
      modifies this`view, this`loginSelectedDriverId, this`loginPassword, this`loginError
      ensures !Present(old(loginSelectedDriverId)) ==>
        view == old(view) && loginSelectedDriverId == old(loginSelectedDriverId) &&
        loginPassword == old(loginPassword) && loginError == old(loginError)
      ensures Present(old(loginSelectedDriverId)) &&
              !selectFails && CredentialsOk(store.drivers, old(loginSelectedDriverId).value, old(loginPassword)) ==>
        view == DriverList(old(loginSelectedDriverId).value) &&
        loginSelectedDriverId == None && loginPassword == "" && loginError == ""
      ensures Present(old(loginSelectedDriverId)) &&
              !(!selectFails && CredentialsOk(store.drivers, old(loginSelectedDriverId).value, old(loginPassword))) ==>
        view == old(view) && loginSelectedDriverId == old(loginSelectedDriverId) &&
        loginPassword == old(loginPassword) && loginError == WRONG_PASSWORD
    {
      if Present(loginSelectedDriverId) {
        var driverId := loginSelectedDriverId.value;
        var valid := store.VerifyDriverCredentials(driverId, loginPassword, selectFails);
        if valid {
          view := DriverList(driverId);
          loginSelectedDriverId := None;
          loginPassword := "";
          loginError := "";
        } else {
          loginError := WRONG_PASSWORD;
        }
      }
    }

    /** "Sair do Admin" and the driver's "Sair" both return to the role choice. */
    method Logout()
      modifies this`view
      ensures view == RoleSelect
    {
      view := RoleSelect;
    }
  }
}
