/** The landing screen's own state: the login/signup toggle and the three
    inputs, and which controller callback a submit goes to. */
module Landing {

  datatype AuthMode = LoginMode | SignupMode

  /** The callback a submit invokes, with its arguments. */
  datatype Submission =
    | OnLogin(email: string, password: string)
    | OnSignup(name: string, email: string, password: string)

  function Flipped(m: AuthMode): (r: AuthMode)
    ensures r != m
  {
    if m == LoginMode then SignupMode else LoginMode
  }

  /** Toggling twice returns to the mode toggled from. */
  lemma FlippedTwice(m: AuthMode)
    ensures Flipped(Flipped(m)) == m
  {
  }

  class LandingState {
    var authMode: AuthMode
    var name: string
    var email: string
    var password: string

    /** The name input exists only in signup mode, and toggling clears it,
        so in login mode the name is empty. */
    ghost predicate Valid()
      reads this
    {
      authMode == LoginMode ==> name == ""
    }

    constructor ()
      ensures Valid()
      ensures authMode == LoginMode && name == "" && email == "" && password == ""
    {
      authMode := LoginMode;
      name, email, password := "", "", "";
    }

    function NameFieldShown(): (shown: bool)
      reads this
      ensures shown <==> authMode == SignupMode
    {
      authMode == SignupMode
    }

    method SetName(value: string)
      requires Valid() && NameFieldShown()
      modifies this
      ensures Valid()
      ensures name == value && authMode == old(authMode)
      ensures email == old(email) && password == old(password)
    {
      name := value;
    }

    method SetEmail(value: string)
      requires Valid()
      modifies this
      ensures Valid()
      ensures email == value && authMode == old(authMode)
      ensures name == old(name) && password == old(password)
    {
      email := value;
    }

    method SetPassword(value: string)
      requires Valid()
      modifies this
      ensures Valid()
      ensures password == value && authMode == old(authMode)
      ensures name == old(name) && email == old(email)
    {
      password := value;
    }

    method ToggleMode()
      requires Valid()
      modifies this
      ensures Valid()
      ensures authMode == Flipped(old(authMode))
      ensures name == "" && email == "" && password == ""
    {
      authMode := Flipped(authMode);
      name := "";
      email := "";
      password := "";
    }

    /** Every shown input is `required`, so the browser submits only with
        each of them filled in. */
    method HandleSubmit() returns (s: Submission)
      requires Valid()
      requires email != "" && password != ""
      requires authMode == SignupMode ==> name != ""
      ensures authMode == LoginMode ==> s == OnLogin(email, password)
      ensures authMode == SignupMode ==> s == OnSignup(name, email, password)
      ensures s.OnSignup? ==> s.name != ""
    {
      if authMode == LoginMode {
        s := OnLogin(email, password);
      } else {
        s := OnSignup(name, email, password);
      }
    }
  }

  /** Toggling twice from any state returns to its mode with every field
      empty. */
  method ToggleTwice(page: LandingState)
    requires page.Valid()
    modifies page
    ensures page.Valid()
    ensures page.authMode == old(page.authMode)
    ensures page.name == "" && page.email == "" && page.password == ""
  {
    page.ToggleMode();
    page.ToggleMode();
    FlippedTwice(old(page.authMode));
  }
}
