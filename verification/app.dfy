/** The application controller: the session, the local list of facts, the
    transient error message and the backend status indicator, and the
    handlers that change them. Every SDK call is an input of the handler
    that awaits it (how it settled); the calls a handler issues are logged,
    in order, in `calls`. Each handler runs as one atomic step. */
module App {
  import opened Records
  import FactList

  /** The backend calls the controller issues. */
  datatype Request =
    | MeCall
    | LoginCall(email: string, password: string)
    | SignupCall(name: string, email: string, password: string)
    | LogoutCall
    | FindCall
    | CreateCall(draft: Draft)
    | UpdateCall(id: Option<Id>, patch: Fact)
    | DeleteCall(id: Option<Id>)
    | ProbeCall(maxAttempts: nat)

  /** What the component renders. */
  datatype Page = LoadingPage | LandingPage | DashboardPage

  /** The controller's state without the call log. */
  datatype View = View(
    user: Option<User>,
    facts: seq<Fact>,
    loading: bool,
    error: string,
    backendConnected: bool,
    connectionStatus: string,
    pendingClears: nat)

  const LoadFailed := "Could not load carrot facts."
  const CreateFailed := "Could not create the fact. Please check your input."
  const UpdateFailed := "Could not update the fact."
  const DeleteFailed := "Could not delete the fact."
  const AuthFailed := "An authentication error occurred."

  const InitialStatus := "Testing..."
  const TestingStatus := "Testing connection..."
  const ConnectedStatus := "Connected"
  const SdkErrorStatus := "SDK Error"
  const FailedStatus := "Connection Failed"

  /** Attempts the mount effect asks the connectivity probe for. */
  const ProbeAttempts: nat := 3

  /** `err.message || 'An authentication error occurred.'` */
  function AuthErrorMessage(message: Option<string>): (r: string)
    ensures r != ""
    ensures message.Some? && message.value != "" ==> r == message.value
    ensures r == AuthFailed <==> message.None? || message.value == "" || message.value == AuthFailed
  {
    if message.Some? && message.value != "" then message.value else AuthFailed
  }

  /** The status label once the probe has answered, and the SDK client was
      or was not created. */
  function StatusLabel(reachable: bool, sdkReady: bool): (r: string)
    ensures r == FailedStatus <==> !reachable
    ensures r == ConnectedStatus <==> reachable && sdkReady
    ensures r == SdkErrorStatus <==> reachable && !sdkReady
  {
    if !reachable then FailedStatus
    else if sdkReady then ConnectedStatus
    else SdkErrorStatus
  }

  /** The indicator never contradicts the label under it. */
  predicate StatusConsistent(v: View)
  {
    (v.connectionStatus == ConnectedStatus || v.connectionStatus == SdkErrorStatus ==> v.backendConnected) &&
    (v.connectionStatus == FailedStatus ==> !v.backendConnected)
  }

  /** The render switch: a loading screen until the session check has
      settled, then the dashboard iff someone is signed in. */
  function PageOf(v: View): (p: Page)
    ensures p == LoadingPage <==> v.loading
    ensures p == DashboardPage <==> !v.loading && v.user.Some?
    ensures p == LandingPage <==> !v.loading && v.user.None?
  {
    if v.loading then LoadingPage
    else if v.user.Some? then DashboardPage
    else LandingPage
  }

  /** `loadFacts` once `find` has settled. */
  function AfterLoad(v: View, found: Settled<seq<Fact>>): (r: View)
    ensures found.Fulfilled? ==> r.facts == found.value && r.error == v.error
    ensures found.Rejected? ==> r.facts == v.facts && r.error == LoadFailed
    ensures r.user == v.user && r.loading == v.loading && r.pendingClears == v.pendingClears
    ensures r.backendConnected == v.backendConnected && r.connectionStatus == v.connectionStatus
  {
    match found
    case Fulfilled(data) => v.(facts := data)
    case Rejected(_) => v.(error := LoadFailed)
  }

  /** `handleAuthError`: show the message and schedule one auto-clear. */
  function AfterAuthError(v: View, message: Option<string>): (r: View)
    ensures r.error == AuthErrorMessage(message) && r.error != ""
    ensures r.pendingClears == v.pendingClears + 1
    ensures r.user == v.user && r.facts == v.facts && r.loading == v.loading
    ensures r.backendConnected == v.backendConnected && r.connectionStatus == v.connectionStatus
  {
    v.(error := AuthErrorMessage(message), pendingClears := v.pendingClears + 1)
  }

  /** The mount-time session check: `me()` then, for a user, `loadFacts`. */
  function AfterRestore(v: View, me: Settled<Option<User>>, found: Settled<seq<Fact>>): (r: View)
    ensures !r.loading
    ensures me.Fulfilled? && me.value.Some? ==> r.user == me.value
    ensures me.Fulfilled? && me.value.Some? ==> r == AfterLoad(v.(user := me.value), found).(loading := false)
    ensures me.Fulfilled? && me.value.None? ==> r == v.(loading := false)
    ensures me.Rejected? ==> r == v.(user := None, loading := false)
    ensures r.user.Some? ==> r.user == v.user || (me.Fulfilled? && r.user == me.value)
  {
    match me
    case Fulfilled(Some(u)) => AfterLoad(v.(user := Some(u)), found).(loading := false)
    case Fulfilled(None) => v.(loading := false)
    case Rejected(_) => v.(user := None, loading := false)
  }

  /** `login`: clear the error, sign in, fetch `me()`, then load facts. */
  function AfterLogin(v: View, signedIn: Settled<()>, me: Settled<Option<User>>,
                      found: Settled<seq<Fact>>): (r: View)
    ensures signedIn.Fulfilled? && me.Fulfilled? ==>
              r.user == me.value && r.facts == (if found.Fulfilled? then found.value else v.facts) &&
              r.error == (if found.Fulfilled? then "" else LoadFailed) && r.pendingClears == v.pendingClears
    ensures signedIn.Rejected? ==>
              r.user == v.user && r.facts == v.facts &&
              r.error == AuthErrorMessage(signedIn.message) && r.pendingClears == v.pendingClears + 1
    ensures signedIn.Fulfilled? && me.Rejected? ==>
              r.user == v.user && r.facts == v.facts &&
              r.error == AuthErrorMessage(me.message) && r.pendingClears == v.pendingClears + 1
    ensures r.loading == v.loading
    ensures r.backendConnected == v.backendConnected && r.connectionStatus == v.connectionStatus
  {
    var cleared := v.(error := "");
    if signedIn.Rejected? then AfterAuthError(cleared, signedIn.message)
    else if me.Rejected? then AfterAuthError(cleared, me.message)
    else AfterLoad(cleared.(user := me.value), found)
  }

  /** The calls `login` issues: `me()` only after the sign-in succeeded,
      `find` only after `me()` did. */
  function LoginCalls(email: string, password: string, signedIn: Settled<()>,
                      me: Settled<Option<User>>): (r: seq<Request>)
    ensures |r| == (if signedIn.Rejected? then 1 else if me.Rejected? then 2 else 3)
    ensures r[0] == LoginCall(email, password)
    ensures signedIn.Fulfilled? ==> r[1] == MeCall
    ensures signedIn.Fulfilled? && me.Fulfilled? ==> r[2] == FindCall
    ensures MeCall in r <==> signedIn.Fulfilled?
    ensures FindCall in r <==> signedIn.Fulfilled? && me.Fulfilled?
  {
    [LoginCall(email, password)] +
    (if signedIn.Rejected? then []
     else [MeCall] + (if me.Rejected? then [] else [FindCall]))
  }

  /** `signup`: clear the error, register, then `login` with the same
      credentials; a failed registration goes straight to the error. */
  function AfterSignup(v: View, registered: Settled<()>, signedIn: Settled<()>,
                       me: Settled<Option<User>>, found: Settled<seq<Fact>>): (r: View)
    ensures registered.Fulfilled? ==> r == AfterLogin(v, signedIn, me, found)
    ensures registered.Rejected? ==>
              r.user == v.user && r.facts == v.facts && r.loading == v.loading &&
              r.error == AuthErrorMessage(registered.message) && r.pendingClears == v.pendingClears + 1
    ensures registered.Rejected? ==>
              r.backendConnected == v.backendConnected && r.connectionStatus == v.connectionStatus
  {
    var cleared := v.(error := "");
    if registered.Rejected? then AfterAuthError(cleared, registered.message)
    else AfterLogin(cleared, signedIn, me, found)
  }

  /** The calls `signup` issues. */
  function SignupCalls(name: string, email: string, password: string, registered: Settled<()>,
                       signedIn: Settled<()>, me: Settled<Option<User>>): (r: seq<Request>)
    ensures 1 <= |r| && r[0] == SignupCall(name, email, password)
    ensures registered.Rejected? ==> r == [SignupCall(name, email, password)]
    ensures registered.Fulfilled? ==> r[1..] == LoginCalls(email, password, signedIn, me)
  {
    [SignupCall(name, email, password)] +
    (if registered.Rejected? then [] else LoginCalls(email, password, signedIn, me))
  }

  /** `logout` once the SDK logout has resolved. */
  function LoggedOut(v: View): (r: View)
    ensures r.user.None? && r.facts == []
    ensures r.error == v.error && r.loading == v.loading && r.pendingClears == v.pendingClears
    ensures r.backendConnected == v.backendConnected && r.connectionStatus == v.connectionStatus
  {
    v.(user := None, facts := [])
  }

  /** Logging out twice leaves the state of logging out once. */
  lemma LogoutIdempotent(v: View)
    ensures LoggedOut(LoggedOut(v)) == LoggedOut(v)
  {
  }

  /** `createFact`: on success nothing is appended locally, the list is
      reloaded instead. */
  function AfterCreate(v: View, created: Settled<Fact>, found: Settled<seq<Fact>>): (r: View)
    ensures created.Fulfilled? ==> r == AfterLoad(v, found)
    ensures created.Rejected? ==> r == v.(error := CreateFailed)
    ensures r.facts == v.facts || (created.Fulfilled? && found.Fulfilled? && r.facts == found.value)
  {
    if created.Fulfilled? then AfterLoad(v, found) else v.(error := CreateFailed)
  }

  /** The record `create` returns never reaches the local list. */
  lemma CreateIgnoresReturnedRecord(v: View, a: Fact, b: Fact, found: Settled<seq<Fact>>)
    ensures AfterCreate(v, Fulfilled(a), found) == AfterCreate(v, Fulfilled(b), found)
  {
  }

  /** `updateFact`: merge the returned record into the fact with that id. */
  function AfterUpdate(v: View, id: Option<Id>, updated: Settled<Fact>): (r: View)
    ensures |r.facts| == |v.facts|
    ensures updated.Fulfilled? ==> r == v.(facts := FactList.UpdateById(v.facts, id, updated.value))
    ensures updated.Rejected? ==> r == v.(error := UpdateFailed)
  {
    match updated
    case Fulfilled(u) => v.(facts := FactList.UpdateById(v.facts, id, u))
    case Rejected(_) => v.(error := UpdateFailed)
  }

  /** When the record the server returns omits id, author and creation
      time (or repeats the id), a successful update keeps every fact's id,
      author and creation time. A returned record with another id or an
      author would overwrite them. */
  lemma UpdateKeepsIdentity(v: View, id: Option<Id>, u: Fact)
    requires u.id.None? || u.id == id
    requires u.author.None? && u.createdAt.None?
    ensures |AfterUpdate(v, id, Fulfilled(u)).facts| == |v.facts|
    ensures forall i :: 0 <= i < |v.facts| ==>
              var f := AfterUpdate(v, id, Fulfilled(u)).facts[i];
              f.id == v.facts[i].id && f.author == v.facts[i].author && f.createdAt == v.facts[i].createdAt
  {
  }

  /** `deleteFact`: drop every fact with that id. */
  function AfterDelete(v: View, id: Option<Id>, deleted: Settled<()>): (r: View)
    ensures deleted.Fulfilled? ==> r == v.(facts := FactList.RemoveById(v.facts, id))
    ensures deleted.Fulfilled? ==> forall f :: f in r.facts ==> f.id != id
    ensures deleted.Rejected? ==> r == v.(error := DeleteFailed)
  {
    match deleted
    case Fulfilled(_) => v.(facts := FactList.RemoveById(v.facts, id))
    case Rejected(_) => v.(error := DeleteFailed)
  }

  /** A failed load or write leaves the list as it was and shows that
      operation's fixed message, without scheduling an auto-clear. */
  lemma FailedOperationsKeepFacts(v: View, id: Option<Id>, msg: Option<string>,
                                  found: Settled<seq<Fact>>)
    ensures AfterLoad(v, Rejected(msg)).facts == v.facts
    ensures AfterCreate(v, Rejected(msg), found).facts == v.facts
    ensures AfterUpdate(v, id, Rejected(msg)).facts == v.facts
    ensures AfterDelete(v, id, Rejected(msg)).facts == v.facts
    ensures AfterLoad(v, Rejected(msg)).error == LoadFailed
    ensures AfterCreate(v, Rejected(msg), found).error == CreateFailed
    ensures AfterUpdate(v, id, Rejected(msg)).error == UpdateFailed
    ensures AfterDelete(v, id, Rejected(msg)).error == DeleteFailed
    ensures AfterLoad(v, Rejected(msg)).pendingClears == v.pendingClears
    ensures AfterCreate(v, Rejected(msg), found).pendingClears == v.pendingClears
    ensures AfterUpdate(v, id, Rejected(msg)).pendingClears == v.pendingClears
    ensures AfterDelete(v, id, Rejected(msg)).pendingClears == v.pendingClears
  {
  }

  class Controller {
    var user: Option<User>
    var backendConnected: bool
    var connectionStatus: string
    var facts: seq<Fact>
    var loading: bool
    var error: string
    /** Auto-clear timers scheduled and not yet fired. */
    var pendingClears: nat
    /** Backend calls issued so far, oldest first. */
    var calls: seq<Request>

    function Snapshot(): View
      reads this
    {
      View(user, facts, loading, error, backendConnected, connectionStatus, pendingClears)
    }

    ghost predicate Valid()
      reads this
    {
      StatusConsistent(Snapshot())
    }

    constructor ()
      ensures Valid()
      ensures user.None? && facts == [] && loading && error == ""
      ensures !backendConnected && connectionStatus == InitialStatus
      ensures pendingClears == 0 && calls == []
    {
      user := None;
      backendConnected := false;
      connectionStatus := InitialStatus;
      facts := [];
      loading := true;
      error := "";
      pendingClears := 0;
      calls := [];
    }

    /** The page the component renders now. */
    function CurrentPage(): (p: Page)
      reads this
      ensures p == DashboardPage <==> !loading && user.Some?
    {
      PageOf(Snapshot())
    }

    /** First half of the connectivity effect: the label while the probe
        runs. */
    method BeginConnectionTest()
      requires Valid()
      modifies this
      ensures Valid()
      ensures Snapshot() == old(Snapshot()).(connectionStatus := TestingStatus)
      ensures calls == old(calls) + [ProbeCall(ProbeAttempts)]
    {
      connectionStatus := TestingStatus;
      calls := calls + [ProbeCall(ProbeAttempts)];
    }

    /** Second half: the probe's answer and whether the SDK client could be
        created. */
    method FinishConnectionTest(reachable: bool, sdkReady: bool)
      requires Valid()
      modifies this
      ensures Valid()
      ensures Snapshot() == old(Snapshot()).(backendConnected := reachable,
                                            connectionStatus := StatusLabel(reachable, sdkReady))
      ensures calls == old(calls)
    {
      backendConnected := reachable;
      if reachable {
        connectionStatus := ConnectedStatus;
        if !sdkReady {
          connectionStatus := SdkErrorStatus;
        }
      } else {
        connectionStatus := FailedStatus;
      }
    }

    method Restore(me: Settled<Option<User>>, found: Settled<seq<Fact>>)
      requires Valid()
      modifies this
      ensures Valid()
      ensures Snapshot() == AfterRestore(old(Snapshot()), me, found)
      ensures calls == old(calls) + [MeCall] + (if me.Fulfilled? && me.value.Some? then [FindCall] else [])
    {
      calls := calls + [MeCall];
      match me {
        case Fulfilled(userData) =>
          if userData.Some? {
            user := userData;
            LoadFacts(found);
          }
        case Rejected(_) =>
          user := None;
      }
      loading := false;
    }

    method HandleAuthError(message: Option<string>)
      requires Valid()
      modifies this
      ensures Valid()
      ensures Snapshot() == AfterAuthError(old(Snapshot()), message)
      ensures calls == old(calls)
    {
      error := AuthErrorMessage(message);
      pendingClears := pendingClears + 1;
    }

    /** One auto-clear timer fires; it clears whatever message is shown. */
    method ErrorTimerFires()
      requires Valid() && pendingClears > 0
      modifies this
      ensures Valid()
      ensures Snapshot() == old(Snapshot()).(error := "", pendingClears := old(pendingClears) - 1)
      ensures calls == old(calls)
    {
      error := "";
      pendingClears := pendingClears - 1;
    }

    method Login(email: string, password: string, signedIn: Settled<()>,
                 me: Settled<Option<User>>, found: Settled<seq<Fact>>)
      requires Valid()
      modifies this
      ensures Valid()
      ensures Snapshot() == AfterLogin(old(Snapshot()), signedIn, me, found)
      ensures calls == old(calls) + LoginCalls(email, password, signedIn, me)
    {
      error := "";
      calls := calls + [LoginCall(email, password)];
      if signedIn.Rejected? {
        HandleAuthError(signedIn.message);
        return;
      }
      calls := calls + [MeCall];
      if me.Rejected? {
        HandleAuthError(me.message);
        return;
      }
      user := me.value;
      LoadFacts(found);
    }

    method Signup(name: string, email: string, password: string, registered: Settled<()>,
                  signedIn: Settled<()>, me: Settled<Option<User>>, found: Settled<seq<Fact>>)
      requires Valid()
      modifies this
      ensures Valid()
      ensures Snapshot() == AfterSignup(old(Snapshot()), registered, signedIn, me, found)
      ensures calls == old(calls) + SignupCalls(name, email, password, registered, signedIn, me)
    {
      error := "";
      calls := calls + [SignupCall(name, email, password)];
      if registered.Rejected? {
        HandleAuthError(registered.message);
        return;
      }
      Login(email, password, signedIn, me, found);
    }

    /** A rejected SDK logout escapes the handler and changes nothing. */
    method Logout(loggedOut: Settled<()>)
      requires Valid()
      modifies this
      ensures Valid()
      ensures loggedOut.Fulfilled? ==> Snapshot() == LoggedOut(old(Snapshot()))
      ensures loggedOut.Rejected? ==> Snapshot() == old(Snapshot())
      ensures calls == old(calls) + [LogoutCall]
    {
      calls := calls + [LogoutCall];
      if loggedOut.Fulfilled? {
        user := None;
        facts := [];
      }
    }

    method LoadFacts(found: Settled<seq<Fact>>)
      requires Valid()
      modifies this
      ensures Valid()
      ensures Snapshot() == AfterLoad(old(Snapshot()), found)
      ensures calls == old(calls) + [FindCall]
    {
      calls := calls + [FindCall];
      match found {
        case Fulfilled(data) => facts := data;
        case Rejected(_) => error := LoadFailed;
      }
    }

    method CreateFact(draft: Draft, created: Settled<Fact>, found: Settled<seq<Fact>>)
      requires Valid()
      modifies this
      ensures Valid()
      ensures Snapshot() == AfterCreate(old(Snapshot()), created, found)
      ensures calls == old(calls) + [CreateCall(draft)] + (if created.Fulfilled? then [FindCall] else [])
    {
      calls := calls + [CreateCall(draft)];
      if created.Fulfilled? {
        LoadFacts(found);
      } else {
        error := CreateFailed;
      }
    }

    method UpdateFact(id: Option<Id>, patch: Fact, updated: Settled<Fact>)
      requires Valid()
      modifies this
      ensures Valid()
      ensures Snapshot() == AfterUpdate(old(Snapshot()), id, updated)
      ensures calls == old(calls) + [UpdateCall(id, patch)]
    {
      calls := calls + [UpdateCall(id, patch)];
      match updated {
        case Fulfilled(u) => facts := FactList.UpdateById(facts, id, u);
        case Rejected(_) => error := UpdateFailed;
      }
    }

    method DeleteFact(id: Option<Id>, deleted: Settled<()>)
      requires Valid()
      modifies this
      ensures Valid()
      ensures Snapshot() == AfterDelete(old(Snapshot()), id, deleted)
      ensures calls == old(calls) + [DeleteCall(id)]
    {
      calls := calls + [DeleteCall(id)];
      if deleted.Fulfilled? {
        facts := FactList.RemoveById(facts, id);
      } else {
        error := DeleteFailed;
      }
    }
  }

  /** Mounting the component: both effects run, the session check settles
      and the probe answers. The dashboard is shown iff `me()` returned a
      user; the loading screen is gone either way. */
  method Mount(me: Settled<Option<User>>, found: Settled<seq<Fact>>, reachable: bool, sdkReady: bool)
    returns (page: Page, connected: bool, status: string)
    ensures page == DashboardPage <==> me.Fulfilled? && me.value.Some?
    ensures page == LandingPage <==> !(me.Fulfilled? && me.value.Some?)
    ensures connected == reachable
    ensures status == StatusLabel(reachable, sdkReady)
  {
    var app := new Controller();
    app.Restore(me, found);
    app.BeginConnectionTest();
    app.FinishConnectionTest(reachable, sdkReady);
    page, connected, status := app.CurrentPage(), app.backendConnected, app.connectionStatus;
  }

  /** The auto-clear timers are never cancelled: after two authentication
      errors, the first timer clears the second message while the second
      message's own timer is still pending. */
  method FirstTimerClearsSecondError(first: Option<string>, second: Option<string>)
    returns (shownBefore: string, shownAfter: string, pending: nat)
    ensures shownBefore == AuthErrorMessage(second) && shownBefore != ""
    ensures shownAfter == "" && pending == 1
  {
    var app := new Controller();
    app.HandleAuthError(first);
    app.HandleAuthError(second);
    shownBefore := app.error;
    app.ErrorTimerFires();
    shownAfter, pending := app.error, app.pendingClears;
  }
}
