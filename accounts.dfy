/** The header's account handling: a `'users'` storage slot seeded with one
    administrator, login by email and password, signup of students, logout,
    and the administrator-only dashboard button. */
module Accounts {
  import opened Common

  datatype Role = Admin | Student

  datatype User = User(email: string, password: string, name: string, role: Role)

  /** The account written when the slot is empty. */
  const DefaultAdmin := User("adi@gmail.com", "12345", "Admin", Admin)

  const DefaultUsers := [DefaultAdmin]

  datatype LoginForm = LoginForm(email: string, password: string)

  const EmptyLoginForm := LoginForm("", "")

  datatype SignupForm = SignupForm(name: string, email: string, password: string, confirmPassword: string)

  const EmptySignupForm := SignupForm("", "", "", "")

  /** The list `getUsers` returns for the slot's content: a stored list as it
      is (even an empty one), otherwise the default administrator alone. */
  function UsersOf(slot: Option<seq<User>>): (users: seq<User>)
    ensures slot.Some? ==> users == slot.value
    ensures slot.None? ==> users == [DefaultAdmin]
  {
    if slot.Some? then slot.value else DefaultUsers
  }

  /** `getUsers` leaves the slot holding what it returned, so a second call
      returns the same list. */
  lemma GetUsersStable(slot: Option<seq<User>>)
    ensures UsersOf(Some(UsersOf(slot))) == UsersOf(slot)
  {
  }

  predicate MatchesLogin(u: User, form: LoginForm)
  {
    u.email == form.email && u.password == form.password
  }

  /** `users.find(u => u.email === email && u.password === password)`: the
      first account matching both, if any. */
  function FindLogin(users: seq<User>, form: LoginForm): (r: Option<User>)
    ensures r.Some? <==> exists i :: 0 <= i < |users| && MatchesLogin(users[i], form)
    ensures r.Some? ==> exists i :: 0 <= i < |users| && users[i] == r.value && MatchesLogin(users[i], form)
                                    && forall j :: 0 <= j < i ==> !MatchesLogin(users[j], form)
  {
    var k := FindFirst(users, u => MatchesLogin(u, form));
    if k.None? then None else Some(users[k.value])
  }

  /** `users.find(u => u.email === email)` is truthy: some account has the
      email. */
  predicate EmailTaken(users: seq<User>, email: string)
  {
    Any(users, (u: User) => u.email == email)
  }

  lemma EmailTakenIff(users: seq<User>, email: string)
    ensures EmailTaken(users, email) <==> exists i :: 0 <= i < |users| && users[i].email == email
  {
    AnyIff(users, (u: User) => u.email == email);
  }

  /** What a signup attempt ends in. */
  datatype SignupOutcome = PasswordMismatch | PasswordTooShort | EmailExists | SignedUp(user: User)

  /** The decision of `handleSignup` against the list `getUsers` returns:
      the mismatch is reported before the length, the length before the
      duplicate email; otherwise a student account is created from the form. */
  function SignupDecision(form: SignupForm, users: seq<User>): (o: SignupOutcome)
    ensures o == PasswordMismatch <==> form.password != form.confirmPassword
    ensures o == PasswordTooShort <==> form.password == form.confirmPassword && |form.password| < 5
    ensures o == EmailExists <==>
      form.password == form.confirmPassword && |form.password| >= 5
      && exists i :: 0 <= i < |users| && users[i].email == form.email
    ensures o.SignedUp? ==>
      o.user.role == Student && o.user.email == form.email && o.user.password == form.password
      && o.user.name == form.name && |o.user.password| >= 5
      && forall i :: 0 <= i < |users| ==> users[i].email != form.email
  {
    EmailTakenIff(users, form.email);
    if form.password != form.confirmPassword then PasswordMismatch
    else if |form.password| < 5 then PasswordTooShort
    else if EmailTaken(users, form.email) then EmailExists
    else SignedUp(User(form.email, form.password, form.name, Student))
  }

  /** No two accounts share an email. */
  predicate DistinctEmails(users: seq<User>)
  {
    forall i, j :: 0 <= i < j < |users| ==> users[i].email != users[j].email
  }

  /** Signup keeps emails distinct: only a fresh email is appended. */
  lemma SignupKeepsEmailsDistinct(form: SignupForm, users: seq<User>)
    requires DistinctEmails(users)
    requires SignupDecision(form, users).SignedUp?
    ensures DistinctEmails(users + [SignupDecision(form, users).user])
  {
    var u := SignupDecision(form, users).user;
    var t := users + [u];
    forall i, j | 0 <= i < j < |t| ensures t[i].email != t[j].email {
      if j == |users| {
        assert t[i] == users[i];
      } else {
        assert t[i] == users[i] && t[j] == users[j];
      }
    }
  }

  /** The account a signup creates can log in with the email and password
      it signed up with, and logging in finds that very account. */
  lemma {:induction false} SignupThenLogin(form: SignupForm, users: seq<User>)
    requires SignupDecision(form, users).SignedUp?
    ensures FindLogin(users + [SignupDecision(form, users).user], LoginForm(form.email, form.password))
            == Some(SignupDecision(form, users).user)
  {
    var u := SignupDecision(form, users).user;
    var t := users + [u];
    var lf := LoginForm(form.email, form.password);
    assert MatchesLogin(t[|users|], lf);
    forall j | 0 <= j < |users| ensures !MatchesLogin(t[j], lf) {
      assert t[j] == users[j];
    }
    var r := FindLogin(t, lf);
    var i :| 0 <= i < |t| && t[i] == r.value && MatchesLogin(t[i], lf);
    assert i == |users|;
  }

  /** The seeded administrator can log in. */
  lemma DefaultAdminLogsIn()
    ensures FindLogin(UsersOf(None), LoginForm("adi@gmail.com", "12345")) == Some(DefaultAdmin)
  {
    assert MatchesLogin(DefaultUsers[0], LoginForm("adi@gmail.com", "12345"));
  }

  class Header {
    /** The `'users'` storage slot. */
    var storedUsers: Option<seq<User>>
    var user: Option<User>
    var isLoginOpen: bool
    var isSignupOpen: bool
    var isAdminOpen: bool
    var loginForm: LoginForm
    var signupForm: SignupForm

    constructor (storedUsers: Option<seq<User>>)
      ensures this.storedUsers == storedUsers && user == None
      ensures !isLoginOpen && !isSignupOpen && !isAdminOpen
      ensures loginForm == EmptyLoginForm && signupForm == EmptySignupForm
    {
      this.storedUsers := storedUsers;
      user := None;
      isLoginOpen := false;
      isSignupOpen := false;
      isAdminOpen := false;
      loginForm := EmptyLoginForm;
      signupForm := EmptySignupForm;
    }

    /** `getUsers`: the stored list, or the default administrator, who is
        then written to the slot. */
    method GetUsers() returns (users: seq<User>)
      modifies this
      ensures users == UsersOf(old(storedUsers)) && storedUsers == Some(users)
      ensures user == old(user) && loginForm == old(loginForm) && signupForm == old(signupForm)
      ensures isLoginOpen == old(isLoginOpen) && isSignupOpen == old(isSignupOpen)
      ensures isAdminOpen == old(isAdminOpen)
    {
      if storedUsers.Some? {
        return storedUsers.value;
      }
      users := DefaultUsers;
      storedUsers := Some(users);
    }

    /** `saveUsers`. */
    method SaveUsers(users: seq<User>)
      modifies this
      ensures storedUsers == Some(users)
      ensures user == old(user) && loginForm == old(loginForm) && signupForm == old(signupForm)
      ensures isLoginOpen == old(isLoginOpen) && isSignupOpen == old(isSignupOpen)
      ensures isAdminOpen == old(isAdminOpen)
    {
      storedUsers := Some(users);
    }

    /** `handleLogin`: the first account matching the form becomes current,
        the dialog closes and the form is cleared; without a match nothing
        changes except that the slot has been seeded. */
    method HandleLogin() returns (loggedIn: bool)
      modifies this
      ensures storedUsers == Some(UsersOf(old(storedUsers)))
      ensures loggedIn <==> FindLogin(UsersOf(old(storedUsers)), old(loginForm)).Some?
      ensures loggedIn ==> user == FindLogin(UsersOf(old(storedUsers)), old(loginForm))
                           && !isLoginOpen && loginForm == EmptyLoginForm
      ensures !loggedIn ==> user == old(user) && isLoginOpen == old(isLoginOpen)
                            && loginForm == old(loginForm)
      ensures signupForm == old(signupForm) && isSignupOpen == old(isSignupOpen)
      ensures isAdminOpen == old(isAdminOpen)
    {
      var users := GetUsers();
      var found := FindLogin(users, loginForm);
      if found.None? {
        return false;
      }
      user := found;
      isLoginOpen := false;
      loginForm := EmptyLoginForm;
      loggedIn := true;
    }

    /** `handleSignup`: the two password checks run before the slot is read
        (so a rejected password does not seed it); a duplicate email is
        rejected after it; otherwise the new student is pushed onto the list,
        the list is saved, and the student becomes current. */
    method HandleSignup() returns (outcome: SignupOutcome)
      modifies this
      ensures outcome == SignupDecision(old(signupForm), UsersOf(old(storedUsers)))
      ensures outcome == PasswordMismatch || outcome == PasswordTooShort ==>
        storedUsers == old(storedUsers)
      ensures outcome == EmailExists ==> storedUsers == Some(UsersOf(old(storedUsers)))
      ensures outcome.SignedUp? ==>
        storedUsers == Some(UsersOf(old(storedUsers)) + [outcome.user])
        && user == Some(outcome.user) && !isSignupOpen && signupForm == EmptySignupForm
        && !AdminGateVisible()
      ensures !outcome.SignedUp? ==>
        user == old(user) && isSignupOpen == old(isSignupOpen) && signupForm == old(signupForm)
      ensures loginForm == old(loginForm) && isLoginOpen == old(isLoginOpen)
      ensures isAdminOpen == old(isAdminOpen)
    {
      if signupForm.password != signupForm.confirmPassword {
        return PasswordMismatch;
      }
      if |signupForm.password| < 5 {
        return PasswordTooShort;
      }
      var users := GetUsers();
      if EmailTaken(users, signupForm.email) {
        return EmailExists;
      }
      var newUser := User(signupForm.email, signupForm.password, signupForm.name, Student);
      users := users + [newUser];
      SaveUsers(users);
      user := Some(newUser);
      isSignupOpen := false;
      signupForm := EmptySignupForm;
      outcome := SignedUp(newUser);
    }

    /** `handleLogout`: no current user, and the dashboard dialog closes. */
    method HandleLogout()
      modifies this
      ensures user == None && !isAdminOpen
      ensures storedUsers == old(storedUsers) && loginForm == old(loginForm)
      ensures signupForm == old(signupForm)
      ensures isLoginOpen == old(isLoginOpen) && isSignupOpen == old(isSignupOpen)
    {
      user := None;
      isAdminOpen := false;
    }

    /** The "Admin Dashboard" button is rendered only for a current user
        whose role is administrator. */
    predicate AdminGateVisible()
      reads this
    {
      user.Some? && user.value.role == Admin
    }

    /** The dashboard dialog's trigger, present only behind the gate. */
    method OpenAdminDashboard()
      requires AdminGateVisible()
      modifies this
      ensures isAdminOpen
      ensures user == old(user) && storedUsers == old(storedUsers)
      ensures loginForm == old(loginForm) && signupForm == old(signupForm)
      ensures isLoginOpen == old(isLoginOpen) && isSignupOpen == old(isSignupOpen)
    {
      isAdminOpen := true;
    }
  }
}
