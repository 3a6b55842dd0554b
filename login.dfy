/** The login widget of the desktop application: the credential check, the
    count of failed attempts with its lockout, the remembered login, and
    logout. The credentials file is an input (`None` when it cannot be
    read); the two text fields and the remember-me box are fields of the
    widget that the user's typing changes. */
module Login {
  import opened Strings

  /** `self.max_attempts`. */
  const MaxAttempts: nat := 3

  /** The credentials used when the credentials file cannot be read. */
  const FallbackCredentials: map<string, string> := map["nsatt" := "nsatt"]

  datatype Remembered = Remembered(username: string, password: string)

  /** The credential table a login attempt checks against. */
  function CredentialsOf(stored: Option<map<string, string>>): (c: map<string, string>)
    ensures stored.None? ==> c == FallbackCredentials
  {
    if stored.Some? then stored.value else FallbackCredentials
  }

  predicate Accepts(credentials: map<string, string>, username: string, password: string) {
    username in credentials && credentials[username] == password
  }

  /** The status text after the `attempts`-th failed attempt. */
  function FailureText(attempts: nat): string {
    "Invalid credentials. " + IntToString(MaxAttempts - attempts) + " attempts remaining."
  }

  class LoginWidget {
    var loggedIn: bool
    var attempts: nat
    var username: string
    var password: string
    /** Whether the two text fields accept input. */
    var inputsEnabled: bool
    var rememberChecked: bool
    var status: string
    /** The remember-login file. */
    var remembered: Option<Remembered>

    /** Attempts never pass the maximum, and the fields are disabled, with the
        password cleared, exactly when the maximum is reached. */
    predicate Valid()
      reads this
    {
      attempts <= MaxAttempts
      && (attempts == MaxAttempts <==> !inputsEnabled)
      && (!inputsEnabled ==> password == "")
    }

    /** `is_logged_in`. */
    predicate IsLoggedIn()
      reads this
    {
      loggedIn
    }

    constructor(remembered: Option<Remembered>)
      ensures Valid() && !loggedIn && attempts == 0 && inputsEnabled
      ensures username == "" && password == "" && !rememberChecked && status == ""
      ensures this.remembered == remembered
    {
      loggedIn := false;
      attempts := 0;
      username := "";
      password := "";
      inputsEnabled := true;
      rememberChecked := false;
      status := "";
      this.remembered := remembered;
    }

    /** The user types into the two fields; disabled fields keep their text. */
    method Type(user: string, pass: string)
      requires Valid()
      modifies this
      ensures Valid()
      ensures inputsEnabled ==> username == user && password == pass
      ensures !inputsEnabled ==> username == old(username) && password == old(password)
      ensures loggedIn == old(loggedIn) && attempts == old(attempts) && inputsEnabled == old(inputsEnabled)
      ensures rememberChecked == old(rememberChecked) && status == old(status) && remembered == old(remembered)
    {
      if inputsEnabled {
        username := user;
        password := pass;
      }
    }

    method SetRemember(checked: bool)
      requires Valid()
      modifies this
      ensures Valid() && rememberChecked == checked
      ensures loggedIn == old(loggedIn) && attempts == old(attempts) && inputsEnabled == old(inputsEnabled)
      ensures username == old(username) && password == old(password)
      ensures status == old(status) && remembered == old(remembered)
    {
      rememberChecked := checked;
    }

    /** `check_remembered_login`: a remembered login that the credentials
        file still accepts logs in. */
    method CheckRemembered(stored: Option<map<string, string>>)
      requires Valid()
      modifies this
      ensures Valid()
      ensures loggedIn == (old(loggedIn) || (remembered.Some? && stored.Some?
                           && Accepts(stored.value, remembered.value.username, remembered.value.password)))
      ensures attempts == old(attempts) && inputsEnabled == old(inputsEnabled)
      ensures username == old(username) && password == old(password) && rememberChecked == old(rememberChecked)
      ensures status == old(status) && remembered == old(remembered)
    {
      if remembered.Some? && stored.Some? {
        if Accepts(stored.value, remembered.value.username, remembered.value.password) {
          loggedIn := true;
        }
      }
    }

    /** `handle_login`: empty fields count no attempt; accepted credentials
        log in (and are remembered when asked to); anything else counts one
        failed attempt, clears the password and, at the maximum, disables the
        fields. */
    method HandleLogin(stored: Option<map<string, string>>)
      requires Valid()
      modifies this
      ensures Valid()
      ensures username == old(username) && inputsEnabled == (old(inputsEnabled) && attempts < MaxAttempts)
      ensures rememberChecked == old(rememberChecked)
      ensures old(username) == "" || old(password) == "" ==>
        status == "Please enter both username and password" && attempts == old(attempts)
        && loggedIn == old(loggedIn) && password == old(password) && remembered == old(remembered)
      ensures old(username) != "" && old(password) != "" && Accepts(CredentialsOf(stored), old(username), old(password)) ==>
        loggedIn && status == "Login successful!" && attempts == old(attempts) && password == old(password)
        && remembered == (if rememberChecked then Some(Remembered(old(username), old(password))) else old(remembered))
      ensures old(username) != "" && old(password) != "" && !Accepts(CredentialsOf(stored), old(username), old(password)) ==>
        attempts == old(attempts) + 1 && status == FailureText(attempts) && password == ""
        && loggedIn == old(loggedIn) && remembered == old(remembered)
    {
      if username == "" || password == "" {
        status := "Please enter both username and password";
        return;
      }
      var credentials := CredentialsOf(stored);
      if Accepts(credentials, username, password) {
        loggedIn := true;
        status := "Login successful!";
        if rememberChecked {
          remembered := Some(Remembered(username, password));
        }
      } else {
        attempts := attempts + 1;
        status := FailureText(attempts);
        password := "";
        if attempts >= MaxAttempts {
          inputsEnabled := false;
        }
      }
    }

    /** `logout`: logged out, attempts reset, the fields enabled and
        cleared, the remembered login forgotten. */
    method Logout()
      modifies this
      ensures Valid() && !loggedIn && attempts == 0 && inputsEnabled
      ensures username == "" && password == "" && status == "" && remembered.None?
      ensures rememberChecked == old(rememberChecked)
    {
      loggedIn := false;
      attempts := 0;
      inputsEnabled := true;
      username := "";
      password := "";
      status := "";
      remembered := None;
    }
  }

  /** Once the fields are locked, typing and further login requests change
      neither the attempt count nor the login state, until logout. */
  method LockoutHolds(w: LoginWidget, user: string, pass: string, stored: Option<map<string, string>>)
    requires w.Valid() && w.attempts == MaxAttempts
    modifies w
    ensures w.Valid() && w.attempts == MaxAttempts && w.loggedIn == old(w.loggedIn) && !w.inputsEnabled
  {
    w.Type(user, pass);
    w.HandleLogin(stored);
  }
}
