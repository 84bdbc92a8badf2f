/** Customer accounts: the registration form's checks, the account it
    creates, and the credential lookup behind the login form.  Passwords are
    kept and compared as plain text, as the shop does. */
module Accounts {
  import opened Wrappers
  import opened Text

  datatype User = User(
    firstName: string,
    lastName: string,
    email: string,
    country: string,
    phone: string,
    password: string)

  /** The session record kept for the logged-in customer. */
  datatype Session = Session(name: string, email: string, country: string, phone: string)

  /** The registration form's raw field values; the country value is
      "<dialling code>|<country name>". */
  datatype RegisterForm = RegisterForm(
    firstName: string,
    lastName: string,
    email: string,
    countryValue: string,
    phone: string,
    password: string,
    confirmPassword: string)

  /** Why a registration is refused, in the order the checks run. */
  datatype RegisterError =
    | FirstNameRequired
    | LastNameRequired
    | EmailRequired
    | CountryRequired
    | PhoneRequired
    | PasswordTooShort
    | PasswordMismatch
    | EmailInUse

  /** Passwords shorter than this are refused. */
  const MinPasswordLength: nat := 6
  /** Separates the dialling code from the country name in the country value. */
  const CountrySeparator: char := '|'

  /** The session opened for an account: its names joined by a space, and
      its email, country and phone. */
  function SessionOf(u: User): (r: Session)
    ensures r.email == u.email && r.country == u.country && r.phone == u.phone
    ensures r.name == u.firstName + [' '] + u.lastName
  {
    Session(u.firstName + " " + u.lastName, u.email, u.country, u.phone)
  }

  /** No two accounts share an email. */
  predicate UniqueEmails(users: seq<User>) {
    forall i, j :: 0 <= i < j < |users| ==> users[i].email != users[j].email
  }

  predicate EmailTaken(users: seq<User>, email: string) {
    exists i :: 0 <= i < |users| && users[i].email == email
  }

  predicate Matches(u: User, email: string, password: string) {
    u.email == email && u.password == password
  }

  /** The login lookup `users.find(u => u.email === email && u.password ===
      password)`: the position of the first account whose email and password
      are both exactly the ones given. */
  function FindByCredentials(users: seq<User>, email: string, password: string): (r: Option<nat>)
    ensures r.Some? ==> r.value < |users| && Matches(users[r.value], email, password)
    ensures r.Some? ==> forall j :: 0 <= j < r.value ==> !Matches(users[j], email, password)
    ensures r.None? <==> forall j :: 0 <= j < |users| ==> !Matches(users[j], email, password)
  {
    if users == [] then None
    else if Matches(users[0], email, password) then Some(0)
    else match FindByCredentials(users[1..], email, password)
      case None => None
      case Some(k) => Some(k + 1)
  }

  /** The dialling code: the part of the country value before the first '|'. */
  function CountryCode(countryValue: string): (r: string)
    ensures r <= countryValue && CountrySeparator !in r
    ensures |r| < |countryValue| ==> countryValue[|r|] == CountrySeparator
  {
    SplitHead(countryValue, CountrySeparator)
  }

  /** The country name: the part of the country value between the first '|'
      and the next one. */
  function CountryName(countryValue: string): (r: string)
    requires CountrySeparator in countryValue
    ensures CountryCode(countryValue) + [CountrySeparator] + r <= countryValue
    ensures CountrySeparator !in r
    ensures var n := |CountryCode(countryValue)| + 1 + |r|;
            n < |countryValue| ==> countryValue[n] == CountrySeparator
  {
    SplitRoundTrip(countryValue, CountrySeparator);
    var tail := SplitTail(countryValue, CountrySeparator);
    var r := SplitHead(tail, CountrySeparator);
    assert |r| < |tail| ==> tail[|r|] == CountrySeparator;
    r
  }

  /** The registration handler's decision: the first failing check among
      trimmed first name, last name and email present, a country value with
      a '|', trimmed phone present, a password of at least six characters
      equal to its confirmation, and an email no account uses yet; otherwise
      the account to store, whose phone is the dialling code followed by the
      trimmed phone number. */
  function NewAccount(users: seq<User>, f: RegisterForm): (r: Result<User, RegisterError>)
    ensures r.Success? ==>
              && r.value.email == Trim(f.email) && r.value.email != []
              && !EmailTaken(users, r.value.email)
              && r.value.firstName == Trim(f.firstName) && r.value.firstName != []
              && r.value.lastName == Trim(f.lastName) && r.value.lastName != []
              && CountrySeparator in f.countryValue
              && r.value.country == CountryName(f.countryValue)
              && r.value.phone == CountryCode(f.countryValue) + Trim(f.phone) && Trim(f.phone) != []
              && r.value.password == f.password == f.confirmPassword
              && |r.value.password| >= MinPasswordLength
    ensures r.Success? <==>
              && Trim(f.firstName) != [] && Trim(f.lastName) != [] && Trim(f.email) != []
              && CountrySeparator in f.countryValue && Trim(f.phone) != []
              && |f.password| >= MinPasswordLength && f.password == f.confirmPassword
              && !EmailTaken(users, Trim(f.email))
    ensures r == Failure(FirstNameRequired) <==> Trim(f.firstName) == []
    ensures r == Failure(LastNameRequired) <==> Trim(f.firstName) != [] && Trim(f.lastName) == []
    ensures r == Failure(EmailRequired) <==>
              Trim(f.firstName) != [] && Trim(f.lastName) != [] && Trim(f.email) == []
    ensures r == Failure(CountryRequired) <==>
              && Trim(f.firstName) != [] && Trim(f.lastName) != [] && Trim(f.email) != []
              && CountrySeparator !in f.countryValue
    ensures r == Failure(PhoneRequired) <==>
              && Trim(f.firstName) != [] && Trim(f.lastName) != [] && Trim(f.email) != []
              && CountrySeparator in f.countryValue && Trim(f.phone) == []
    ensures r == Failure(PasswordTooShort) <==>
              && Trim(f.firstName) != [] && Trim(f.lastName) != [] && Trim(f.email) != []
              && CountrySeparator in f.countryValue && Trim(f.phone) != []
              && |f.password| < MinPasswordLength
    ensures r == Failure(PasswordMismatch) <==>
              && Trim(f.firstName) != [] && Trim(f.lastName) != [] && Trim(f.email) != []
              && CountrySeparator in f.countryValue && Trim(f.phone) != []
              && |f.password| >= MinPasswordLength && f.password != f.confirmPassword
    ensures r == Failure(EmailInUse) <==>
              && Trim(f.firstName) != [] && Trim(f.lastName) != [] && Trim(f.email) != []
              && CountrySeparator in f.countryValue && Trim(f.phone) != []
              && |f.password| >= MinPasswordLength && f.password == f.confirmPassword
              && EmailTaken(users, Trim(f.email))
  {
    var firstName := Trim(f.firstName);
    var lastName := Trim(f.lastName);
    var email := Trim(f.email);
    var phone := Trim(f.phone);
    if firstName == [] then Failure(FirstNameRequired)
    else if lastName == [] then Failure(LastNameRequired)
    else if email == [] then Failure(EmailRequired)
    else if CountrySeparator !in f.countryValue then Failure(CountryRequired)
    else if phone == [] then Failure(PhoneRequired)
    else if |f.password| < MinPasswordLength then Failure(PasswordTooShort)
    else if f.password != f.confirmPassword then Failure(PasswordMismatch)
    else if EmailTaken(users, email) then Failure(EmailInUse)
    else Success(User(firstName, lastName, email, CountryName(f.countryValue),
                      CountryCode(f.countryValue) + phone, f.password))
  }

  /** Appending an account whose email is not taken keeps emails unique;
      a successful registration appends only such accounts. */
  lemma AppendKeepsUnique(users: seq<User>, u: User)
    requires UniqueEmails(users)
    requires !EmailTaken(users, u.email)
    ensures UniqueEmails(users + [u])
  {
    var us := users + [u];
    forall i, j | 0 <= i < j < |us| ensures us[i].email != us[j].email {
      assert us[i] == users[i];
      if j < |users| {
        assert us[j] == users[j];
      }
    }
  }

  /** A user who has just registered can log in with the email as stored and
      the password typed, and the login finds that new account. */
  lemma {:induction false} RegisteredCanLogIn(users: seq<User>, f: RegisterForm, u: User)
    ensures NewAccount(users, f) == Success(u) ==>
              FindByCredentials(users + [u], u.email, f.password) == Some(|users|)
  {
    if NewAccount(users, f) == Success(u) {
      NoMatchThenAppended(users, u);
    }
  }

  /** When no account has the email, the appended account is the one found. */
  lemma {:induction false} NoMatchThenAppended(users: seq<User>, u: User)
    requires !EmailTaken(users, u.email)
    ensures FindByCredentials(users + [u], u.email, u.password) == Some(|users|)
  {
    if users != [] {
      assert (users + [u])[1..] == users[1..] + [u];
      assert !EmailTaken(users[1..], u.email) by {
        forall i | 0 <= i < |users[1..]| ensures users[1..][i].email != u.email {
          assert users[1..][i] == users[i + 1];
        }
      }
      NoMatchThenAppended(users[1..], u);
    }
  }

  /** With unique emails the session's email names exactly one account. */
  lemma SessionIdentifiesAccount(users: seq<User>, k: nat)
    requires UniqueEmails(users) && k < |users|
    ensures forall i :: 0 <= i < |users| && users[i].email == SessionOf(users[k]).email ==> i == k
  {
  }

  /** With unique emails a login finds the only account with that email, and
      succeeds exactly when that account's password is the one given. */
  lemma LoginByEmail(users: seq<User>, k: nat, password: string)
    requires UniqueEmails(users) && k < |users|
    ensures FindByCredentials(users, users[k].email, password).Some?
            <==> users[k].password == password
    ensures FindByCredentials(users, users[k].email, password).Some?
            ==> FindByCredentials(users, users[k].email, password) == Some(k)
  {
  }
}
