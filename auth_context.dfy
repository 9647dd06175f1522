/**
 * The client's authentication context, which only simulates a backend: login
 * makes up a user from the email address, registration from the form, and
 * both keep the user as JSON under the "user" key of `localStorage`, from
 * where it is restored when the page is loaded again. Logout forgets it.
 *
 * `JSON.stringify` and `JSON.parse` are functions supplied by the caller;
 * `parse` yields nothing when it throws. The random number in a registered
 * user's id is a parameter.
 */
module AuthContext {
  import opened Common
  import opened Text

  datatype AuthRole = PatientRole | DoctorRole | AdminRole

  datatype AuthUser = AuthUser(id: string, name: string, email: string, role: AuthRole, avatar: Option<string>)

  /** The decimal digits of `n`, without leading zeros (`String(n)`). */
  function Decimal(n: nat): (s: string)
    ensures |s| >= 1
    ensures IsDigits(s)
    ensures s[0] == '0' <==> n == 0
    ensures n < 10 ==> |s| == 1
    ensures n < 100 ==> |s| <= 2
    ensures n < 1000 ==> |s| <= 3
  {
    var d := ['0' + (n % 10) as char];
    if n < 10 then d else Decimal(n / 10) + d
  }

  predicate IsDigits(s: string) {
    forall i :: 0 <= i < |s| ==> '0' <= s[i] <= '9'
  }

  /** The number a string of decimal digits denotes. */
  function DecimalValue(s: string): nat
    requires IsDigits(s)
  {
    if s == [] then 0 else DecimalValue(s[..|s| - 1]) * 10 + (s[|s| - 1] - '0') as nat
  }

  /** Reading the digits back gives the number. */
  lemma {:induction false} DecimalRoundTrip(n: nat)
    ensures DecimalValue(Decimal(n)) == n
  {
    var s := Decimal(n);
    if n >= 10 {
      DecimalRoundTrip(n / 10);
      assert s[..|s| - 1] == Decimal(n / 10);
    }
  }

  /**
   * The user a login makes up: the name is the part of the email before the
   * first '@' (all of it when there is none) and the role is doctor exactly
   * when the email contains "doctor".
   */
  function LoginUser(email: string): (u: AuthUser)
    ensures '@' in email ==> u.name == email[..FirstIndex(email, '@')]
    ensures '@' !in email ==> u.name == email
    ensures '@' !in u.name && IsPrefix(u.name, email)
    ensures u.role == DoctorRole <==> Contains(email, "doctor")
    ensures u.role != AdminRole && u.id == "user-1" && u.email == email && u.avatar == None
  {
    SplitHead(email, '@');
    AuthUser("user-1", Split(email, '@')[0], email, if Contains(email, "doctor") then DoctorRole else PatientRole, None)
  }

  /**
   * The user a registration makes up: the form's fields, and as id `user-`
   * followed by the decimal digits of the number drawn below 1000.
   */
  function RegisteredUser(name: string, email: string, role: AuthRole, draw: nat): (u: AuthUser)
    ensures u.name == name && u.email == email && u.role == role && u.avatar == None
    ensures IsPrefix("user-", u.id) && 6 <= |u.id| <= 8
    ensures IsDigits(u.id[5..]) && DecimalValue(u.id[5..]) == draw % 1000
    ensures u.id[5] == '0' ==> |u.id| == 6
  {
    var id := "user-" + Decimal(draw % 1000);
    assert id[5..] == Decimal(draw % 1000);
    DecimalRoundTrip(draw % 1000);
    AuthUser(id, name, email, role, None)
  }

  class AuthProvider {
    var user: Option<AuthUser>
    var isLoading: bool
    var storage: map<string, string>

    constructor (initial: map<string, string>)
      ensures user == None && isLoading && storage == initial
    {
      user := None;
      isLoading := true;
      storage := initial;
    }

    /** `isAuthenticated` */
    predicate IsAuthenticated()
      reads this
    {
      user.Some?
    }

    /** `checkAuth`: a stored user that parses is restored; loading ends in every case. */
    method CheckAuth(parse: string -> Option<AuthUser>)
      modifies this`user, this`isLoading
      ensures Stored(storage, "user") && parse(storage["user"]).Some? ==> user == parse(storage["user"])
      ensures !(Stored(storage, "user") && parse(storage["user"]).Some?) ==> user == old(user)
      ensures !isLoading
    {
      if "user" in storage && storage["user"] != "" {
        var parsed := parse(storage["user"]);
        if parsed.Some? {
          user := parsed;
        }
      }
      isLoading := false;
    }

    /** `login`: the made-up user is signed in and kept in storage; loading ends. */
    method Login(email: string, password: string, stringify: AuthUser -> string)
      modifies this`user, this`isLoading, this`storage
      ensures user == Some(LoginUser(email)) && IsAuthenticated()
      ensures storage == old(storage)["user" := stringify(LoginUser(email))]
      ensures !isLoading
    {
      isLoading := true;
      var at := Split(email, '@');
      var mock := AuthUser("user-1", at[0], email, if Contains(email, "doctor") then DoctorRole else PatientRole, None);
      user := Some(mock);
      storage := storage["user" := stringify(mock)];
      isLoading := false;
    }

    /** `register`: the form's user is signed in and kept in storage; loading ends. */
    method Register(name: string, email: string, password: string, role: AuthRole, draw: nat,
                    stringify: AuthUser -> string)
      requires role != AdminRole
      modifies this`user, this`isLoading, this`storage
      ensures user == Some(RegisteredUser(name, email, role, draw)) && IsAuthenticated()
      ensures storage == old(storage)["user" := stringify(RegisteredUser(name, email, role, draw))]
      ensures !isLoading
    {
      isLoading := true;
      var mock := AuthUser("user-" + Decimal(draw % 1000), name, email, role, None);
      user := Some(mock);
      storage := storage["user" := stringify(mock)];
      isLoading := false;
    }

    /** `logout`: nobody is signed in and the stored user is gone; nothing else is stored or changed. */
    method Logout()
      modifies this`user, this`storage
      ensures user == None && !IsAuthenticated()
      ensures storage == old(storage) - {"user"}
    {
      user := None;
      storage := storage - {"user"};
    }
  }

  /**
   * A login survives a reload: a new provider over the storage the login
   * left restores the same user, as long as parsing undoes stringifying.
   */
  method LoginSurvivesReload(initial: map<string, string>, email: string, password: string,
                             stringify: AuthUser -> string, parse: string -> Option<AuthUser>)
    returns (restored: Option<AuthUser>, loading: bool)
    requires stringify(LoginUser(email)) != ""
    requires parse(stringify(LoginUser(email))) == Some(LoginUser(email))
    ensures restored == Some(LoginUser(email)) && !loading
  {
    var first := new AuthProvider(initial);
    first.Login(email, password, stringify);
    var second := new AuthProvider(first.storage);
    second.CheckAuth(parse);
    restored, loading := second.user, second.isLoading;
  }

  /** A logout survives a reload: nobody is restored afterwards. */
  method LogoutSurvivesReload(initial: map<string, string>, parse: string -> Option<AuthUser>)
    returns (restored: Option<AuthUser>, loading: bool)
    ensures restored == None && !loading
  {
    var first := new AuthProvider(initial);
    first.Logout();
    var second := new AuthProvider(first.storage);
    second.CheckAuth(parse);
    restored, loading := second.user, second.isLoading;
  }
}
