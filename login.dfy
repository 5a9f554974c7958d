/**
 * `POST /api/login`: input check, user lookup by email or phone, password check,
 * and the `discountInfo` summary handed to the front end.
 */
module Login {
  import opened Wrappers
  import DC = DiscountCalculator

  datatype SignupDiscount = SignupDiscount(discount: real, discountType: string, isUsed: bool)

  datatype LoyaltyDiscount = LoyaltyDiscount(discount: real, discountType: string, threshold: real, isUsed: bool)

  /** A user row with its discount relations included. */
  datatype User = User(
    id: int,
    email: string,
    phone: string,
    name: string,
    passwordHash: string,
    role: Option<string>,
    signupDiscount: Option<SignupDiscount>,
    loyaltyDiscount: Option<LoyaltyDiscount>)

  /**
   * The summary sent to the front end. `hasSignupDiscount` is `null` (None) when
   * there is no signup row, otherwise the negation of its `isUsed`.
   */
  datatype DiscountInfo = DiscountInfo(
    hasSignupDiscount: Option<bool>,
    signupDiscountAmount: real,
    signupDiscountType: Option<string>,
    hasLoyaltyDiscount: bool,
    loyaltyDiscountAmount: real,
    loyaltyDiscountType: Option<string>,
    loyaltyThreshold: real)

  datatype LoginPayload = LoginPayload(
    token: string,
    userEmail: string,
    userId: int,
    userName: string,
    userRole: string,
    discountInfo: DiscountInfo)

  /** Which awaited call inside the route's `try` throws; each one ends in the `catch` (500). */
  datatype LoginFault =
    | NoFault
    | LookupFails   // prisma.user.findFirst
    | CompareFails  // bcrypt.compare
    | SignFails     // jwt.sign

  datatype LoginResponse =
    | BadRequest(error: string)     // 400
    | Unauthorized(error: string)   // 401
    | ServerError(error: string)    // 500
    | LoggedIn(payload: LoginPayload)  // 200

  /** JavaScript truthiness of an optional boolean. */
  predicate Truthy(b: Option<bool>)
  {
    b == Some(true)
  }

  /** The `discountInfo` object built from the user's rows. */
  function DiscountInfoOf(u: User): (info: DiscountInfo)
    ensures Truthy(info.hasSignupDiscount) <==> u.signupDiscount.Some? && !u.signupDiscount.value.isUsed
    ensures info.hasLoyaltyDiscount <==> u.loyaltyDiscount.Some?
    ensures u.signupDiscount.None? ==> info.signupDiscountAmount == 0.0 && info.signupDiscountType.None?
    ensures u.loyaltyDiscount.None? ==>
      info.loyaltyDiscountAmount == 0.0 && info.loyaltyDiscountType.None? && info.loyaltyThreshold == 0.0
  {
    DiscountInfo(
      match u.signupDiscount case Some(s) => Some(!s.isUsed) case None => None,
      match u.signupDiscount case Some(s) => s.discount case None => 0.0,
      match u.signupDiscount case Some(s) => Some(s.discountType) case None => None,
      u.loyaltyDiscount.Some?,
      match u.loyaltyDiscount case Some(l) => l.discount case None => 0.0,
      match u.loyaltyDiscount case Some(l) => Some(l.discountType) case None => None,
      match u.loyaltyDiscount case Some(l) => l.threshold case None => 0.0)
  }

  /** A user matches an identifier equal to either their email or their phone. */
  predicate Matches(u: User, identifier: string)
  {
    u.email == identifier || u.phone == identifier
  }

  /** `findFirst`: the position of the first matching user at or after `from`. */
  function FindFirst(users: seq<User>, identifier: string, from: nat): (r: Option<nat>)
    requires from <= |users|
    decreases |users| - from
    ensures r.Some? ==> from <= r.value < |users| && Matches(users[r.value], identifier)
    ensures r.Some? ==> forall j :: from <= j < r.value ==> !Matches(users[j], identifier)
    ensures r.None? ==> forall j :: from <= j < |users| ==> !Matches(users[j], identifier)
  {
    if from == |users| then None
    else if Matches(users[from], identifier) then Some(from)
    else FindFirst(users, identifier, from + 1)
  }

  /** `user.role || 'BUYER'`. */
  function RoleOf(u: User): (role: string)
    ensures u.role.None? || u.role.value == "" ==> role == "BUYER"
    ensures u.role.Some? && u.role.value != "" ==> role == u.role.value
  {
    match u.role
    case Some(r) => if r != "" then r else "BUYER"
    case None => "BUYER"
  }

  /** A request field is missing when absent or empty. */
  predicate Missing(field: Option<string>)
  {
    field.None? || field.value == ""
  }

  /**
   * `POST /api/login`. The store, bcrypt and the token signer are parameters:
   * `users` is the table in the order the store scans it, `passwordMatches` stands
   * for `bcrypt.compare`, `token` for the signed JWT, and `fault` names the call
   * inside the `try` that throws, if any.
   */
  function LoginRequest(identifier: Option<string>, password: Option<string>, users: seq<User>,
                        passwordMatches: (string, string) -> bool, token: string, fault: LoginFault)
    : (r: LoginResponse)
    ensures Missing(identifier) || Missing(password) <==> r.BadRequest?
    ensures !Missing(identifier) && !Missing(password) && fault != LookupFails ==>
      (r == Unauthorized("User not found") <==> forall u :: u in users ==> !Matches(u, identifier.value))
    ensures !Missing(identifier) && !Missing(password) && fault == LookupFails ==> r == ServerError("Internal server error")
    ensures !Missing(identifier) && !Missing(password) && fault != LookupFails && FindFirst(users, identifier.value, 0).Some? ==>
      var u := users[FindFirst(users, identifier.value, 0).value];
      r == if fault == CompareFails then ServerError("Internal server error")
           else if !passwordMatches(password.value, u.passwordHash) then Unauthorized("Invalid credentials")
           else if fault == SignFails then ServerError("Internal server error")
           else LoggedIn(LoginPayload(token, u.email, u.id, u.name, RoleOf(u), DiscountInfoOf(u)))
    ensures r.LoggedIn? ==> fault == NoFault
    ensures r.LoggedIn? ==>
      exists u :: u in users && Matches(u, identifier.value) && passwordMatches(password.value, u.passwordHash)
        && r.payload == LoginPayload(token, u.email, u.id, u.name, RoleOf(u), DiscountInfoOf(u))
  {
    if Missing(identifier) || Missing(password) then
      BadRequest("Identifier and password are required")
    else if fault == LookupFails then
      ServerError("Internal server error")
    else
      match FindFirst(users, identifier.value, 0)
      case None => Unauthorized("User not found")
      case Some(i) =>
        var user := users[i];
        if fault == CompareFails then
          ServerError("Internal server error")
        else if !passwordMatches(password.value, user.passwordHash) then
          Unauthorized("Invalid credentials")
        else if fault == SignFails then
          ServerError("Internal server error")
        else
          LoggedIn(LoginPayload(token, user.email, user.id, user.name, RoleOf(user), DiscountInfoOf(user)))
  }

  /** A wrong password is refused with "Invalid credentials", never with "User not found". */
  lemma WrongPasswordIsInvalidCredentials(identifier: string, password: string, users: seq<User>,
                                          passwordMatches: (string, string) -> bool, token: string, i: nat)
    requires identifier != "" && password != ""
    requires i < |users| && Matches(users[i], identifier)
    requires forall j :: 0 <= j < i ==> !Matches(users[j], identifier)
    requires !passwordMatches(password, users[i].passwordHash)
    ensures LoginRequest(Some(identifier), Some(password), users, passwordMatches, token, NoFault)
         == Unauthorized("Invalid credentials")
  {
  }

  /** The first user matching the identifier, with a password that checks, is logged in with their own details. */
  lemma FirstMatchLogsIn(identifier: string, password: string, users: seq<User>,
                         passwordMatches: (string, string) -> bool, token: string, i: nat)
    requires identifier != "" && password != ""
    requires i < |users| && Matches(users[i], identifier)
    requires forall j :: 0 <= j < i ==> !Matches(users[j], identifier)
    requires passwordMatches(password, users[i].passwordHash)
    ensures LoginRequest(Some(identifier), Some(password), users, passwordMatches, token, NoFault)
         == LoggedIn(LoginPayload(token, users[i].email, users[i].id, users[i].name, RoleOf(users[i]), DiscountInfoOf(users[i])))
  {
  }

  /** The discount bundle the calculator would see for this user, with a given promotion. */
  function BundleOf(u: User, promotion: Option<DC.Promotion>): DC.Discounts
  {
    DC.Discounts(
      match u.signupDiscount
      case Some(s) => Some(DC.UserDiscount(s.discount, s.discountType, s.isUsed))
      case None => None,
      match u.loyaltyDiscount
      case Some(l) => Some(DC.UserDiscount(l.discount, l.discountType, l.isUsed))
      case None => None,
      promotion)
  }

  /**
   * The login summary agrees with the price rule: it advertises a signup discount
   * exactly when the rule would apply one, and a loyalty discount exactly when the
   * rule would, whatever the loyalty row's isUsed flag.
   */
  lemma SummaryAgreesWithCalculator(u: User, promotion: Option<DC.Promotion>, price: real)
    ensures Truthy(DiscountInfoOf(u).hasSignupDiscount)
        <==> DC.HasSource(DC.Entries(price, BundleOf(u, promotion)), DC.Signup)
    ensures DiscountInfoOf(u).hasLoyaltyDiscount
        <==> DC.HasSource(DC.Entries(price, BundleOf(u, promotion)), DC.Loyalty)
  {
    DC.Eligibility(price, BundleOf(u, promotion));
  }
}
