/** The validation schemas requests go through before they reach the store: the
  * administrator's user-creation schema and the purchase and payment insert schemas.
  * A failed validation reports every failing field, in field order. */
module Schema {
  import opened Wrappers
  import opened Calendar
  import opened Money
  import opened Records

  const InvalidPrice := "Invalid price format"
  const InvalidAmount := "Invalid amount format"

  /** The ways `createUserSchema` can reject a user, one per field. */
  datatype UserIssue = UsernameTooShort | PasswordTooShort | InvalidRole(received: string)

  /** Position of the issue's field in the schema: username, password, role. */
  function FieldIndex(issue: UserIssue): nat
  {
    match issue
    case UsernameTooShort => 0
    case PasswordTooShort => 1
    case InvalidRole(_) => 2
  }

  /** The message zod reports for each issue. */
  function Message(issue: UserIssue): string
  {
    match issue
    case UsernameTooShort => "Username must be at least 3 characters"
    case PasswordTooShort => "Password must be at least 6 characters"
    case InvalidRole(role) => "Invalid enum value. Expected 'admin' | 'user', received '" + role + "'"
  }

  datatype NewUser = NewUser(username: string, password: string, role: string)

  /** The length JavaScript gives a string: UTF-16 code units, so a character outside the
    * basic multilingual plane counts twice. */
  function Utf16Length(s: string): (n: nat)
    ensures |s| <= n <= 2 * |s|
    ensures (forall i :: 0 <= i < |s| ==> s[i] as int <= 0xFFFF) ==> n == |s|
  {
    if s == [] then 0
    else Utf16Length(s[..|s| - 1]) + (if s[|s| - 1] as int > 0xFFFF then 2 else 1)
  }

  /** `createUserSchema`: a username of at least 3 and a password of at least 6 UTF-16
    * code units, and a role that is exactly "admin" or "user"; a rejection lists every
    * failing field, in field order. */
  function ValidateCreateUser(username: string, password: string, role: string): (r: Result<NewUser, seq<UserIssue>>)
    ensures r.Ok? <==> Utf16Length(username) >= 3 && Utf16Length(password) >= 6 && (role == "admin" || role == "user")
    ensures r.Ok? ==> r.value == NewUser(username, password, role)
    ensures r.Err? ==> (UsernameTooShort in r.error <==> Utf16Length(username) < 3)
    ensures r.Err? ==> (PasswordTooShort in r.error <==> Utf16Length(password) < 6)
    ensures r.Err? ==> (InvalidRole(role) in r.error <==> role != "admin" && role != "user")
    ensures r.Err? ==> forall i, j :: 0 <= i < j < |r.error| ==> FieldIndex(r.error[i]) < FieldIndex(r.error[j])
  {
    var issues :=
      (if Utf16Length(username) < 3 then [UsernameTooShort] else []) +
      (if Utf16Length(password) < 6 then [PasswordTooShort] else []) +
      (if role == "admin" || role == "user" then [] else [InvalidRole(role)]);
    if issues == [] then Ok(NewUser(username, password, role)) else Err(issues)
  }

  /** A two-character username and a three-character password pass when their characters
    * need two code units each. */
  lemma AstralUsernameAccepted()
    ensures |"\U{1F600}a"| == 2 && |"\U{1F600}\U{1F600}\U{1F600}"| == 3
    ensures ValidateCreateUser("\U{1F600}a", "secret", "user").Ok?
    ensures ValidateCreateUser("abc", "\U{1F600}\U{1F600}\U{1F600}", "user").Ok?
  {
    assert "\U{1F600}a"[..1] == "\U{1F600}";
    assert "\U{1F600}"[..0] == "";
    assert "\U{1F600}\U{1F600}\U{1F600}"[..2] == "\U{1F600}\U{1F600}";
    assert "\U{1F600}\U{1F600}"[..1] == "\U{1F600}";
  }

  /** A purchase as the request body carries it. */
  datatype PurchaseInput = PurchaseInput(
    customerId: Id, product: string, purchaseDate: Instant,
    initialPayment: string, rentalAmount: string, rentalFrequency: string)

  /** `insertPurchaseSchema`: both money fields must match the amount pattern. */
  function ValidatePurchase(p: PurchaseInput): (r: Result<PurchaseInput, seq<string>>)
    ensures r.Ok? <==> IsAmount(p.initialPayment) && IsAmount(p.rentalAmount)
    ensures r.Ok? ==> r.value == p
    ensures r.Err? ==> |r.error| == (if IsAmount(p.initialPayment) then 0 else 1) + (if IsAmount(p.rentalAmount) then 0 else 1)
    ensures r.Err? ==> forall e :: e in r.error ==> e == InvalidPrice
  {
    var issues :=
      (if IsAmount(p.initialPayment) then [] else [InvalidPrice]) +
      (if IsAmount(p.rentalAmount) then [] else [InvalidPrice]);
    if issues == [] then Ok(p) else Err(issues)
  }

  /** A payment as the request body carries it; `paidDate` may be left out, null or a date. */
  datatype PaymentInput = PaymentInput(
    purchaseId: Id, amount: string, dueDate: Instant, status: string,
    paidDate: Patch<Option<Instant>>)

  /** `insertPaymentSchema`: the amount must match the amount pattern; the paid date is
    * optional and nullable, so it never makes the payment invalid. */
  function ValidatePayment(p: PaymentInput): (r: Result<PaymentInput, seq<string>>)
    ensures r.Ok? <==> IsAmount(p.amount)
    ensures r.Ok? ==> r.value == p
    ensures r.Err? ==> r.error == [InvalidAmount]
  {
    if IsAmount(p.amount) then Ok(p) else Err([InvalidAmount])
  }
}
