/**
 * The zod schemas of client/src/types.tsx as validators: each form's
 * checks produce the list of issues zod reports, field by field in the
 * schema's key order, and the form is accepted when that list is empty.
 *
 * A JavaScript string's length counts UTF-16 code units, so a character
 * outside the Basic Multilingual Plane counts twice. z.email's address
 * grammar is library behaviour and is taken as a parameter.
 */
module Forms {
  import opened Text

  /** One reported problem: the field's key and the schema's message for it. */
  datatype Issue = Issue(field: string, message: string)

  /** String.prototype.length: UTF-16 code units. */
  function Utf16Length(s: string): (n: nat)
    ensures |s| <= n <= 2 * |s|
  {
    if s == [] then 0
    else Utf16Length(s[..|s| - 1]) + (if s[|s| - 1] as int >= 0x1_0000 then 2 else 1)
  }

  /** z.string().min(n, message). */
  function Min(field: string, s: string, n: nat, message: string): seq<Issue> {
    if Utf16Length(s) < n then [Issue(field, message)] else []
  }

  /** z.string().max(n, message). */
  function Max(field: string, s: string, n: nat, message: string): seq<Issue> {
    if Utf16Length(s) > n then [Issue(field, message)] else []
  }

  /** z.email(message): the address grammar is the library's, given as a predicate. */
  function Email(field: string, s: string, isEmail: string -> bool, message: string): seq<Issue> {
    if isEmail(s) then [] else [Issue(field, message)]
  }

  // -------------------------------------------------------------- shipping

  datatype ShippingForm = ShippingForm(name: string, email: string, phone: string, address: string, city: string)

  /** shippingFormSchema.safeParse: the phone's digit regex is commented out in the schema. */
  function ShippingIssues(f: ShippingForm): seq<Issue> {
    Min("name", f.name, 1, "Name is required")
    + Min("email", f.email, 1, "Email is required")
    + Min("phone", f.phone, 7, "Phone number must be atleast 7 digits")
    + Max("phone", f.phone, 10, "Phone number can't be more than 10 digits")
    + Min("address", f.address, 1, "Address is required")
    + Min("city", f.city, 1, "City is required")
  }

  /** What a valid shipping form is: four non-empty fields and a phone of 7 to 10 code units. */
  predicate ShippingValid(f: ShippingForm) {
    && f.name != [] && f.email != [] && f.address != [] && f.city != []
    && 7 <= Utf16Length(f.phone) <= 10
  }

  lemma {:induction false} ShippingAccepts(f: ShippingForm)
    ensures ShippingIssues(f) == [] <==> ShippingValid(f)
  {
  }

  /** The phone may hold any characters at all: seven letters pass. */
  lemma {:induction false} ShippingPhoneUnchecked(f: ShippingForm)
    requires f.name != [] && f.email != [] && f.address != [] && f.city != []
    requires f.phone == "abcdefg"
    ensures ShippingIssues(f) == []
  {
    Utf16LengthBasic(f.phone);
  }

  // --------------------------------------------------------------- payment

  datatype PaymentForm = PaymentForm(cardHolder: string, cardNumber: string, expirationDate: string, cvv: string)

  /** /^(0[1-9]|1[0-2])\/\d{2}$/ without flags: \d is an ASCII digit and $ is the end of the input. */
  predicate ExpirationMatches(s: string) {
    && |s| == 5
    && ((s[0] == '0' && '1' <= s[1] <= '9') || (s[0] == '1' && '0' <= s[1] <= '2'))
    && s[2] == '/'
    && IsDigit(s[3]) && IsDigit(s[4])
  }

  /** paymentFormSchema.safeParse. */
  function PaymentIssues(f: PaymentForm): seq<Issue> {
    Min("cardHolder", f.cardHolder, 1, "Cardholder is required")
    + Min("cardNumber", f.cardNumber, 16, "Card Number is required")
    + Max("cardNumber", f.cardNumber, 16, "Card Number is required")
    + (if ExpirationMatches(f.expirationDate) then []
       else [Issue("expirationDate", "Expiration date must be MM/YY format")])
    + Min("cvv", f.cvv, 3, "CVV is required")
    + Max("cvv", f.cvv, 3, "CVV is required")
  }

  /** An expiration date read as numbers: two digits naming a month 1 to 12, a slash, two digits. */
  predicate MonthSlashYear(s: string) {
    && |s| == 5 && s[2] == '/'
    && AllDigits(s[..2]) && AllDigits(s[3..])
    && 1 <= DigitsValue(s[..2]) <= 12
  }

  /** The regular expression accepts exactly the MM/YY strings with a month from 01 to 12. */
  lemma {:induction false} ExpirationIsMonthSlashYear(s: string)
    ensures ExpirationMatches(s) <==> MonthSlashYear(s)
  {
    if |s| == 5 {
      var mm := s[..2];
      assert mm[..1] == [s[0]] && mm[1] == s[1];
      if AllDigits(mm) {
        assert mm[..1][..0] == [];
        assert DigitsValue(mm[..1]) == (s[0] as int) - ('0' as int);
        assert DigitsValue(mm) == ((s[0] as int) - ('0' as int)) * 10 + ((s[1] as int) - ('0' as int));
      }
      assert s[3..][0] == s[3] && s[3..][1] == s[4];
    }
  }

  /** What a valid payment form is. */
  predicate PaymentValid(f: PaymentForm) {
    && f.cardHolder != []
    && Utf16Length(f.cardNumber) == 16
    && MonthSlashYear(f.expirationDate)
    && Utf16Length(f.cvv) == 3
  }

  lemma {:induction false} PaymentAccepts(f: PaymentForm)
    ensures PaymentIssues(f) == [] <==> PaymentValid(f)
  {
    ExpirationIsMonthSlashYear(f.expirationDate);
  }

  /** A card number of the wrong length is reported once, whichever bound it misses. */
  lemma {:induction false} CardNumberReportedOnce(f: PaymentForm)
    requires Utf16Length(f.cardNumber) != 16
    ensures |Min("cardNumber", f.cardNumber, 16, "Card Number is required")
             + Max("cardNumber", f.cardNumber, 16, "Card Number is required")| == 1
  {
  }

  /** "13/25" and "1/25" are refused, "12/99" is accepted. */
  lemma {:induction false} ExpirationExamples()
    ensures !ExpirationMatches("13/25") && !ExpirationMatches("1/25") && ExpirationMatches("12/99")
  {
  }

  // ---------------------------------------------------------- login, register

  datatype LoginForm = LoginForm(email: string, password: string)

  function PasswordIssues(password: string): seq<Issue> {
    Min("password", password, 6, "Password must be at least 6 characters long")
    + Max("password", password, 20, "Password can't be more than 20 characters long")
  }

  /** loginFormSchema.safeParse. */
  function LoginIssues(f: LoginForm, isEmail: string -> bool): seq<Issue> {
    Email("email", f.email, isEmail, "Email is invalid") + PasswordIssues(f.password)
  }

  predicate LoginValid(f: LoginForm, isEmail: string -> bool) {
    isEmail(f.email) && 6 <= Utf16Length(f.password) <= 20
  }

  lemma {:induction false} LoginAccepts(f: LoginForm, isEmail: string -> bool)
    ensures LoginIssues(f, isEmail) == [] <==> LoginValid(f, isEmail)
  {
  }

  datatype RegisterForm = RegisterForm(name: string, email: string, password: string)

  /** registerFormSchema.safeParse. */
  function RegisterIssues(f: RegisterForm, isEmail: string -> bool): seq<Issue> {
    Min("name", f.name, 2, "Name must be at least 2 characters long")
    + Max("name", f.name, 100, "Name can't be more than 100 characters long")
    + Email("email", f.email, isEmail, "Email is invalid")
    + PasswordIssues(f.password)
  }

  predicate RegisterValid(f: RegisterForm, isEmail: string -> bool) {
    2 <= Utf16Length(f.name) <= 100 && isEmail(f.email) && 6 <= Utf16Length(f.password) <= 20
  }

  lemma {:induction false} RegisterAccepts(f: RegisterForm, isEmail: string -> bool)
    ensures RegisterIssues(f, isEmail) == [] <==> RegisterValid(f, isEmail)
  {
  }

  /** A password that registers also logs in: both schemas bound it the same way. */
  lemma {:induction false} RegisterPasswordLogsIn(f: RegisterForm, isEmail: string -> bool)
    requires RegisterValid(f, isEmail)
    ensures LoginValid(LoginForm(f.email, f.password), isEmail)
  {
  }

  // ------------------------------------------------------------ code units

  /** Outside the supplementary planes the length is the number of characters. */
  lemma {:induction false} Utf16LengthBasic(s: string)
    requires forall k :: 0 <= k < |s| ==> s[k] as int < 0x1_0000
    ensures Utf16Length(s) == |s|
  {
    if s != [] {
      Utf16LengthBasic(s[..|s| - 1]);
    }
  }

  /** Four emoji are eight code units: a long enough "phone number" for the shipping form. */
  lemma {:induction false} EmojiPhone(f: ShippingForm)
    requires f.name != [] && f.email != [] && f.address != [] && f.city != []
    requires f.phone == ['\U{1F4DE}', '\U{1F4DE}', '\U{1F4DE}', '\U{1F4DE}']
    ensures |f.phone| == 4 && ShippingIssues(f) == []
  {
    var p := f.phone;
    assert p[..3][..2][..1][..0] == [];
    assert Utf16Length(p[..1]) == 2;
    assert Utf16Length(p[..2]) == 4 by { assert p[..2][..1] == p[..1]; }
    assert Utf16Length(p[..3]) == 6 by { assert p[..3][..2] == p[..2]; }
    assert p[..4] == p;
  }
}
