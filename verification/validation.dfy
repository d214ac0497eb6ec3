/** Field rules, form aggregation and API error messages (src/utils/validation.js).

    A field value is missing (`undefined`/`null`), a text or an integer.
    Regular-expression tests see the value converted to text; `.length` of a
    number is `undefined`, so length comparisons on numbers are false. Dates
    are read through a caller-supplied parser giving milliseconds (`None` for
    an invalid date), and `toLocaleDateString` is a caller-supplied formatter. */
module Validation {
  import opened Common

  datatype Value = Missing | Text(s: string) | Number(n: int)

  /** JavaScript truthiness of a field value. */
  predicate Truthy(v: Value)
  {
    match v
    case Missing => false
    case Text(s) => s != ""
    case Number(n) => n != 0
  }

  /** `String(value)` for a present value. */
  function TextOf(v: Value): string
  {
    match v
    case Missing => "undefined"
    case Text(s) => s
    case Number(n) => DecimalText(n)
  }

  /** `value.length`: defined for texts only. */
  function LengthOf(v: Value): Option<nat>
  {
    if v.Text? then Some(|v.s|) else None
  }

  /** The options object of a schema entry. `maxDate` is absent, or a date
      that may be invalid. */
  datatype FieldOptions = FieldOptions(required: bool, maxDate: Option<Option<int>>)

  /** What date checks need from the environment. */
  datatype DateEnv = DateEnv(parse: string -> Option<int>, todayMidnight: int, localeDate: int -> string)

  // ------------------------------------------------------------------
  // Email: /^[A-Z0-9._%+-]+@[A-Z0-9.-]+\.[A-Z]{2,}$/i
  // ------------------------------------------------------------------

  predicate LocalChar(c: char) { IsLetter(c) || IsDigit(c) || c == '.' || c == '_' || c == '%' || c == '+' || c == '-' }
  predicate DomainChar(c: char) { IsLetter(c) || IsDigit(c) || c == '.' || c == '-' }

  /** The pattern as a statement about where '@' and the final '.' sit. */
  ghost predicate EmailPattern(s: string)
  {
    exists i, j :: 0 < i && i + 1 < j < |s| && s[i] == '@' && s[j] == '.'
      && (forall k :: 0 <= k < i ==> LocalChar(s[k]))
      && (forall k :: i < k < j ==> DomainChar(s[k]))
      && |s| - j - 1 >= 2
      && (forall k :: j < k < |s| ==> IsLetter(s[k]))
  }

  /** First position of `c`. */
  function IndexOf(s: string, c: char): (r: Option<nat>)
    ensures r.Some? ==> r.value < |s| && s[r.value] == c && forall k :: 0 <= k < r.value ==> s[k] != c
    ensures r.None? ==> forall k :: 0 <= k < |s| ==> s[k] != c
  {
    if s == [] then None
    else if s[0] == c then Some(0)
    else match IndexOf(s[1..], c)
      case None => None
      case Some(k) => Some(k + 1)
  }

  /** Last position of `c`. */
  function LastIndexOf(s: string, c: char): (r: Option<nat>)
    ensures r.Some? ==> r.value < |s| && s[r.value] == c && forall k :: r.value < k < |s| ==> s[k] != c
    ensures r.None? ==> forall k :: 0 <= k < |s| ==> s[k] != c
  {
    if s == [] then None
    else if s[|s| - 1] == c then Some(|s| - 1)
    else LastIndexOf(s[..|s| - 1], c)
  }

  /** `EMAIL_REGEX.test(s)`: the first '@' ends a non-empty local part, and
      the last '.' after it is followed by two or more letters. */
  predicate EmailValid(s: string)
  {
    match IndexOf(s, '@')
    case None => false
    case Some(i) =>
      match LastIndexOf(s, '.')
      case None => false
      case Some(j) =>
        0 < i && i + 1 < j && |s| - j - 1 >= 2
        && (forall k :: 0 <= k < i ==> LocalChar(s[k]))
        && (forall k :: i < k < j ==> DomainChar(s[k]))
        && (forall k :: j < k < |s| ==> IsLetter(s[k]))
  }

  /** The scan's positions witness the pattern. */
  lemma EmailValidHasPattern(s: string)
    requires EmailValid(s)
    ensures EmailPattern(s)
  {
    var i := IndexOf(s, '@').value;
    var j := LastIndexOf(s, '.').value;
    assert 0 < i && i + 1 < j < |s| && s[i] == '@' && s[j] == '.'
      && (forall k :: 0 <= k < i ==> LocalChar(s[k]))
      && (forall k :: i < k < j ==> DomainChar(s[k]))
      && |s| - j - 1 >= 2
      && (forall k :: j < k < |s| ==> IsLetter(s[k]));
  }

  /** Any pattern match puts its '@' first and its '.' last, so the scan finds it. */
  lemma EmailPatternIsValid(s: string)
    requires EmailPattern(s)
    ensures EmailValid(s)
  {
    var i, j :| 0 < i && i + 1 < j < |s| && s[i] == '@' && s[j] == '.'
      && (forall k :: 0 <= k < i ==> LocalChar(s[k]))
      && (forall k :: i < k < j ==> DomainChar(s[k]))
      && |s| - j - 1 >= 2
      && (forall k :: j < k < |s| ==> IsLetter(s[k]));
    var a := IndexOf(s, '@');
    assert a.Some? && a.value <= i;
    assert a.value == i;
    var b := LastIndexOf(s, '.');
    assert b.Some? && b.value >= j;
    assert b.value == j;
  }

  /** The scan agrees with the pattern on every string. */
  lemma EmailValidMatchesPattern(s: string)
    ensures EmailValid(s) <==> EmailPattern(s)
  {
    if EmailValid(s) {
      EmailValidHasPattern(s);
    }
    if EmailPattern(s) {
      EmailPatternIsValid(s);
    }
  }

  // ------------------------------------------------------------------
  // The other patterns
  // ------------------------------------------------------------------

  /** `NAME_REGEX.test(s)`: 2 to 50 letters or white-space characters. */
  predicate NameValid(s: string)
  {
    2 <= |s| <= 50 && forall k :: 0 <= k < |s| ==> IsLetter(s[k]) || IsSpace(s[k])
  }

  /** `PHONE_REGEX.test(s)`: exactly ten decimal digits. */
  predicate PhoneValid(s: string)
  {
    |s| == 10 && AllDigits(s)
  }

  predicate HasUpper(s: string) { exists k :: 0 <= k < |s| && IsUpper(s[k]) }
  predicate HasLower(s: string) { exists k :: 0 <= k < |s| && IsLower(s[k]) }
  predicate HasDigit(s: string) { exists k :: 0 <= k < |s| && IsDigit(s[k]) }

  const PasswordMessages: seq<string> := [
    "Password must be at least 8 characters",
    "Password must contain at least one uppercase letter",
    "Password must contain at least one lowercase letter",
    "Password must contain at least one number"
  ]

  /** The messages whose check failed, in order. */
  function FailedMessages(passed: seq<bool>, messages: seq<string>): (r: seq<string>)
    requires |passed| == |messages|
    ensures |r| <= |passed|
    ensures r == [] <==> forall k :: 0 <= k < |passed| ==> passed[k]
  {
    if passed == [] then []
    else (if passed[0] then [] else [messages[0]]) + FailedMessages(passed[1..], messages[1..])
  }

  /** The password rules for a present value, in the order they are checked. */
  function PasswordChecks(v: Value): seq<bool>
  {
    [LengthOf(v).None? || LengthOf(v).value >= 8,
     HasUpper(TextOf(v)), HasLower(TextOf(v)), HasDigit(TextOf(v))]
  }

  // ------------------------------------------------------------------
  // validateField
  // ------------------------------------------------------------------

  /** `value < 1 || value > 5` for the rating rule; a text is converted with
      `Number` and `NaN` compares false. */
  predicate RatingOutOfRange(v: Value)
  {
    match v
    case Missing => false
    case Number(n) => n < 1 || n > 5
    case Text(s) => ToNumber(s).Some? && (ToNumber(s).value < 1 || ToNumber(s).value > 5)
  }

  /** `validateField(fieldName, value, options)`: the list of error messages. */
  function ValidateField(fieldName: string, v: Value, options: FieldOptions, env: DateEnv): (errors: seq<string>)
  {
    if fieldName == "email" then
      if !Truthy(v) then ["Email is required"]
      else if !EmailValid(TextOf(v)) then ["Please enter a valid email address"]
      else []
    else if fieldName == "password" then
      if !Truthy(v) then ["Password is required"]
      else
        (if LengthOf(v).Some? && LengthOf(v).value < 8 then [PasswordMessages[0]] else [])
        + (if !HasUpper(TextOf(v)) then [PasswordMessages[1]] else [])
        + (if !HasLower(TextOf(v)) then [PasswordMessages[2]] else [])
        + (if !HasDigit(TextOf(v)) then [PasswordMessages[3]] else [])
    else if fieldName == "name" then
      if !Truthy(v) then ["Name is required"]
      else if !NameValid(TextOf(v)) then ["Please enter a valid name (2-50 characters, letters only)"]
      else []
    else if fieldName == "phone" then
      if !Truthy(v) then ["Phone number is required"]
      else if !PhoneValid(TextOf(v)) then ["Please enter a valid 10-digit phone number"]
      else []
    else if fieldName == "date" then
      if !Truthy(v) then ["Date is required"]
      else
        var selected := env.parse(TextOf(v));
        (if selected.Some? && selected.value < env.todayMidnight then ["Please select a future date"] else [])
        + (match options.maxDate
           case None => []
           case Some(max) =>
             if selected.Some? && max.Some? && selected.value > max.value
             then ["Date cannot be later than " + env.localeDate(max.value)] else [])
    else if fieldName == "timeSlot" then
      if !Truthy(v) then ["Time slot is required"] else []
    else if fieldName == "rating" then
      if !Truthy(v) || RatingOutOfRange(v) then ["Please select a rating between 1 and 5"] else []
    else if fieldName == "review" then
      if !Truthy(v) then ["Review comment is required"]
      else if LengthOf(v).Some? && LengthOf(v).value < 10 then ["Review must be at least 10 characters long"]
      else if LengthOf(v).Some? && LengthOf(v).value > 500 then ["Review cannot exceed 500 characters"]
      else []
    else
      if options.required && !Truthy(v) then [fieldName + " is required"] else []
  }

  /** Email: a missing value gives only the 'required' error; a present one
      gives at most one error, exactly when the pattern fails. */
  lemma EmailRule(v: Value, options: FieldOptions, env: DateEnv)
    ensures !Truthy(v) ==> ValidateField("email", v, options, env) == ["Email is required"]
    ensures Truthy(v) ==> (ValidateField("email", v, options, env) == [] <==> EmailPattern(TextOf(v)))
    ensures |ValidateField("email", v, options, env)| <= 1
  {
    EmailValidMatchesPattern(TextOf(v));
  }

  /** Password: a present value gets one message per failed rule, in rule order. */
  lemma PasswordRule(v: Value, options: FieldOptions, env: DateEnv)
    ensures !Truthy(v) ==> ValidateField("password", v, options, env) == ["Password is required"]
    ensures Truthy(v) ==> ValidateField("password", v, options, env) == FailedMessages(PasswordChecks(v), PasswordMessages)
  {
    if Truthy(v) {
      var c := PasswordChecks(v);
      var m := PasswordMessages;
      assert c[1..][1..][1..][1..] == [] && m[1..][1..][1..][1..] == [];
      assert FailedMessages(c[1..][1..][1..], m[1..][1..][1..]) == (if c[3] then [] else [m[3]]);
      assert FailedMessages(c[1..][1..], m[1..][1..]) == (if c[2] then [] else [m[2]]) + (if c[3] then [] else [m[3]]);
      assert FailedMessages(c[1..], m[1..]) == (if c[1] then [] else [m[1]]) + (if c[2] then [] else [m[2]]) + (if c[3] then [] else [m[3]]);
    }
  }

  /** A password is accepted exactly when it is present and passes all four rules. */
  lemma PasswordAccepted(s: string, options: FieldOptions, env: DateEnv)
    ensures ValidateField("password", Text(s), options, env) == [] <==>
      s != "" && |s| >= 8 && HasUpper(s) && HasLower(s) && HasDigit(s)
  {
    PasswordRule(Text(s), options, env);
    var c := PasswordChecks(Text(s));
    assert c[0] == (|s| >= 8) && c[1] == HasUpper(s) && c[2] == HasLower(s) && c[3] == HasDigit(s);
  }

  /** Name and phone: missing gives only 'required'; otherwise one error iff the pattern fails. */
  lemma NameAndPhoneRules(v: Value, options: FieldOptions, env: DateEnv)
    ensures !Truthy(v) ==> ValidateField("name", v, options, env) == ["Name is required"]
    ensures !Truthy(v) ==> ValidateField("phone", v, options, env) == ["Phone number is required"]
    ensures Truthy(v) ==> (ValidateField("name", v, options, env) == [] <==> NameValid(TextOf(v)))
    ensures Truthy(v) ==> (ValidateField("phone", v, options, env) == [] <==> PhoneValid(TextOf(v)))
    ensures |ValidateField("name", v, options, env)| <= 1 && |ValidateField("phone", v, options, env)| <= 1
  {
  }

  /** Date: a missing value gives only 'required'. Otherwise a past date and
      a date after a valid `maxDate` each add their own error, in that order;
      an invalid date or `maxDate` adds neither. */
  lemma DateRule(v: Value, options: FieldOptions, env: DateEnv)
    ensures !Truthy(v) ==> ValidateField("date", v, options, env) == ["Date is required"]
    ensures Truthy(v) ==>
      var e := ValidateField("date", v, options, env);
      var sel := env.parse(TextOf(v));
      var past := sel.Some? && sel.value < env.todayMidnight;
      var late := sel.Some? && options.maxDate.Some? && options.maxDate.value.Some? && sel.value > options.maxDate.value.value;
      && |e| == (if past then 1 else 0) + (if late then 1 else 0)
      && (past ==> e[0] == "Please select a future date")
      && (late ==> e[|e| - 1] == "Date cannot be later than " + env.localeDate(options.maxDate.value.value))
      && ("Please select a future date" in e <==> past)
  {
    if Truthy(v) {
      var e := ValidateField("date", v, options, env);
      var sel := env.parse(TextOf(v));
      if options.maxDate.Some? && options.maxDate.value.Some? && sel.Some? && sel.value > options.maxDate.value.value {
        var late := "Date cannot be later than " + env.localeDate(options.maxDate.value.value);
        assert late[..5] == "Date " && "Please select a future date"[..5] == "Pleas";
        assert late != "Please select a future date";
      }
    }
  }

  /** Rating: an error exactly when the value is falsy (missing, empty, 0),
      below 1 or above 5; the error is the one rating message. */
  lemma RatingRule(v: Value, options: FieldOptions, env: DateEnv)
    ensures ValidateField("rating", v, options, env) != [] <==> !Truthy(v) || RatingOutOfRange(v)
    ensures ValidateField("rating", v, options, env) != [] ==>
      ValidateField("rating", v, options, env) == ["Please select a rating between 1 and 5"]
    ensures v.Number? ==> (ValidateField("rating", v, options, env) != [] <==> v.n < 1 || v.n > 5)
  {
  }

  /** Review: 'required' for a falsy value; a text shorter than 10 or longer
      than 500 characters gets its own message; a number has no length, so
      any non-zero number passes. */
  lemma ReviewRule(v: Value, options: FieldOptions, env: DateEnv)
    ensures !Truthy(v) ==> ValidateField("review", v, options, env) == ["Review comment is required"]
    ensures Truthy(v) && v.Text? && |v.s| < 10 ==>
      ValidateField("review", v, options, env) == ["Review must be at least 10 characters long"]
    ensures Truthy(v) && v.Text? && |v.s| > 500 ==>
      ValidateField("review", v, options, env) == ["Review cannot exceed 500 characters"]
    ensures Truthy(v) && v.Number? ==> ValidateField("review", v, options, env) == []
    ensures ValidateField("review", v, options, env) == [] <==> Truthy(v) && (v.Text? ==> 10 <= |v.s| <= 500)
  {
  }

  /** The time slot is only required; any other field name is checked only
      for presence, and only when its options say it is required. */
  lemma TimeSlotAndOtherRules(fieldName: string, v: Value, options: FieldOptions, env: DateEnv)
    ensures ValidateField("timeSlot", v, options, env) != [] <==> !Truthy(v)
    ensures fieldName !in {"email", "password", "name", "phone", "date", "timeSlot", "rating", "review"} ==>
      ValidateField(fieldName, v, options, env) == (if options.required && !Truthy(v) then [fieldName + " is required"] else [])
  {
  }

  // ------------------------------------------------------------------
  // validateForm
  // ------------------------------------------------------------------

  /** `formData[fieldName]`. */
  function FieldValue(formData: map<string, Value>, name: string): Value
  {
    if name in formData then formData[name] else Missing
  }

  /** The entries of a schema object have distinct names. */
  predicate DistinctNames(schema: seq<(string, FieldOptions)>)
  {
    forall a, b :: 0 <= a < b < |schema| ==> schema[a].0 != schema[b].0
  }

  function ErrorsOf(formData: map<string, Value>, entry: (string, FieldOptions), env: DateEnv): seq<string>
  {
    ValidateField(entry.0, FieldValue(formData, entry.0), entry.1, env)
  }

  /** The errors of each schema entry, in schema order. */
  function FormErrors(formData: map<string, Value>, schema: seq<(string, FieldOptions)>, env: DateEnv): (r: seq<seq<string>>)
    ensures |r| == |schema|
    decreases |schema|
  {
    if schema == [] then []
    else FormErrors(formData, schema[..|schema| - 1], env) + [ErrorsOf(formData, schema[|schema| - 1], env)]
  }

  /** Entry `a` of the list is the errors of schema entry `a`. */
  lemma {:induction false} FormErrorsAt(formData: map<string, Value>, schema: seq<(string, FieldOptions)>, env: DateEnv, a: nat)
    requires a < |schema|
    ensures FormErrors(formData, schema, env)[a] == ErrorsOf(formData, schema[a], env)
    decreases |schema|
  {
    if a < |schema| - 1 {
      var init := schema[..|schema| - 1];
      FormErrorsAt(formData, init, env, a);
      assert init[a] == schema[a];
    }
  }

  /** One call of `validateField` inside `validateForm`'s loop. */
  method CheckEntry(formData: map<string, Value>, schema: seq<(string, FieldOptions)>, env: DateEnv, i: nat)
    returns (fieldErrors: seq<string>)
    requires i < |schema|
    ensures fieldErrors == FormErrors(formData, schema, env)[i]
  {
    FormErrorsAt(formData, schema, env, i);
    fieldErrors := ValidateField(schema[i].0, FieldValue(formData, schema[i].0), schema[i].1, env);
  }

  /** `validateForm(formData, schema)`: `errors` holds exactly the failing
      fields with their messages (entry `a` of `FormErrors` is field `a`'s
      messages, by `FormErrorsAt`), and the form is valid exactly when no
      field fails. */
  method ValidateForm(formData: map<string, Value>, schema: seq<(string, FieldOptions)>, env: DateEnv)
    returns (isValid: bool, errors: map<string, seq<string>>)
    requires DistinctNames(schema)
    ensures forall a :: 0 <= a < |schema| ==>
      (schema[a].0 in errors <==> FormErrors(formData, schema, env)[a] != [])
    ensures forall a :: 0 <= a < |schema| && schema[a].0 in errors ==> errors[schema[a].0] == FormErrors(formData, schema, env)[a]
    ensures forall name :: name in errors ==> exists a :: 0 <= a < |schema| && schema[a].0 == name
    ensures isValid <==> forall a :: 0 <= a < |schema| ==> FormErrors(formData, schema, env)[a] == []
    ensures isValid <==> errors == map[]
  {
    ghost var all := FormErrors(formData, schema, env);
    errors := map[];
    isValid := true;
    var i := 0;
    while i < |schema|
      invariant 0 <= i <= |schema|
      invariant forall a :: 0 <= a < i ==> (schema[a].0 in errors <==> all[a] != [])
      invariant forall a :: 0 <= a < i && schema[a].0 in errors ==> errors[schema[a].0] == all[a]
      invariant forall name :: name in errors ==> exists a :: 0 <= a < i && schema[a].0 == name
      invariant isValid <==> forall a :: 0 <= a < i ==> all[a] == []
      invariant isValid <==> errors == map[]
    {
      var fieldErrors := CheckEntry(formData, schema, env, i);
      if |fieldErrors| > 0 {
        errors := errors[schema[i].0 := fieldErrors];
        isValid := false;
      }
      i := i + 1;
    }
  }

  // ------------------------------------------------------------------
  // handleApiError
  // ------------------------------------------------------------------

  const NetworkError: string := "Unable to connect to server. Please check your internet connection."
  const ServerError: string := "Something went wrong. Please try again later."
  const Unauthorized: string := "Please log in to continue."
  const SessionExpired: string := "Your session has expired. Please log in again."
  const BookingConflict: string := "This time slot is no longer available. Please choose another time."

  datatype Response = Response(status: int, message: Option<string>)

  /** `handleApiError(error)`; `response` is `error.response`. */
  function HandleApiError(response: Option<Response>): string
  {
    match response
    case None => NetworkError
    case Some(r) =>
      if r.status == 401 then Unauthorized
      else if r.status == 403 then SessionExpired
      else if r.status == 409 then BookingConflict
      else if r.status == 422 then
        (if r.message.Some? && r.message.value != "" then r.message.value else ServerError)
      else ServerError
  }

  /** No response reads as a network error; 401 asks to log in, 403 says the
      session expired, 409 reports the booking conflict, a 422 passes on the
      server's own non-empty message, and every other status reads as a
      server error. */
  lemma ApiErrorMapping(response: Option<Response>)
    ensures response.None? ==> HandleApiError(response) == NetworkError
    ensures response.Some? && response.value.status == 401 ==> HandleApiError(response) == Unauthorized
    ensures response.Some? && response.value.status == 403 ==> HandleApiError(response) == SessionExpired
    ensures response.Some? && response.value.status == 409 ==> HandleApiError(response) == BookingConflict
    ensures response.Some? && response.value.status !in {401, 403, 409, 422} ==> HandleApiError(response) == ServerError
    ensures response.Some? && response.value.status == 422 ==>
      HandleApiError(response) == (if response.value.message.Some? && response.value.message.value != "" then response.value.message.value else ServerError)
    ensures HandleApiError(response) != ""
  {
  }
}
