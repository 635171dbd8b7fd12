/**
 * Request-body validation against the named Joi schemas, with every
 * violation collected into one error, and the normalisation of `email`.
 * Joi's email-format check is the `isEmail` parameter.
 */
module Validation {
  import opened Wrappers
  import opened ErrorHandler
  import Text

  /** A JSON value as the schemas see it: a string, or anything else. */
  datatype Value = Str(s: string) | NonString

  /** A request body: its keys in order. */
  datatype Entry = Entry(key: string, value: Value)
  type Body = seq<Entry>

  function Lookup(b: Body, key: string): Option<Value> {
    if b == [] then None
    else if b[0].key == key then Some(b[0].value)
    else Lookup(b[1..], key)
  }

  /** One key of a `Joi.object`: a `Joi.string()` with its modifiers. */
  datatype Rule = Rule(key: string, required: bool, email: bool, min: Option<nat>, max: Option<nat>)

  const NameRule := Rule("name", true, false, Some(2), Some(100))
  const EmailRule := Rule("email", true, true, None, None)
  const LoginPasswordRule := Rule("password", true, false, None, None)

  /** `schemas[name]` */
  function Schema(name: string): (r: Option<seq<Rule>>)
    ensures r.Some? <==> name in {"userSignup", "adminSignup", "userLogin", "adminLogin", "updateUser"}
    ensures r.Some? ==> forall i :: 0 <= i < |r.value| ==> (r.value[i].required <==> name != "updateUser")
    ensures r.Some? ==> forall i :: 0 <= i < |r.value| ==> (r.value[i].email <==> r.value[i].key == "email")
  {
    match name
    case "userSignup" => Some([NameRule, EmailRule, Rule("password", true, false, Some(6), Some(100))])
    case "adminSignup" => Some([NameRule, EmailRule, Rule("password", true, false, Some(8), Some(100)),
                                Rule("adminSecret", true, false, None, None)])
    case "userLogin" => Some([EmailRule, LoginPasswordRule])
    case "adminLogin" => Some([EmailRule, LoginPasswordRule])
    case "updateUser" => Some([Rule("name", false, false, Some(2), Some(100)), Rule("email", false, true, None, None)])
    case _ => None
  }

  /** The Joi error details the schemas can produce. */
  datatype Violation =
    | Required(key: string)
    | NotString(key: string)
    | Empty(key: string)
    | NotEmail(key: string)
    | TooShort(key: string, limit: nat)
    | TooLong(key: string, limit: nat)
    | NotAllowed(key: string)

  function Label(key: string): string {
    "\"" + key + "\""
  }

  /** `detail.message` */
  function Message(v: Violation): string {
    match v
    case Required(k) => Label(k) + " is required"
    case NotString(k) => Label(k) + " must be a string"
    case Empty(k) => Label(k) + " is not allowed to be empty"
    case NotEmail(k) => Label(k) + " must be a valid email"
    case TooShort(k, n) => Label(k) + " length must be at least " + Text.NatToString(n) + " characters long"
    case TooLong(k, n) => Label(k) + " length must be less than or equal to " + Text.NatToString(n) + " characters long"
    case NotAllowed(k) => Label(k) + " is not allowed"
  }

  function Messages(vs: seq<Violation>): (r: seq<string>)
    ensures |r| == |vs|
    ensures forall i :: 0 <= i < |vs| ==> r[i] == Message(vs[i])
  {
    if vs == [] then [] else [Message(vs[0])] + Messages(vs[1..])
  }

  /** The violations of one rule, in the order Joi reports them (`abortEarly: false`). */
  function RuleViolations(r: Rule, b: Body, isEmail: string -> bool): seq<Violation> {
    match Lookup(b, r.key)
    case None => if r.required then [Required(r.key)] else []
    case Some(NonString) => [NotString(r.key)]
    case Some(Str(s)) =>
      if s == "" then [Empty(r.key)]
      else
        (if r.email && !isEmail(s) then [NotEmail(r.key)] else [])
        + (if r.min.Some? && Text.Utf16Length(s) < r.min.value then [TooShort(r.key, r.min.value)] else [])
        + (if r.max.Some? && Text.Utf16Length(s) > r.max.value then [TooLong(r.key, r.max.value)] else [])
  }

  predicate Declared(rules: seq<Rule>, key: string) {
    exists r :: r in rules && r.key == key
  }

  function DeclaredViolations(rules: seq<Rule>, b: Body, isEmail: string -> bool): seq<Violation> {
    if rules == [] then [] else RuleViolations(rules[0], b, isEmail) + DeclaredViolations(rules[1..], b, isEmail)
  }

  /** Keys the schema does not declare are rejected (Joi's default). */
  function UnknownViolations(rules: seq<Rule>, b: Body): seq<Violation> {
    if b == [] then []
    else (if Declared(rules, b[0].key) then [] else [NotAllowed(b[0].key)]) + UnknownViolations(rules, b[1..])
  }

  /** All violations: the declared keys in schema order, then the unknown keys. */
  function Violations(rules: seq<Rule>, b: Body, isEmail: string -> bool): seq<Violation> {
    DeclaredViolations(rules, b, isEmail) + UnknownViolations(rules, b)
  }

  /** What a rule demands of the value found under its key, stated on its own. */
  ghost predicate Satisfies(r: Rule, v: Option<Value>, isEmail: string -> bool) {
    match v
    case None => !r.required
    case Some(NonString) => false
    case Some(Str(s)) =>
      && s != ""
      && (r.email ==> isEmail(s))
      && (r.min.Some? ==> r.min.value <= Text.Utf16Length(s))
      && (r.max.Some? ==> Text.Utf16Length(s) <= r.max.value)
  }

  /** A body conforms when every rule is satisfied and every key is declared. */
  ghost predicate Conforms(rules: seq<Rule>, b: Body, isEmail: string -> bool) {
    && (forall r :: r in rules ==> Satisfies(r, Lookup(b, r.key), isEmail))
    && (forall i :: 0 <= i < |b| ==> Declared(rules, b[i].key))
  }

  lemma RuleViolationsEmptyIff(r: Rule, b: Body, isEmail: string -> bool)
    ensures RuleViolations(r, b, isEmail) == [] <==> Satisfies(r, Lookup(b, r.key), isEmail)
  {
  }

  lemma {:induction false} DeclaredViolationsEmptyIff(rules: seq<Rule>, b: Body, isEmail: string -> bool)
    ensures DeclaredViolations(rules, b, isEmail) == [] <==>
      forall r :: r in rules ==> Satisfies(r, Lookup(b, r.key), isEmail)
  {
    if rules != [] {
      RuleViolationsEmptyIff(rules[0], b, isEmail);
      DeclaredViolationsEmptyIff(rules[1..], b, isEmail);
      assert forall r :: r in rules <==> r == rules[0] || r in rules[1..];
    }
  }

  lemma {:induction false} UnknownViolationsEmptyIff(rules: seq<Rule>, b: Body)
    ensures UnknownViolations(rules, b) == [] <==> forall i :: 0 <= i < |b| ==> Declared(rules, b[i].key)
  {
    if b != [] {
      UnknownViolationsEmptyIff(rules, b[1..]);
      assert forall i :: 1 <= i < |b| ==> b[i] == b[1..][i - 1];
    }
  }

  /** Validation reports no violation exactly when the body conforms to the schema. */
  lemma ViolationsEmptyIff(rules: seq<Rule>, b: Body, isEmail: string -> bool)
    ensures Violations(rules, b, isEmail) == [] <==> Conforms(rules, b, isEmail)
  {
    DeclaredViolationsEmptyIff(rules, b, isEmail);
    UnknownViolationsEmptyIff(rules, b);
  }

  /** `email.toLowerCase().trim()` */
  function NormalizeEmail(email: string): string {
    Text.Trim(Text.ToLower(email))
  }

  predicate IsNormalizedEmail(email: string) {
    NormalizeEmail(email) == email
  }

  /** Normalisation is idempotent: its result is already normalised. */
  lemma NormalizeEmailIdempotent(email: string)
    ensures IsNormalizedEmail(NormalizeEmail(email))
  {
    var n := NormalizeEmail(email);
    Text.ToLowerMaps(email);
    Text.ToLowerFixesLower(n);
    Text.TrimIdempotent(Text.ToLower(email));
  }

  /** One field of the body: a non-empty string under `email` is normalised (`if (value.email)`). */
  function NormalizeEntry(e: Entry): Entry {
    if e.key == "email" && e.value.Str? && e.value.s != "" then Entry(e.key, Str(NormalizeEmail(e.value.s))) else e
  }

  /** The body with its email normalised. */
  function NormalizeEmailField(b: Body): (r: Body)
    ensures |r| == |b|
    ensures forall i :: 0 <= i < |b| ==> r[i].key == b[i].key
    ensures forall i :: 0 <= i < |b| && b[i].key != "email" ==> r[i] == b[i]
  {
    if b == [] then []
    else
      var rest := NormalizeEmailField(b[1..]);
      assert forall i :: 0 < i <= |rest| ==> ([NormalizeEntry(b[0])] + rest)[i] == rest[i - 1] && b[i] == b[1..][i - 1];
      [NormalizeEntry(b[0])] + rest
  }

  /**
   * After normalisation the email the routes pass on is normalised and the
   * other fields are those of the input.
   */
  lemma {:induction false} NormalizedBodyFields(b: Body, key: string)
    ensures key != "email" ==> Lookup(NormalizeEmailField(b), key) == Lookup(b, key)
    ensures key == "email" && Lookup(b, key).Some? && Lookup(b, key).value.Str? && Lookup(b, key).value.s != "" ==>
      Lookup(NormalizeEmailField(b), key) == Some(Str(NormalizeEmail(Lookup(b, key).value.s)))
    ensures key == "email" && Lookup(NormalizeEmailField(b), key).Some? && Lookup(NormalizeEmailField(b), key).value.Str? ==>
      IsNormalizedEmail(Lookup(NormalizeEmailField(b), key).value.s)
  {
    if b != [] {
      NormalizedBodyFields(b[1..], key);
      if b[0].key == "email" && b[0].value.Str? {
        NormalizeEmailIdempotent(b[0].value.s);
      }
    }
  }

  const InvalidSchemaName := AppError("Invalid schema name", 500, "VALIDATION_ERROR")

  /**
   * The properties every object literal inherits from `Object.prototype`.
   * `schemas[name]` finds a truthy function (or, for `__proto__`, the
   * prototype itself) under each of them, so `validate` gets past its
   * `!schema` check and then calls a `validate` that is not there.
   */
  const InheritedNames: set<string> := {
    "constructor", "hasOwnProperty", "isPrototypeOf", "propertyIsEnumerable",
    "toString", "toLocaleString", "valueOf", "__proto__",
    "__defineGetter__", "__defineSetter__", "__lookupGetter__", "__lookupSetter__"
  }

  /** The message of the TypeError `schema.validate(...)` raises on such a schema. */
  const NotAFunction: string := "schema.validate is not a function"

  /** What `validate` throws: an AppError, or the TypeError of an inherited name. */
  datatype Raised = Raised(error: AppError) | TypeError(message: string)

  /** The thrown value as the error handler sees it: a TypeError has no status and no code. */
  function ToThrown(x: Raised, stack: string): Thrown {
    match x
    case Raised(e) => FromAppError(e, stack)
    case TypeError(m) => Thrown(None, None, m, stack)
  }

  /** No inherited property is one of the five schemas. */
  lemma InheritedNameIsNoSchema(name: string)
    requires name in InheritedNames
    ensures Schema(name).None?
  {
  }

  /**
   * A request naming an inherited property as its schema is answered
   * 500 INTERNAL_ERROR with the TypeError's message, not "Invalid schema name".
   */
  lemma InheritedNameIsInternalError(stack: string, timestamp: string)
    ensures Envelope(ToThrown(TypeError(NotAFunction), stack), timestamp)
      == ErrorResponse(DefaultStatus, ErrorBody(DefaultCode, NotAFunction, timestamp))
  {
  }

  function ValidationError(vs: seq<Violation>): AppError {
    AppError(Text.Join(Messages(vs), ", "), 400, "VALIDATION_ERROR")
  }

  /** `validate(data, schemaName)` */
  method Validate(data: Body, schemaName: string, isEmail: string -> bool) returns (r: Result<Body, Raised>)
    ensures Schema(schemaName).None? && schemaName !in InheritedNames ==> r == Failure(Raised(InvalidSchemaName))
    ensures schemaName in InheritedNames ==> r == Failure(TypeError(NotAFunction))
    ensures Schema(schemaName).Some? ==> (r.Success? <==> Conforms(Schema(schemaName).value, data, isEmail))
    ensures Schema(schemaName).Some? && r.Failure? ==>
      r.error == Raised(ValidationError(Violations(Schema(schemaName).value, data, isEmail)))
    ensures r.Success? ==> r.value == NormalizeEmailField(data)
  {
    if schemaName in InheritedNames {
      InheritedNameIsNoSchema(schemaName);
    }
    var schema := Schema(schemaName);
    if schema.None? {
      if schemaName in InheritedNames {
        return Failure(TypeError(NotAFunction));
      }
      return Failure(Raised(InvalidSchemaName));
    }
    var errors := Violations(schema.value, data, isEmail);
    ViolationsEmptyIff(schema.value, data, isEmail);
    if errors != [] {
      return Failure(Raised(ValidationError(errors)));
    }
    var value := data;
    value := NormalizeEmailField(value);
    return Success(value);
  }

  /** Signup names and passwords respect their length bounds once validated. */
  lemma SignupBounds(schemaName: string, b: Body, isEmail: string -> bool)
    requires schemaName == "userSignup" || schemaName == "adminSignup"
    requires Conforms(Schema(schemaName).value, b, isEmail)
    ensures Lookup(b, "name").Some? && Lookup(b, "name").value.Str?
    ensures 2 <= Text.Utf16Length(Lookup(b, "name").value.s) <= 100
    ensures Lookup(b, "password").Some? && Lookup(b, "password").value.Str?
    ensures (if schemaName == "userSignup" then 6 else 8) <= Text.Utf16Length(Lookup(b, "password").value.s) <= 100
    ensures Lookup(b, "email").Some? && Lookup(b, "email").value.Str? && isEmail(Lookup(b, "email").value.s)
  {
    var rules := Schema(schemaName).value;
    assert Satisfies(rules[0], Lookup(b, "name"), isEmail);
    assert Satisfies(rules[1], Lookup(b, "email"), isEmail);
    assert Satisfies(rules[2], Lookup(b, "password"), isEmail);
  }

  /** An update body may carry only `name` and `email`, both optional. */
  lemma UpdateUserKeys(b: Body, isEmail: string -> bool)
    requires Conforms(Schema("updateUser").value, b, isEmail)
    ensures forall i :: 0 <= i < |b| ==> b[i].key == "name" || b[i].key == "email"
    ensures Conforms(Schema("updateUser").value, [], isEmail)
  {
  }
}
