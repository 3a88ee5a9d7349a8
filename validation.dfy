/**
 * The sign-up form validator: a Joi object schema over the five form
 * fields, applied with every error collected (not just the first) and
 * unknown keys stripped, and the middleware that answers 400 with the
 * collected errors or replaces the request body with the sanitised value.
 */
module Validation {
  import opened Wrappers
  import opened JsText
  import opened Records

  /** A JSON request body whose values are strings. */
  type Body = map<string, string>

  /** The keys of the schema. */
  datatype Key = Name | Mobile | Email | City | Experience

  /** The key as it appears in the body and in `detail.path[0]`. */
  function KeyName(k: Key): string {
    match k
    case Name => "name"
    case Mobile => "mobile"
    case Email => "email"
    case City => "city"
    case Experience => "experience"
  }

  /** One `{field: detail.path[0], message: detail.message}` entry. */
  datatype FieldError = FieldError(field: Key, message: string)

  /** What `validateUser` does: answer 400, or replace `req.body` with the value and call `next`. */
  datatype ValidationReply =
    | Rejected(status: int, success: bool, message: string, errors: seq<FieldError>)
    | Accepted(body: UserForm)

  /** The schema's keys, in the order Joi reports their errors. */
  const SchemaKeys: seq<Key> := [Name, Mobile, Email, City, Experience]

  const ExperienceLevels: set<string> := {"None", "Beginner", "Intermediate", "Advanced"}

  /** The body's value under a key, `None` when the key is absent. */
  function Value(body: Body, k: Key): Option<string> {
    if KeyName(k) in body then Some(body[KeyName(k)]) else None
  }

  /** Joi's message for an absent required key. */
  function RequiredMessage(k: Key): string {
    "\"" + KeyName(k) + "\" is required"
  }

  /** `/^[6-9]\d{9}$/`: ten characters, a first digit from 6 to 9, then nine decimal digits. */
  predicate MatchesMobilePattern(s: string) {
    |s| == 10 && '6' <= s[0] <= '9' && AllDigits(s[1..])
  }

  /** The pattern accepts exactly the ten-digit numerals worth 6000000000 or more. */
  lemma MobilePatternIsRange(s: string)
    ensures MatchesMobilePattern(s) <==> |s| == 10 && AllDigits(s) && 6000000000 <= DigitsValue(s)
  {
    if |s| == 10 && '6' <= s[0] <= '9' && AllDigits(s[1..]) {
      assert forall i :: 1 <= i < |s| ==> s[i] == s[1..][i - 1];
    }
    if |s| == 10 && AllDigits(s) {
      DigitsValueLeading(s);
      DigitsValueBelow(s[1..]);
      assert Pow10(9) == 1000000000;
    }
  }

  /** The rule each key imposes on a present value; `isEmail` stands for Joi's `.email()`. */
  predicate Satisfies(k: Key, s: string, isEmail: string -> bool) {
    match k
    case Name => 2 <= Utf16Length(Trim(s)) <= 100
    case Mobile => MatchesMobilePattern(s)
    case Email => s != "" && isEmail(s)
    case City => 2 <= Utf16Length(Trim(s)) <= 50
    case Experience => s in ExperienceLevels
  }

  /**
   * `Joi.string().trim().min(lo).max(hi).required()`: the value is trimmed
   * first; an empty result, a short one and a long one each have their own
   * message, and lengths count UTF-16 code units.
   */
  function TrimmedLengthMessages(
    k: Key, v: Option<string>, lo: nat, hi: nat, emptyMsg: string, minMsg: string, maxMsg: string)
    : (msgs: seq<string>)
    requires 1 <= lo <= hi
    ensures msgs == [] <==> v.Some? && lo <= Utf16Length(Trim(v.value)) <= hi
    ensures v.None? ==> msgs == [RequiredMessage(k)]
    ensures v.Some? && Trim(v.value) == "" ==> msgs == [emptyMsg]
    ensures v.Some? && 0 < Utf16Length(Trim(v.value)) < lo ==> msgs == [minMsg]
    ensures v.Some? && hi < Utf16Length(Trim(v.value)) ==> msgs == [maxMsg]
  {
    match v
    case None => [RequiredMessage(k)]
    case Some(s) =>
      var t := Trim(s);
      if t == "" then [emptyMsg]
      else if Utf16Length(t) < lo then [minMsg]
      else if Utf16Length(t) > hi then [maxMsg]
      else []
  }

  /** `Joi.string().pattern(/^[6-9]\d{9}$/).required()` with its messages. */
  function MobileMessages(v: Option<string>): (msgs: seq<string>)
    ensures msgs == [] <==> v.Some? && MatchesMobilePattern(v.value)
    ensures v.None? ==> msgs == [RequiredMessage(Mobile)]
    ensures v == Some("") ==> msgs == ["Mobile number is required"]
    ensures v.Some? && v.value != "" && !MatchesMobilePattern(v.value) ==>
      msgs == ["Please enter a valid Indian mobile number"]
  {
    if v.None? then [RequiredMessage(Mobile)]
    else if v.value == "" then ["Mobile number is required"]
    else if !MatchesMobilePattern(v.value) then ["Please enter a valid Indian mobile number"]
    else []
  }

  /** `Joi.string().email().required()` with its messages. */
  function EmailMessages(v: Option<string>, isEmail: string -> bool): (msgs: seq<string>)
    ensures msgs == [] <==> v.Some? && v.value != "" && isEmail(v.value)
    ensures v.None? ==> msgs == [RequiredMessage(Email)]
    ensures v == Some("") ==> msgs == ["Email is required"]
    ensures v.Some? && v.value != "" && !isEmail(v.value) ==> msgs == ["Please enter a valid email address"]
  {
    if v.None? then [RequiredMessage(Email)]
    else if v.value == "" then ["Email is required"]
    else if !isEmail(v.value) then ["Please enter a valid email address"]
    else []
  }

  const InvalidExperience: string := "Please select a valid experience level"

  /**
   * `Joi.string().valid(...).required()` with its messages. The allowed
   * values are checked before the string type, and with every error
   * collected the check goes on, so an empty value gets both messages.
   */
  function ExperienceMessages(v: Option<string>): (msgs: seq<string>)
    ensures msgs == [] <==> v.Some? && v.value in ExperienceLevels
    ensures v.None? ==> msgs == [RequiredMessage(Experience)]
    ensures v == Some("") ==> msgs == [InvalidExperience, "Experience is required"]
    ensures v.Some? && v.value != "" && v.value !in ExperienceLevels ==> msgs == [InvalidExperience]
  {
    if v.None? then [RequiredMessage(Experience)]
    else if v.value in ExperienceLevels then []
    else if v.value == "" then [InvalidExperience, "Experience is required"]
    else [InvalidExperience]
  }

  /** The messages Joi reports for one key of the body, in order; none when its value passes. */
  function Check(k: Key, v: Option<string>, isEmail: string -> bool): (msgs: seq<string>)
    ensures msgs == [] <==> v.Some? && Satisfies(k, v.value, isEmail)
    ensures v.None? ==> msgs == [RequiredMessage(k)]
    // Only an empty experience is reported twice.
    ensures |msgs| <= 2 && (|msgs| == 2 <==> k == Experience && v == Some(""))
  {
    match k
    case Name =>
      TrimmedLengthMessages(Name, v, 2, 100, "Name is required",
        "Name must be at least 2 characters", "Name cannot exceed 100 characters")
    case City =>
      TrimmedLengthMessages(City, v, 2, 50, "City is required",
        "City must be at least 2 characters", "City cannot exceed 50 characters")
    case Mobile => MobileMessages(v)
    case Email => EmailMessages(v, isEmail)
    case Experience => ExperienceMessages(v)
  }

  /** One error entry per message, all for field `k`. */
  function Entries(k: Key, msgs: seq<string>): (errs: seq<FieldError>)
    ensures |errs| == |msgs|
    ensures forall i :: 0 <= i < |errs| ==> errs[i] == FieldError(k, msgs[i])
  {
    if msgs == [] then [] else [FieldError(k, msgs[0])] + Entries(k, msgs[1..])
  }

  /** Every key's messages, key after key in schema order: validation does not stop at the first failure. */
  function CollectErrors(keys: seq<Key>, body: Body, isEmail: string -> bool): (errs: seq<FieldError>)
    ensures |errs| <= 2 * |keys|
    ensures forall e :: e in errs ==> e.field in keys && e.message in Check(e.field, Value(body, e.field), isEmail)
  {
    if keys == [] then []
    else
      var msgs := Check(keys[0], Value(body, keys[0]), isEmail);
      var here := Entries(keys[0], msgs);
      var rest := CollectErrors(keys[1..], body, isEmail);
      assert forall e :: e in here ==> e.field == keys[0] && e.message in msgs;
      assert forall e :: e in rest ==> e.field in keys[1..];
      here + rest
  }

  predicate DistinctKeys(keys: seq<Key>) {
    forall i, j :: 0 <= i < j < |keys| ==> keys[i] != keys[j]
  }

  /** The messages reported for field `k`, in the order they appear. */
  function MessagesFor(errs: seq<FieldError>, k: Key): seq<string> {
    if errs == [] then []
    else (if errs[0].field == k then [errs[0].message] else []) + MessagesFor(errs[1..], k)
  }

  lemma {:induction false} MessagesForAppend(a: seq<FieldError>, b: seq<FieldError>, k: Key)
    ensures MessagesFor(a + b, k) == MessagesFor(a, k) + MessagesFor(b, k)
  {
    if a != [] {
      assert (a + b)[1..] == a[1..] + b;
      MessagesForAppend(a[1..], b, k);
    } else {
      assert a + b == b;
    }
  }

  lemma {:induction false} MessagesForEntries(j: Key, msgs: seq<string>, k: Key)
    ensures MessagesFor(Entries(j, msgs), k) == if j == k then msgs else []
  {
    if msgs != [] {
      var errs := Entries(j, msgs);
      assert errs[1..] == Entries(j, msgs[1..]);
      MessagesForEntries(j, msgs[1..], k);
      if j == k {
        assert msgs == [msgs[0]] + msgs[1..];
      }
    }
  }

  /**
   * Given distinct keys, each listed field is reported with exactly its own
   * messages, in order, and any other field not at all.
   */
  lemma {:induction false} CollectErrorsPerField(keys: seq<Key>, body: Body, isEmail: string -> bool, k: Key)
    requires DistinctKeys(keys)
    ensures MessagesFor(CollectErrors(keys, body, isEmail), k) == if k in keys then Check(k, Value(body, k), isEmail) else []
  {
    if keys != [] {
      var tail := keys[1..];
      DistinctTail(keys);
      var msgs := Check(keys[0], Value(body, keys[0]), isEmail);
      var rest := CollectErrors(tail, body, isEmail);
      assert CollectErrors(keys, body, isEmail) == Entries(keys[0], msgs) + rest;
      CollectErrorsPerField(tail, body, isEmail, k);
      MessagesForAppend(Entries(keys[0], msgs), rest, k);
      MessagesForEntries(keys[0], msgs, k);
    }
  }

  /** The keys after the first are distinct, do not hold the first, and hold every other key listed. */
  lemma DistinctTail(keys: seq<Key>)
    requires keys != [] && DistinctKeys(keys)
    ensures DistinctKeys(keys[1..]) && keys[0] !in keys[1..]
    ensures forall k :: k in keys <==> k == keys[0] || k in keys[1..]
  {
    var tail := keys[1..];
    forall i, j | 0 <= i < j < |tail| ensures tail[i] != tail[j] {
      assert tail[i] == keys[i + 1] && tail[j] == keys[j + 1];
    }
    forall i | 0 <= i < |tail| ensures tail[i] != keys[0] {
      assert tail[i] == keys[i + 1];
    }
    assert keys == [keys[0]] + tail;
  }

  /** Keys that all pass report nothing. */
  lemma {:induction false} NoErrorsWhenAllPass(keys: seq<Key>, body: Body, isEmail: string -> bool)
    requires forall k :: k in keys ==> Check(k, Value(body, k), isEmail) == []
    ensures CollectErrors(keys, body, isEmail) == []
  {
    if keys != [] {
      assert keys[0] in keys;
      NoErrorsWhenAllPass(keys[1..], body, isEmail);
      assert Entries(keys[0], []) == [];
    }
  }

  /** A key passes when the body holds a value under it that satisfies the key's rule. */
  predicate KeyPasses(body: Body, k: Key, isEmail: string -> bool) {
    KeyName(k) in body && Satisfies(k, body[KeyName(k)], isEmail)
  }

  /** The body passes the schema: every key passes. */
  predicate Passes(body: Body, isEmail: string -> bool) {
    forall k: Key :: KeyPasses(body, k, isEmail)
  }

  /** The schema's rules on the whole body, spelled out. */
  predicate FollowsRules(body: Body, isEmail: string -> bool) {
    && "name" in body && 2 <= Utf16Length(Trim(body["name"])) <= 100
    && "mobile" in body && MatchesMobilePattern(body["mobile"])
    && "email" in body && body["email"] != "" && isEmail(body["email"])
    && "city" in body && 2 <= Utf16Length(Trim(body["city"])) <= 50
    && "experience" in body && body["experience"] in ExperienceLevels
  }

  lemma PassesIffFollowsRules(body: Body, isEmail: string -> bool)
    ensures Passes(body, isEmail) <==> FollowsRules(body, isEmail)
  {
    if Passes(body, isEmail) {
      assert KeyPasses(body, Name, isEmail) && KeyPasses(body, Mobile, isEmail) && KeyPasses(body, Email, isEmail);
      assert KeyPasses(body, City, isEmail) && KeyPasses(body, Experience, isEmail);
    }
    if FollowsRules(body, isEmail) {
      forall k: Key ensures KeyPasses(body, k, isEmail) {
        match k
        case Name =>
        case Mobile =>
        case Email =>
        case City =>
        case Experience =>
      }
    }
  }

  /** The body passes exactly when no key's check reports a message. */
  lemma PassesIffAllKeysPass(body: Body, isEmail: string -> bool)
    ensures Passes(body, isEmail) <==> forall k: Key :: Check(k, Value(body, k), isEmail) == []
  {
    forall k: Key ensures Check(k, Value(body, k), isEmail) == [] <==> KeyPasses(body, k, isEmail) {
    }
  }

  /** No key of the schema has an error exactly when the body passes the schema. */
  lemma NoErrorsIffPasses(body: Body, isEmail: string -> bool)
    ensures CollectErrors(SchemaKeys, body, isEmail) == [] <==> Passes(body, isEmail)
  {
    PassesIffAllKeysPass(body, isEmail);
    SchemaKeysDistinct();
    if forall k: Key :: Check(k, Value(body, k), isEmail) == [] {
      NoErrorsWhenAllPass(SchemaKeys, body, isEmail);
    } else {
      var k: Key :| Check(k, Value(body, k), isEmail) != [];
      CollectErrorsPerField(SchemaKeys, body, isEmail, k);
    }
  }

  /** The sanitised value: the five schema keys only, with name and city trimmed. */
  function Sanitised(body: Body): (f: UserForm)
    requires "name" in body && "mobile" in body && "email" in body && "city" in body && "experience" in body
    // Name and city lose their edge white space and nothing else; the other fields are kept as sent.
    ensures NoEdgeSpace(f.name) && NoEdgeSpace(f.city)
    ensures Trim(body["name"]) == f.name && Trim(body["city"]) == f.city
    ensures f.mobile == body["mobile"] && f.email == body["email"] && f.experience == body["experience"]
  {
    UserForm(Trim(body["name"]), body["mobile"], body["email"], Trim(body["city"]), body["experience"])
  }

  /** A body that passes the schema sanitises to a form that keeps its rules, with no white space left at the ends of name and city. */
  lemma SanitisedKeepsRules(body: Body, isEmail: string -> bool)
    requires Passes(body, isEmail)
    ensures FollowsRules(body, isEmail)
    ensures var f := Sanitised(body);
      && 2 <= Utf16Length(f.name) <= 100 && NoEdgeSpace(f.name)
      && 2 <= Utf16Length(f.city) <= 50 && NoEdgeSpace(f.city)
      && MatchesMobilePattern(f.mobile) && f.email != "" && isEmail(f.email)
      && f.experience in ExperienceLevels
  {
    PassesIffFollowsRules(body, isEmail);
  }

  /** `validateUser`. */
  function ValidateUser(body: Body, isEmail: string -> bool): (r: ValidationReply)
    ensures r.Accepted? <==> Passes(body, isEmail)
    ensures r.Rejected? ==> r.status == 400 && !r.success && r.message == "Validation failed" && r.errors != []
    // Each field is reported with exactly its own messages, in order, and a passing field not at all.
    ensures r.Rejected? ==> forall k: Key :: MessagesFor(r.errors, k) == Check(k, Value(body, k), isEmail)
    ensures r.Accepted? ==> FollowsRules(body, isEmail) && r.body == Sanitised(body)
  {
    var errors := CollectErrors(SchemaKeys, body, isEmail);
    NoErrorsIffPasses(body, isEmail);
    PassesIffFollowsRules(body, isEmail);
    SchemaKeysDistinct();
    forall k: Key ensures MessagesFor(errors, k) == Check(k, Value(body, k), isEmail) {
      CollectErrorsPerField(SchemaKeys, body, isEmail, k);
    }
    if errors != [] then Rejected(400, false, "Validation failed", errors)
    else Accepted(Sanitised(body))
  }

  lemma SchemaKeysDistinct()
    ensures DistinctKeys(SchemaKeys)
    ensures forall k: Key :: k in SchemaKeys
  {
    forall k: Key ensures k in SchemaKeys {
      match k
      case Name => assert SchemaKeys[0] == Name;
      case Mobile => assert SchemaKeys[1] == Mobile;
      case Email => assert SchemaKeys[2] == Email;
      case City => assert SchemaKeys[3] == City;
      case Experience => assert SchemaKeys[4] == Experience;
    }
  }

  /** The form's value for a key. */
  function FieldOf(f: UserForm, k: Key): string {
    match k
    case Name => f.name
    case Mobile => f.mobile
    case Email => f.email
    case City => f.city
    case Experience => f.experience
  }

  lemma AcceptedWhenFollowsRules(body: Body, isEmail: string -> bool)
    requires FollowsRules(body, isEmail)
    ensures ValidateUser(body, isEmail) == Accepted(Sanitised(body))
  {
    PassesIffFollowsRules(body, isEmail);
  }

  /** A body holding a form that keeps the rules is accepted as that same form. */
  lemma HeldFormAccepted(f: UserForm, next: Body, isEmail: string -> bool)
    requires 2 <= Utf16Length(f.name) <= 100 && NoEdgeSpace(f.name)
    requires 2 <= Utf16Length(f.city) <= 50 && NoEdgeSpace(f.city)
    requires MatchesMobilePattern(f.mobile) && f.email != "" && isEmail(f.email)
    requires f.experience in ExperienceLevels
    requires forall k: Key :: KeyName(k) in next && next[KeyName(k)] == FieldOf(f, k)
    ensures ValidateUser(next, isEmail) == Accepted(f)
  {
    assert KeyName(Name) in next && KeyName(Mobile) in next && KeyName(Email) in next;
    assert KeyName(City) in next && KeyName(Experience) in next;
    TrimOfTrimmed(f.name);
    TrimOfTrimmed(f.city);
    assert FollowsRules(next, isEmail);
    AcceptedWhenFollowsRules(next, isEmail);
  }

  /**
   * `req.body = value` installs a body that passes the validator again,
   * unchanged, whatever else it holds: sanitising is idempotent.
   */
  lemma SanitisedBodyRevalidates(body: Body, next: Body, isEmail: string -> bool)
    requires ValidateUser(body, isEmail).Accepted?
    requires forall k: Key :: KeyName(k) in next && next[KeyName(k)] == FieldOf(ValidateUser(body, isEmail).body, k)
    ensures ValidateUser(next, isEmail) == ValidateUser(body, isEmail)
  {
    SanitisedKeepsRules(body, isEmail);
    HeldFormAccepted(ValidateUser(body, isEmail).body, next, isEmail);
  }
}
