/** The request-body schemas of backend/src/validators/zodSchema.ts, read as
    parsers from a JSON value to a typed record. As zod's `z.object` does,
    each parser accepts only an object, requires every declared key to hold
    a value of the declared shape, and drops undeclared keys. The e-mail
    format test of `z.email()` is a parameter. */
module Validators {
  import opened Wrappers
  import opened JsValues

  datatype CreateUser = CreateUser(email: string, name: string, password: string)
  datatype SignIn = SignIn(email: string, password: string)
  datatype Role = User | Agent
  datatype ChatRecord = ChatRecord(role: Role, message: string)

  const MinNameLength := 1
  const MaxNameLength := 100
  const MinPasswordLength := 8

  /** The string under `key`, when the key is present and holds a string. */
  function StringField(fields: map<string, JsValue>, key: string): (r: Option<string>)
    ensures r.Some? <==> key in fields && fields[key].JString?
    ensures r.Some? ==> fields[key] == JString(r.value)
  {
    if key in fields && fields[key].JString? then Some(fields[key].s) else None
  }

  /** `key` is present and holds the string `s`. */
  predicate Holds(fields: map<string, JsValue>, key: string, s: string) {
    key in fields && fields[key] == JString(s)
  }

  /** `z.string().min(1).max(100)` on the name: the empty name and any name
      over 100 characters fail. */
  predicate NameOk(name: string)
    ensures NameOk(name) ==> name != []
    ensures |name| > MaxNameLength ==> !NameOk(name)
  {
    MinNameLength <= |name| <= MaxNameLength
  }

  /** `z.string().min(8)` on the password: the empty password and any
      password shorter than 8 characters fail. */
  predicate PasswordOk(password: string)
    ensures PasswordOk(password) ==> password != []
    ensures |password| < MinPasswordLength ==> !PasswordOk(password)
  {
    |password| >= MinPasswordLength
  }

  /** `CreateUserSchema.safeParse(input)`: `Some` with the three strings, or
      `None` when any of the rules fails. */
  function ParseCreateUser(input: JsValue, isEmail: string -> bool): (r: Option<CreateUser>)
    ensures r.Some? ==> isEmail(r.value.email)
    ensures r.Some? ==> MinNameLength <= |r.value.name| <= MaxNameLength &&
                        |r.value.password| >= MinPasswordLength
    ensures r.Some? ==> input.JObject? && Holds(input.fields, "email", r.value.email) &&
                        Holds(input.fields, "name", r.value.name) &&
                        Holds(input.fields, "password", r.value.password)
    ensures forall e, n, p :: input.JObject? && Holds(input.fields, "email", e) &&
                              Holds(input.fields, "name", n) && Holds(input.fields, "password", p) &&
                              isEmail(e) && NameOk(n) && PasswordOk(p) ==>
                                r == Some(CreateUser(e, n, p))
  {
    match input
    case JObject(fields) =>
      var email, name, password :=
        StringField(fields, "email"), StringField(fields, "name"), StringField(fields, "password");
      if email.Some? && isEmail(email.value) && name.Some? && NameOk(name.value) &&
         password.Some? && PasswordOk(password.value)
      then Some(CreateUser(email.value, name.value, password.value))
      else None
    case _ => None
  }

  /** `SignInSchema.safeParse(input)`. */
  function ParseSignIn(input: JsValue, isEmail: string -> bool): (r: Option<SignIn>)
    ensures r.Some? ==> isEmail(r.value.email) && |r.value.password| >= MinPasswordLength
    ensures r.Some? ==> input.JObject? && Holds(input.fields, "email", r.value.email) &&
                        Holds(input.fields, "password", r.value.password)
    ensures forall e, p :: input.JObject? && Holds(input.fields, "email", e) &&
                           Holds(input.fields, "password", p) && isEmail(e) && PasswordOk(p) ==>
                             r == Some(SignIn(e, p))
  {
    match input
    case JObject(fields) =>
      var email, password := StringField(fields, "email"), StringField(fields, "password");
      if email.Some? && isEmail(email.value) && password.Some? && PasswordOk(password.value)
      then Some(SignIn(email.value, password.value))
      else None
    case _ => None
  }

  /** `z.enum(["User", "Agent"])`: exact, case-sensitive match. */
  function ParseRole(v: JsValue): (r: Option<Role>)
    ensures r == Some(User) <==> v == JString("User")
    ensures r == Some(Agent) <==> v == JString("Agent")
  {
    match v
    case JString(s) =>
      if s == "User" then Some(User)
      else if s == "Agent" then Some(Agent)
      else None
    case _ => None
  }

  /** `chatSchema.safeParse(input)`. */
  function ParseChat(input: JsValue): (r: Option<ChatRecord>)
    ensures r.Some? ==> input.JObject? && "role" in input.fields &&
                        ParseRole(input.fields["role"]) == Some(r.value.role) &&
                        Holds(input.fields, "message", r.value.message)
    ensures forall role, m :: input.JObject? && "role" in input.fields &&
                              ParseRole(input.fields["role"]) == Some(role) &&
                              Holds(input.fields, "message", m) ==>
                                r == Some(ChatRecord(role, m))
  {
    match input
    case JObject(fields) =>
      var role, message := if "role" in fields then ParseRole(fields["role"]) else None, StringField(fields, "message");
      if role.Some? && message.Some? then Some(ChatRecord(role.value, message.value)) else None
    case _ => None
  }

  /** The object shape the sign-up form sends. */
  function CreateUserBody(email: string, name: string, password: string): JsValue {
    JObject(map["email" := JString(email), "name" := JString(name), "password" := JString(password)])
  }

  /** The object shape the sign-in form sends: no name. */
  function SignInBody(email: string, password: string): JsValue {
    JObject(map["email" := JString(email), "password" := JString(password)])
  }

  /** The name rule, exactly: with a well-formed e-mail and password, sign-up
      is accepted iff the name has 1 to 100 characters; so "" and any name of
      101 characters are refused. */
  lemma CreateUserNameBounds(email: string, name: string, password: string, isEmail: string -> bool)
    requires isEmail(email) && PasswordOk(password)
    ensures ParseCreateUser(CreateUserBody(email, name, password), isEmail).Some? <==>
            MinNameLength <= |name| <= MaxNameLength
    ensures ParseCreateUser(CreateUserBody(email, "", password), isEmail) == None
  {
    var fields := CreateUserBody(email, name, password).fields;
    assert StringField(fields, "email") == Some(email);
    assert StringField(fields, "name") == Some(name);
    assert StringField(fields, "password") == Some(password);
  }

  /** The password rule, exactly: 7 characters are refused and 8 accepted, in
      both schemas; sign-in judges the password whatever the name is, and
      also on the name-less sign-in body. */
  lemma PasswordMinimum(email: string, name: string, password: string, isEmail: string -> bool)
    requires isEmail(email)
    ensures NameOk(name) ==>
      (ParseCreateUser(CreateUserBody(email, name, password), isEmail).Some? <==>
       |password| >= MinPasswordLength)
    ensures ParseSignIn(CreateUserBody(email, name, password), isEmail).Some? <==>
            |password| >= MinPasswordLength
    ensures ParseSignIn(SignInBody(email, password), isEmail).Some? <==>
            |password| >= MinPasswordLength
  {
    var fields := CreateUserBody(email, name, password).fields;
    assert StringField(fields, "email") == Some(email);
    assert StringField(fields, "name") == Some(name);
    assert StringField(fields, "password") == Some(password);
    var short := SignInBody(email, password).fields;
    assert StringField(short, "email") == Some(email);
    assert StringField(short, "password") == Some(password);
  }

  /** Sign-in has no name rule: any object with a valid e-mail and password
      is accepted, whether its name is missing, empty, too long or not a
      string. */
  lemma SignInNeedsNoName(fields: map<string, JsValue>, email: string, password: string, isEmail: string -> bool)
    requires Holds(fields, "email", email) && Holds(fields, "password", password)
    requires isEmail(email) && PasswordOk(password)
    ensures ParseSignIn(JObject(fields), isEmail) == Some(SignIn(email, password))
    ensures ParseSignIn(JObject(fields - {"name"}), isEmail) == Some(SignIn(email, password))
  {
    var rest := fields - {"name"};
    assert Holds(rest, "email", email) && Holds(rest, "password", password);
  }

  /** Sign-in has the same e-mail and password rules as sign-up and no name
      rule: a body sign-up accepts is accepted by sign-in with the same
      credentials, and a body sign-in accepts is accepted by sign-up exactly
      when it also carries a valid name. */
  lemma SignInIsCreateUserWithoutName(input: JsValue, isEmail: string -> bool)
    ensures ParseCreateUser(input, isEmail).Some? ==>
      ParseSignIn(input, isEmail) ==
        Some(SignIn(ParseCreateUser(input, isEmail).value.email, ParseCreateUser(input, isEmail).value.password))
    ensures ParseSignIn(input, isEmail).Some? ==>
      (ParseCreateUser(input, isEmail).Some? <==>
        input.JObject? && StringField(input.fields, "name").Some? && NameOk(StringField(input.fields, "name").value))
  {
  }

  /** Sign-up ignores every key other than email, name and password. */
  lemma CreateUserIgnoresOtherKeys(fields: map<string, JsValue>, key: string, v: JsValue, isEmail: string -> bool)
    requires key != "email" && key != "name" && key != "password"
    ensures ParseCreateUser(JObject(fields[key := v]), isEmail) == ParseCreateUser(JObject(fields), isEmail)
  {
    var f := fields[key := v];
    assert StringField(f, "email") == StringField(fields, "email");
    assert StringField(f, "name") == StringField(fields, "name");
    assert StringField(f, "password") == StringField(fields, "password");
  }

  /** Sign-in ignores every key other than email and password, "name"
      included. */
  lemma SignInIgnoresOtherKeys(fields: map<string, JsValue>, key: string, v: JsValue, isEmail: string -> bool)
    requires key != "email" && key != "password"
    ensures ParseSignIn(JObject(fields[key := v]), isEmail) == ParseSignIn(JObject(fields), isEmail)
  {
    var f := fields[key := v];
    assert StringField(f, "email") == StringField(fields, "email");
    assert StringField(f, "password") == StringField(fields, "password");
  }

  /** The chat schema ignores every key other than role and message. */
  lemma ChatIgnoresOtherKeys(fields: map<string, JsValue>, key: string, v: JsValue)
    requires key != "role" && key != "message"
    ensures ParseChat(JObject(fields[key := v])) == ParseChat(JObject(fields))
  {
    var f := fields[key := v];
    assert StringField(f, "message") == StringField(fields, "message");
  }

  /** The role is matched case-sensitively: "User" and "Agent" pass, "user"
      does not; any string message, "" included, is accepted. */
  lemma ChatRoleAndMessage(message: string)
    ensures ParseChat(JObject(map["role" := JString("User"), "message" := JString(message)])) ==
      Some(ChatRecord(User, message))
    ensures ParseChat(JObject(map["role" := JString("Agent"), "message" := JString(message)])) ==
      Some(ChatRecord(Agent, message))
    ensures ParseChat(JObject(map["role" := JString("user"), "message" := JString(message)])) == None
  {
    var u := map["role" := JString("User"), "message" := JString(message)];
    var a := map["role" := JString("Agent"), "message" := JString(message)];
    var l := map["role" := JString("user"), "message" := JString(message)];
    assert StringField(u, "message") == Some(message);
    assert StringField(a, "message") == Some(message);
    assert ParseRole(JString("user")) == None;
  }
}
