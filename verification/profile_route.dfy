/**
 * The `/api/user/profile` route: `GET` reads the signed-in user's profile, `PATCH` sets
 * the location, `PUT` updates name, image, village, district and state. The session and
 * the user table are inputs; the table after the request is part of the outcome.
 */
module ProfileRoute {
  import opened Common
  import opened Text
  import opened Json

  /** The user table: user id to the row's columns. */
  type Users = map<string, map<string, Json>>

  /** The columns a reply carries (the row's other columns are never sent). */
  const PROFILE_COLUMNS: set<string> :=
    {"id", "name", "email", "image", "location", "village", "district", "state"}

  /** A 400 reply: the message and the machine-readable code. */
  datatype Rejection = Rejection(error: string, code: string)

  datatype Reply =
    | Unauthorized                // 401 UNAUTHORIZED
    | BadRequest(why: Rejection)  // 400
    | NotFound                    // 404 USER_NOT_FOUND
    | ServerError                 // 500: the body could not be read
    | Success(profile: Json)      // 200: the profile columns of the row

  function Status(r: Reply): int {
    match r
    case Unauthorized => 401
    case BadRequest(_) => 400
    case NotFound => 404
    case ServerError => 500
    case Success(_) => 200
  }

  datatype Outcome = Outcome(reply: Reply, users: Users)

  /**
   * `session?.user?.id`: `None` when there is no session (or no user in it); a present
   * but empty id is refused like a missing one.
   */
  predicate Authenticated(session: Option<string>) {
    session.Some? && session.value != ""
  }

  /** The profile columns of a row, as the JSON object the route returns. */
  function ProfileOf(row: map<string, Json>): (r: Json)
    ensures r.JObj? && r.fields.Keys <= PROFILE_COLUMNS
    ensures forall k :: k in PROFILE_COLUMNS && k in row ==> k in r.fields && r.fields[k] == row[k]
  {
    JObj(map k | k in row && k in PROFILE_COLUMNS :: row[k])
  }

  /** `GET`: 401 without a session user, 404 without a row, otherwise the row's profile columns. */
  function Get(session: Option<string>, users: Users): (r: Reply)
    ensures !Authenticated(session) <==> r == Unauthorized
    ensures Authenticated(session) ==>
      r == if session.value in users then Success(ProfileOf(users[session.value])) else NotFound
  {
    if !Authenticated(session) then Unauthorized
    else if session.value !in users then NotFound
    else Success(ProfileOf(users[session.value]))
  }

  const MISSING_LOCATION := Rejection("Location is required", "MISSING_LOCATION")
  const INVALID_LOCATION := Rejection("Location cannot be empty", "INVALID_LOCATION")

  /**
   * `PATCH`: after the session check, the body's `location` must be a non-empty string
   * (`MISSING_LOCATION`) whose trimmed form is not empty (`INVALID_LOCATION`); the trimmed
   * location is the only column written. `body` is `None` when the request body is not JSON.
   */
  function Patch(session: Option<string>, body: Option<Json>, users: Users): (r: Outcome)
    ensures r.reply.Success? ==> Authenticated(session) && session.value in users
    ensures r.reply.Success? ==>
      && body.Some? && body.value != JNull
      && Member(body.value, "location").Value?
      && Member(body.value, "location").v.JStr?
      && var t := Trim(Member(body.value, "location").v.s);
        && t != ""
        && r.users == users[session.value := users[session.value]["location" := JStr(t)]]
        && r.reply.profile == ProfileOf(r.users[session.value])
    ensures Authenticated(session) && (body.None? || body.value == JNull) ==> r.reply == ServerError
    ensures Authenticated(session) && body.Some? && body.value != JNull
            && Member(body.value, "location").Value?
            && Member(body.value, "location").v.JStr?
            && Trim(Member(body.value, "location").v.s) != "" ==>
              && (r.reply.Success? <==> session.value in users)
              && (session.value !in users ==> r.reply == NotFound)
    ensures !r.reply.Success? ==> r.users == users
  {
    if !Authenticated(session) then Outcome(Unauthorized, users)
    else if body.None? || body.value == JNull then Outcome(ServerError, users)
    else
      var location := Member(body.value, "location");
      if !Truthy(location) || !location.v.JStr? then Outcome(BadRequest(MISSING_LOCATION), users)
      else
        var trimmed := Trim(location.v.s);
        if |trimmed| == 0 then Outcome(BadRequest(INVALID_LOCATION), users)
        else if session.value !in users then Outcome(NotFound, users)
        else
          var row := users[session.value]["location" := JStr(trimmed)];
          Outcome(Success(ProfileOf(row)), users[session.value := row])
  }

  /** The session check comes first: without a session user nothing is read or written. */
  lemma PatchUnauthorized(session: Option<string>, body: Option<Json>, users: Users)
    requires !Authenticated(session)
    ensures Patch(session, body, users) == Outcome(Unauthorized, users)
  {
  }

  /**
   * `PATCH` location checks: a missing, non-string or empty location is `MISSING_LOCATION`;
   * a blank one is `INVALID_LOCATION`.
   */
  lemma PatchLocationCodes(session: Option<string>, fields: map<string, Json>, users: Users)
    requires Authenticated(session)
    ensures var r := Patch(session, Some(JObj(fields)), users).reply;
      && ("location" !in fields || !fields["location"].JStr? || fields["location"].s == "" ==>
            r == BadRequest(MISSING_LOCATION))
      && ("location" in fields && fields["location"].JStr? && fields["location"].s != "" ==>
            (r == BadRequest(INVALID_LOCATION) <==> IsBlank(fields["location"].s)))
  {
    if "location" in fields && fields["location"].JStr? && fields["location"].s != "" {
      TrimEmptyIffBlank(fields["location"].s);
    }
  }

  /** The fields `PUT` reads. */
  datatype Field = Name | Image | Village | District | State

  /** The field's member name in the body and column name in the table. */
  function Key(f: Field): string {
    match f
    case Name => "name"
    case Image => "image"
    case Village => "village"
    case District => "district"
    case State => "state"
  }

  /** Distinct fields have distinct member names. */
  lemma KeyInjective(f: Field, g: Field)
    ensures Key(f) == Key(g) <==> f == g
  {
  }

  /** The order `PUT` checks the fields in. */
  const UPDATE_FIELDS: seq<Field> := [Name, Image, Village, District, State]

  const ALL_FIELDS: set<Field> := {Name, Image, Village, District, State}

  /** Whether a present field's value is accepted. */
  predicate Acceptable(f: Field, v: Json) {
    match f
    case Name => v.JStr? && Trim(v.s) != ""
    case Image => v == JNull || v.JStr?
    case _ => v.JStr?
  }

  /** The value a field is written as: strings trimmed, except the image, which is kept as sent. */
  function Normalized(f: Field, v: Json): Json {
    if f != Image && v.JStr? then JStr(Trim(v.s)) else v
  }

  /** The message and code for an unacceptable field value. */
  function Invalid(f: Field, v: Json): Rejection {
    match f
    case Name =>
      if v.JStr? then Rejection("Name cannot be empty", "INVALID_NAME")
      else Rejection("Name must be a string", "INVALID_NAME")
    case Image => Rejection("Image must be a string or null", "INVALID_IMAGE")
    case Village => Rejection("Village must be a string", "INVALID_VILLAGE")
    case District => Rejection("District must be a string", "INVALID_DISTRICT")
    case State => Rejection("State must be a string", "INVALID_STATE")
  }

  /** The rejection a single field earns: `None` when it is absent or acceptable. */
  function Check(body: Json, f: Field): Option<Rejection>
    requires body != JNull
  {
    var v := Member(body, Key(f));
    if v.Value? && !Acceptable(f, v.v) then Some(Invalid(f, v.v)) else None
  }

  /** The rejection of the first field in `fields` that is present and not acceptable. */
  function FirstInvalid(body: Json, fields: seq<Field>): Option<Rejection>
    requires body != JNull
  {
    if fields == [] then None
    else if Check(body, fields[0]).Some? then Check(body, fields[0])
    else FirstInvalid(body, fields[1..])
  }

  /** The check order spelled out: name, image, village, district, state. */
  lemma FirstInvalidInOrder(body: Json)
    requires body != JNull
    ensures FirstInvalid(body, UPDATE_FIELDS) ==
      if Check(body, Name).Some? then Check(body, Name)
      else if Check(body, Image).Some? then Check(body, Image)
      else if Check(body, Village).Some? then Check(body, Village)
      else if Check(body, District).Some? then Check(body, District)
      else Check(body, State)
  {
    var s4 := [State];
    var s3 := [District] + s4;
    var s2 := [Village] + s3;
    var s1 := [Image] + s2;
    assert UPDATE_FIELDS == [Name] + s1;
    assert s4[1..] == [];
    assert FirstInvalid(body, s4) == Check(body, State);
    assert FirstInvalid(body, s3) == if Check(body, District).Some? then Check(body, District) else FirstInvalid(body, s4);
    assert FirstInvalid(body, s2) == if Check(body, Village).Some? then Check(body, Village) else FirstInvalid(body, s3);
    assert FirstInvalid(body, s1) == if Check(body, Image).Some? then Check(body, Image) else FirstInvalid(body, s2);
  }

  /** The update object: every field among `fields` that the body carries, normalized. */
  function Written(body: Json, fields: set<Field>): map<Field, Json>
    requires body != JNull
  {
    map f | f in fields && Member(body, Key(f)).Value? :: Normalized(f, Member(body, Key(f)).v)
  }

  lemma WrittenAdd(body: Json, fields: set<Field>, f: Field)
    requires body != JNull
    ensures Written(body, fields + {f}) ==
      if Member(body, Key(f)).Value? then Written(body, fields)[f := Normalized(f, Member(body, Key(f)).v)]
      else Written(body, fields)
  {
  }

  /**
   * The update as `PUT` sends it when every field passed: a present name is a non-empty
   * trimmed string, a present image is null or the string as sent, a present village,
   * district or state is a trimmed string; absent fields are not in the update.
   */
  lemma WrittenValues(body: Json)
    requires body != JNull && FirstInvalid(body, UPDATE_FIELDS).None?
    ensures forall f :: f in Written(body, ALL_FIELDS) <==> Member(body, Key(f)).Value?
    ensures Name in Written(body, ALL_FIELDS) ==>
      var v := Member(body, "name").v;
      v.JStr? && Trim(v.s) != "" && Written(body, ALL_FIELDS)[Name] == JStr(Trim(v.s))
    ensures Image in Written(body, ALL_FIELDS) ==>
      Written(body, ALL_FIELDS)[Image] == Member(body, "image").v
    ensures forall f :: f in {Village, District, State} && f in Written(body, ALL_FIELDS) ==>
      Member(body, Key(f)).v.JStr? && Written(body, ALL_FIELDS)[f] == JStr(Trim(Member(body, Key(f)).v.s))
  {
    FirstInvalidInOrder(body);
  }

  /**
   * One of village, district and state: absent leaves the update as it is, a string is
   * written trimmed, anything else is that field's rejection.
   */
  method AddTrimmed(body: Json, f: Field, updateData: map<Field, Json>) returns (r: Result<map<Field, Json>, Rejection>)
    requires body != JNull && f in {Village, District, State}
    ensures r.Err? <==> Check(body, f).Some?
    ensures r.Err? ==> r.error == Check(body, f).value
    ensures r.Ok? && Member(body, Key(f)).Value? ==> r.value == updateData[f := Normalized(f, Member(body, Key(f)).v)]
    ensures r.Ok? && Member(body, Key(f)).Undefined? ==> r.value == updateData
  {
    var value := Member(body, Key(f));
    if value == Undefined {
      return Ok(updateData);
    }
    if !value.v.JStr? {
      return Err(Invalid(f, value.v));
    }
    return Ok(updateData[f := JStr(Trim(value.v.s))]);
  }

  /**
   * Building `updateData` field by field: the first unacceptable field, in the order
   * name, image, village, district, state, gives its rejection; otherwise the update holds
   * exactly the fields the body carries, normalized.
   */
  method BuildUpdate(body: Json) returns (r: Result<map<Field, Json>, Rejection>)
    requires body != JNull
    ensures r.Err? <==> FirstInvalid(body, UPDATE_FIELDS).Some?
    ensures r.Err? ==> r.error == FirstInvalid(body, UPDATE_FIELDS).value
    ensures r.Ok? ==> r.value == Written(body, ALL_FIELDS)
  {
    FirstInvalidInOrder(body);
    var updateData: map<Field, Json> := map[];

    var name := Member(body, "name");
    if name != Undefined {
      if !name.v.JStr? {
        return Err(Rejection("Name must be a string", "INVALID_NAME"));
      }
      var trimmedName := Trim(name.v.s);
      if |trimmedName| == 0 {
        return Err(Rejection("Name cannot be empty", "INVALID_NAME"));
      }
      updateData := updateData[Name := JStr(trimmedName)];
    }
    WrittenAdd(body, {}, Name);
    assert {} + {Name} == {Name};
    assert updateData == Written(body, {Name});

    var image := Member(body, "image");
    if image != Undefined {
      if image.v != JNull && !image.v.JStr? {
        return Err(Rejection("Image must be a string or null", "INVALID_IMAGE"));
      }
      updateData := updateData[Image := image.v];
    }
    WrittenAdd(body, {Name}, Image);
    assert {Name} + {Image} == {Name, Image};
    assert updateData == Written(body, {Name, Image});

    r := AddTrimmed(body, Village, updateData);
    if r.Err? {
      return;
    }
    WrittenAdd(body, {Name, Image}, Village);
    assert {Name, Image} + {Village} == {Name, Image, Village};
    assert r.value == Written(body, {Name, Image, Village});

    r := AddTrimmed(body, District, r.value);
    if r.Err? {
      return;
    }
    WrittenAdd(body, {Name, Image, Village}, District);
    assert {Name, Image, Village} + {District} == {Name, Image, Village, District};
    assert r.value == Written(body, {Name, Image, Village, District});

    r := AddTrimmed(body, State, r.value);
    if r.Err? {
      return;
    }
    WrittenAdd(body, {Name, Image, Village, District}, State);
    assert {Name, Image, Village, District} + {State} == ALL_FIELDS;
  }

  /** The columns an update writes. */
  function Columns(update: map<Field, Json>): set<string> {
    set f | f in update :: Key(f)
  }

  /** The row after `.set(updateData)`: the update's columns replaced, every other column kept. */
  function Apply(row: map<string, Json>, update: map<Field, Json>): (r: map<string, Json>)
    ensures r.Keys == row.Keys + Columns(update)
    ensures forall f :: f in update ==> r[Key(f)] == update[f]
    ensures forall k :: k in row && k !in Columns(update) ==> r[k] == row[k]
  {
    row + map f | f in update :: Key(f) := update[f]
  }

  const NO_FIELDS_PROVIDED := Rejection("At least one field must be provided", "NO_FIELDS_PROVIDED")

  /**
   * `PUT`: 401 without a session user; 500 when the body is not a JSON value that can be
   * destructured; the first field rejection; 400 `NO_FIELDS_PROVIDED` for an empty update;
   * 404 without a row; otherwise the row with the update applied, and its profile columns.
   */
  method Put(session: Option<string>, body: Option<Json>, users: Users) returns (r: Outcome)
    ensures !Authenticated(session) ==> r == Outcome(Unauthorized, users)
    ensures Authenticated(session) && (body.None? || body.value == JNull) ==> r == Outcome(ServerError, users)
    ensures Authenticated(session) && body.Some? && body.value != JNull ==>
      var id := session.value;
      var invalid := FirstInvalid(body.value, UPDATE_FIELDS);
      var update := Written(body.value, ALL_FIELDS);
      r == if invalid.Some? then Outcome(BadRequest(invalid.value), users)
           else if update == map[] then Outcome(BadRequest(NO_FIELDS_PROVIDED), users)
           else if id !in users then Outcome(NotFound, users)
           else Outcome(Success(ProfileOf(Apply(users[id], update))), users[id := Apply(users[id], update)])
  {
    if !Authenticated(session) {
      return Outcome(Unauthorized, users);
    }
    if body.None? || body.value == JNull {
      return Outcome(ServerError, users);
    }
    var updateData := BuildUpdate(body.value);
    if updateData.Err? {
      return Outcome(BadRequest(updateData.error), users);
    }
    if |updateData.value| == 0 {
      return Outcome(BadRequest(NO_FIELDS_PROVIDED), users);
    }
    var id := session.value;
    if id !in users {
      return Outcome(NotFound, users);
    }
    var row := Apply(users[id], updateData.value);
    return Outcome(Success(ProfileOf(row)), users[id := row]);
  }
}
