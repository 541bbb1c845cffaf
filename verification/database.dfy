/** src/Utils/database.py: the later store iteration. A users table with
    icon and user type, teacher_student keyed by student (one connection per
    student) and the voice-join table; `DBUser` and `TeacherStudentConnection`
    are record objects whose fields `load`/`edit` set and whose
    `save`/`remove` change the tables. Each statement commits on its own; a
    statement that breaks a constraint raises `IntegrityError` and changes
    nothing. */
module Database {
  import opened Wrappers
  import opened Seqs

  datatype UserRow = UserRow(realName: Option<string>, icon: Option<string>, userType: Option<string>, hours: real)

  /** A teacher_student row, keyed by `student_id`. */
  datatype ConnRow = ConnRow(teacherId: int, channelId: int)

  /** `CHECK(user_type IN ('admin', 'teacher', 'student'))`; NULL passes. */
  predicate ValidUserType(t: Option<string>) {
    t.None? || t.value == "admin" || t.value == "teacher" || t.value == "student"
  }

  predicate UserTypesValid(users: map<int, UserRow>) {
    forall id :: id in users ==> ValidUserType(users[id].userType)
  }

  /** `channel_id INTEGER NOT NULL UNIQUE` */
  predicate ChannelsUnique(conns: map<int, ConnRow>) {
    forall a, b :: a in conns && b in conns && a != b ==> conns[a].channelId != conns[b].channelId
  }

  const CheckFailed: string := "CHECK constraint failed: user_type IN ('admin', 'teacher', 'student')"

  class Store {
    var users: map<int, UserRow>
    /** teacher_student: student_id to (teacher_id, channel_id). */
    var connections: map<int, ConnRow>
    /** user_voice_channel_join: (user_id, join_time) to voice_channel_id. */
    var voiceJoins: map<(int, int), int>

    predicate Valid()
      reads this
    {
      UserTypesValid(users) && ChannelsUnique(connections)
    }

    /** `DatabaseManager._create_tables()` on an empty database. */
    constructor ()
      ensures users == map[] && connections == map[] && voiceJoins == map[]
      ensures Valid()
    {
      users, connections, voiceJoins := map[], map[], map[];
    }

    /** `DatabaseManager.remove_user(user_id)` */
    method RemoveUser(id: int)
      requires Valid()
      modifies this
      ensures Valid()
      ensures users == old(users) - {id}
      ensures connections == old(connections) && voiceJoins == old(voiceJoins)
    {
      users := users - {id};
    }

    /** `add_user_voice_channel_join`: the join time is SQLite's
        `CURRENT_TIMESTAMP`, passed in as whole seconds; a second join of the
        same user in the same second breaks the primary key. */
    method AddVoiceJoin(user: int, channel: int, now: int) returns (o: Outcome)
      modifies this
      ensures (user, now) in old(voiceJoins) ==>
                o == Failed(IntegrityError("UNIQUE constraint failed: user_voice_channel_join.user_id, user_voice_channel_join.join_time"))
                && voiceJoins == old(voiceJoins)
      ensures (user, now) !in old(voiceJoins) ==> o == Done && voiceJoins == old(voiceJoins)[(user, now) := channel]
      ensures users == old(users) && connections == old(connections)
    {
      if (user, now) in voiceJoins {
        o := Failed(IntegrityError("UNIQUE constraint failed: user_voice_channel_join.user_id, user_voice_channel_join.join_time"));
      } else {
        voiceJoins := voiceJoins[(user, now) := channel];
        o := Done;
      }
    }

    /** `remove_user_voice_channel_join`: every join row of the user. */
    method RemoveVoiceJoins(user: int)
      modifies this
      ensures voiceJoins == JoinsWithout(old(voiceJoins), user)
      ensures users == old(users) && connections == old(connections)
    {
      voiceJoins := JoinsWithout(voiceJoins, user);
    }

    /** `transfer_hours_in_class_from_user_voice_channel_join`: when the user
        has a join row, their hours grow (the time arithmetic is left out:
        the hours gained are a parameter) and their join rows are deleted;
        otherwise nothing changes. */
    method TransferHours(user: int, gained: real)
      requires Valid()
      modifies this
      ensures Valid()
      ensures HasJoin(old(voiceJoins), user) ==>
                voiceJoins == JoinsWithout(old(voiceJoins), user)
                && users == (if user in old(users) then old(users)[user := old(users)[user].(hours := old(users)[user].hours + gained)]
                             else old(users))
      ensures !HasJoin(old(voiceJoins), user) ==> voiceJoins == old(voiceJoins) && users == old(users)
      ensures connections == old(connections)
    {
      if HasJoin(voiceJoins, user) {
        if user in users {
          users := users[user := users[user].(hours := users[user].hours + gained)];
        }
        voiceJoins := JoinsWithout(voiceJoins, user);
      }
    }
  }

  predicate HasJoin(joins: map<(int, int), int>, user: int) {
    exists k :: k in joins && k.0 == user
  }

  function JoinsWithout(joins: map<(int, int), int>, user: int): (r: map<(int, int), int>)
    ensures forall k :: k in r <==> k in joins && k.0 != user
    ensures forall k :: k in r ==> r[k] == joins[k]
    ensures !HasJoin(r, user)
  {
    map k | k in joins && k.0 != user :: joins[k]
  }

  /** `DBUser.load`: the stored row, or nothing and zero hours. */
  function LoadUser(users: map<int, UserRow>, id: int): (r: UserRow)
    ensures id !in users ==> r.realName.None? && r.icon.None? && r.userType.None? && r.hours == 0.0
    ensures id in users ==> r == users[id]
  {
    if id in users then users[id] else UserRow(None, None, None, 0.0)
  }

  /** The users upsert, which overwrites all four columns; the CHECK on
      `user_type` rejects any other type. */
  function SaveUser(users: map<int, UserRow>, id: int, row: UserRow): (r: Result<map<int, UserRow>>)
    ensures r.Ok? <==> ValidUserType(row.userType)
    ensures r.Ok? ==> r.value == users[id := row]
    ensures r.Err? ==> r.error == IntegrityError(CheckFailed)
    ensures r.Ok? && UserTypesValid(users) ==> UserTypesValid(r.value)
  {
    if ValidUserType(row.userType) then Ok(users[id := row]) else Err(IntegrityError(CheckFailed))
  }

  /** The teacher_student upsert on `student_id`, which on conflict replaces
      both the teacher and the channel. NOT NULL is checked column by column,
      then the channel's UNIQUE constraint. */
  function SaveConnection(conns: map<int, ConnRow>, student: int, teacher: Option<int>, channel: Option<int>)
    : (r: Result<map<int, ConnRow>>)
    ensures r.Ok? <==> teacher.Some? && channel.Some?
                       && forall k :: k in conns && k != student ==> conns[k].channelId != channel.value
    ensures r.Ok? ==> r.value == conns[student := ConnRow(teacher.value, channel.value)]
    ensures teacher.None? ==> r == Err(IntegrityError("NOT NULL constraint failed: teacher_student.teacher_id"))
    ensures teacher.Some? && channel.None? ==> r == Err(IntegrityError("NOT NULL constraint failed: teacher_student.channel_id"))
    ensures r.Ok? && ChannelsUnique(conns) ==> ChannelsUnique(r.value)
  {
    if teacher.None? then Err(IntegrityError("NOT NULL constraint failed: teacher_student.teacher_id"))
    else if channel.None? then Err(IntegrityError("NOT NULL constraint failed: teacher_student.channel_id"))
    else if exists k :: k in conns && k != student && conns[k].channelId == channel.value
    then Err(IntegrityError("UNIQUE constraint failed: teacher_student.channel_id"))
    else Ok(conns[student := ConnRow(teacher.value, channel.value)])
  }

  /** One keyword argument of `DBUser.edit(**kwargs)`. */
  datatype UserField =
    | RealName(realName: Option<string>)
    | Icon(icon: Option<string>)
    | UserType(userType: Option<string>)
    | HoursInClass(hours: real)

  function SetUserField(u: UserRow, f: UserField): UserRow {
    match f
    case RealName(v) => u.(realName := v)
    case Icon(v) => u.(icon := v)
    case UserType(v) => u.(userType := v)
    case HoursInClass(v) => u.(hours := v)
  }

  /** One keyword argument of `TeacherStudentConnection.edit(**kwargs)`. */
  datatype ConnField = TeacherId(teacherId: Option<int>) | ChannelId(channelId: Option<int>)

  datatype ConnState = ConnState(teacherId: Option<int>, channelId: Option<int>)

  function SetConnField(c: ConnState, f: ConnField): ConnState {
    match f
    case TeacherId(v) => c.(teacherId := v)
    case ChannelId(v) => c.(channelId := v)
  }

  /** `TeacherStudentConnection.load`: the student's row, or no teacher and
      no channel. */
  function LoadConnection(conns: map<int, ConnRow>, student: int): (r: ConnState)
    ensures student in conns ==> r == ConnState(Some(conns[student].teacherId), Some(conns[student].channelId))
    ensures student !in conns ==> r.teacherId.None? && r.channelId.None?
  {
    if student in conns then ConnState(Some(conns[student].teacherId), Some(conns[student].channelId))
    else ConnState(None, None)
  }

  /** Saving a connection and loading it again gives back what was saved,
      and leaves every other student's connection as it was. */
  lemma SaveThenLoadConnection(conns: map<int, ConnRow>, student: int, teacher: int, channel: int, other: int)
    requires SaveConnection(conns, student, Some(teacher), Some(channel)).Ok?
    requires other != student
    ensures var after := SaveConnection(conns, student, Some(teacher), Some(channel)).value;
            LoadConnection(after, student) == ConnState(Some(teacher), Some(channel))
            && LoadConnection(after, other) == LoadConnection(conns, other)
  {
  }

  class DBUser {
    const id: int
    var realName: Option<string>
    var icon: Option<string>
    var userType: Option<string>
    var hours: real

    function State(): UserRow
      reads this
    {
      UserRow(realName, icon, userType, hours)
    }

    constructor (store: Store, id: int)
      ensures this.id == id && State() == LoadUser(store.users, id)
    {
      this.id := id;
      var row := LoadUser(store.users, id);
      realName, icon, userType, hours := row.realName, row.icon, row.userType, row.hours;
    }

    method Load(store: Store)
      modifies this
      ensures State() == LoadUser(store.users, id)
    {
      var row := LoadUser(store.users, id);
      realName, icon, userType, hours := row.realName, row.icon, row.userType, row.hours;
    }

    method Save(store: Store) returns (o: Outcome)
      requires store.Valid()
      modifies store
      ensures store.Valid()
      ensures var r := SaveUser(old(store.users), id, State());
              (o.Done? <==> r.Ok?) && (r.Ok? ==> store.users == r.value)
              && (r.Err? ==> o == Failed(r.error) && store.users == old(store.users))
      ensures store.connections == old(store.connections) && store.voiceJoins == old(store.voiceJoins)
    {
      var r := SaveUser(store.users, id, State());
      if r.Ok? {
        store.users := r.value;
        o := Done;
      } else {
        o := Failed(r.error);
      }
    }

    method SetAttr(f: UserField)
      modifies this
      ensures State() == SetUserField(old(State()), f)
    {
      match f
      case RealName(v) => realName := v;
      case Icon(v) => icon := v;
      case UserType(v) => userType := v;
      case HoursInClass(v) => hours := v;
    }

    method Edit(store: Store, fields: seq<UserField>) returns (o: Outcome)
      requires store.Valid()
      modifies this, store
      ensures store.Valid()
      ensures State() == FoldLeft(old(State()), fields, SetUserField)
      ensures var r := SaveUser(old(store.users), id, State());
              (o.Done? <==> r.Ok?) && (r.Ok? ==> store.users == r.value)
              && (r.Err? ==> store.users == old(store.users))
      ensures store.connections == old(store.connections) && store.voiceJoins == old(store.voiceJoins)
    {
      for i := 0 to |fields|
        invariant State() == FoldLeft(old(State()), fields[..i], SetUserField)
        invariant store.users == old(store.users) && store.connections == old(store.connections)
        invariant store.voiceJoins == old(store.voiceJoins)
      {
        FoldLeftSnoc(old(State()), fields[..i], fields[i], SetUserField);
        assert fields[..i + 1] == fields[..i] + [fields[i]];
        SetAttr(fields[i]);
      }
      assert fields[..|fields|] == fields;
      o := Save(store);
    }

    /** The `teacher_id` property: the connected teacher of a student, and
        `None` for anyone whose type is not 'student'. */
    function TeacherId(store: Store): (r: Option<int>)
      reads this, store
      ensures userType != Some("student") ==> r.None?
      ensures userType == Some("student") ==>
                (r.Some? <==> id in store.connections)
                && (r.Some? ==> r.value == store.connections[id].teacherId)
    {
      if userType == Some("student") then LoadConnection(store.connections, id).teacherId else None
    }
  }

  class TeacherStudentConnection {
    const studentId: int
    var teacherId: Option<int>
    var channelId: Option<int>

    function State(): ConnState
      reads this
    {
      ConnState(teacherId, channelId)
    }

    constructor (store: Store, studentId: int)
      ensures this.studentId == studentId && State() == LoadConnection(store.connections, studentId)
    {
      this.studentId := studentId;
      var c := LoadConnection(store.connections, studentId);
      teacherId, channelId := c.teacherId, c.channelId;
    }

    method Load(store: Store)
      modifies this
      ensures State() == LoadConnection(store.connections, studentId)
    {
      var c := LoadConnection(store.connections, studentId);
      teacherId, channelId := c.teacherId, c.channelId;
    }

    method Save(store: Store) returns (o: Outcome)
      requires store.Valid()
      modifies store
      ensures store.Valid()
      ensures var r := SaveConnection(old(store.connections), studentId, teacherId, channelId);
              (o.Done? <==> r.Ok?) && (r.Ok? ==> store.connections == r.value)
              && (r.Err? ==> o == Failed(r.error) && store.connections == old(store.connections))
      ensures store.users == old(store.users) && store.voiceJoins == old(store.voiceJoins)
    {
      var r := SaveConnection(store.connections, studentId, teacherId, channelId);
      if r.Ok? {
        store.connections := r.value;
        o := Done;
      } else {
        o := Failed(r.error);
      }
    }

    method SetAttr(f: ConnField)
      modifies this
      ensures State() == SetConnField(old(State()), f)
    {
      match f
      case TeacherId(v) => teacherId := v;
      case ChannelId(v) => channelId := v;
    }

    method Edit(store: Store, fields: seq<ConnField>) returns (o: Outcome)
      requires store.Valid()
      modifies this, store
      ensures store.Valid()
      ensures State() == FoldLeft(old(State()), fields, SetConnField)
      ensures var r := SaveConnection(old(store.connections), studentId, teacherId, channelId);
              (o.Done? <==> r.Ok?) && (r.Ok? ==> store.connections == r.value)
              && (r.Err? ==> store.connections == old(store.connections))
      ensures store.users == old(store.users) && store.voiceJoins == old(store.voiceJoins)
    {
      for i := 0 to |fields|
        invariant State() == FoldLeft(old(State()), fields[..i], SetConnField)
        invariant store.users == old(store.users) && store.connections == old(store.connections)
        invariant store.voiceJoins == old(store.voiceJoins)
      {
        FoldLeftSnoc(old(State()), fields[..i], fields[i], SetConnField);
        assert fields[..i + 1] == fields[..i] + [fields[i]];
        SetAttr(fields[i]);
      }
      assert fields[..|fields|] == fields;
      o := Save(store);
    }

    /** `remove()`: deletes only this student's row. */
    method Remove(store: Store)
      requires store.Valid()
      modifies store
      ensures store.Valid()
      ensures store.connections == old(store.connections) - {studentId}
      ensures store.users == old(store.users) && store.voiceJoins == old(store.voiceJoins)
    {
      store.connections := store.connections - {studentId};
    }
  }
}
