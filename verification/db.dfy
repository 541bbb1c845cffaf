/** src/Utils/db.py: the second store iteration. The users, teachers,
    students and teacher_student tables are maps keyed by their primary keys;
    the record objects `User`, `Teacher`, `Student` and
    `TeacherStudentConnection` are classes whose fields `load` and `edit`
    overwrite and whose `save`/`delete` change the tables. Every statement
    runs in its own connection and commits on its own, so a statement that
    violates a constraint leaves its table unchanged and raises
    `IntegrityError`, while earlier statements stay committed. */
module Db {
  import opened Wrappers
  import opened Seqs

  datatype UserRow = UserRow(realName: Option<string>, hours: real)
  datatype TeacherRow = TeacherRow(subjects: Option<string>, phonenumber: Option<string>,
                                   availability: Option<string>, teachingCategory: int)
  datatype StudentRow = StudentRow(major: Option<string>, customerId: Option<string>)

  /** One keyword argument of `edit(**kwargs)`, applied with `setattr`. */
  datatype Field =
    | RealName(realName: Option<string>)
    | HoursInClass(hours: real)
    | Subjects(subjects: Option<string>)
    | Phonenumber(phonenumber: Option<string>)
    | Availability(availability: Option<string>)
    | TeachingCategory(teachingCategory: Option<int>)
    | Major(major: Option<string>)
    | CustomerId(customerId: Option<string>)

  /** `customer_id TEXT UNIQUE` (NULLs may repeat). */
  predicate CustomerIdsUnique(students: map<int, StudentRow>) {
    forall a, b :: a in students && b in students && a != b && students[a].customerId.Some?
                   ==> students[a].customerId != students[b].customerId
  }

  /** `channel_id INTEGER NOT NULL UNIQUE` */
  predicate ChannelsUnique(conns: map<(int, int), int>) {
    forall a, b :: a in conns && b in conns && a != b ==> conns[a] != conns[b]
  }

  class Store {
    var users: map<int, UserRow>
    var teachers: map<int, TeacherRow>
    var students: map<int, StudentRow>
    /** teacher_student: (teacher_id, student_id) to channel_id. */
    var connections: map<(int, int), int>

    predicate Valid()
      reads this
    {
      CustomerIdsUnique(students) && ChannelsUnique(connections)
    }

    /** `DatabaseManager.create_tables()` on an empty database. */
    constructor ()
      ensures users == map[] && teachers == map[] && students == map[] && connections == map[]
      ensures Valid()
    {
      users, teachers, students, connections := map[], map[], map[], map[];
    }
  }

  // ---------------------------------------------------------------------------
  // Rows as the record objects read and write them

  /** `User.load`: the stored row, or no name and zero hours. */
  function LoadUser(users: map<int, UserRow>, id: int): (r: UserRow)
    ensures id !in users ==> r.realName.None? && r.hours == 0.0
    ensures id in users ==> r == users[id]
  {
    if id in users then users[id] else UserRow(None, 0.0)
  }

  /** The attributes of a `Teacher` object. */
  datatype TeacherState = TeacherState(user: UserRow, subjects: Option<string>, phonenumber: Option<string>,
                                       availability: Option<string>, teachingCategory: Option<int>)

  /** `Teacher.__init__`: the user row, then the teacher row if there is one. */
  function LoadTeacher(users: map<int, UserRow>, teachers: map<int, TeacherRow>, id: int): (r: TeacherState)
    ensures r.user == LoadUser(users, id)
    ensures r.teachingCategory.Some? <==> id in teachers
    ensures id in teachers ==> TeacherRowOf(r) == Some(teachers[id])
  {
    if id in teachers then
      var t := teachers[id];
      TeacherState(LoadUser(users, id), t.subjects, t.phonenumber, t.availability, Some(t.teachingCategory))
    else TeacherState(LoadUser(users, id), None, None, None, None)
  }

  /** The teachers row a save writes, or `None` when `teaching_category` is
      NULL, which the NOT NULL constraint rejects. */
  function TeacherRowOf(t: TeacherState): Option<TeacherRow> {
    if t.teachingCategory.None? then None
    else Some(TeacherRow(t.subjects, t.phonenumber, t.availability, t.teachingCategory.value))
  }

  datatype StudentState = StudentState(user: UserRow, major: Option<string>, customerId: Option<string>)

  function LoadStudent(users: map<int, UserRow>, students: map<int, StudentRow>, id: int): (r: StudentState)
    ensures r.user == LoadUser(users, id)
    ensures id in students ==> StudentRow(r.major, r.customerId) == students[id]
    ensures id !in students ==> r.major.None? && r.customerId.None?
  {
    if id in students then StudentState(LoadUser(users, id), students[id].major, students[id].customerId)
    else StudentState(LoadUser(users, id), None, None)
  }

  /** The students upsert: rejected when another student holds the same
      customer id. */
  function SaveStudentRow(students: map<int, StudentRow>, id: int, row: StudentRow): (r: Result<map<int, StudentRow>>)
    ensures r.Err? <==> row.customerId.Some? && exists k :: k in students && k != id && students[k].customerId == row.customerId
    ensures r.Err? ==> r.error == IntegrityError("UNIQUE constraint failed: students.customer_id")
    ensures r.Ok? ==> r.value == students[id := row]
    ensures r.Ok? && CustomerIdsUnique(students) ==> CustomerIdsUnique(r.value)
  {
    if row.customerId.Some? && exists k :: k in students && k != id && students[k].customerId == row.customerId
    then Err(IntegrityError("UNIQUE constraint failed: students.customer_id"))
    else Ok(students[id := row])
  }

  /** The teacher_student upsert on (teacher_id, student_id), which on
      conflict updates only `channel_id`. */
  function SaveConnection(conns: map<(int, int), int>, key: (int, int), channel: Option<int>): (r: Result<map<(int, int), int>>)
    ensures r.Err? <==> channel.None? || exists k :: k in conns && k != key && conns[k] == channel.value
    ensures channel.None? ==> r == Err(IntegrityError("NOT NULL constraint failed: teacher_student.channel_id"))
    ensures channel.Some? && r.Err? ==> r.error == IntegrityError("UNIQUE constraint failed: teacher_student.channel_id")
    ensures r.Ok? ==> r.value == conns[key := channel.value]
    ensures r.Ok? && ChannelsUnique(conns) ==> ChannelsUnique(r.value)
  {
    if channel.None? then Err(IntegrityError("NOT NULL constraint failed: teacher_student.channel_id"))
    else if exists k :: k in conns && k != key && conns[k] == channel.value
    then Err(IntegrityError("UNIQUE constraint failed: teacher_student.channel_id"))
    else Ok(conns[key := channel.value])
  }

  // ---------------------------------------------------------------------------
  // `edit(**kwargs)`: `setattr` for each keyword in turn

  /** `setattr` on a `User`; other keywords add attributes its save ignores. */
  function SetUserField(u: UserRow, f: Field): UserRow {
    match f
    case RealName(n) => u.(realName := n)
    case HoursInClass(h) => u.(hours := h)
    case _ => u
  }

  function SetTeacherField(t: TeacherState, f: Field): TeacherState {
    match f
    case Subjects(v) => t.(subjects := v)
    case Phonenumber(v) => t.(phonenumber := v)
    case Availability(v) => t.(availability := v)
    case TeachingCategory(v) => t.(teachingCategory := v)
    case _ => t.(user := SetUserField(t.user, f))
  }

  function SetStudentField(s: StudentState, f: Field): StudentState {
    match f
    case Major(v) => s.(major := v)
    case CustomerId(v) => s.(customerId := v)
    case _ => s.(user := SetUserField(s.user, f))
  }

  /** The keyword names of `**kwargs` are distinct: an edit that names
      `real_name` once sets it to that value... */
  lemma {:induction false} EditSetsRealName(u: UserRow, fields: seq<Field>, k: nat)
    requires k < |fields| && fields[k].RealName?
    requires forall j :: 0 <= j < |fields| && j != k ==> !fields[j].RealName?
    ensures FoldLeft(u, fields, SetUserField).realName == fields[k].realName
    decreases |fields|
  {
    var n := |fields| - 1;
    if k < n {
      EditSetsRealName(u, fields[..n], k);
    } else {
      EditKeepsRealName(u, fields[..n]);
    }
  }

  /** ...and an edit that does not name it leaves it as it was. */
  lemma {:induction false} EditKeepsRealName(u: UserRow, fields: seq<Field>)
    requires forall j :: 0 <= j < |fields| ==> !fields[j].RealName?
    ensures FoldLeft(u, fields, SetUserField).realName == u.realName
    decreases |fields|
  {
    if fields != [] {
      EditKeepsRealName(u, fields[..|fields| - 1]);
    }
  }

  // ---------------------------------------------------------------------------
  // Record objects

  class User {
    const id: int
    var realName: Option<string>
    var hours: real

    function State(): UserRow
      reads this
    {
      UserRow(realName, hours)
    }

    /** `User(user_id)` loads at once. */
    constructor (store: Store, id: int)
      ensures this.id == id && State() == LoadUser(store.users, id)
    {
      this.id := id;
      var row := LoadUser(store.users, id);
      realName, hours := row.realName, row.hours;
    }

    method Load(store: Store)
      modifies this
      ensures State() == LoadUser(store.users, id)
    {
      var row := LoadUser(store.users, id);
      realName, hours := row.realName, row.hours;
    }

    /** The upsert keyed by id. */
    method Save(store: Store)
      modifies store
      ensures store.users == old(store.users)[id := State()]
      ensures store.teachers == old(store.teachers) && store.students == old(store.students)
      ensures store.connections == old(store.connections)
    {
      store.users := store.users[id := State()];
    }

    /** Deleting an absent row is not an error. */
    method Delete(store: Store)
      modifies store
      ensures store.users == old(store.users) - {id}
      ensures store.teachers == old(store.teachers) && store.students == old(store.students)
      ensures store.connections == old(store.connections)
    {
      store.users := store.users - {id};
    }

    method SetAttr(f: Field)
      modifies this
      ensures State() == SetUserField(old(State()), f)
    {
      match f
      case RealName(n) => realName := n;
      case HoursInClass(h) => hours := h;
      case _ =>
    }

    method Edit(store: Store, fields: seq<Field>)
      modifies this, store
      ensures State() == FoldLeft(old(State()), fields, SetUserField)
      ensures store.users == old(store.users)[id := State()]
      ensures store.teachers == old(store.teachers) && store.students == old(store.students)
      ensures store.connections == old(store.connections)
    {
      for i := 0 to |fields|
        invariant State() == FoldLeft(old(State()), fields[..i], SetUserField)
        invariant store.users == old(store.users) && store.teachers == old(store.teachers)
        invariant store.students == old(store.students) && store.connections == old(store.connections)
      {
        FoldLeftSnoc(old(State()), fields[..i], fields[i], SetUserField);
        assert fields[..i + 1] == fields[..i] + [fields[i]];
        SetAttr(fields[i]);
      }
      assert fields[..|fields|] == fields;
      Save(store);
    }
  }

  class TeacherStudentConnection {
    const teacherId: int
    const studentId: int
    var channelId: Option<int>

    /** The constructor starts without a channel and loads the stored one. */
    constructor (store: Store, teacherId: int, studentId: int)
      ensures this.teacherId == teacherId && this.studentId == studentId
      ensures channelId == if (teacherId, studentId) in store.connections
                           then Some(store.connections[(teacherId, studentId)]) else None
    {
      this.teacherId, this.studentId := teacherId, studentId;
      channelId := None;
      if (teacherId, studentId) in store.connections {
        channelId := Some(store.connections[(teacherId, studentId)]);
      }
    }

    /** `load` only overwrites the channel when a row exists. */
    method Load(store: Store)
      modifies this
      ensures channelId == if (teacherId, studentId) in store.connections
                           then Some(store.connections[(teacherId, studentId)]) else old(channelId)
    {
      if (teacherId, studentId) in store.connections {
        channelId := Some(store.connections[(teacherId, studentId)]);
      }
    }

    method Save(store: Store) returns (o: Outcome)
      requires store.Valid()
      modifies store
      ensures store.Valid()
      ensures var r := SaveConnection(old(store.connections), (teacherId, studentId), channelId);
              (o.Done? <==> r.Ok?) && (r.Ok? ==> store.connections == r.value)
              && (r.Err? ==> o == Failed(r.error) && store.connections == old(store.connections))
      ensures store.users == old(store.users) && store.teachers == old(store.teachers)
      ensures store.students == old(store.students)
    {
      var r := SaveConnection(store.connections, (teacherId, studentId), channelId);
      if r.Ok? {
        store.connections := r.value;
        o := Done;
      } else {
        o := Failed(r.error);
      }
    }

    method SetChannel(store: Store, channel: int) returns (o: Outcome)
      requires store.Valid()
      modifies this, store
      ensures channelId == Some(channel) && store.Valid()
      ensures var r := SaveConnection(old(store.connections), (teacherId, studentId), Some(channel));
              (o.Done? <==> r.Ok?) && (r.Ok? ==> store.connections == r.value)
              && (r.Err? ==> store.connections == old(store.connections))
      ensures store.users == old(store.users) && store.teachers == old(store.teachers)
      ensures store.students == old(store.students)
    {
      channelId := Some(channel);
      o := Save(store);
    }
  }

  /** `TeacherStudentConnection.find_by_student`: a connection of that
      student, or `None`. Which row SQLite returns first when there are
      several is not modelled. */
  method FindByStudent(store: Store, studentId: int) returns (c: TeacherStudentConnection?)
    ensures c == null <==> forall k :: k in store.connections ==> k.1 != studentId
    ensures c != null ==> c.studentId == studentId && (c.teacherId, studentId) in store.connections
                          && c.channelId == Some(store.connections[(c.teacherId, studentId)])
  {
    if k :| k in store.connections && k.1 == studentId {
      c := new TeacherStudentConnection(store, k.0, k.1);
    } else {
      c := null;
    }
  }

  /** `TeacherStudentConnection.find_by_teacher` */
  method FindByTeacher(store: Store, teacherId: int) returns (c: TeacherStudentConnection?)
    ensures c == null <==> forall k :: k in store.connections ==> k.0 != teacherId
    ensures c != null ==> c.teacherId == teacherId && (teacherId, c.studentId) in store.connections
                          && c.channelId == Some(store.connections[(teacherId, c.studentId)])
  {
    if k :| k in store.connections && k.0 == teacherId {
      c := new TeacherStudentConnection(store, k.0, k.1);
    } else {
      c := null;
    }
  }

  class Teacher {
    const id: int
    var user: UserRow
    var subjects: Option<string>
    var phonenumber: Option<string>
    var availability: Option<string>
    var teachingCategory: Option<int>

    function State(): TeacherState
      reads this
    {
      TeacherState(user, subjects, phonenumber, availability, teachingCategory)
    }

    constructor (store: Store, id: int)
      ensures this.id == id && State() == LoadTeacher(store.users, store.teachers, id)
    {
      this.id := id;
      var t := LoadTeacher(store.users, store.teachers, id);
      user, subjects, phonenumber, availability, teachingCategory :=
        t.user, t.subjects, t.phonenumber, t.availability, t.teachingCategory;
    }

    /** `Teacher.save`: the users row first (committed on its own), then the
        teachers row, which NOT NULL rejects when there is no category. */
    method Save(store: Store) returns (o: Outcome)
      modifies store
      ensures store.users == old(store.users)[id := user]
      ensures TeacherRowOf(State()).Some? ==> o == Done && store.teachers == old(store.teachers)[id := TeacherRowOf(State()).value]
      ensures TeacherRowOf(State()).None? ==>
                o == Failed(IntegrityError("NOT NULL constraint failed: teachers.teaching_category"))
                && store.teachers == old(store.teachers)
      ensures store.students == old(store.students) && store.connections == old(store.connections)
    {
      store.users := store.users[id := user];
      var row := TeacherRowOf(State());
      if row.Some? {
        store.teachers := store.teachers[id := row.value];
        o := Done;
      } else {
        o := Failed(IntegrityError("NOT NULL constraint failed: teachers.teaching_category"));
      }
    }

    method SetAttr(f: Field)
      modifies this
      ensures State() == SetTeacherField(old(State()), f)
    {
      match f
      case Subjects(v) => subjects := v;
      case Phonenumber(v) => phonenumber := v;
      case Availability(v) => availability := v;
      case TeachingCategory(v) => teachingCategory := v;
      case _ => user := SetUserField(user, f);
    }

    method Edit(store: Store, fields: seq<Field>) returns (o: Outcome)
      modifies this, store
      ensures State() == FoldLeft(old(State()), fields, SetTeacherField)
      ensures store.users == old(store.users)[id := user]
      ensures o.Done? <==> TeacherRowOf(State()).Some?
      ensures o.Done? ==> store.teachers == old(store.teachers)[id := TeacherRowOf(State()).value]
      ensures o.Failed? ==> store.teachers == old(store.teachers)
      ensures store.students == old(store.students) && store.connections == old(store.connections)
    {
      for i := 0 to |fields|
        invariant State() == FoldLeft(old(State()), fields[..i], SetTeacherField)
        invariant store.users == old(store.users) && store.teachers == old(store.teachers)
        invariant store.students == old(store.students) && store.connections == old(store.connections)
      {
        FoldLeftSnoc(old(State()), fields[..i], fields[i], SetTeacherField);
        assert fields[..i + 1] == fields[..i] + [fields[i]];
        SetAttr(fields[i]);
      }
      assert fields[..|fields|] == fields;
      o := Save(store);
    }

    /** `connect_student(student_id, channel_id)` */
    method ConnectStudent(store: Store, studentId: int, channel: int) returns (o: Outcome)
      requires store.Valid()
      modifies store
      ensures store.Valid()
      ensures var r := SaveConnection(old(store.connections), (id, studentId), Some(channel));
              (o.Done? <==> r.Ok?) && (r.Ok? ==> store.connections == r.value)
              && (r.Err? ==> store.connections == old(store.connections))
      ensures store.users == old(store.users) && store.teachers == old(store.teachers)
      ensures store.students == old(store.students)
    {
      var c := new TeacherStudentConnection(store, id, studentId);
      o := c.SetChannel(store, channel);
    }
  }

  class Student {
    const id: int
    var user: UserRow
    var major: Option<string>
    var customerId: Option<string>

    function State(): StudentState
      reads this
    {
      StudentState(user, major, customerId)
    }

    constructor (store: Store, id: int)
      ensures this.id == id && State() == LoadStudent(store.users, store.students, id)
    {
      this.id := id;
      var s := LoadStudent(store.users, store.students, id);
      user, major, customerId := s.user, s.major, s.customerId;
    }

    /** `Student.save`: the users row, then the students row, which the
        UNIQUE constraint on `customer_id` may reject. */
    method Save(store: Store) returns (o: Outcome)
      requires store.Valid()
      modifies store
      ensures store.Valid()
      ensures store.users == old(store.users)[id := user]
      ensures var r := SaveStudentRow(old(store.students), id, StudentRow(major, customerId));
              (o.Done? <==> r.Ok?) && (r.Ok? ==> store.students == r.value)
              && (r.Err? ==> o == Failed(r.error) && store.students == old(store.students))
      ensures store.teachers == old(store.teachers) && store.connections == old(store.connections)
    {
      store.users := store.users[id := user];
      var r := SaveStudentRow(store.students, id, StudentRow(major, customerId));
      if r.Ok? {
        store.students := r.value;
        o := Done;
      } else {
        o := Failed(r.error);
      }
    }

    method SetAttr(f: Field)
      modifies this
      ensures State() == SetStudentField(old(State()), f)
    {
      match f
      case Major(v) => major := v;
      case CustomerId(v) => customerId := v;
      case _ => user := SetUserField(user, f);
    }

    method Edit(store: Store, fields: seq<Field>) returns (o: Outcome)
      requires store.Valid()
      modifies this, store
      ensures store.Valid()
      ensures State() == FoldLeft(old(State()), fields, SetStudentField)
      ensures store.users == old(store.users)[id := user]
      ensures var r := SaveStudentRow(old(store.students), id, StudentRow(major, customerId));
              (o.Done? <==> r.Ok?) && (r.Ok? ==> store.students == r.value)
              && (r.Err? ==> store.students == old(store.students))
      ensures store.teachers == old(store.teachers) && store.connections == old(store.connections)
    {
      for i := 0 to |fields|
        invariant State() == FoldLeft(old(State()), fields[..i], SetStudentField)
        invariant store.users == old(store.users) && store.teachers == old(store.teachers)
        invariant store.students == old(store.students) && store.connections == old(store.connections)
      {
        FoldLeftSnoc(old(State()), fields[..i], fields[i], SetStudentField);
        assert fields[..i + 1] == fields[..i] + [fields[i]];
        SetAttr(fields[i]);
      }
      assert fields[..|fields|] == fields;
      o := Save(store);
    }

    /** `connect_teacher(teacher_id, channel_id)`: the same row as the
        teacher's `connect_student` writes. */
    method ConnectTeacher(store: Store, teacherId: int, channel: int) returns (o: Outcome)
      requires store.Valid()
      modifies store
      ensures store.Valid()
      ensures var r := SaveConnection(old(store.connections), (teacherId, id), Some(channel));
              (o.Done? <==> r.Ok?) && (r.Ok? ==> store.connections == r.value)
              && (r.Err? ==> store.connections == old(store.connections))
      ensures store.users == old(store.users) && store.teachers == old(store.teachers)
      ensures store.students == old(store.students)
    {
      var c := new TeacherStudentConnection(store, teacherId, id);
      o := c.SetChannel(store, channel);
    }
  }

  /** Loading a user right after saving it gives back what was saved, and
      other ids keep their rows. */
  lemma LoadAfterSaveUser(users: map<int, UserRow>, id: int, row: UserRow, other: int)
    requires other != id
    ensures LoadUser(users[id := row], id) == row
    ensures LoadUser(users[id := row], other) == LoadUser(users, other)
  {
  }

  /** A saved connection is found again with its channel. */
  lemma SaveConnectionThenLoad(conns: map<(int, int), int>, key: (int, int), channel: int)
    requires SaveConnection(conns, key, Some(channel)).Ok?
    ensures key in SaveConnection(conns, key, Some(channel)).value
    ensures SaveConnection(conns, key, Some(channel)).value[key] == channel
  {
  }
}
