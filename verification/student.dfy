/** src/Coordination/student.py: registering and unregistering a student.
    Every check comes before the first remote call, so a refused operation
    changes nothing; a successful one issues its calls in a fixed order. */
module StudentCoordination {
  import opened Wrappers
  import opened Text
  import opened Platform
  import opened Members
  import opened Channels
  import opened Roles
  import opened Database
  import opened Seqs
  import Environment

  const BagIcon: string := "\U{1F392}"
  const StudentType: string := "student"

  /** The welcome text posted in a new student channel. */
  function Welcome(student: Id, teacher: Id): string {
    "\U{1F44B} Willkommen, " + Mention(student) + "! Hier kannst du mit deinem Lehrer "
    + Mention(teacher) + " kommunizieren"
  }

  /** The users row of a registered student. */
  function Enrolled(u: UserRow, name: string): UserRow {
    u.(realName := Some(name), icon := Some(BagIcon), userType := Some(StudentType))
  }

  /** The users row of a student who left: icon and type cleared, the real
      name and the hours kept. */
  function Withdrawn(u: UserRow): UserRow {
    u.(icon := None, userType := None)
  }

  // ---------------------------------------------------------------------------
  // `assign_student`

  /** What the checks of `assign_student` resolve: the calling teacher, the
      student role and the teacher's category. */
  datatype AssignPlan = AssignPlan(teacher: Member, studentRole: Role, category: Category)

  /** The checks of `assign_student`, in the order the source makes them. */
  function AssignStudentGuard(hasGuild: bool, roles: seq<Role>, members: seq<Member>, cats: seq<Category>,
                              caller: UserRef, student: Member): (r: Result<AssignPlan>)
    ensures !hasGuild ==> r == Err(CodeError("Guild is None"))
    ensures hasGuild && GetMemberByUser(members, caller).Err? ==> r == Err(CodeError("User is not a member"))
    ensures r.Ok? <==>
              hasGuild && GetMemberByUser(members, caller).Ok?
              && Environment.HoldsFirst(GetMemberByUser(members, caller).value, roles, TeacherRoleName)
              && Environment.RoleExists(roles, StudentRoleName)
              && !Environment.HoldsFirst(student, roles, StudentRoleName)
              && exists j :: 0 <= j < |cats| && cats[j].name == GetMemberByUser(members, caller).value.DisplayName()
    ensures hasGuild && GetMemberByUser(members, caller).Ok? && Environment.RoleExists(roles, TeacherRoleName)
            && !Environment.HoldsFirst(GetMemberByUser(members, caller).value, roles, TeacherRoleName)
            ==> r == Err(UsageError(Mention(GetMemberByUser(members, caller).value.id) + " ist kein Lehrer"))
    ensures hasGuild && GetMemberByUser(members, caller).Ok?
            && Environment.HoldsFirst(GetMemberByUser(members, caller).value, roles, TeacherRoleName)
            && Environment.HoldsFirst(student, roles, StudentRoleName)
            ==> r == Err(UsageError(Mention(student.id) + " ist bereits ein registrierter Schüler"))
    ensures r.Ok? ==>
              r.value.teacher == GetMemberByUser(members, caller).value
              && (exists k :: Environment.FirstNamed(roles, StudentRoleName, k) && roles[k] == r.value.studentRole)
              && r.value.category in cats && r.value.category.name == r.value.teacher.DisplayName()
  {
    if !hasGuild then Err(CodeError("Guild is None")) else
    var teacher :- GetMemberByUser(members, caller);
    var teacherRole :- GetTeacherRole(roles);
    RoleHeldIff(teacher, roles, TeacherRoleName);
    RoleHeldIff(student, roles, StudentRoleName);
    if teacherRole.id !in teacher.roles then Err(UsageError(Mention(teacher.id) + " ist kein Lehrer")) else
    var studentRole :- GetStudentRole(roles);
    if studentRole.id in student.roles
    then Err(UsageError(Mention(student.id) + " ist bereits ein registrierter Schüler"))
    else
      var category :- GetCategoryByName(cats, teacher.DisplayName());
      Ok(AssignPlan(teacher, studentRole, category))
  }

  /** `assign_student_database`: edits the student's users row. The call to
      `DatabaseManager.add_student_teacher` that follows reaches a method
      src/Utils/database.py leaves commented out; its outcome is the
      parameter `link`, and its write is not modelled. */
  method AssignStudentDatabase(store: Store, studentId: int, realName: string, link: Outcome) returns (o: Outcome)
    requires store.Valid()
    modifies store
    ensures store.Valid()
    ensures store.users == old(store.users)[studentId := Enrolled(LoadUser(old(store.users), studentId), realName)]
    ensures store.connections == old(store.connections) && store.voiceJoins == old(store.voiceJoins)
    ensures o == link
  {
    var user := new DBUser(store, studentId);
    var fields := [RealName(Some(realName)), Icon(Some(BagIcon)), UserType(Some(StudentType))];
    ghost var before := user.State();
    var saved := user.Edit(store, fields);
    FoldLeftSnoc(before, [], fields[0], SetUserField);
    FoldLeftSnoc(before, [fields[0]], fields[1], SetUserField);
    FoldLeftSnoc(before, [fields[0], fields[1]], fields[2], SetUserField);
    assert [fields[0], fields[1]] + [fields[2]] == fields;
    assert saved.Done?;
    o := link;
  }

  /** The guild half of `assign_student`: the student channel in the
      teacher's category under the raw name, then the student role, then the
      student nick. */
  method EnrolInGuild(g: Guild, student: Id, p: AssignPlan, name: string) returns (ch: Channel)
    modifies g
    ensures ch == Channel(old(g.nextId), PlatformChannelName(name), Some(p.category.id), TextKind, |old(g.channels)|)
    ensures g.channels == old(g.channels) + [ch] && g.nextId == old(g.nextId) + 1
    ensures g.roles == old(g.roles) && g.categories == old(g.categories)
    ensures g.members == WithNick(WithRoleAdded(old(g.members), student, p.studentRole.id), student, Some(StudentNick(name)))
    ensures g.calls == old(g.calls) + [CreateTextChannelCall(name, Some(p.category.id), ch.id),
                                       AddRoleCall(student, p.studentRole.id),
                                       EditNickCall(student, Some(StudentNick(name)))]
  {
    ch := g.CreateTextChannel(name, Some(p.category.id));
    g.AddRole(student, p.studentRole.id);
    g.EditNick(student, Some(StudentNick(name)));
  }

  method AssignStudent(g: Guild, store: Store, hasGuild: bool, caller: UserRef, student: Member, name: string,
                       silent: bool, link: Outcome) returns (o: Outcome)
    requires store.Valid()
    modifies g, store
    ensures store.Valid()
    ensures var plan := AssignStudentGuard(hasGuild, old(g.roles), old(g.members), old(g.categories), caller, student);
            (plan.Err? ==> o == Failed(plan.error) && unchanged(g) && unchanged(store))
            && (plan.Ok? ==>
                  var p := plan.value;
                  var ch := Channel(old(g.nextId), PlatformChannelName(name), Some(p.category.id), TextKind, |old(g.channels)|);
                  g.channels == old(g.channels) + [ch] && g.nextId == old(g.nextId) + 1
                  && g.roles == old(g.roles) && g.categories == old(g.categories)
                  && g.members == WithNick(WithRoleAdded(old(g.members), student.id, p.studentRole.id),
                                           student.id, Some(StudentNick(name)))
                  && store.users == old(store.users)[student.id := Enrolled(LoadUser(old(store.users), student.id), name)]
                  && store.connections == old(store.connections) && store.voiceJoins == old(store.voiceJoins)
                  && o == link
                  && g.calls == old(g.calls)
                                + [CreateTextChannelCall(name, Some(p.category.id), ch.id),
                                   AddRoleCall(student.id, p.studentRole.id),
                                   EditNickCall(student.id, Some(StudentNick(name)))]
                                + (if link.Done? && !silent then [SendCall(ch.id, Welcome(student.id, p.teacher.id))] else []))
  {
    var plan := AssignStudentGuard(hasGuild, g.roles, g.members, g.categories, caller, student);
    if plan.Err? {
      o := Failed(plan.error);
      return;
    }
    var p := plan.value;
    var ch := EnrolInGuild(g, student.id, p, name);
    o := AssignStudentDatabase(store, student.id, name, link);
    if o.Failed? {
      return;
    }
    if !silent {
      g.Send(ch.id, Welcome(student.id, p.teacher.id));
    }
  }

  /** After a successful assignment every guild entry of the student holds
      the student role and carries the student nick, from which the real name
      is read back. */
  lemma AssignedMemberState(ms: seq<Member>, student: Id, role: Id, name: string)
    ensures var after := WithNick(WithRoleAdded(ms, student, role), student, Some(StudentNick(name)));
            forall i :: 0 <= i < |after| && after[i].id == student ==>
              role in after[i].roles && after[i].nick == Some(StudentNick(name))
              && NameByNick(after[i].DisplayName()) == name
  {
    var after := WithNick(WithRoleAdded(ms, student, role), student, Some(StudentNick(name)));
    forall i | 0 <= i < |after| && after[i].id == student
      ensures NameByNick(after[i].DisplayName()) == name
    {
      NickRoundTrip(StudentNick(name), name);
    }
  }

  /** The channel `assign_student` creates under the raw name is the one
      `unassign_student` later finds: the stored real name is the assigned
      name, and a text channel carrying its slug exists. */
  lemma AssignThenLookup(users: map<int, UserRow>, student: int, name: string, chs: seq<Channel>, created: Channel)
    requires created.kind == TextKind && created.name == PlatformChannelName(name)
    ensures var after := users[student := Enrolled(LoadUser(users, student), name)];
            LoadUser(after, student).realName == Some(name)
            && GetChannelByName(chs + [created], StudentChannelName(name)).Ok?
  {
    PlatformNameIsSlug(name);
    assert (chs + [created])[|chs|] == created;
  }

  // ---------------------------------------------------------------------------
  // `unassign_student`

  /** The caller and target checks `unassign_student` shares with its earlier
      iteration: the caller must be a teacher and the target a student. The
      result is the student role. */
  function UnassignRolesGuard(hasGuild: bool, roles: seq<Role>, members: seq<Member>,
                              caller: UserRef, student: Member): (r: Result<Role>)
    ensures !hasGuild ==> r == Err(CodeError("Guild is None"))
    ensures hasGuild && GetMemberByUser(members, caller).Err? ==> r == Err(CodeError("User is not a member"))
    ensures r.Ok? <==>
              hasGuild && GetMemberByUser(members, caller).Ok?
              && Environment.HoldsFirst(GetMemberByUser(members, caller).value, roles, TeacherRoleName)
              && Environment.HoldsFirst(student, roles, StudentRoleName)
    ensures hasGuild && GetMemberByUser(members, caller).Ok? && Environment.RoleExists(roles, TeacherRoleName)
            && !Environment.HoldsFirst(GetMemberByUser(members, caller).value, roles, TeacherRoleName)
            ==> r == Err(UsageError(Mention(GetMemberByUser(members, caller).value.id) + " ist kein Lehrer"))
    ensures hasGuild && GetMemberByUser(members, caller).Ok?
            && Environment.HoldsFirst(GetMemberByUser(members, caller).value, roles, TeacherRoleName)
            && Environment.RoleExists(roles, StudentRoleName) && !Environment.HoldsFirst(student, roles, StudentRoleName)
            ==> r == Err(UsageError(Mention(student.id) + " ist kein registrierter Schüler"))
    ensures r.Ok? ==> (exists k :: Environment.FirstNamed(roles, StudentRoleName, k) && roles[k] == r.value)
                      && r.value.id in student.roles
  {
    if !hasGuild then Err(CodeError("Guild is None")) else
    var teacher :- GetMemberByUser(members, caller);
    var teacherRole :- GetTeacherRole(roles);
    RoleHeldIff(teacher, roles, TeacherRoleName);
    RoleHeldIff(student, roles, StudentRoleName);
    if teacherRole.id !in teacher.roles then Err(UsageError(Mention(teacher.id) + " ist kein Lehrer")) else
    var studentRole :- GetStudentRole(roles);
    if studentRole.id !in student.roles
    then Err(UsageError(Mention(student.id) + " ist kein registrierter Schüler"))
    else Ok(studentRole)
  }

  /** What the checks of `unassign_student` resolve. */
  datatype UnassignPlan = UnassignPlan(studentRole: Role, channel: Channel)

  /** The checks of `unassign_student`: the role checks, the stored real name
      and the student channel named by its slug. */
  function UnassignStudentGuard(hasGuild: bool, roles: seq<Role>, members: seq<Member>, chs: seq<Channel>,
                                users: map<int, UserRow>, caller: UserRef, student: Member): (r: Result<UnassignPlan>)
    ensures UnassignRolesGuard(hasGuild, roles, members, caller, student).Err? ==>
              r == Err(UnassignRolesGuard(hasGuild, roles, members, caller, student).error)
    ensures UnassignRolesGuard(hasGuild, roles, members, caller, student).Ok? && LoadUser(users, student.id).realName.None? ==>
              r == Err(CodeError("Student " + NatToString(student.id) + " has no real name"))
    ensures r.Ok? <==>
              UnassignRolesGuard(hasGuild, roles, members, caller, student).Ok?
              && LoadUser(users, student.id).realName.Some?
              && exists j :: 0 <= j < |chs| && IsTextNamed(chs[j], StudentChannelName(LoadUser(users, student.id).realName.value))
    ensures r.Ok? ==>
              r.value.studentRole == UnassignRolesGuard(hasGuild, roles, members, caller, student).value
              && r.value.channel in chs
              && IsTextNamed(r.value.channel, StudentChannelName(LoadUser(users, student.id).realName.value))
  {
    var role :- UnassignRolesGuard(hasGuild, roles, members, caller, student);
    var studentName := LoadUser(users, student.id).realName;
    if studentName.None? then Err(CodeError("Student " + NatToString(student.id) + " has no real name")) else
    var channel :- GetChannelByName(chs, StudentChannelName(studentName.value));
    Ok(UnassignPlan(role, channel))
  }

  /** `unassign_student_database`: clears icon and type. The call to
      `DatabaseManager.remove_student_teacher` that follows reaches a method
      src/Utils/database.py leaves commented out; its outcome is the
      parameter `unlink`, and its write is not modelled. */
  method UnassignStudentDatabase(store: Store, studentId: int, unlink: Outcome) returns (o: Outcome)
    requires store.Valid()
    modifies store
    ensures store.Valid()
    ensures store.users == old(store.users)[studentId := Withdrawn(LoadUser(old(store.users), studentId))]
    ensures store.connections == old(store.connections) && store.voiceJoins == old(store.voiceJoins)
    ensures o == unlink
  {
    var user := new DBUser(store, studentId);
    var fields := [Icon(None), UserType(None)];
    ghost var before := user.State();
    var saved := user.Edit(store, fields);
    FoldLeftSnoc(before, [], fields[0], SetUserField);
    FoldLeftSnoc(before, [fields[0]], fields[1], SetUserField);
    assert [fields[0]] + [fields[1]] == fields;
    assert saved.Done?;
    o := unlink;
  }

  /** A role removed from a member, then the nick cleared. */
  method StripRoleAndNick(g: Guild, student: Id, role: Id)
    modifies g
    ensures g.members == WithNick(WithRoleRemoved(old(g.members), student, role), student, None)
    ensures g.channels == old(g.channels) && g.roles == old(g.roles) && g.categories == old(g.categories)
    ensures g.nextId == old(g.nextId)
    ensures g.calls == old(g.calls) + [RemoveRoleCall(student, role), EditNickCall(student, None)]
  {
    g.RemoveRole(student, role);
    g.EditNick(student, None);
  }

  method UnassignStudent(g: Guild, store: Store, hasGuild: bool, caller: UserRef, student: Member,
                         unlink: Outcome) returns (o: Outcome)
    requires store.Valid()
    modifies g, store
    ensures store.Valid()
    ensures var plan := UnassignStudentGuard(hasGuild, old(g.roles), old(g.members), old(g.channels),
                                             old(store.users), caller, student);
            (plan.Err? ==> o == Failed(plan.error) && unchanged(g) && unchanged(store))
            && (plan.Ok? ==>
                  var p := plan.value;
                  g.channels == WithoutChannel(old(g.channels), p.channel.id)
                  && g.roles == old(g.roles) && g.categories == old(g.categories) && g.nextId == old(g.nextId)
                  && store.users == old(store.users)[student.id := Withdrawn(LoadUser(old(store.users), student.id))]
                  && store.connections == old(store.connections) && store.voiceJoins == old(store.voiceJoins)
                  && o == unlink
                  && (unlink.Failed? ==>
                        g.members == old(g.members) && g.calls == old(g.calls) + [DeleteChannelCall(p.channel.id)])
                  && (unlink.Done? ==>
                        g.members == WithNick(WithRoleRemoved(old(g.members), student.id, p.studentRole.id), student.id, None)
                        && g.calls == old(g.calls) + [DeleteChannelCall(p.channel.id),
                                                      RemoveRoleCall(student.id, p.studentRole.id),
                                                      EditNickCall(student.id, None)]))
  {
    var plan := UnassignStudentGuard(hasGuild, g.roles, g.members, g.channels, store.users, caller, student);
    if plan.Err? {
      o := Failed(plan.error);
      return;
    }
    var p := plan.value;
    g.DeleteChannel(p.channel.id);
    o := UnassignStudentDatabase(store, student.id, unlink);
    if o.Failed? {
      return;
    }
    StripRoleAndNick(g, student.id, p.studentRole.id);
  }

  /** Unregistering keeps the student's real name and hours but leaves the
      row with no type, which the type constraint accepts. */
  lemma WithdrawnKeepsName(users: map<int, UserRow>, student: int)
    requires UserTypesValid(users)
    ensures var after := users[student := Withdrawn(LoadUser(users, student))];
            LoadUser(after, student).realName == LoadUser(users, student).realName
            && LoadUser(after, student).hours == LoadUser(users, student).hours
            && LoadUser(after, student).userType.None? && UserTypesValid(after)
  {
  }
}
