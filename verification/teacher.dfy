/** src/Coordination/teacher.py: registering and unregistering a teacher.
    A teacher gets the teacher role, the mortar-board nick, a category named
    by that nick and a `cmd` channel in it; a teacher is unregistered only
    while that category holds no text channel other than `cmd`. */
module TeacherCoordination {
  import opened Wrappers
  import opened Text
  import opened Platform
  import opened Members
  import opened Channels
  import opened Roles
  import opened Database
  import opened Seqs
  import Environment
  import StudentCoordination

  const CapIcon: string := "\U{1F393}"
  const TeacherType: string := "teacher"
  const CmdName: string := "cmd"

  function Welcome(teacher: Id): string {
    "\U{1F44B} Willkommen, " + Mention(teacher) + "! Hier kannst du ungestört Befehle ausführen."
  }

  /** The users row of a registered teacher. */
  function Appointed(u: UserRow, name: string): UserRow {
    u.(realName := Some(name), icon := Some(CapIcon), userType := Some(TeacherType))
  }

  lemma CmdIsNormalised()
    ensures PlatformChannelName(CmdName) == CmdName
  {
    var r := PlatformChannelName(CmdName);
    assert forall i :: 0 <= i < |CmdName| ==> !IsUpper(CmdName[i]) && CmdName[i] != ' ';
    assert forall i :: 0 <= i < |CmdName| ==> r[i] == CmdName[i];
  }

  // ---------------------------------------------------------------------------
  // Deleting several channels, one call each

  /** The channels left after deleting every channel in `gone`, in that order. */
  function WithoutAll(chs: seq<Channel>, gone: seq<Channel>): (r: seq<Channel>)
    ensures forall c :: c in r <==> c in chs && forall k :: 0 <= k < |gone| ==> c.id != gone[k].id
    decreases |gone|
  {
    if gone == [] then chs
    else
      var front := gone[..|gone| - 1];
      assert forall k :: 0 <= k < |front| ==> front[k] == gone[k];
      WithoutChannel(WithoutAll(chs, front), gone[|gone| - 1].id)
  }

  function DeleteCalls(gone: seq<Channel>): (r: seq<Call>)
    ensures |r| == |gone| && forall k :: 0 <= k < |gone| ==> r[k] == DeleteChannelCall(gone[k].id)
  {
    seq(|gone|, k requires 0 <= k < |gone| => DeleteChannelCall(gone[k].id))
  }

  lemma WithoutAllSnoc(chs: seq<Channel>, gone: seq<Channel>, i: nat)
    requires i < |gone|
    ensures WithoutAll(chs, gone[..i + 1]) == WithoutChannel(WithoutAll(chs, gone[..i]), gone[i].id)
  {
    var upto := gone[..i + 1];
    assert upto[..|upto| - 1] == gone[..i];
    assert upto[|upto| - 1] == gone[i];
  }

  lemma DeleteCallsSnoc(gone: seq<Channel>, i: nat)
    requires i < |gone|
    ensures DeleteCalls(gone[..i + 1]) == DeleteCalls(gone[..i]) + [DeleteChannelCall(gone[i].id)]
  {
    var upto := gone[..i + 1];
    assert upto[..|upto| - 1] == gone[..i];
    assert upto[|upto| - 1] == gone[i];
  }

  /** `for channel in channels: await channel.delete()` */
  method DeleteChannels(g: Guild, gone: seq<Channel>)
    modifies g
    ensures g.channels == WithoutAll(old(g.channels), gone)
    ensures g.calls == old(g.calls) + DeleteCalls(gone)
    ensures g.roles == old(g.roles) && g.members == old(g.members) && g.categories == old(g.categories)
    ensures g.nextId == old(g.nextId)
  {
    for i := 0 to |gone|
      invariant g.channels == WithoutAll(old(g.channels), gone[..i])
      invariant g.calls == old(g.calls) + DeleteCalls(gone[..i])
      invariant g.roles == old(g.roles) && g.members == old(g.members) && g.categories == old(g.categories)
      invariant g.nextId == old(g.nextId)
    {
      WithoutAllSnoc(old(g.channels), gone, i);
      DeleteCallsSnoc(gone, i);
      g.DeleteChannel(gone[i].id);
    }
    assert gone[..|gone|] == gone;
  }

  /** The given channels deleted one by one, then the category. */
  method DeleteCategoryWithChannels(g: Guild, cat: Id, gone: seq<Channel>)
    modifies g
    ensures g.channels == Orphaned(WithoutAll(old(g.channels), gone), cat)
    ensures g.categories == WithoutCategory(old(g.categories), cat)
    ensures g.calls == old(g.calls) + DeleteCalls(gone) + [DeleteCategoryCall(cat)]
    ensures g.roles == old(g.roles) && g.members == old(g.members) && g.nextId == old(g.nextId)
  {
    DeleteChannels(g, gone);
    g.DeleteCategory(cat);
  }

  // ---------------------------------------------------------------------------
  // `assign_teacher`

  /** The checks of `assign_teacher`; the result is the teacher role. */
  function AssignTeacherGuard(hasGuild: bool, roles: seq<Role>, teacher: Member): (r: Result<Role>)
    ensures !hasGuild ==> r == Err(CodeError("Guild is None"))
    ensures r.Ok? <==> hasGuild && Environment.RoleExists(roles, TeacherRoleName)
                       && !Environment.HoldsFirst(teacher, roles, TeacherRoleName)
    ensures hasGuild && Environment.HoldsFirst(teacher, roles, TeacherRoleName) ==>
              r == Err(UsageError(Mention(teacher.id) + " ist bereits ein Lehrer"))
    ensures hasGuild && !Environment.RoleExists(roles, TeacherRoleName) ==> r.Err? && r.error.ValueError?
    ensures r.Ok? ==> exists k :: Environment.FirstNamed(roles, TeacherRoleName, k) && roles[k] == r.value
  {
    if !hasGuild then Err(CodeError("Guild is None")) else
    var role :- GetTeacherRole(roles);
    RoleHeldIff(teacher, roles, TeacherRoleName);
    if role.id in teacher.roles then Err(UsageError(Mention(teacher.id) + " ist bereits ein Lehrer"))
    else Ok(role)
  }

  /** `assign_teacher_database` */
  method AssignTeacherDatabase(store: Store, teacherId: int, realName: string)
    requires store.Valid()
    modifies store
    ensures store.Valid()
    ensures store.users == old(store.users)[teacherId := Appointed(LoadUser(old(store.users), teacherId), realName)]
    ensures store.connections == old(store.connections) && store.voiceJoins == old(store.voiceJoins)
  {
    var user := new DBUser(store, teacherId);
    var fields := [RealName(Some(realName)), Icon(Some(CapIcon)), UserType(Some(TeacherType))];
    ghost var before := user.State();
    var saved := user.Edit(store, fields);
    FoldLeftSnoc(before, [], fields[0], SetUserField);
    FoldLeftSnoc(before, [fields[0]], fields[1], SetUserField);
    FoldLeftSnoc(before, [fields[0], fields[1]], fields[2], SetUserField);
    assert [fields[0], fields[1]] + [fields[2]] == fields;
    assert saved.Done?;
  }

  /** The guild half of registering a teacher: the teacher role, the nick,
      a category of the given name and its `cmd` channel, in that order. */
  method OpenTeacherSpace(g: Guild, teacher: Id, role: Id, nick: string, catName: string)
    returns (cat: Category, cmd: Channel)
    modifies g
    ensures cat == Category(old(g.nextId), catName)
    ensures cmd == Channel(old(g.nextId) + 1, CmdName, Some(cat.id), TextKind, |old(g.channels)|)
    ensures g.members == WithNick(WithRoleAdded(old(g.members), teacher, role), teacher, Some(nick))
    ensures g.categories == old(g.categories) + [cat] && g.channels == old(g.channels) + [cmd]
    ensures g.roles == old(g.roles) && g.nextId == old(g.nextId) + 2
    ensures g.calls == old(g.calls) + [AddRoleCall(teacher, role), EditNickCall(teacher, Some(nick)),
                                       CreateCategoryCall(catName, cat.id), CreateTextChannelCall(CmdName, Some(cat.id), cmd.id)]
  {
    g.AddRole(teacher, role);
    g.EditNick(teacher, Some(nick));
    cat := g.CreateCategory(catName);
    cmd := g.CreateTextChannel(CmdName, Some(cat.id));
    CmdIsNormalised();
  }

  method AssignTeacher(g: Guild, store: Store, hasGuild: bool, teacher: Member, name: string) returns (o: Outcome)
    requires store.Valid()
    modifies g, store
    ensures store.Valid()
    ensures var guard := AssignTeacherGuard(hasGuild, old(g.roles), teacher);
            (guard.Err? ==> o == Failed(guard.error) && unchanged(g) && unchanged(store))
            && (guard.Ok? ==>
                  var cat := Category(old(g.nextId), TeacherNick(name));
                  var cmd := Channel(old(g.nextId) + 1, CmdName, Some(cat.id), TextKind, |old(g.channels)|);
                  o == Done
                  && g.members == WithNick(WithRoleAdded(old(g.members), teacher.id, guard.value.id),
                                           teacher.id, Some(TeacherNick(name)))
                  && g.categories == old(g.categories) + [cat] && g.channels == old(g.channels) + [cmd]
                  && g.roles == old(g.roles) && g.nextId == old(g.nextId) + 2
                  && store.users == old(store.users)[teacher.id := Appointed(LoadUser(old(store.users), teacher.id), name)]
                  && store.connections == old(store.connections) && store.voiceJoins == old(store.voiceJoins)
                  && g.calls == old(g.calls) + [AddRoleCall(teacher.id, guard.value.id),
                                                EditNickCall(teacher.id, Some(TeacherNick(name))),
                                                CreateCategoryCall(TeacherNick(name), cat.id),
                                                CreateTextChannelCall(CmdName, Some(cat.id), cmd.id),
                                                SendCall(cmd.id, Welcome(teacher.id))])
  {
    var guard := AssignTeacherGuard(hasGuild, g.roles, teacher);
    if guard.Err? {
      o := Failed(guard.error);
      return;
    }
    var cat, cmd := OpenTeacherSpace(g, teacher.id, guard.value.id, TeacherNick(name), TeacherNick(name));
    AssignTeacherDatabase(store, teacher.id, name);
    g.Send(cmd.id, Welcome(teacher.id));
    o := Done;
  }

  // ---------------------------------------------------------------------------
  // `unassign_teacher`

  datatype TeacherPlan = TeacherPlan(teacherRole: Role, category: Category)

  /** The checks of `unassign_teacher` up to the category lookup: the member
      must be a teacher and a category must carry their display name. */
  function UnassignTeacherLookup(hasGuild: bool, roles: seq<Role>, cats: seq<Category>, teacher: Member)
    : (r: Result<TeacherPlan>)
    ensures !hasGuild ==> r == Err(CodeError("Guild is None"))
    ensures r.Ok? <==> hasGuild && Environment.HoldsFirst(teacher, roles, TeacherRoleName)
                       && exists j :: 0 <= j < |cats| && cats[j].name == teacher.DisplayName()
    ensures hasGuild && Environment.RoleExists(roles, TeacherRoleName)
            && !Environment.HoldsFirst(teacher, roles, TeacherRoleName) ==>
              r == Err(UsageError(Mention(teacher.id) + " ist kein Lehrer"))
    ensures hasGuild && Environment.HoldsFirst(teacher, roles, TeacherRoleName)
            && (forall j :: 0 <= j < |cats| ==> cats[j].name != teacher.DisplayName()) ==>
              r == Err(CodeError("Category " + teacher.DisplayName() + " not found"))
    ensures r.Ok? ==>
              (exists k :: Environment.FirstNamed(roles, TeacherRoleName, k) && roles[k] == r.value.teacherRole)
              && r.value.teacherRole.id in teacher.roles
              && exists k :: 0 <= k < |cats| && cats[k] == r.value.category && r.value.category.name == teacher.DisplayName()
                             && forall j :: 0 <= j < k ==> cats[j].name != teacher.DisplayName()
  {
    if !hasGuild then Err(CodeError("Guild is None")) else
    var role :- GetTeacherRole(roles);
    RoleHeldIff(teacher, roles, TeacherRoleName);
    if role.id !in teacher.roles then Err(UsageError(Mention(teacher.id) + " ist kein Lehrer")) else
    var category :- GetCategoryByName(cats, teacher.DisplayName());
    Ok(TeacherPlan(role, category))
  }

  /** Every text channel of the category is the `cmd` channel. */
  predicate OnlyCmd(tcs: seq<Channel>) {
    forall j :: 0 <= j < |tcs| ==> tcs[j].name == CmdName
  }

  /** The guard loop: any text channel other than `cmd` means the teacher
      still has students. */
  method CheckNoStudents(tcs: seq<Channel>, teacher: Id) returns (o: Outcome)
    ensures o.Done? <==> OnlyCmd(tcs)
    ensures o.Failed? ==> o.error == UsageError(Mention(teacher) + " hat noch registrierte Schüler")
  {
    for i := 0 to |tcs|
      invariant forall j :: 0 <= j < i ==> tcs[j].name == CmdName
    {
      if tcs[i].name != CmdName {
        return Failed(UsageError(Mention(teacher) + " hat noch registrierte Schüler"));
      }
    }
    return Done;
  }

  /** `unassign_teacher_database` */
  method UnassignTeacherDatabase(store: Store, teacherId: int)
    requires store.Valid()
    modifies store
    ensures store.Valid()
    ensures store.users == old(store.users)[teacherId := StudentCoordination.Withdrawn(LoadUser(old(store.users), teacherId))]
    ensures store.connections == old(store.connections) && store.voiceJoins == old(store.voiceJoins)
  {
    var user := new DBUser(store, teacherId);
    var fields := [Icon(None), UserType(None)];
    ghost var before := user.State();
    var saved := user.Edit(store, fields);
    FoldLeftSnoc(before, [], fields[0], SetUserField);
    FoldLeftSnoc(before, [fields[0]], fields[1], SetUserField);
    assert [fields[0]] + [fields[1]] == fields;
    assert saved.Done?;
  }

  method UnassignTeacher(g: Guild, store: Store, hasGuild: bool, teacher: Member) returns (o: Outcome)
    requires store.Valid()
    modifies g, store
    ensures store.Valid()
    ensures var plan := UnassignTeacherLookup(hasGuild, old(g.roles), old(g.categories), teacher);
            (plan.Err? ==> o == Failed(plan.error) && unchanged(g) && unchanged(store))
            && (plan.Ok? && !OnlyCmd(CategoryTextChannels(old(g.channels), plan.value.category.id)) ==>
                  o == Failed(UsageError(Mention(teacher.id) + " hat noch registrierte Schüler"))
                  && unchanged(g) && unchanged(store))
            && (plan.Ok? && OnlyCmd(CategoryTextChannels(old(g.channels), plan.value.category.id)) ==>
                  var p := plan.value;
                  var tcs := CategoryTextChannels(old(g.channels), p.category.id);
                  o == Done
                  && g.members == WithNick(WithRoleRemoved(old(g.members), teacher.id, p.teacherRole.id), teacher.id, None)
                  && g.channels == Orphaned(WithoutAll(old(g.channels), tcs), p.category.id)
                  && g.categories == WithoutCategory(old(g.categories), p.category.id)
                  && g.roles == old(g.roles) && g.nextId == old(g.nextId)
                  && store.users == old(store.users)[teacher.id := StudentCoordination.Withdrawn(LoadUser(old(store.users), teacher.id))]
                  && store.connections == old(store.connections) && store.voiceJoins == old(store.voiceJoins)
                  && g.calls == old(g.calls) + [RemoveRoleCall(teacher.id, p.teacherRole.id), EditNickCall(teacher.id, None)]
                                + DeleteCalls(tcs) + [DeleteCategoryCall(p.category.id)]
                  && (forall c :: c in g.channels ==> c.parent != Some(p.category.id))
                  && (forall c :: c in g.categories ==> c.id != p.category.id))
  {
    var plan := UnassignTeacherLookup(hasGuild, g.roles, g.categories, teacher);
    if plan.Err? {
      o := Failed(plan.error);
      return;
    }
    var p := plan.value;
    var tcs := CategoryTextChannels(g.channels, p.category.id);
    o := CheckNoStudents(tcs, teacher.id);
    if o.Failed? {
      return;
    }
    TearDown(g, store, teacher.id, p, tcs);
  }

  /** The effects of a permitted `unassign_teacher`, in order. */
  method TearDown(g: Guild, store: Store, teacher: Id, p: TeacherPlan, tcs: seq<Channel>)
    requires store.Valid()
    modifies g, store
    ensures store.Valid()
    ensures g.members == WithNick(WithRoleRemoved(old(g.members), teacher, p.teacherRole.id), teacher, None)
    ensures g.channels == Orphaned(WithoutAll(old(g.channels), tcs), p.category.id)
    ensures g.categories == WithoutCategory(old(g.categories), p.category.id)
    ensures g.roles == old(g.roles) && g.nextId == old(g.nextId)
    ensures store.users == old(store.users)[teacher := StudentCoordination.Withdrawn(LoadUser(old(store.users), teacher))]
    ensures store.connections == old(store.connections) && store.voiceJoins == old(store.voiceJoins)
    ensures g.calls == old(g.calls) + [RemoveRoleCall(teacher, p.teacherRole.id), EditNickCall(teacher, None)]
                       + DeleteCalls(tcs) + [DeleteCategoryCall(p.category.id)]
  {
    StudentCoordination.StripRoleAndNick(g, teacher, p.teacherRole.id);
    DeleteCategoryWithChannels(g, p.category.id, tcs);
    UnassignTeacherDatabase(store, teacher);
  }

  /** A teacher just registered can be unregistered again: once the member
      carries the new nick and the role, the lookup finds the new category
      and its only text channel is `cmd`. */
  lemma AssignThenUnassignAllowed(roles: seq<Role>, cats: seq<Category>, chs: seq<Channel>, n: nat,
                                  name: string, teacher: Member)
    requires forall j :: 0 <= j < |cats| ==> cats[j].name != TeacherNick(name)
    requires forall c :: c in chs ==> c.parent != Some(n)
    requires teacher.nick == Some(TeacherNick(name)) && Environment.HoldsFirst(teacher, roles, TeacherRoleName)
    ensures var cats' := cats + [Category(n, TeacherNick(name))];
            var chs' := chs + [Channel(n + 1, CmdName, Some(n), TextKind, |chs|)];
            var plan := UnassignTeacherLookup(true, roles, cats', teacher);
            plan.Ok? && plan.value.category == Category(n, TeacherNick(name))
            && OnlyCmd(CategoryTextChannels(chs', n))
  {
    var cats' := cats + [Category(n, TeacherNick(name))];
    assert cats'[|cats|].name == teacher.DisplayName();
    var plan := UnassignTeacherLookup(true, roles, cats', teacher);
    var k :| 0 <= k < |cats'| && cats'[k] == plan.value.category && plan.value.category.name == teacher.DisplayName()
             && forall j :: 0 <= j < k ==> cats'[j].name != teacher.DisplayName();
    assert k == |cats|;
    var chs' := chs + [Channel(n + 1, CmdName, Some(n), TextKind, |chs|)];
    var tcs := CategoryTextChannels(chs', n);
    forall j | 0 <= j < |tcs|
      ensures tcs[j].name == CmdName
    {
      assert tcs[j] in chs';
    }
  }
}
