/** src/cogs/MemberCog.py: `/rename-member`, which sets a member's stored real
    name and nick, and, depending on who renames whom, the teacher's category
    or the student's channel. */
module MemberCog {
  import opened Wrappers
  import opened Text
  import opened Platform
  import opened Members
  import opened Database
  import opened Seqs
  import Environment
  import Msg

  /** Who may rename whom, in the order the source asks. */
  datatype Branch = SelfAdmin | AdminRenamesTeacher | TeacherRenamesStudent | Forbidden

  /** The branch conditions, with Python's `and` evaluating its right side only
      when the left is true; every role predicate raises `CodeError` when its
      role does not exist. */
  function Decide(roles: seq<Role>, caller: Member, member: Member): (r: Result<Branch>)
    ensures r.Err? ==> r.error.CodeError?
    ensures Environment.RoleExists(roles, Environment.AdminRoleName)
            && Environment.RoleExists(roles, Environment.TeacherRoleName)
            && Environment.RoleExists(roles, Environment.StudentRoleName) ==>
              r.Ok?
              && (r.value == SelfAdmin <==>
                    caller.id == member.id && Environment.HoldsFirst(member, roles, Environment.AdminRoleName))
              && (r.value == AdminRenamesTeacher <==>
                    !(caller.id == member.id && Environment.HoldsFirst(member, roles, Environment.AdminRoleName))
                    && Environment.HoldsFirst(caller, roles, Environment.AdminRoleName)
                    && Environment.HoldsFirst(member, roles, Environment.TeacherRoleName))
              && (r.value == TeacherRenamesStudent <==>
                    !(caller.id == member.id && Environment.HoldsFirst(member, roles, Environment.AdminRoleName))
                    && !(Environment.HoldsFirst(caller, roles, Environment.AdminRoleName)
                         && Environment.HoldsFirst(member, roles, Environment.TeacherRoleName))
                    && Environment.HoldsFirst(caller, roles, Environment.TeacherRoleName)
                    && Environment.HoldsFirst(member, roles, Environment.StudentRoleName))
  {
    var selfAdmin :- if caller.id == member.id then Environment.IsAdmin(member, roles) else Ok(false);
    if selfAdmin then Ok(SelfAdmin) else
    var callerAdmin :- Environment.IsAdmin(caller, roles);
    var adminOnTeacher :- if callerAdmin then Environment.IsTeacher(member, roles) else Ok(false);
    if adminOnTeacher then Ok(AdminRenamesTeacher) else
    var callerTeacher :- Environment.IsTeacher(caller, roles);
    var teacherOnStudent :- if callerTeacher then Environment.IsStudent(member, roles) else Ok(false);
    if teacherOnStudent then Ok(TeacherRenamesStudent) else Ok(Forbidden)
  }

  /** A member who is not an admin may not rename themselves, unless they are
      at once a teacher and a student. */
  lemma SelfRenameNeedsAdmin(roles: seq<Role>, m: Member)
    requires Environment.RoleExists(roles, Environment.AdminRoleName)
    requires Environment.RoleExists(roles, Environment.TeacherRoleName)
    requires Environment.RoleExists(roles, Environment.StudentRoleName)
    requires !Environment.HoldsFirst(m, roles, Environment.AdminRoleName)
    requires !(Environment.HoldsFirst(m, roles, Environment.TeacherRoleName)
               && Environment.HoldsFirst(m, roles, Environment.StudentRoleName))
    ensures Decide(roles, m, m) == Ok(Forbidden)
  {
    var r := Decide(roles, m, m);
    assert r.Ok? && r.value != SelfAdmin && r.value != AdminRenamesTeacher && r.value != TeacherRenamesStudent;
  }

  /** The nick `generate_member_nick` gives after the rename; the stored
      user's teacher and student flags are parameters. */
  function NewNick(isTeacher: bool, isStudent: bool, realName: string): string {
    Environment.GenerateMemberNick(isTeacher, isStudent, Some(realName))
  }

  function Reply(member: Id, oldName: string, realName: string): string {
    Msg.SuccessMsg(Mention(member) + " von `" + oldName + "` zu `" + realName + "` umbenannt")
  }

  function NoChannelLog(member: Id, channel: int): string {
    "Channel für " + Mention(member) + " nicht gefunden, sollte aber `" + IntToString(channel) + "` sein"
  }

  function NoConnectionLog(member: Id): string {
    "Channel für " + Mention(member) + " nicht gefunden, da keine Verbindung existiert"
  }

  /** `db_member.edit(real_name=...)` */
  method SetRealName(store: Store, id: int, realName: string)
    requires store.Valid()
    modifies store
    ensures store.Valid()
    ensures store.users == old(store.users)[id := LoadUser(old(store.users), id).(realName := Some(realName))]
    ensures store.connections == old(store.connections) && store.voiceJoins == old(store.voiceJoins)
  {
    var user := new DBUser(store, id);
    ghost var before := user.State();
    var saved := user.Edit(store, [RealName(Some(realName))]);
    FoldLeftSnoc(before, [], RealName(Some(realName)), SetUserField);
    assert [] + [RealName(Some(realName))] == [RealName(Some(realName))];
  }

  /** The teacher-renames-student branch after its ownership check: the
      student's channel, found by the connection's channel id, is renamed to
      the slug of the new name; a missing connection or channel is only
      logged. */
  method RenameStudentChannel(g: Guild, member: Id, conn: ConnState, realName: string)
    modifies g
    ensures g.roles == old(g.roles) && g.members == old(g.members) && g.categories == old(g.categories)
    ensures g.nextId == old(g.nextId)
    ensures conn.channelId.None? || conn.channelId.value == 0 ==>
              g.channels == old(g.channels) && g.calls == old(g.calls) + [LogCall(NoConnectionLog(member))]
    ensures conn.channelId.Some? && conn.channelId.value != 0 ==>
              var cid := conn.channelId.value;
              (cid < 0 || FindChannelById(old(g.channels), cid).None? ==>
                 g.channels == old(g.channels) && g.calls == old(g.calls) + [LogCall(NoChannelLog(member, cid))])
              && (cid >= 0 && FindChannelById(old(g.channels), cid).Some? ==>
                    g.channels == Renamed(old(g.channels), cid, PlatformChannelName(StudentChannelName(realName)))
                    && g.calls == old(g.calls) + [RenameChannelCall(cid, StudentChannelName(realName))])
  {
    if conn.channelId.Some? && conn.channelId.value != 0 {
      var cid := conn.channelId.value;
      var channel := if cid >= 0 then FindChannelById(g.channels, cid) else None;
      if channel.Some? {
        g.RenameChannel(channel.value.id, StudentChannelName(realName));
      } else {
        g.Log(NoChannelLog(member, cid));
      }
    } else {
      g.Log(NoConnectionLog(member));
    }
  }

  /** The edits every permitted branch makes first: the stored real name,
      then the nick. */
  method RenameInPlace(g: Guild, store: Store, member: Id, realName: string, nick: string)
    requires store.Valid()
    modifies g, store
    ensures store.Valid()
    ensures store.users == old(store.users)[member := LoadUser(old(store.users), member).(realName := Some(realName))]
    ensures store.connections == old(store.connections) && store.voiceJoins == old(store.voiceJoins)
    ensures g.members == WithNick(old(g.members), member, Some(nick))
    ensures g.roles == old(g.roles) && g.categories == old(g.categories) && g.channels == old(g.channels)
    ensures g.nextId == old(g.nextId) && g.calls == old(g.calls) + [EditNickCall(member, Some(nick))]
  {
    SetRealName(store, member, realName);
    g.EditNick(member, Some(nick));
  }

  /** The admin-renames-teacher branch: the category carrying the nick the
      stored user had before the rename is looked up first and renamed to
      the new nick last. */
  method RenameTeacher(g: Guild, store: Store, member: Id, realName: string, isTeacher: bool, isStudent: bool)
    requires store.Valid()
    modifies g, store
    ensures store.Valid()
    ensures store.users == old(store.users)[member := LoadUser(old(store.users), member).(realName := Some(realName))]
    ensures store.connections == old(store.connections) && store.voiceJoins == old(store.voiceJoins)
    ensures g.members == WithNick(old(g.members), member, Some(NewNick(isTeacher, isStudent, realName)))
    ensures g.roles == old(g.roles) && g.channels == old(g.channels) && g.nextId == old(g.nextId)
    ensures var nick := NewNick(isTeacher, isStudent, realName);
            var before := Environment.GenerateMemberNick(isTeacher, isStudent, LoadUser(old(store.users), member).realName);
            var cat := FindCategoryByName(old(g.categories), before);
            (cat.None? ==> g.categories == old(g.categories) && g.calls == old(g.calls) + [EditNickCall(member, Some(nick))])
            && (cat.Some? ==>
                  g.categories == RenamedCategory(old(g.categories), cat.value.id, nick)
                  && g.calls == old(g.calls) + [EditNickCall(member, Some(nick)), RenameCategoryCall(cat.value.id, nick)])
  {
    var nick := NewNick(isTeacher, isStudent, realName);
    var category := FindCategoryByName(g.categories,
                                       Environment.GenerateMemberNick(isTeacher, isStudent, LoadUser(store.users, member).realName));
    RenameInPlace(g, store, member, realName, nick);
    if category.Some? {
      g.RenameCategory(category.value.id, nick);
    }
  }

  /** The teacher-renames-student branch: only the student's own teacher
      may rename, and then the edits are followed by the channel rename. */
  method RenameStudent(g: Guild, store: Store, teacher: Id, member: Id, realName: string, nick: string)
    returns (owned: bool)
    requires store.Valid()
    modifies g, store
    ensures store.Valid()
    ensures var conn := LoadConnection(old(store.connections), member);
            owned == (conn.teacherId == Some(teacher))
            && (!owned ==> unchanged(g) && unchanged(store))
            && (owned ==>
                  store.users == old(store.users)[member := LoadUser(old(store.users), member).(realName := Some(realName))]
                  && store.connections == old(store.connections) && store.voiceJoins == old(store.voiceJoins)
                  && g.members == WithNick(old(g.members), member, Some(nick))
                  && g.roles == old(g.roles) && g.categories == old(g.categories) && g.nextId == old(g.nextId)
                  && (conn.channelId.None? || conn.channelId.value == 0 ==>
                        g.channels == old(g.channels)
                        && g.calls == old(g.calls) + [EditNickCall(member, Some(nick)), LogCall(NoConnectionLog(member))])
                  && (conn.channelId.Some? && conn.channelId.value != 0
                      && (conn.channelId.value < 0 || FindChannelById(old(g.channels), conn.channelId.value).None?) ==>
                        g.channels == old(g.channels)
                        && g.calls == old(g.calls) + [EditNickCall(member, Some(nick)),
                                                      LogCall(NoChannelLog(member, conn.channelId.value))])
                  && (conn.channelId.Some? && conn.channelId.value > 0
                      && FindChannelById(old(g.channels), conn.channelId.value).Some? ==>
                        g.channels == Renamed(old(g.channels), conn.channelId.value, PlatformChannelName(StudentChannelName(realName)))
                        && g.calls == old(g.calls) + [EditNickCall(member, Some(nick)),
                                                      RenameChannelCall(conn.channelId.value, StudentChannelName(realName))]))
  {
    var conn := LoadConnection(store.connections, member);
    if conn.teacherId != Some(teacher) {
      return false;
    }
    RenameInPlace(g, store, member, realName, nick);
    RenameStudentChannel(g, member, conn, realName);
    owned := true;
  }

  /** `rename_member`. `caller` is `interaction.user`; `isTeacher` and
      `isStudent` are the flags `generate_member_nick` reads from the stored
      user. */
  method RenameMember(g: Guild, store: Store, hasGuild: bool, caller: UserRef, member: Member, realName: string,
                      isTeacher: bool, isStudent: bool) returns (r: Result<string>)
    requires store.Valid()
    modifies g, store
    ensures store.Valid()
    ensures !hasGuild ==>
              r == Err(CodeError("Dieser Befehl kann nur in einem Server verwendet werden")) && unchanged(g) && unchanged(store)
    ensures hasGuild && caller.AsUser? ==>
              r == Err(CodeError("Dieser Befehl kann nur von Mitgliedern verwendet werden")) && unchanged(g) && unchanged(store)
    ensures hasGuild && caller.AsMember? ==>
              var d := Decide(old(g.roles), caller.member, member);
              var conn := LoadConnection(old(store.connections), member.id);
              (d.Err? ==> r == Err(d.error) && unchanged(g) && unchanged(store))
              && (d == Ok(Forbidden) ==>
                    r == Err(UsageError("Du darfst diesen Nutzer nicht umbenennen")) && unchanged(g) && unchanged(store))
              && (d == Ok(TeacherRenamesStudent) && conn.teacherId != Some(caller.member.id) ==>
                    r == Err(UsageError("Du kannst nur deine eigenen Schüler umbenennen")) && unchanged(g) && unchanged(store))
    ensures hasGuild && caller.AsMember? ==>
              var d := Decide(old(g.roles), caller.member, member);
              var conn := LoadConnection(old(store.connections), member.id);
              var oldRow := LoadUser(old(store.users), member.id);
              var nick := NewNick(isTeacher, isStudent, realName);
              d.Ok? && d.value != Forbidden && (d.value == TeacherRenamesStudent ==> conn.teacherId == Some(caller.member.id)) ==>
                r == Ok(Reply(member.id, Environment.NameText(oldRow.realName), realName))
                && store.users == old(store.users)[member.id := oldRow.(realName := Some(realName))]
                && store.connections == old(store.connections) && store.voiceJoins == old(store.voiceJoins)
                && g.members == WithNick(old(g.members), member.id, Some(nick))
                && g.roles == old(g.roles) && g.nextId == old(g.nextId)
                && |g.calls| > |old(g.calls)| && g.calls[|old(g.calls)|] == EditNickCall(member.id, Some(nick))
                && (d.value != AdminRenamesTeacher ==> g.categories == old(g.categories))
                && (d.value != TeacherRenamesStudent ==> g.channels == old(g.channels))
    ensures hasGuild && caller.AsMember? && Decide(old(g.roles), caller.member, member) == Ok(SelfAdmin) ==>
              g.calls == old(g.calls) + [EditNickCall(member.id, Some(NewNick(isTeacher, isStudent, realName)))]
    ensures hasGuild && caller.AsMember? && Decide(old(g.roles), caller.member, member) == Ok(AdminRenamesTeacher) ==>
              var nick := NewNick(isTeacher, isStudent, realName);
              var before := Environment.GenerateMemberNick(isTeacher, isStudent, LoadUser(old(store.users), member.id).realName);
              var cat := FindCategoryByName(old(g.categories), before);
              (cat.None? ==> g.categories == old(g.categories) && g.calls == old(g.calls) + [EditNickCall(member.id, Some(nick))])
              && (cat.Some? ==>
                    g.categories == RenamedCategory(old(g.categories), cat.value.id, nick)
                    && g.calls == old(g.calls) + [EditNickCall(member.id, Some(nick)), RenameCategoryCall(cat.value.id, nick)])
    ensures hasGuild && caller.AsMember? && Decide(old(g.roles), caller.member, member) == Ok(TeacherRenamesStudent)
            && LoadConnection(old(store.connections), member.id).teacherId == Some(caller.member.id) ==>
              var nick := NewNick(isTeacher, isStudent, realName);
              var cid := LoadConnection(old(store.connections), member.id).channelId;
              (cid.None? || cid.value == 0 ==>
                 g.channels == old(g.channels)
                 && g.calls == old(g.calls) + [EditNickCall(member.id, Some(nick)), LogCall(NoConnectionLog(member.id))])
              && (cid.Some? && cid.value != 0 && (cid.value < 0 || FindChannelById(old(g.channels), cid.value).None?) ==>
                    g.channels == old(g.channels)
                    && g.calls == old(g.calls) + [EditNickCall(member.id, Some(nick)), LogCall(NoChannelLog(member.id, cid.value))])
              && (cid.Some? && cid.value > 0 && FindChannelById(old(g.channels), cid.value).Some? ==>
                    g.channels == Renamed(old(g.channels), cid.value, PlatformChannelName(StudentChannelName(realName)))
                    && g.calls == old(g.calls) + [EditNickCall(member.id, Some(nick)),
                                                  RenameChannelCall(cid.value, StudentChannelName(realName))])
  {
    if !hasGuild {
      return Err(CodeError("Dieser Befehl kann nur in einem Server verwendet werden"));
    }
    if caller.AsUser? {
      return Err(CodeError("Dieser Befehl kann nur von Mitgliedern verwendet werden"));
    }
    var user := caller.member;
    var oldName := Environment.NameText(LoadUser(store.users, member.id).realName);
    var d := Decide(g.roles, user, member);
    if d.Err? {
      return Err(d.error);
    }
    var nick := NewNick(isTeacher, isStudent, realName);
    match d.value {
      case SelfAdmin =>
        RenameInPlace(g, store, member.id, realName, nick);
      case AdminRenamesTeacher =>
        RenameTeacher(g, store, member.id, realName, isTeacher, isStudent);
      case TeacherRenamesStudent =>
        var owned := RenameStudent(g, store, user.id, member.id, realName, nick);
        if !owned {
          return Err(UsageError("Du kannst nur deine eigenen Schüler umbenennen"));
        }
      case Forbidden =>
        return Err(UsageError("Du darfst diesen Nutzer nicht umbenennen"));
    }
    r := Ok(Reply(member.id, oldName, realName));
  }
}
