/** src/cogs/SetupCog.py: the owner check of `/setup-server` and the
    `/update-realname` command. */
module SetupCog {
  import opened Wrappers
  import opened Text
  import opened Platform
  import opened Members
  import opened Database
  import Environment
  import Msg
  import MemberCog

  // ---------------------------------------------------------------------------
  // `setup_server`

  const NoGuild: string := "Dieser Befehl kann nur in einem Server verwendet werden."
  const NoOwner: string := "Der Server hat keinen Besitzer."
  const NotOwner: string := "Du musst der Server-Besitzer sein, um den Server zu als Nachhilfe Server zu initialisieren."
  const Configured: string := "Der Server wurde erfolgreich für die Nutzung des Bots konfiguriert."

  /** The checks of `setup_server` and its reply; the configuration it then
      performs is not part of this model. Only the owner gets past them. */
  function SetupServer(hasGuild: bool, owner: Option<Id>, caller: Id): (r: Result<string>)
    ensures !hasGuild ==> r == Err(UsageError(NoGuild))
    ensures hasGuild && owner.None? ==> r == Err(UsageError(NoOwner))
    ensures hasGuild && owner.Some? && owner.value != caller ==> r == Err(MissingRole(NotOwner))
    ensures r.Ok? <==> hasGuild && owner == Some(caller)
    ensures r.Ok? ==> r.value == Msg.SuccessMsg(Configured)
  {
    if !hasGuild then Err(UsageError(NoGuild))
    else if owner.None? then Err(UsageError(NoOwner))
    else if owner.value != caller then Err(MissingRole(NotOwner))
    else Ok(Msg.SuccessMsg(Configured))
  }

  // ---------------------------------------------------------------------------
  // `update_realname`

  const NotAMember: string := "Der Benutzer ist kein Mitglied des Servers."
  const NoAdminRole: string := "Die Rolle 'Admin' existiert nicht."
  const NotPermitted: string := "Du musst Admin oder Lehrer sein, um den echten Namen eines anderen Benutzers zu aktualisieren."

  function Updated(user: Id, newName: string): string {
    Msg.SuccessMsg("Der echte Name von " + Mention(user) + " wurde erfolgreich zu '" + newName + "' aktualisiert.")
  }

  /** The checks before any effect: a guild, and, when someone else is
      renamed, a caller who is a member holding the admin or the teacher role.
      The result is the student role. */
  function UpdateRealnameGuard(hasGuild: bool, roles: seq<Role>, caller: UserRef, user: Member): (r: Result<Role>)
    ensures !hasGuild ==> r == Err(UsageError(NoGuild))
    ensures hasGuild && caller.AsUser? && caller.id != user.id ==> r == Err(CodeError(NotAMember))
    ensures hasGuild && caller.AsMember? && caller.member.id != user.id && FindRoleByName(roles, Environment.AdminRoleName).None? ==>
              r == Err(CodeError(NoAdminRole))
    ensures hasGuild && caller.AsMember? && caller.member.id != user.id
            && FindRoleByName(roles, Environment.AdminRoleName).Some?
            && Environment.UnwrappedGetRole(roles, Environment.TeacherRoleName).Ok?
            && FindRoleByName(roles, Environment.AdminRoleName).value.id !in caller.member.roles
            && Environment.UnwrappedGetRole(roles, Environment.TeacherRoleName).value.id !in caller.member.roles ==>
              r == Err(MissingRole(NotPermitted))
    ensures r.Err? && hasGuild && !(caller.AsUser? && caller.id != user.id) ==> r.error.CodeError? || r.error.MissingRole?
    ensures r.Ok? ==> hasGuild && r == Environment.UnwrappedGetRole(roles, Environment.StudentRoleName)
    ensures hasGuild && CallerId(caller) == user.id ==> r == Environment.UnwrappedGetRole(roles, Environment.StudentRoleName)
  {
    if !hasGuild then Err(UsageError(NoGuild)) else
    var checked :- if CallerId(caller) != user.id then OtherUserCheck(roles, caller) else Ok(());
    Environment.UnwrappedGetRole(roles, Environment.StudentRoleName)
  }

  function CallerId(caller: UserRef): Id {
    if caller.AsMember? then caller.member.id else caller.id
  }

  /** The authorisation of a caller who renames someone else. */
  function OtherUserCheck(roles: seq<Role>, caller: UserRef): (r: Result<()>)
    ensures r.Ok? <==> caller.AsMember? && FindRoleByName(roles, Environment.AdminRoleName).Some?
                       && Environment.UnwrappedGetRole(roles, Environment.TeacherRoleName).Ok?
                       && (FindRoleByName(roles, Environment.AdminRoleName).value.id in caller.member.roles
                           || Environment.UnwrappedGetRole(roles, Environment.TeacherRoleName).value.id in caller.member.roles)
  {
    if caller.AsUser? then Err(CodeError(NotAMember)) else
    var admin := FindRoleByName(roles, Environment.AdminRoleName);
    if admin.None? then Err(CodeError(NoAdminRole)) else
    var teacher :- Environment.UnwrappedGetRole(roles, Environment.TeacherRoleName);
    if admin.value.id !in caller.member.roles && teacher.id !in caller.member.roles then Err(MissingRole(NotPermitted))
    else Ok(())
  }

  /** The name `update_realname` looks for the student's channel under: the
      slug of the member's current nick. */
  function ChannelLookupName(nick: string): string {
    StudentChannelName(nick)
  }

  /** The student's channel, renamed when the member holds the student role,
      has a nick, and a text channel of the looked-up name exists. */
  method RenameChannelByNick(g: Guild, user: Member, studentRole: Role, newName: string)
    modifies g
    ensures g.roles == old(g.roles) && g.members == old(g.members) && g.categories == old(g.categories)
    ensures g.nextId == old(g.nextId)
    ensures var found := if studentRole.id in user.roles && user.nick.Some?
                         then FindTextChannelByName(old(g.channels), ChannelLookupName(user.nick.value)) else None;
            (found.None? ==> g.channels == old(g.channels) && g.calls == old(g.calls))
            && (found.Some? ==>
                  g.channels == Renamed(old(g.channels), found.value.id, PlatformChannelName(StudentChannelName(newName)))
                  && g.calls == old(g.calls) + [RenameChannelCall(found.value.id, StudentChannelName(newName))])
  {
    if studentRole.id in user.roles && user.nick.Some? {
      var channel := FindTextChannelByName(g.channels, ChannelLookupName(user.nick.value));
      if channel.Some? {
        g.RenameChannel(channel.value.id, StudentChannelName(newName));
      }
    }
  }

  /** `update_realname`: after the checks, the student channel rename, the
      nick, which becomes a student nick whatever the member's roles, and the
      stored real name. `user` is the member value the command received. */
  method UpdateRealname(g: Guild, store: Store, hasGuild: bool, caller: UserRef, user: Member, newName: string)
    returns (r: Result<string>)
    requires store.Valid()
    modifies g, store
    ensures store.Valid()
    ensures var guard := UpdateRealnameGuard(hasGuild, old(g.roles), caller, user);
            (guard.Err? ==> r == Err(guard.error) && unchanged(g) && unchanged(store))
            && (guard.Ok? ==>
                  var found := if guard.value.id in user.roles && user.nick.Some?
                               then FindTextChannelByName(old(g.channels), ChannelLookupName(user.nick.value)) else None;
                  var nickCall := EditNickCall(user.id, Some(StudentNick(newName)));
                  r == Ok(Updated(user.id, newName))
                  && store.users == old(store.users)[user.id := LoadUser(old(store.users), user.id).(realName := Some(newName))]
                  && store.connections == old(store.connections) && store.voiceJoins == old(store.voiceJoins)
                  && g.members == WithNick(old(g.members), user.id, Some(StudentNick(newName)))
                  && g.roles == old(g.roles) && g.categories == old(g.categories) && g.nextId == old(g.nextId)
                  && (found.None? ==> g.channels == old(g.channels) && g.calls == old(g.calls) + [nickCall])
                  && (found.Some? ==>
                        g.channels == Renamed(old(g.channels), found.value.id, PlatformChannelName(StudentChannelName(newName)))
                        && g.calls == old(g.calls) + [RenameChannelCall(found.value.id, StudentChannelName(newName)), nickCall]))
  {
    var guard := UpdateRealnameGuard(hasGuild, g.roles, caller, user);
    if guard.Err? {
      return Err(guard.error);
    }
    RenameChannelByNick(g, user, guard.value, newName);
    g.EditNick(user.id, Some(StudentNick(newName)));
    MemberCog.SetRealName(store, user.id, newName);
    r := Ok(Updated(user.id, newName));
  }

  /** The slug of a student nick is two characters longer than the name's
      normalised form, so the two never coincide. */
  lemma NickSlugDiffers(name: string)
    ensures ChannelLookupName(StudentNick(name)) != PlatformChannelName(name)
  {
    PlatformNameIsSlug(name);
    assert |ChannelLookupName(StudentNick(name))| == |name| + 2;
  }

  /** The student channel is stored under the normalised real name, but
      `update_realname` looks for the slug of the nick, icon included. For a
      student whose nick is the student nick of their name, and with no other
      text channel carrying that slug, the channel is never found and keeps
      its old name. */
  lemma LookupMissesStudentChannel(chs: seq<Channel>, name: string, created: Channel)
    requires created.name == PlatformChannelName(name)
    requires forall j :: 0 <= j < |chs| ==> !IsTextNamed(chs[j], ChannelLookupName(StudentNick(name)))
    ensures FindTextChannelByName(chs + [created], ChannelLookupName(StudentNick(name))).None?
  {
    NickSlugDiffers(name);
    var all := chs + [created];
    forall j | 0 <= j < |all|
      ensures !IsTextNamed(all[j], ChannelLookupName(StudentNick(name)))
    {
      if j < |chs| {
        assert all[j] == chs[j];
      }
    }
  }

  /** The name the lookup evidently means: the slug of the name the nick
      carries. */
  function IntendedLookupName(nick: string): (r: string)
    ensures |r| == (if |nick| <= 2 then 0 else |nick| - 2)
  {
    StudentChannelName(NameByNick(nick))
  }

  /** With the intended name, the channel created for the student is found:
      the first text channel of that name, and the created one when no
      earlier channel carries it. */
  lemma IntendedLookupFinds(chs: seq<Channel>, name: string, created: Channel)
    requires created.kind == TextKind && created.name == PlatformChannelName(name)
    ensures var found := FindTextChannelByName(chs + [created], IntendedLookupName(StudentNick(name)));
            found.Some? && found.value.name == created.name
            && ((forall j :: 0 <= j < |chs| ==> !IsTextNamed(chs[j], created.name)) ==> found.value == created)
  {
    NickRoundTrip(StudentNick(name), name);
    PlatformNameIsSlug(name);
    var all := chs + [created];
    assert all[|chs|] == created && IsTextNamed(all[|chs|], created.name);
    if forall j :: 0 <= j < |chs| ==> !IsTextNamed(chs[j], created.name) {
      forall j | 0 <= j < |chs|
        ensures !IsTextNamed(all[j], created.name)
      {
        assert all[j] == chs[j];
      }
    }
  }
}
