/** src/Utils/environment.py: lookups that raise `CodeError`, role predicates,
    member resolution from an id argument, nick generation, the archived-member
    test, autocomplete filtering and the reply texts. */
module Environment {
  import opened Wrappers
  import opened Text
  import opened Seqs
  import opened Platform
  import opened Members
  import Msg

  const StudentRoleName: string := "Schüler"
  const TeacherRoleName: string := "Lehrer"
  const AdminRoleName: string := "Admin"
  const ArchiveCategoryName: string := "\U{1F4DA} Wissensbereich"
  const WaveIcon: char := '\U{1F44B}'
  const MaxChoices: nat := 25

  /** The tail of the `__unwrapped_get` message: every collection passed to it
      (`guild.roles`, `guild.categories`, `guild.text_channels`) is a list. */
  const NotFoundSuffix: string := " `(<class 'list'>)` not found"

  // ---------------------------------------------------------------------------
  // `__unwrapped_get`

  function UnwrappedGetRole(roles: seq<Role>, name: string): (r: Result<Role>)
    ensures r.Ok? ==> exists k :: 0 <= k < |roles| && roles[k] == r.value && r.value.name == name
                                  && forall j :: 0 <= j < k ==> roles[j].name != name
    ensures r.Err? <==> forall j :: 0 <= j < |roles| ==> roles[j].name != name
    ensures r.Err? ==> r.error == CodeError(name + NotFoundSuffix)
  {
    match FindRoleByName(roles, name)
    case Some(role) => Ok(role)
    case None => Err(CodeError(name + NotFoundSuffix))
  }

  function UnwrappedGetCategory(cats: seq<Category>, name: string): (r: Result<Category>)
    ensures r.Ok? ==> exists k :: 0 <= k < |cats| && cats[k] == r.value && r.value.name == name
                                  && forall j :: 0 <= j < k ==> cats[j].name != name
    ensures r.Err? <==> forall j :: 0 <= j < |cats| ==> cats[j].name != name
    ensures r.Err? ==> r.error == CodeError(name + NotFoundSuffix)
  {
    match FindCategoryByName(cats, name)
    case Some(c) => Ok(c)
    case None => Err(CodeError(name + NotFoundSuffix))
  }

  /** `get_archive_channel(guild)`: the '📚 Wissensbereich' category. */
  function GetArchiveCategory(cats: seq<Category>): (r: Result<Category>)
    ensures r.Ok? ==> r.value in cats && r.value.name == ArchiveCategoryName
    ensures r.Err? <==> forall j :: 0 <= j < |cats| ==> cats[j].name != ArchiveCategoryName
    ensures r.Err? ==> r.error.CodeError?
  {
    UnwrappedGetCategory(cats, ArchiveCategoryName)
  }

  // ---------------------------------------------------------------------------
  // Role predicates

  /** Role `k` is the first role of the guild called `name`. */
  predicate FirstNamed(roles: seq<Role>, name: string, k: int) {
    0 <= k < |roles| && roles[k].name == name && forall j :: 0 <= j < k ==> roles[j].name != name
  }

  /** `get_X_role(member.guild) in member.roles`: whether the member holds the
      first role of the guild with that name; `CodeError` when there is none. */
  function HoldsNamedRole(m: Member, roles: seq<Role>, name: string): (r: Result<bool>)
    ensures r.Err? <==> forall j :: 0 <= j < |roles| ==> roles[j].name != name
    ensures r.Err? ==> r.error == CodeError(name + NotFoundSuffix)
    ensures r.Ok? ==> (r.value <==> exists k :: FirstNamed(roles, name, k) && roles[k].id in m.roles)
  {
    var role :- UnwrappedGetRole(roles, name);
    Ok(role.id in m.roles)
  }

  /** `is_student(member)` */
  function IsStudent(m: Member, roles: seq<Role>): Result<bool> {
    HoldsNamedRole(m, roles, StudentRoleName)
  }

  /** `is_teacher(member)` */
  function IsTeacher(m: Member, roles: seq<Role>): Result<bool> {
    HoldsNamedRole(m, roles, TeacherRoleName)
  }

  /** `is_admin(member)` */
  function IsAdmin(m: Member, roles: seq<Role>): Result<bool> {
    HoldsNamedRole(m, roles, AdminRoleName)
  }

  ghost predicate HoldsFirst(m: Member, roles: seq<Role>, name: string) {
    exists k :: FirstNamed(roles, name, k) && roles[k].id in m.roles
  }

  ghost predicate RoleExists(roles: seq<Role>, name: string) {
    exists j :: 0 <= j < |roles| && roles[j].name == name
  }

  /** `is_assigned(member)`: student, teacher or admin, asked in that order;
      `or` stops at the first true answer, so a later missing role is never
      looked up. */
  function IsAssigned(m: Member, roles: seq<Role>): (r: Result<bool>)
    ensures HoldsNamedRole(m, roles, StudentRoleName) == Ok(true) ==> r == Ok(true)
    ensures RoleExists(roles, StudentRoleName) && RoleExists(roles, TeacherRoleName) && RoleExists(roles, AdminRoleName)
            ==> r.Ok? && (r.value <==> HoldsFirst(m, roles, StudentRoleName) || HoldsFirst(m, roles, TeacherRoleName)
                                       || HoldsFirst(m, roles, AdminRoleName))
    ensures r.Err? ==> r.error.CodeError?
  {
    var s :- IsStudent(m, roles);
    if s then Ok(true) else
    var t :- IsTeacher(m, roles);
    if t then Ok(true) else IsAdmin(m, roles)
  }

  // ---------------------------------------------------------------------------
  // `get_member`

  /** The `id: int | str` argument. */
  datatype IdArg = IntArg(n: int) | StrArg(s: string)

  /** The `discord.Guild | discord.Interaction` argument; an interaction may
      come without a guild. The guild's members are passed beside it. */
  datatype Source = GuildSource | InteractionSource(hasGuild: bool)

  /** The id `get_member` looks for, or `None` when a string is not all digits. */
  function ParsedId(id: IdArg): Option<int> {
    match id
    case IntArg(n) => Some(n)
    case StrArg(s) => if IsDigits(s) then Some(ParseNat(s)) else None
  }

  /** `get_member(source, id)` */
  function GetMember(source: Source, members: seq<Member>, id: IdArg): (r: Result<Member>)
    ensures ParsedId(id).None? ==> r == Err(CodeError("ID " + id.s + " is not a valid integer"))
    ensures ParsedId(id).Some? && source == InteractionSource(false)
            ==> r == Err(CodeError("Guild not found in the interaction"))
    ensures r.Ok? <==> ParsedId(id).Some? && source != InteractionSource(false)
                       && exists j :: 0 <= j < |members| && members[j].id == ParsedId(id).value
    ensures r.Ok? ==> r.value in members && r.value.id == ParsedId(id).value
    ensures r.Err? ==> r.error.CodeError?
  {
    match ParsedId(id)
    case None => Err(CodeError("ID " + id.s + " is not a valid integer"))
    case Some(n) =>
      if source == InteractionSource(false) then Err(CodeError("Guild not found in the interaction"))
      else if n < 0 then Err(CodeError("Member with ID " + IntToString(n) + " not found"))
      else match FindMemberById(members, n)
        case Some(m) => Ok(m)
        case None => Err(CodeError("Member with ID " + IntToString(n) + " not found"))
  }

  // ---------------------------------------------------------------------------
  // `generate_member_nick`

  /** An f-string renders a missing name as "None". */
  function NameText(name: Option<string>): string {
    if name.Some? then name.value else "None"
  }

  /** `generate_member_nick(db_member)`; the teacher and student flags of the
      stored user are parameters. */
  function GenerateMemberNick(isTeacher: bool, isStudent: bool, realName: Option<string>): (r: string)
    ensures |r| >= 2 && r[1] == ' '
    ensures r[0] == TeacherIcon <==> isTeacher
    ensures r[0] == StudentIcon <==> !isTeacher && isStudent
    ensures r[0] == WaveIcon <==> !isTeacher && !isStudent
    ensures NameByNick(r) == NameText(realName)
  {
    var icon := if isTeacher then TeacherIcon else if isStudent then StudentIcon else WaveIcon;
    [icon, ' '] + NameText(realName)
  }

  // ---------------------------------------------------------------------------
  // `is_member_archived`

  /** `is_member_archived(member)`. The channel of the member's stored
      connection is a parameter: `None` when there is no connection or it
      has no channel. */
  function IsMemberArchived(m: Member, roles: seq<Role>, cats: seq<Category>, chs: seq<Channel>,
                            connChannel: Option<Id>): (r: Result<bool>)
    ensures r == Ok(true) <==>
              IsStudent(m, roles) == Ok(true) && connChannel.Some?
              && FindChannelById(chs, connChannel.value).Some?
              && GetArchiveCategory(cats).Ok?
              && FindChannelById(chs, connChannel.value).value.parent == Some(GetArchiveCategory(cats).value.id)
    ensures r.Err? <==>
              IsStudent(m, roles).Err?
              || (IsStudent(m, roles) == Ok(true) && connChannel.Some?
                  && FindChannelById(chs, connChannel.value).Some? && GetArchiveCategory(cats).Err?)
  {
    var student :- IsStudent(m, roles);
    if student && connChannel.Some? then
      match FindChannelById(chs, connChannel.value)
      case None => Ok(false)
      case Some(ch) =>
        var archive :- GetArchiveCategory(cats);
        Ok(ch.parent == Some(archive.id))
    else Ok(false)
  }

  // ---------------------------------------------------------------------------
  // `filter_members_for_autocomplete`

  datatype Choice = Choice(name: string, value: string)

  /** The generator's condition. */
  predicate Matches(m: Member, current: string, pred: Member -> bool) {
    pred(m) && !m.bot && Contains(LowerStr(m.DisplayName()), LowerStr(current))
  }

  function Matcher(current: string, pred: Member -> bool): Member -> bool {
    m => Matches(m, current, pred)
  }

  function ChoiceOf(m: Member): Choice {
    Choice(m.DisplayName(), NatToString(m.id))
  }

  function ChoicesOf(ms: seq<Member>): (r: seq<Choice>)
    ensures |r| == |ms| && forall i :: 0 <= i < |ms| ==> r[i] == ChoiceOf(ms[i])
  {
    seq(|ms|, i requires 0 <= i < |ms| => ChoiceOf(ms[i]))
  }

  /** `filter_members_for_autocomplete(interaction, current, predicate)`; the
      guild's members are `None` when the interaction has no guild. */
  function FilterMembersForAutocomplete(guildMembers: Option<seq<Member>>, current: string,
                                        pred: Member -> bool): (r: seq<Choice>)
    ensures guildMembers.None? ==> r == []
    ensures |r| <= MaxChoices
    ensures guildMembers.Some? ==>
              var f := Filter(guildMembers.value, Matcher(current, pred));
              |r| == (if |f| < MaxChoices then |f| else MaxChoices)
              && forall i :: 0 <= i < |r| ==>
                   f[i] in guildMembers.value && Matches(f[i], current, pred) && r[i] == ChoiceOf(f[i])
  {
    if guildMembers.None? then []
    else
      var all := ChoicesOf(Filter(guildMembers.value, Matcher(current, pred)));
      if |all| < MaxChoices then all else all[..MaxChoices]
  }

  /** While fewer than 25 members match, every matching member is offered. */
  lemma AutocompleteComplete(ms: seq<Member>, current: string, pred: Member -> bool, m: Member)
    requires m in ms && Matches(m, current, pred)
    requires |Filter(ms, Matcher(current, pred))| < MaxChoices
    ensures ChoiceOf(m) in FilterMembersForAutocomplete(Some(ms), current, pred)
  {
    var f := Filter(ms, Matcher(current, pred));
    var r := FilterMembersForAutocomplete(Some(ms), current, pred);
    var j :| 0 <= j < |ms| && ms[j] == m;
    assert Matcher(current, pred)(ms[j]);
    assert m in f;
    var k :| 0 <= k < |f| && f[k] == m;
    assert |r| == |f|;
    assert r[k] == ChoiceOf(m);
  }

  /** The value of every offered choice resolves through `get_member` to a
      member with the offered id. */
  lemma AutocompleteValueResolves(ms: seq<Member>, current: string, pred: Member -> bool, i: nat)
    requires i < |FilterMembersForAutocomplete(Some(ms), current, pred)|
    ensures var c := FilterMembersForAutocomplete(Some(ms), current, pred)[i];
            GetMember(GuildSource, ms, StrArg(c.value)).Ok?
            && NatToString(GetMember(GuildSource, ms, StrArg(c.value)).value.id) == c.value
  {
    var c := FilterMembersForAutocomplete(Some(ms), current, pred)[i];
    var m :| m in ms && Matches(m, current, pred) && c == ChoiceOf(m);
    ParseNatToString(m.id);
    assert ParsedId(StrArg(c.value)) == Some(m.id as int);
    var j :| 0 <= j < |ms| && ms[j] == m;
    assert ms[j].id == m.id;
  }

  // ---------------------------------------------------------------------------
  // Reply texts

  const DevBoldMark: string := "\U{26A0}\U{FE0F} **[DEV]**"

  /** `failure_response(msg, error=None)` */
  function FailureResponse(msg: string, error: Option<Error> := None): (r: string)
    ensures error.None? ==> IsPrefix(Msg.CrossMark + " ", r) && r[|Msg.CrossMark| + 1..] == msg
    ensures error.Some? ==> |r| >= |Msg.ErrorBlock(error)|
                            && r[|r| - |Msg.ErrorBlock(error)|..] == Msg.ErrorBlock(error)
  {
    match error
    case Some(CodeError(e)) => DevBoldMark + " Es trat ein Fehler auf: " + msg + " " + Msg.ErrorBlock(error)
    case None => Msg.CrossMark + " " + msg
    case Some(_) => Msg.CrossMark + " Es trat ein Fehler auf: " + Msg.ErrorBlock(error)
  }

  /** The developer mark opens the reply exactly for a `CodeError`. */
  lemma FailureResponseMark(msg: string, error: Option<Error>)
    ensures IsPrefix(DevBoldMark, FailureResponse(msg, error)) <==> error.Some? && error.value.CodeError?
  {
    var r := FailureResponse(msg, error);
    if error.Some? && error.value.CodeError? {
      assert r == DevBoldMark + (" Es trat ein Fehler auf: " + msg + " " + Msg.ErrorBlock(error));
    } else {
      assert r[0] == Msg.CrossMark[0];
    }
  }

  /** The text `msg` is shown for a `CodeError` and when there is no error... */
  lemma FailureResponseShowsMsg(msg: string, error: Option<Error>)
    requires error.None? || error.value.CodeError?
    ensures Contains(FailureResponse(msg, error), msg)
  {
    var r := FailureResponse(msg, error);
    if error.None? {
      ContainsAt(r, msg, |Msg.CrossMark| + 1);
    } else {
      var k := |DevBoldMark + " Es trat ein Fehler auf: "|;
      assert r[k..k + |msg|] == msg;
      ContainsAt(r, msg, k);
    }
  }

  /** ...and for any other error the reply does not depend on `msg` at all. */
  lemma FailureResponseDropsMsg(m1: string, m2: string, e: Error)
    requires !e.CodeError?
    ensures FailureResponse(m1, Some(e)) == FailureResponse(m2, Some(e))
  {
  }

  /** What `handle_app_command_error` replies and whether it also logs. */
  datatype ErrorReply = ErrorReply(reply: string, logged: bool)

  /** The reply text of `create_app_command_error_msg` and the log decision of
      `handle_app_command_error`; the log and the reply themselves are
      messages sent by the platform. */
  function HandleAppCommandError(hasGuild: bool, error: Error, requiredRole: string): (r: ErrorReply)
    ensures r.logged <==> hasGuild && !error.UsageError? && !error.MissingRole?
    ensures error.UsageError? ==> IsPrefix(Msg.CrossMark + " ", r.reply)
                                  && r.reply[|Msg.CrossMark| + 1..] == error.msg
    ensures error.MissingRole? ==> Contains(r.reply, requiredRole)
    ensures !error.UsageError? && !error.MissingRole? ==>
              |r.reply| >= |Msg.ErrorBlock(Some(error))|
              && r.reply[|r.reply| - |Msg.ErrorBlock(Some(error))|..] == Msg.ErrorBlock(Some(error))
  {
    var reply := match error
      case MissingRole(_) =>
        FailureResponse("Du musst die Rolle '" + requiredRole + "' haben, um diesen Befehl zu benutzen.")
      case CodeError(_) => FailureResponse("Ein interner Fehler ist aufgetreten.", Some(error))
      case UsageError(m) => FailureResponse(m)
      case _ => FailureResponse("Ein unbekannter Fehler ist aufgetreten.", Some(error));
    assert error.MissingRole? ==> Contains(reply, requiredRole) by {
      if error.MissingRole? {
        var text := "Du musst die Rolle '" + requiredRole + "' haben, um diesen Befehl zu benutzen.";
        var k := |Msg.CrossMark + " " + "Du musst die Rolle '"|;
        assert reply[k..k + |requiredRole|] == requiredRole;
        ContainsAt(reply, requiredRole, k);
      }
    }
    ErrorReply(reply, hasGuild && !error.UsageError? && !error.MissingRole?)
  }
}
