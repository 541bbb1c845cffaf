/** cogs/TeacherCoordinator.py: the earliest registering and unregistering of
    a teacher. Failures are not raised but returned as reply texts built by
    utils.py, and unregistering goes ahead without a category, noting its
    absence in the reply. */
module LegacyTeacherCoordinator {
  import opened Wrappers
  import opened Text
  import opened Platform
  import opened Members
  import Environment
  import RootUtils
  import Msg
  import TeacherCoordination
  import StudentCoordination

  const TeacherRoleName: string := "Lehrer"

  function Welcome(teacher: Id): string {
    "\U{1F44B} Willkommen, " + Mention(teacher) + "! Hier kannst du Befehle ausführen."
  }

  /** `' '.join(parts)` */
  function Joined(parts: seq<string>): (r: string)
    ensures parts == [] ==> r == ""
    ensures |parts| == 1 ==> r == parts[0]
  {
    if parts == [] then ""
    else if |parts| == 1 then parts[0]
    else Joined(parts[..|parts| - 1]) + " " + parts[|parts| - 1]
  }

  /** The checks both commands open with. */
  datatype Checked = Refused(reply: string) | Cleared(teacher: Member, role: Role)

  function CommonChecks(hasGuild: bool, roles: seq<Role>, members: seq<Member>, memberId: Id): (r: Checked)
    ensures !hasGuild ==> r == Refused(RootUtils.ErrorMsg("Guild is None"))
    ensures hasGuild && (forall j :: 0 <= j < |members| ==> members[j].id != memberId) ==>
              r == Refused(RootUtils.ErrorMsg("Teacher is not a member"))
    ensures hasGuild && (exists j :: 0 <= j < |members| && members[j].id == memberId)
            && !Environment.RoleExists(roles, TeacherRoleName) ==>
              r == Refused(RootUtils.ErrorMsg("Teacher role not found"))
    ensures r.Cleared? <==> hasGuild && (exists j :: 0 <= j < |members| && members[j].id == memberId)
                            && Environment.RoleExists(roles, TeacherRoleName)
    ensures r.Cleared? ==> r.teacher in members && r.teacher.id == memberId
                           && exists k :: Environment.FirstNamed(roles, TeacherRoleName, k) && roles[k] == r.role
  {
    if !hasGuild then Refused(RootUtils.ErrorMsg("Guild is None")) else
    match FindMemberById(members, memberId)
    case None => Refused(RootUtils.ErrorMsg("Teacher is not a member"))
    case Some(teacher) =>
      match FindRoleByName(roles, TeacherRoleName)
      case None => Refused(RootUtils.ErrorMsg("Teacher role not found"))
      case Some(role) => Cleared(teacher, role)
  }

  /** `__assign_teacher`. The category is named by the display name of the
      member value looked up before the nick edit. */
  method AssignTeacher(g: Guild, hasGuild: bool, memberId: Id, teacherName: string) returns (reply: string)
    modifies g
    ensures var c := CommonChecks(hasGuild, old(g.roles), old(g.members), memberId);
            (c.Refused? ==> reply == c.reply && unchanged(g))
            && (c.Cleared? && c.role.id in c.teacher.roles ==>
                  reply == RootUtils.ErrorMsg(Mention(memberId) + " ist bereits registriert") && unchanged(g))
            && (c.Cleared? && c.role.id !in c.teacher.roles ==>
                  var cat := Category(old(g.nextId), c.teacher.DisplayName());
                  var cmd := Channel(old(g.nextId) + 1, TeacherCoordination.CmdName, Some(cat.id), TextKind, |old(g.channels)|);
                  reply == Msg.SuccessMsg("Lehrer " + Mention(memberId) + " registriert")
                  && g.members == WithNick(WithRoleAdded(old(g.members), memberId, c.role.id),
                                           memberId, Some(TeacherNick(teacherName)))
                  && g.categories == old(g.categories) + [cat] && g.channels == old(g.channels) + [cmd]
                  && g.roles == old(g.roles) && g.nextId == old(g.nextId) + 2
                  && g.calls == old(g.calls) + [AddRoleCall(memberId, c.role.id),
                                                EditNickCall(memberId, Some(TeacherNick(teacherName))),
                                                CreateCategoryCall(c.teacher.DisplayName(), cat.id),
                                                CreateTextChannelCall(TeacherCoordination.CmdName, Some(cat.id), cmd.id),
                                                SendCall(cmd.id, Welcome(memberId))])
  {
    var c := CommonChecks(hasGuild, g.roles, g.members, memberId);
    if c.Refused? {
      return c.reply;
    }
    var teacher := c.teacher;
    if c.role.id in teacher.roles {
      return RootUtils.ErrorMsg(Mention(teacher.id) + " ist bereits registriert");
    }
    // the category takes the display name of the member value read before the nick edit
    var category, cmd := TeacherCoordination.OpenTeacherSpace(g, teacher.id, c.role.id, TeacherNick(teacherName),
                                                              teacher.DisplayName());
    g.Send(cmd.id, Welcome(teacher.id));
    reply := Msg.SuccessMsg("Lehrer " + Mention(teacher.id) + " registriert");
  }

  function CategoryMissing(name: string): string {
    "Teachers category not found: " + name
  }

  /** The category of the given name with all its channels deleted, or,
      when there is none, nothing changed and the absence noted. */
  method DropCategory(g: Guild, name: string) returns (notes: seq<string>)
    modifies g
    ensures g.members == old(g.members) && g.roles == old(g.roles) && g.nextId == old(g.nextId)
    ensures var found := FindCategoryByName(old(g.categories), name);
            (found.Some? ==>
               var cc := CategoryChannels(old(g.channels), found.value.id);
               g.channels == Orphaned(TeacherCoordination.WithoutAll(old(g.channels), cc), found.value.id)
               && g.categories == WithoutCategory(old(g.categories), found.value.id)
               && g.calls == old(g.calls) + TeacherCoordination.DeleteCalls(cc) + [DeleteCategoryCall(found.value.id)]
               && notes == [])
            && (found.None? ==>
                  g.channels == old(g.channels) && g.categories == old(g.categories) && g.calls == old(g.calls)
                  && notes == [CategoryMissing(name)])
  {
    notes := [];
    var found := FindCategoryByName(g.categories, name);
    if found.Some? {
      TeacherCoordination.DeleteCategoryWithChannels(g, found.value.id, CategoryChannels(g.channels, found.value.id));
    } else {
      notes := notes + [CategoryMissing(name)];
    }
  }

  /** `__unasign_teacher`. Without a category of the teacher's display name
      nothing is deleted and the reply carries a note; role and nick are
      removed either way, whatever students remain. */
  method UnassignTeacher(g: Guild, hasGuild: bool, memberId: Id) returns (reply: string)
    modifies g
    ensures var c := CommonChecks(hasGuild, old(g.roles), old(g.members), memberId);
            (c.Refused? ==> reply == c.reply && unchanged(g))
            && (c.Cleared? && c.role.id !in c.teacher.roles ==>
                  reply == RootUtils.ErrorMsg(Mention(memberId) + " ist kein registrierter Lehrer") && unchanged(g))
            && (c.Cleared? && c.role.id in c.teacher.roles ==>
                  var found := FindCategoryByName(old(g.categories), c.teacher.DisplayName());
                  var removal := [RemoveRoleCall(memberId, c.role.id), EditNickCall(memberId, None)];
                  g.members == WithNick(WithRoleRemoved(old(g.members), memberId, c.role.id), memberId, None)
                  && g.roles == old(g.roles) && g.nextId == old(g.nextId)
                  && (found.Some? ==>
                        var cc := CategoryChannels(old(g.channels), found.value.id);
                        g.channels == Orphaned(TeacherCoordination.WithoutAll(old(g.channels), cc), found.value.id)
                        && g.categories == WithoutCategory(old(g.categories), found.value.id)
                        && g.calls == old(g.calls) + TeacherCoordination.DeleteCalls(cc)
                                      + [DeleteCategoryCall(found.value.id)] + removal
                        && reply == Msg.SuccessMsg("Lehrer " + Mention(memberId) + " abgemeldet. "))
                  && (found.None? ==>
                        g.channels == old(g.channels) && g.categories == old(g.categories)
                        && g.calls == old(g.calls) + removal
                        && reply == Msg.SuccessMsg("Lehrer " + Mention(memberId) + " abgemeldet. "
                                                   + CategoryMissing(c.teacher.DisplayName()))))
  {
    var c := CommonChecks(hasGuild, g.roles, g.members, memberId);
    if c.Refused? {
      return c.reply;
    }
    var teacher := c.teacher;
    if c.role.id !in teacher.roles {
      return RootUtils.ErrorMsg(Mention(teacher.id) + " ist kein registrierter Lehrer");
    }
    var notes := DropCategory(g, teacher.DisplayName());
    StudentCoordination.StripRoleAndNick(g, teacher.id, c.role.id);
    reply := Msg.SuccessMsg("Lehrer " + Mention(teacher.id) + " abgemeldet. " + Joined(notes));
  }

  /** The category `__assign_teacher` creates carries the display name the
      member had before the nick edit; `__unasign_teacher` looks for the
      display name the member has afterwards, the new nick. When the two
      differ and no other category carries the nick, the lookup finds
      nothing, so the teacher's channels are never deleted. */
  lemma UnassignMissesAssignedCategory(cats: seq<Category>, n: Id, oldName: string, teacherName: string)
    requires oldName != TeacherNick(teacherName)
    requires forall j :: 0 <= j < |cats| ==> cats[j].name != TeacherNick(teacherName)
    ensures FindCategoryByName(cats + [Category(n, oldName)], TeacherNick(teacherName)).None?
  {
    var all := cats + [Category(n, oldName)];
    forall j | 0 <= j < |all|
      ensures all[j].name != TeacherNick(teacherName)
    {
      if j < |cats| {
        assert all[j] == cats[j];
      }
    }
  }

  /** A member called "max" without a nick, registered as teacher "Max":
      the category is "max", the nick "🎓 Max". */
  lemma UnassignMissesExample()
    ensures FindCategoryByName([Category(1, "max")], TeacherNick("Max")).None?
  {
    assert TeacherNick("Max")[0] != 'm';
    UnassignMissesAssignedCategory([], 1, "max", "Max");
  }
}
