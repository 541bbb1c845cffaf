/** Coordination/student.py: the earlier iteration of registering and
    unregistering a student, without the store. Its checks are those of the
    later iteration (`StudentCoordination.AssignStudentGuard` and
    `StudentCoordination.UnassignRolesGuard`); the lookups of the earlier
    Utils/channels.py and Utils/roles.py, which are not part of this model,
    are taken to be those of src/Utils. */
module LegacyStudentCoordination {
  import opened Wrappers
  import opened Text
  import opened Platform
  import opened Members
  import opened Channels
  import StudentCoordination

  /** The welcome message is always sent. */
  method AssignStudent(g: Guild, hasGuild: bool, caller: UserRef, student: Member, name: string)
    returns (o: Outcome)
    modifies g
    ensures var plan := StudentCoordination.AssignStudentGuard(hasGuild, old(g.roles), old(g.members),
                                                               old(g.categories), caller, student);
            (plan.Err? ==> o == Failed(plan.error) && unchanged(g))
            && (plan.Ok? ==>
                  var p := plan.value;
                  var ch := Channel(old(g.nextId), PlatformChannelName(name), Some(p.category.id), TextKind, |old(g.channels)|);
                  o == Done
                  && g.channels == old(g.channels) + [ch] && g.nextId == old(g.nextId) + 1
                  && g.roles == old(g.roles) && g.categories == old(g.categories)
                  && g.members == WithNick(WithRoleAdded(old(g.members), student.id, p.studentRole.id),
                                           student.id, Some(StudentNick(name)))
                  && g.calls == old(g.calls)
                                + [CreateTextChannelCall(name, Some(p.category.id), ch.id),
                                   AddRoleCall(student.id, p.studentRole.id),
                                   EditNickCall(student.id, Some(StudentNick(name))),
                                   SendCall(ch.id, StudentCoordination.Welcome(student.id, p.teacher.id))])
  {
    var plan := StudentCoordination.AssignStudentGuard(hasGuild, g.roles, g.members, g.categories, caller, student);
    if plan.Err? {
      o := Failed(plan.error);
      return;
    }
    var p := plan.value;
    var ch := StudentCoordination.EnrolInGuild(g, student.id, p, name);
    g.Send(ch.id, StudentCoordination.Welcome(student.id, p.teacher.id));
    o := Done;
  }

  /** The name under which the channel is looked up: the display name of the
      member value the command received, with its first two characters
      dropped. The nick edit does not change that value. */
  function LookupName(student: Member): string {
    NameByNick(student.DisplayName())
  }

  /** Role and nick go first; the channel lookup comes after them, so a
      missing channel fails the operation with the role and nick already
      removed. */
  method UnassignStudent(g: Guild, hasGuild: bool, caller: UserRef, student: Member) returns (o: Outcome)
    modifies g
    ensures var guard := StudentCoordination.UnassignRolesGuard(hasGuild, old(g.roles), old(g.members), caller, student);
            (guard.Err? ==> o == Failed(guard.error) && unchanged(g))
            && (guard.Ok? ==>
                  var role := guard.value;
                  var found := GetChannelByName(old(g.channels), LookupName(student));
                  g.members == WithNick(WithRoleRemoved(old(g.members), student.id, role.id), student.id, None)
                  && g.roles == old(g.roles) && g.categories == old(g.categories) && g.nextId == old(g.nextId)
                  && (found.Err? ==>
                        o == Failed(found.error) && g.channels == old(g.channels)
                        && g.calls == old(g.calls) + [RemoveRoleCall(student.id, role.id), EditNickCall(student.id, None)])
                  && (found.Ok? ==>
                        o == Done && g.channels == WithoutChannel(old(g.channels), found.value.id)
                        && g.calls == old(g.calls) + [RemoveRoleCall(student.id, role.id), EditNickCall(student.id, None),
                                                      DeleteChannelCall(found.value.id)]))
  {
    var guard := StudentCoordination.UnassignRolesGuard(hasGuild, g.roles, g.members, caller, student);
    if guard.Err? {
      o := Failed(guard.error);
      return;
    }
    var role := guard.value;
    StudentCoordination.StripRoleAndNick(g, student.id, role.id);
    var found := GetChannelByName(g.channels, LookupName(student));
    if found.Err? {
      o := Failed(found.error);
      return;
    }
    g.DeleteChannel(found.value.id);
    o := Done;
  }

  /** A name with a space or an upper-case letter is not its own normalised form. */
  lemma NormalisedDiffers(name: string)
    requires exists i :: 0 <= i < |name| && (name[i] == ' ' || IsUpper(name[i]))
    ensures PlatformChannelName(name) != name
  {
    PlatformNameIsSlug(name);
    var i :| 0 <= i < |name| && (name[i] == ' ' || IsUpper(name[i]));
    assert PlatformChannelName(name)[i] != name[i];
  }

  /** The channel the earlier `assign_student` creates is stored under the
      normalised name, but `unassign_student` looks for the raw real name.
      For a name with a space or an upper-case letter, and no other text
      channel carrying the raw name, the lookup after an assignment fails. */
  lemma LookupMissesCreatedChannel(chs: seq<Channel>, name: string, created: Channel, student: Member)
    requires created.kind == TextKind && created.name == PlatformChannelName(name)
    requires exists i :: 0 <= i < |name| && (name[i] == ' ' || IsUpper(name[i]))
    requires forall j :: 0 <= j < |chs| ==> !IsTextNamed(chs[j], name)
    requires student.nick == Some(StudentNick(name))
    ensures GetChannelByName(chs + [created], LookupName(student)).Err?
  {
    assert LookupName(student) == name by {
      NickRoundTrip(StudentNick(name), name);
    }
    assert !IsTextNamed(created, name) by {
      NormalisedDiffers(name);
    }
    NoneNamedSnoc(chs, created, name);
  }

  /** No text channel of a name in `chs`, nor `c`, means none in `chs + [c]`. */
  lemma NoneNamedSnoc(chs: seq<Channel>, c: Channel, name: string)
    requires forall j :: 0 <= j < |chs| ==> !IsTextNamed(chs[j], name)
    requires !IsTextNamed(c, name)
    ensures forall j :: 0 <= j < |chs + [c]| ==> !IsTextNamed((chs + [c])[j], name)
  {
    var all := chs + [c];
    forall j | 0 <= j < |all|
      ensures !IsTextNamed(all[j], name)
    {
      if j < |chs| {
        assert all[j] == chs[j];
      }
    }
  }

  /** The lookup name for "Max Muster": the assigned channel is stored as
      "max-muster", so the lookup of "Max Muster" finds nothing. */
  lemma LookupMissesExample(student: Member)
    requires student.nick == Some(StudentNick("Max Muster"))
    ensures GetChannelByName([Channel(7, PlatformChannelName("Max Muster"), Some(3), TextKind, 0)],
                             LookupName(student)).Err?
  {
    assert "Max Muster"[3] == ' ';
    LookupMissesCreatedChannel([], "Max Muster", Channel(7, PlatformChannelName("Max Muster"), Some(3), TextKind, 0), student);
  }
}
