/** src/Utils/members.py: nicknames, the student channel name and member
    resolution. Utils/members.py is the earlier copy of the same functions
    (without the channel name) and is modelled by the same members. */
module Members {
  import opened Wrappers
  import opened Text
  import opened Platform

  const StudentIcon: char := '\U{1F392}'
  const TeacherIcon: char := '\U{1F393}'

  /** `get_student_nick(name)` */
  function StudentNick(name: string): string {
    [StudentIcon, ' '] + name
  }

  /** `get_teacher_nick(name)` */
  function TeacherNick(name: string): string {
    [TeacherIcon, ' '] + name
  }

  /** `get_name_by_nick(nick)`: `nick[2:]`, which is empty for a nick of at
      most two characters. */
  function NameByNick(nick: string): (r: string)
    ensures |r| == (if |nick| <= 2 then 0 else |nick| - 2)
    ensures forall i :: 0 <= i < |r| ==> r[i] == nick[i + 2]
  {
    if |nick| <= 2 then "" else nick[2..]
  }

  /** A nick is a student nick for `name` exactly when it opens with the
      school-bag icon and a space and the name recovered from it is `name`;
      the same holds for the teacher nick and the mortar-board icon. */
  lemma NickRoundTrip(nick: string, name: string)
    ensures nick == StudentNick(name) <==> IsPrefix([StudentIcon, ' '], nick) && NameByNick(nick) == name
    ensures nick == TeacherNick(name) <==> IsPrefix([TeacherIcon, ' '], nick) && NameByNick(nick) == name
  {
    if IsPrefix([StudentIcon, ' '], nick) && NameByNick(nick) == name {
      assert nick == nick[..2] + nick[2..];
    }
    if IsPrefix([TeacherIcon, ' '], nick) && NameByNick(nick) == name {
      assert nick == nick[..2] + nick[2..];
    }
  }

  /** A student nick is never a teacher nick. */
  lemma NicksDistinct(a: string, b: string)
    ensures StudentNick(a) != TeacherNick(b)
  {
    assert StudentNick(a)[0] != TeacherNick(b)[0];
  }

  // ---------------------------------------------------------------------------
  // Student channel name

  /** `generate_student_channel_name(name)`: `name.lower().replace(' ', '-')`
      (also src/Utils/environment.py). */
  function StudentChannelName(name: string): (r: string)
    ensures |r| == |name|
    ensures forall i :: 0 <= i < |r| ==> r[i] != ' ' && !IsUpper(r[i])
  {
    ReplaceSpaces(LowerStr(name))
  }

  /** Discord's normalisation of a text-channel name is taken to be this slug. */
  lemma PlatformNameIsSlug(name: string)
    ensures PlatformChannelName(name) == StudentChannelName(name)
  {
  }

  lemma {:induction false} SlugIdempotent(name: string)
    ensures StudentChannelName(StudentChannelName(name)) == StudentChannelName(name)
  {
    var s := StudentChannelName(name);
    var t := StudentChannelName(s);
    assert forall i :: 0 <= i < |s| ==> t[i] == s[i] by {
      forall i | 0 <= i < |s|
        ensures t[i] == s[i]
      {
        assert s[i] != ' ' && !IsUpper(s[i]);
        assert LowerStr(s)[i] == s[i];
      }
    }
  }

  /** Two characters that the slug does not tell apart: equal up to letter
      case, or both a space or a hyphen. */
  predicate SameUpToCaseAndDash(x: char, y: char) {
    LowerChar(x) == LowerChar(y) || ((x == ' ' || x == '-') && (y == ' ' || y == '-'))
  }

  function SlugChar(c: char): char {
    if LowerChar(c) == ' ' then '-' else LowerChar(c)
  }

  lemma LowerCharDash(c: char)
    ensures LowerChar(c) == '-' <==> c == '-'
  {
  }

  lemma SlugCharSame(x: char, y: char)
    ensures SlugChar(x) == SlugChar(y) <==> SameUpToCaseAndDash(x, y)
  {
    LowerCharDash(x);
    LowerCharDash(y);
  }

  /** Names map to the same channel name exactly when they have the same
      length and differ only by letter case or space-versus-hyphen. */
  lemma {:induction false} SlugEqualIff(a: string, b: string)
    ensures StudentChannelName(a) == StudentChannelName(b)
            <==> |a| == |b| && forall i :: 0 <= i < |a| ==> SameUpToCaseAndDash(a[i], b[i])
  {
    var sa, sb := StudentChannelName(a), StudentChannelName(b);
    assert forall i :: 0 <= i < |a| ==> sa[i] == SlugChar(a[i]);
    assert forall i :: 0 <= i < |b| ==> sb[i] == SlugChar(b[i]);
    if sa == sb {
      forall i | 0 <= i < |a|
        ensures SameUpToCaseAndDash(a[i], b[i])
      {
        SlugCharSame(a[i], b[i]);
      }
    }
    if |a| == |b| && forall i :: 0 <= i < |a| ==> SameUpToCaseAndDash(a[i], b[i]) {
      forall i | 0 <= i < |a|
        ensures sa[i] == sb[i]
      {
        SlugCharSame(a[i], b[i]);
      }
    }
  }

  // ---------------------------------------------------------------------------
  // Member resolution

  /** The `discord.User | discord.Member` argument. */
  datatype UserRef = AsMember(member: Member) | AsUser(id: Id)

  /** `get_member_by_user(guild, user)` */
  function GetMemberByUser(members: seq<Member>, user: UserRef): (r: Result<Member>)
    ensures user.AsMember? ==> r == Ok(user.member)
    ensures user.AsUser? ==> (r.Ok? <==> exists j :: 0 <= j < |members| && members[j].id == user.id)
    ensures user.AsUser? && r.Ok? ==> r.value in members && r.value.id == user.id
    ensures r.Err? ==> r.error == CodeError("User is not a member")
  {
    match user
    case AsMember(m) => Ok(m)
    case AsUser(id) =>
      match FindMemberById(members, id)
      case Some(m) => Ok(m)
      case None => Err(CodeError("User is not a member"))
  }
}
