/** src/cogs/LevelingCog.py: the voice-state listener that records when a
    member enters the classroom voice channel and credits the time when they
    leave it. */
module Leveling {
  import opened Wrappers
  import opened Database

  const Classroom: string := "klassenzimmer"

  /** A voice channel; discord.py compares channels by id. */
  datatype VoiceChannel = VoiceChannel(id: int, name: string)

  /** What the listener does with one voice-state change. */
  datatype Transition = Join(channel: int) | Leave | Ignore

  /** The two conditions of `on_voice_state_update`, in order: entering the
      classroom from no channel is a join; leaving the classroom for no or
      another channel is a leave; everything else is ignored. */
  function Classify(before: Option<VoiceChannel>, after: Option<VoiceChannel>): (r: Transition)
    ensures r.Join? <==> before.None? && after.Some? && after.value.name == Classroom
    ensures r.Join? ==> r.channel == after.value.id
    ensures r.Leave? <==> before.Some? && before.value.name == Classroom
                          && (after.None? || after.value.id != before.value.id)
  {
    if before.None? && after.Some? && after.value.name == Classroom then Join(after.value.id)
    else if before.Some? && before.value.name == Classroom && (after.None? || after.value.id != before.value.id) then Leave
    else Ignore
  }

  /** Moving into the classroom from another voice channel records nothing,
      and neither does staying in the same channel. */
  lemma MoveIntoClassroomIgnored(before: VoiceChannel, after: VoiceChannel)
    requires before.name != Classroom
    ensures Classify(Some(before), Some(after)) == Ignore
    ensures Classify(Some(after), Some(after)) == Ignore
  {
  }

  /** A join followed by a leave leaves no join row of the member behind and
      every other member's rows as they were. */
  lemma {:induction false} JoinThenLeave(joins: map<(int, int), int>, user: int, now: int, channel: int)
    ensures JoinsWithout(joins[(user, now) := channel], user) == JoinsWithout(joins, user)
    ensures HasJoin(joins[(user, now) := channel], user)
  {
    var a := JoinsWithout(joins[(user, now) := channel], user);
    var b := JoinsWithout(joins, user);
    assert forall k :: k in a <==> k in b;
    assert (user, now) in joins[(user, now) := channel];
  }

  /** `on_voice_state_update`. The join time and the hours a leave credits
      are parameters. */
  method OnVoiceStateUpdate(store: Store, member: int, before: Option<VoiceChannel>, after: Option<VoiceChannel>,
                            now: int, gained: real) returns (o: Outcome)
    requires store.Valid()
    modifies store
    ensures store.Valid()
    ensures store.connections == old(store.connections)
    ensures match Classify(before, after)
            case Join(channel) =>
              ((member, now) in old(store.voiceJoins) ==> o.Failed? && store.voiceJoins == old(store.voiceJoins))
              && ((member, now) !in old(store.voiceJoins) ==>
                    o == Done && store.voiceJoins == old(store.voiceJoins)[(member, now) := channel])
              && store.users == old(store.users)
            case Leave =>
              o == Done && store.voiceJoins == JoinsWithout(old(store.voiceJoins), member)
              && !HasJoin(store.voiceJoins, member)
              && (HasJoin(old(store.voiceJoins), member) && member in old(store.users) ==>
                    store.users == old(store.users)[member := old(store.users)[member].(hours := old(store.users)[member].hours + gained)])
              && (!HasJoin(old(store.voiceJoins), member) || member !in old(store.users) ==> store.users == old(store.users))
            case Ignore =>
              o == Done && store.voiceJoins == old(store.voiceJoins) && store.users == old(store.users)
  {
    match Classify(before, after) {
      case Join(channel) =>
        o := store.AddVoiceJoin(member, channel, now);
      case Leave =>
        store.TransferHours(member, gained);
        o := Done;
      case Ignore =>
        o := Done;
    }
  }
}
