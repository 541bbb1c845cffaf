/** The part of a Discord guild the core reads and changes: roles, members,
    categories and channels, each in the order they were created (not sorted
    by position), and the remote calls the bot issues, recorded in order. */
module Platform {
  import opened Wrappers
  import opened Text

  /** Snowflake ids (members, roles, channels, categories). */
  type Id = nat

  datatype Role = Role(id: Id, name: string)

  /** A guild member. `roles` holds role ids: discord.py compares roles by id.
      `username` stands for the account's global name when one is set and its
      user name otherwise, the two discord.py falls back to after the nick. */
  datatype Member = Member(id: Id, username: string, nick: Option<string>, roles: set<Id>, bot: bool) {
    /** `Member.display_name`: the nick when one is set, `username` otherwise. */
    function DisplayName(): string {
      if nick.Some? then nick.value else username
    }
  }

  datatype ChannelKind = TextKind | VoiceKind

  /** A channel; `parent` is the id of its category, if any. */
  datatype Channel = Channel(id: Id, name: string, parent: Option<Id>, kind: ChannelKind, position: int)

  datatype Category = Category(id: Id, name: string)

  /** A remote call, as issued. */
  datatype Call =
    | AddRoleCall(member: Id, role: Id)
    | RemoveRoleCall(member: Id, role: Id)
    | EditNickCall(member: Id, nick: Option<string>)
    | CreateCategoryCall(name: string, newId: Id)
    | CreateTextChannelCall(name: string, parent: Option<Id>, newId: Id)
    | DeleteChannelCall(channel: Id)
    | DeleteCategoryCall(category: Id)
    | RenameChannelCall(channel: Id, name: string)
    | RenameCategoryCall(category: Id, name: string)
    | MoveChannelCall(channel: Id, category: Id)
    | SetPositionCall(channel: Id, position: int)
    | SendCall(channel: Id, text: string)
    | LogCall(text: string)

  /** `Member.mention` */
  function Mention(id: Id): string {
    "<@" + NatToString(id) + ">"
  }

  /** The name Discord stores for a text channel created or renamed to `name`.
      Discord normalises text-channel names; the model takes that
      normalisation to be exactly the bot's own slug (lower-case, spaces to
      hyphens), which is what lets the bot create a channel with a raw name
      and find it again by the slug. */
  function PlatformChannelName(name: string): (r: string)
    ensures |r| == |name| && ' ' !in r
  {
    ReplaceSpaces(LowerStr(name))
  }

  // ---------------------------------------------------------------------------
  // First-match lookups (`discord.utils.get`, `guild.get_member`, `guild.get_channel`)

  function FindRoleByName(roles: seq<Role>, name: string): (r: Option<Role>)
    ensures r.Some? ==> exists k :: 0 <= k < |roles| && roles[k] == r.value && r.value.name == name
                                  && forall j :: 0 <= j < k ==> roles[j].name != name
    ensures r.None? <==> forall j :: 0 <= j < |roles| ==> roles[j].name != name
    decreases |roles|
  {
    if roles == [] then None
    else if roles[0].name == name then Some(roles[0])
    else
      var r := FindRoleByName(roles[1..], name);
      assert r.Some? ==> exists k :: 0 <= k < |roles[1..]| && roles[1..][k] == r.value
                                     && forall j :: 0 <= j < k ==> roles[1..][j].name != name;
      assert r.Some? ==> exists k :: 1 <= k < |roles| && roles[k] == r.value
                                     && forall j :: 0 <= j < k ==> roles[j].name != name;
      r
  }

  function FindCategoryByName(cats: seq<Category>, name: string): (r: Option<Category>)
    ensures r.Some? ==> exists k :: 0 <= k < |cats| && cats[k] == r.value && r.value.name == name
                                  && forall j :: 0 <= j < k ==> cats[j].name != name
    ensures r.None? <==> forall j :: 0 <= j < |cats| ==> cats[j].name != name
    decreases |cats|
  {
    if cats == [] then None
    else if cats[0].name == name then Some(cats[0])
    else
      var r := FindCategoryByName(cats[1..], name);
      assert r.Some? ==> exists k :: 0 <= k < |cats[1..]| && cats[1..][k] == r.value
                                     && forall j :: 0 <= j < k ==> cats[1..][j].name != name;
      assert r.Some? ==> exists k :: 1 <= k < |cats| && cats[k] == r.value
                                     && forall j :: 0 <= j < k ==> cats[j].name != name;
      r
  }

  function FindCategoryById(cats: seq<Category>, id: Id): (r: Option<Category>)
    ensures r.Some? ==> r.value in cats && r.value.id == id
    ensures r.None? <==> forall j :: 0 <= j < |cats| ==> cats[j].id != id
    decreases |cats|
  {
    if cats == [] then None
    else if cats[0].id == id then Some(cats[0])
    else FindCategoryById(cats[1..], id)
  }

  predicate IsTextNamed(c: Channel, name: string) {
    c.kind == TextKind && c.name == name
  }

  /** `discord.utils.get(guild.text_channels, name=name)` */
  function FindTextChannelByName(chs: seq<Channel>, name: string): (r: Option<Channel>)
    ensures r.Some? ==> exists k :: 0 <= k < |chs| && chs[k] == r.value && IsTextNamed(r.value, name)
                                  && forall j :: 0 <= j < k ==> !IsTextNamed(chs[j], name)
    ensures r.None? <==> forall j :: 0 <= j < |chs| ==> !IsTextNamed(chs[j], name)
    decreases |chs|
  {
    if chs == [] then None
    else if IsTextNamed(chs[0], name) then Some(chs[0])
    else
      var r := FindTextChannelByName(chs[1..], name);
      assert r.Some? ==> exists k :: 0 <= k < |chs[1..]| && chs[1..][k] == r.value
                                     && forall j :: 0 <= j < k ==> !IsTextNamed(chs[1..][j], name);
      assert r.Some? ==> exists k :: 1 <= k < |chs| && chs[k] == r.value
                                     && forall j :: 0 <= j < k ==> !IsTextNamed(chs[j], name);
      r
  }

  /** `guild.get_channel(id)` */
  function FindChannelById(chs: seq<Channel>, id: Id): (r: Option<Channel>)
    ensures r.Some? ==> r.value in chs && r.value.id == id
    ensures r.None? <==> forall j :: 0 <= j < |chs| ==> chs[j].id != id
    decreases |chs|
  {
    if chs == [] then None
    else if chs[0].id == id then Some(chs[0])
    else FindChannelById(chs[1..], id)
  }

  /** `guild.get_member(id)` */
  function FindMemberById(ms: seq<Member>, id: Id): (r: Option<Member>)
    ensures r.Some? ==> r.value in ms && r.value.id == id
    ensures r.None? <==> forall j :: 0 <= j < |ms| ==> ms[j].id != id
    decreases |ms|
  {
    if ms == [] then None
    else if ms[0].id == id then Some(ms[0])
    else FindMemberById(ms[1..], id)
  }

  /** Discord ids identify channels: no two channels share one. */
  predicate ChannelIdsUnique(chs: seq<Channel>) {
    forall i, j :: 0 <= i < j < |chs| ==> chs[i].id != chs[j].id
  }

  // ---------------------------------------------------------------------------
  // Category contents (`category.channels`, `category.text_channels`)

  function CategoryChannels(chs: seq<Channel>, cat: Id): (r: seq<Channel>)
    ensures |r| <= |chs|
    ensures forall c :: c in r <==> c in chs && c.parent == Some(cat)
    decreases |chs|
  {
    if chs == [] then []
    else (if chs[0].parent == Some(cat) then [chs[0]] else []) + CategoryChannels(chs[1..], cat)
  }

  function CategoryTextChannels(chs: seq<Channel>, cat: Id): (r: seq<Channel>)
    ensures |r| <= |chs|
    ensures forall c :: c in r <==> c in chs && c.parent == Some(cat) && c.kind == TextKind
    decreases |chs|
  {
    if chs == [] then []
    else (if chs[0].parent == Some(cat) && chs[0].kind == TextKind then [chs[0]] else [])
         + CategoryTextChannels(chs[1..], cat)
  }

  // ---------------------------------------------------------------------------
  // Pointwise updates used by the remote calls

  function WithRoleAdded(ms: seq<Member>, id: Id, role: Id): (r: seq<Member>)
    ensures |r| == |ms|
    ensures forall i :: 0 <= i < |ms| ==>
              r[i] == if ms[i].id == id then ms[i].(roles := ms[i].roles + {role}) else ms[i]
  {
    seq(|ms|, i requires 0 <= i < |ms| =>
      if ms[i].id == id then ms[i].(roles := ms[i].roles + {role}) else ms[i])
  }

  function WithRoleRemoved(ms: seq<Member>, id: Id, role: Id): (r: seq<Member>)
    ensures |r| == |ms|
    ensures forall i :: 0 <= i < |ms| ==>
              r[i] == if ms[i].id == id then ms[i].(roles := ms[i].roles - {role}) else ms[i]
  {
    seq(|ms|, i requires 0 <= i < |ms| =>
      if ms[i].id == id then ms[i].(roles := ms[i].roles - {role}) else ms[i])
  }

  function WithNick(ms: seq<Member>, id: Id, nick: Option<string>): (r: seq<Member>)
    ensures |r| == |ms|
    ensures forall i :: 0 <= i < |ms| ==>
              r[i] == if ms[i].id == id then ms[i].(nick := nick) else ms[i]
  {
    seq(|ms|, i requires 0 <= i < |ms| => if ms[i].id == id then ms[i].(nick := nick) else ms[i])
  }

  function WithoutChannel(chs: seq<Channel>, id: Id): (r: seq<Channel>)
    ensures forall c :: c in r <==> c in chs && c.id != id
    decreases |chs|
  {
    if chs == [] then []
    else (if chs[0].id == id then [] else [chs[0]]) + WithoutChannel(chs[1..], id)
  }

  function WithoutCategory(cats: seq<Category>, id: Id): (r: seq<Category>)
    ensures forall c :: c in r <==> c in cats && c.id != id
    decreases |cats|
  {
    if cats == [] then []
    else (if cats[0].id == id then [] else [cats[0]]) + WithoutCategory(cats[1..], id)
  }

  /** Channels left without a category when category `id` is deleted. */
  function Orphaned(chs: seq<Channel>, id: Id): (r: seq<Channel>)
    ensures |r| == |chs|
    ensures forall i :: 0 <= i < |chs| ==>
              r[i] == if chs[i].parent == Some(id) then chs[i].(parent := None) else chs[i]
  {
    seq(|chs|, i requires 0 <= i < |chs| =>
      if chs[i].parent == Some(id) then chs[i].(parent := None) else chs[i])
  }

  function Renamed(chs: seq<Channel>, id: Id, name: string): (r: seq<Channel>)
    ensures |r| == |chs|
    ensures forall i :: 0 <= i < |chs| ==>
              r[i] == if chs[i].id == id then chs[i].(name := name) else chs[i]
  {
    seq(|chs|, i requires 0 <= i < |chs| => if chs[i].id == id then chs[i].(name := name) else chs[i])
  }

  function RenamedCategory(cats: seq<Category>, id: Id, name: string): (r: seq<Category>)
    ensures |r| == |cats|
    ensures forall i :: 0 <= i < |cats| ==>
              r[i] == if cats[i].id == id then cats[i].(name := name) else cats[i]
  {
    seq(|cats|, i requires 0 <= i < |cats| => if cats[i].id == id then cats[i].(name := name) else cats[i])
  }

  function Moved(chs: seq<Channel>, id: Id, cat: Id): (r: seq<Channel>)
    ensures |r| == |chs|
    ensures forall i :: 0 <= i < |chs| ==>
              r[i] == if chs[i].id == id then chs[i].(parent := Some(cat)) else chs[i]
  {
    seq(|chs|, i requires 0 <= i < |chs| =>
      if chs[i].id == id then chs[i].(parent := Some(cat)) else chs[i])
  }

  /** Discord keeps at most 50 channels in one category. */
  const CategoryLimit: nat := 50

  /** The HTTP error Discord answers a move into a full category with. */
  const CategoryFull: Error := Other("400 Bad Request: the category already holds 50 channels")

  /** A move Discord refuses: the category is full and the channel is not
      one of its channels already. */
  predicate MoveRefused(chs: seq<Channel>, id: Id, cat: Id) {
    |CategoryChannels(chs, cat)| >= CategoryLimit
    && forall c :: c in CategoryChannels(chs, cat) ==> c.id != id
  }

  function WithPosition(chs: seq<Channel>, id: Id, pos: int): (r: seq<Channel>)
    ensures |r| == |chs|
    ensures forall i :: 0 <= i < |chs| ==>
              r[i] == if chs[i].id == id then chs[i].(position := pos) else chs[i]
  {
    seq(|chs|, i requires 0 <= i < |chs| => if chs[i].id == id then chs[i].(position := pos) else chs[i])
  }

  // ---------------------------------------------------------------------------

  /** The guild as the bot sees it, with the remote calls as methods. Every
      method records its call in `calls`, so the order of effects of an
      operation is part of its postcondition. */
  class Guild {
    var roles: seq<Role>
    var members: seq<Member>
    var categories: seq<Category>
    var channels: seq<Channel>
    var calls: seq<Call>
    /** The id the platform hands out next. */
    var nextId: nat

    constructor (roles: seq<Role>, members: seq<Member>, categories: seq<Category>,
                 channels: seq<Channel>, nextId: nat)
      ensures this.roles == roles && this.members == members
      ensures this.categories == categories && this.channels == channels
      ensures this.calls == [] && this.nextId == nextId
    {
      this.roles := roles;
      this.members := members;
      this.categories := categories;
      this.channels := channels;
      this.calls := [];
      this.nextId := nextId;
    }

    method AddRole(member: Id, role: Id)
      modifies this
      ensures members == WithRoleAdded(old(members), member, role)
      ensures roles == old(roles) && categories == old(categories) && channels == old(channels)
      ensures nextId == old(nextId) && calls == old(calls) + [AddRoleCall(member, role)]
    {
      members := WithRoleAdded(members, member, role);
      calls := calls + [AddRoleCall(member, role)];
    }

    method RemoveRole(member: Id, role: Id)
      modifies this
      ensures members == WithRoleRemoved(old(members), member, role)
      ensures roles == old(roles) && categories == old(categories) && channels == old(channels)
      ensures nextId == old(nextId) && calls == old(calls) + [RemoveRoleCall(member, role)]
    {
      members := WithRoleRemoved(members, member, role);
      calls := calls + [RemoveRoleCall(member, role)];
    }

    /** `member.edit(nick=...)`; `None` clears the nick. */
    method EditNick(member: Id, nick: Option<string>)
      modifies this
      ensures members == WithNick(old(members), member, nick)
      ensures roles == old(roles) && categories == old(categories) && channels == old(channels)
      ensures nextId == old(nextId) && calls == old(calls) + [EditNickCall(member, nick)]
    {
      members := WithNick(members, member, nick);
      calls := calls + [EditNickCall(member, nick)];
    }

    method CreateCategory(name: string) returns (cat: Category)
      modifies this
      ensures cat == Category(old(nextId), name)
      ensures categories == old(categories) + [cat] && nextId == old(nextId) + 1
      ensures roles == old(roles) && members == old(members) && channels == old(channels)
      ensures calls == old(calls) + [CreateCategoryCall(name, cat.id)]
    {
      cat := Category(nextId, name);
      categories := categories + [cat];
      calls := calls + [CreateCategoryCall(name, cat.id)];
      nextId := nextId + 1;
    }

    /** `guild.create_text_channel(name, category=...)`; Discord stores the
        normalised name. */
    method CreateTextChannel(name: string, parent: Option<Id>) returns (ch: Channel)
      modifies this
      ensures ch == Channel(old(nextId), PlatformChannelName(name), parent, TextKind, |old(channels)|)
      ensures channels == old(channels) + [ch] && nextId == old(nextId) + 1
      ensures roles == old(roles) && members == old(members) && categories == old(categories)
      ensures calls == old(calls) + [CreateTextChannelCall(name, parent, ch.id)]
    {
      ch := Channel(nextId, PlatformChannelName(name), parent, TextKind, |channels|);
      channels := channels + [ch];
      calls := calls + [CreateTextChannelCall(name, parent, ch.id)];
      nextId := nextId + 1;
    }

    method DeleteChannel(id: Id)
      modifies this
      ensures channels == WithoutChannel(old(channels), id)
      ensures roles == old(roles) && members == old(members) && categories == old(categories)
      ensures nextId == old(nextId) && calls == old(calls) + [DeleteChannelCall(id)]
    {
      channels := WithoutChannel(channels, id);
      calls := calls + [DeleteChannelCall(id)];
    }

    /** Deleting a category leaves the channels still inside it without a category. */
    method DeleteCategory(id: Id)
      modifies this
      ensures categories == WithoutCategory(old(categories), id)
      ensures channels == Orphaned(old(channels), id)
      ensures roles == old(roles) && members == old(members)
      ensures nextId == old(nextId) && calls == old(calls) + [DeleteCategoryCall(id)]
    {
      categories := WithoutCategory(categories, id);
      channels := Orphaned(channels, id);
      calls := calls + [DeleteCategoryCall(id)];
    }

    method RenameChannel(id: Id, name: string)
      modifies this
      ensures channels == Renamed(old(channels), id, PlatformChannelName(name))
      ensures roles == old(roles) && members == old(members) && categories == old(categories)
      ensures nextId == old(nextId) && calls == old(calls) + [RenameChannelCall(id, name)]
    {
      channels := Renamed(channels, id, PlatformChannelName(name));
      calls := calls + [RenameChannelCall(id, name)];
    }

    method RenameCategory(id: Id, name: string)
      modifies this
      ensures categories == RenamedCategory(old(categories), id, name)
      ensures roles == old(roles) && members == old(members) && channels == old(channels)
      ensures nextId == old(nextId) && calls == old(calls) + [RenameCategoryCall(id, name)]
    {
      categories := RenamedCategory(categories, id, name);
      calls := calls + [RenameCategoryCall(id, name)];
    }

    /** `channel.edit(category=...)`. Discord refuses to move a channel into
        a category that already holds the maximum number of channels; the
        request is issued either way and the refusal escapes as an HTTP
        error. */
    method MoveChannel(id: Id, cat: Id) returns (o: Outcome)
      modifies this
      ensures MoveRefused(old(channels), id, cat) ==> o == Failed(CategoryFull) && channels == old(channels)
      ensures !MoveRefused(old(channels), id, cat) ==> o == Done && channels == Moved(old(channels), id, cat)
      ensures roles == old(roles) && members == old(members) && categories == old(categories)
      ensures nextId == old(nextId) && calls == old(calls) + [MoveChannelCall(id, cat)]
    {
      calls := calls + [MoveChannelCall(id, cat)];
      if MoveRefused(channels, id, cat) {
        return Failed(CategoryFull);
      }
      channels := Moved(channels, id, cat);
      o := Done;
    }

    /** `channel.edit(position=pos)`; only the edited channel's position is
        recorded, the server's reshuffling of the others is not. */
    method SetPosition(id: Id, pos: int)
      modifies this
      ensures channels == WithPosition(old(channels), id, pos)
      ensures roles == old(roles) && members == old(members) && categories == old(categories)
      ensures nextId == old(nextId) && calls == old(calls) + [SetPositionCall(id, pos)]
    {
      channels := WithPosition(channels, id, pos);
      calls := calls + [SetPositionCall(id, pos)];
    }

    method Send(channel: Id, text: string)
      modifies this
      ensures roles == old(roles) && members == old(members) && categories == old(categories)
      ensures channels == old(channels) && nextId == old(nextId)
      ensures calls == old(calls) + [SendCall(channel, text)]
    {
      calls := calls + [SendCall(channel, text)];
    }

    /** A message to the guild's log channel (src/Utils/logging.py is not part of this model). */
    method Log(text: string)
      modifies this
      ensures roles == old(roles) && members == old(members) && categories == old(categories)
      ensures channels == old(channels) && nextId == old(nextId)
      ensures calls == old(calls) + [LogCall(text)]
    {
      calls := calls + [LogCall(text)];
    }
  }
}
