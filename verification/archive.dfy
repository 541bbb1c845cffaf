/** src/Utils/archive.py: the archive buckets. Archived student channels are
    parked in archive categories of at most 50 channels; the stored archive
    rows list those categories in order, and a new bucket gets the smallest
    free name of the form "📚 Wissensbereich", "📚 Wissensbereich 2", ... */
module Archive {
  import opened Wrappers
  import opened Text
  import opened Platform

  const MaxChannels: nat := 50

  const BaseIcons: seq<string> := ["\U{1F4DA}", "\U{1F5C3}\U{FE0F}", "\U{1F5C4}\U{FE0F}", "\U{1F4E6}"]
  const BaseNames: seq<string> := ["Wissensbereich", "Wissenskammer", "Wissensspeicher", "Lehrarchiv"]

  const PairCount: nat := 4

  /** A stored archive row: the category id and the name recorded for it. */
  datatype ArchiveRow = ArchiveRow(id: Id, name: Option<string>)

  /** `a.name if isinstance(a.name, str) else ''` */
  function StoredName(a: ArchiveRow): string {
    match a.name
    case Some(n) => n
    case None => ""
  }

  function StoredNames(rows: seq<ArchiveRow>): seq<string> {
    seq(|rows|, i requires 0 <= i < |rows| => StoredName(rows[i]))
  }

  /** The stored archive rows of one guild. Recording a category that is
      already stored renames its row; any other category is appended. */
  class ArchiveStore {
    var rows: seq<ArchiveRow>

    constructor (rows: seq<ArchiveRow>)
      ensures this.rows == rows
    {
      this.rows := rows;
    }

    /** `Archive(guild.id, id).edit(name=name)` */
    method Record(id: Id, name: string)
      modifies this
      ensures rows == Recorded(old(rows), id, name)
    {
      rows := Recorded(rows, id, name);
    }
  }

  function Recorded(rows: seq<ArchiveRow>, id: Id, name: string): (r: seq<ArchiveRow>)
    ensures exists i :: 0 <= i < |r| && r[i] == ArchiveRow(id, Some(name))
    ensures forall i :: 0 <= i < |rows| && rows[i].id != id ==> rows[i] in r
  {
    if exists i :: 0 <= i < |rows| && rows[i].id == id then
      var r := seq(|rows|, i requires 0 <= i < |rows| =>
                   if rows[i].id == id then ArchiveRow(id, Some(name)) else rows[i]);
      var k :| 0 <= k < |rows| && rows[k].id == id;
      assert r[k] == ArchiveRow(id, Some(name));
      assert forall i :: 0 <= i < |rows| && rows[i].id != id ==> r[i] == rows[i];
      r
    else
      var r := rows + [ArchiveRow(id, Some(name))];
      assert r[|rows|] == ArchiveRow(id, Some(name));
      r
  }

  // ---------------------------------------------------------------------------
  // `_generate_name`

  /** The name tried for icon/name pair `p` and counter `count`. */
  function CandidateName(p: nat, count: nat): string
    requires p < PairCount
  {
    assert |BaseIcons| == |BaseNames| == PairCount;
    var base := BaseIcons[p] + " " + BaseNames[p];
    if count == 1 then base else base + " " + NatToString(count)
  }

  /** Different counters give different names. */
  lemma CandidateInjective(p: nat, a: nat, b: nat)
    requires p < PairCount
    requires 1 <= a && 1 <= b && a != b
    ensures CandidateName(p, a) != CandidateName(p, b)
  {
    var base := BaseIcons[p] + " " + BaseNames[p];
    if a != 1 && b != 1 && CandidateName(p, a) == CandidateName(p, b) {
      var sa, sb := base + " " + NatToString(a), base + " " + NatToString(b);
      assert sa[|base| + 1..] == NatToString(a);
      assert sb[|base| + 1..] == NatToString(b);
      NatToStringInjective(a, b);
    }
  }

  /** `name` is what `_generate_name` picks for these rows: the first
      candidate of the first pair whose counter is free, with every smaller
      counter taken. */
  ghost predicate IsGeneratedName(rows: seq<ArchiveRow>, name: string) {
    exists k :: 1 <= k <= |rows| + 1 && name == CandidateName(0, k)
      && name !in StoredNames(rows)
      && forall j :: 1 <= j < k ==> CandidateName(0, j) in StoredNames(rows)
  }

  /** At most one name satisfies `IsGeneratedName`. */
  lemma GeneratedNameUnique(rows: seq<ArchiveRow>, a: string, b: string)
    requires IsGeneratedName(rows, a) && IsGeneratedName(rows, b)
    ensures a == b
  {
    var ka :| 1 <= ka <= |rows| + 1 && a == CandidateName(0, ka) && a !in StoredNames(rows)
              && forall j :: 1 <= j < ka ==> CandidateName(0, j) in StoredNames(rows);
    var kb :| 1 <= kb <= |rows| + 1 && b == CandidateName(0, kb) && b !in StoredNames(rows)
              && forall j :: 1 <= j < kb ==> CandidateName(0, j) in StoredNames(rows);
    assert ka == kb;
  }

  lemma {:induction false} DistinctElementsBound<T>(s: seq<T>)
    ensures |set x | x in s| <= |s|
    decreases |s|
  {
    if s != [] {
      DistinctElementsBound(s[1..]);
      assert (set x | x in s) == {s[0]} + (set x | x in s[1..]);
    }
  }

  lemma {:induction false} SubsetSize<T>(a: set<T>, b: set<T>)
    requires a <= b
    ensures |a| <= |b|
    decreases |a|
  {
    if a != {} {
      var x :| x in a;
      SubsetSize(a - {x}, b - {x});
    }
  }

  /** The first `n` candidates of pair `p`. */
  ghost function Candidates(p: nat, n: nat): set<string>
    requires p < PairCount
  {
    if n == 0 then {} else Candidates(p, n - 1) + {CandidateName(p, n)}
  }

  lemma {:induction false} CandidatesExclude(p: nat, n: nat, m: nat)
    requires p < PairCount && n < m
    ensures CandidateName(p, m) !in Candidates(p, n)
  {
    if n > 0 {
      CandidateInjective(p, n, m);
      CandidatesExclude(p, n - 1, m);
    }
  }

  lemma {:induction false} CandidatesSize(p: nat, n: nat)
    requires p < PairCount
    ensures |Candidates(p, n)| == n
  {
    if n > 0 {
      CandidatesSize(p, n - 1);
      CandidatesExclude(p, n - 1, n);
    }
  }

  lemma {:induction false} CandidatesTaken(p: nat, n: nat, current: seq<string>)
    requires p < PairCount
    requires forall j :: 1 <= j <= n ==> CandidateName(p, j) in current
    ensures Candidates(p, n) <= set x | x in current
  {
    if n > 0 {
      CandidatesTaken(p, n - 1, current);
    }
  }

  /** The counter cannot pass the number of stored names: `count` taken
      candidates are `count` different stored names. */
  lemma CounterBound(p: nat, count: nat, current: seq<string>)
    requires p < PairCount
    requires forall j :: 1 <= j <= count ==> CandidateName(p, j) in current
    ensures count <= |current|
  {
    CandidatesSize(p, count);
    CandidatesTaken(p, count, current);
    SubsetSize(Candidates(p, count), set x | x in current);
    DistinctElementsBound(current);
  }

  /** `_generate_name(guild_id)`: the first pair already yields a free name,
      so the `CodeError` after the loops is never raised. */
  method GenerateName(rows: seq<ArchiveRow>) returns (r: Result<string>)
    ensures r.Ok? && IsGeneratedName(rows, r.value)
  {
    var current := StoredNames(rows);
    for p := 0 to PairCount
      invariant p == 0
    {
      var count := 1;
      while true
        invariant 1 <= count <= |current| + 1
        invariant forall j :: 1 <= j < count ==> CandidateName(p, j) in current
        decreases |current| + 1 - count
      {
        var name := CandidateName(p, count);
        if name !in current {
          return Ok(name);
        }
        CounterBound(p, count, current);
        count := count + 1;
      }
    }
    assert false;
    r := Err(CodeError("Failed to generate a unique name for the archive category."));
  }

  // ---------------------------------------------------------------------------
  // Finding the current bucket

  /** A stored archive can take a channel: its category still exists and
      holds fewer than 50 channels. */
  predicate Usable(cats: seq<Category>, chs: seq<Channel>, a: ArchiveRow) {
    FindCategoryById(cats, a.id).Some? && |CategoryChannels(chs, a.id)| < MaxChannels
  }

  /** The first usable stored archive, in stored order. */
  function FirstUsable(rows: seq<ArchiveRow>, cats: seq<Category>, chs: seq<Channel>): (r: Option<Category>)
    ensures r.Some? ==> exists k :: 0 <= k < |rows| && Usable(cats, chs, rows[k])
                         && r == FindCategoryById(cats, rows[k].id)
                         && forall j :: 0 <= j < k ==> !Usable(cats, chs, rows[j])
    ensures r.None? <==> forall j :: 0 <= j < |rows| ==> !Usable(cats, chs, rows[j])
    decreases |rows|
  {
    if rows == [] then None
    else if Usable(cats, chs, rows[0]) then FindCategoryById(cats, rows[0].id)
    else
      var r := FirstUsable(rows[1..], cats, chs);
      assert forall j :: 1 <= j < |rows| ==> rows[j] == rows[1..][j - 1];
      r
  }

  /** `_create_new_archive_category(guild)`: a new category is created and
      recorded only when no live category already has the generated name. */
  method CreateNewArchiveCategory(g: Guild, store: ArchiveStore) returns (cat: Category)
    modifies g, store
    ensures IsGeneratedName(old(store.rows), cat.name)
    ensures FindCategoryByName(old(g.categories), cat.name).Some? ==>
              Some(cat) == FindCategoryByName(old(g.categories), cat.name)
              && unchanged(g) && unchanged(store)
    ensures FindCategoryByName(old(g.categories), cat.name).None? ==>
              cat == Category(old(g.nextId), cat.name)
              && g.categories == old(g.categories) + [cat] && g.nextId == old(g.nextId) + 1
              && g.roles == old(g.roles) && g.members == old(g.members) && g.channels == old(g.channels)
              && g.calls == old(g.calls) + [CreateCategoryCall(cat.name, cat.id)]
              && store.rows == Recorded(old(store.rows), cat.id, cat.name)
  {
    var generated := GenerateName(store.rows);
    var name := generated.value;
    var existing := FindCategoryByName(g.categories, name);
    if existing.Some? {
      cat := existing.value;
    } else {
      cat := g.CreateCategory(name);
      store.Record(cat.id, name);
    }
  }

  /** The archive `make` settles on: the first usable stored archive;
      failing that, the live category of the generated name; failing that, a
      new category of that name under the next id. */
  ghost predicate IsMadeArchive(rows: seq<ArchiveRow>, cats: seq<Category>, chs: seq<Channel>, nextId: Id, cat: Category) {
    match FirstUsable(rows, cats, chs)
    case Some(a) => cat == a
    case None =>
      IsGeneratedName(rows, cat.name)
      && (FindCategoryByName(cats, cat.name).Some? ==> Some(cat) == FindCategoryByName(cats, cat.name))
      && (FindCategoryByName(cats, cat.name).None? ==> cat == Category(nextId, cat.name))
  }

  /** `make` creates `cat`: no stored archive is usable and no live category
      carries its name. */
  predicate CreatesArchive(rows: seq<ArchiveRow>, cats: seq<Category>, chs: seq<Channel>, cat: Category) {
    FirstUsable(rows, cats, chs).None? && FindCategoryByName(cats, cat.name).None?
  }

  /** The remote calls `make` issues when it settles on `cat`. */
  function MakeCalls(rows: seq<ArchiveRow>, cats: seq<Category>, chs: seq<Channel>, cat: Category): (r: seq<Call>)
    ensures |r| <= 1
  {
    if CreatesArchive(rows, cats, chs, cat) then [CreateCategoryCall(cat.name, cat.id)] else []
  }

  /** The inputs determine the archive `make` settles on. */
  lemma MadeArchiveUnique(rows: seq<ArchiveRow>, cats: seq<Category>, chs: seq<Channel>, nextId: Id, a: Category, b: Category)
    requires IsMadeArchive(rows, cats, chs, nextId, a) && IsMadeArchive(rows, cats, chs, nextId, b)
    ensures a == b
  {
    if FirstUsable(rows, cats, chs).None? {
      GeneratedNameUnique(rows, a.name, b.name);
    }
  }

  /** `_get_current_archive(guild)`: the first usable stored archive, or a
      newly made one when none is usable. */
  method GetCurrentArchive(g: Guild, store: ArchiveStore) returns (cat: Category)
    modifies g, store
    ensures IsMadeArchive(old(store.rows), old(g.categories), old(g.channels), old(g.nextId), cat)
    ensures g.channels == old(g.channels) && g.roles == old(g.roles) && g.members == old(g.members)
    ensures CreatesArchive(old(store.rows), old(g.categories), old(g.channels), cat) ==>
              g.categories == old(g.categories) + [cat] && g.nextId == old(g.nextId) + 1
              && store.rows == Recorded(old(store.rows), cat.id, cat.name)
    ensures !CreatesArchive(old(store.rows), old(g.categories), old(g.channels), cat) ==> unchanged(g) && unchanged(store)
    ensures g.calls == old(g.calls) + MakeCalls(old(store.rows), old(g.categories), old(g.channels), cat)
  {
    var rows := store.rows;
    for i := 0 to |rows|
      invariant FirstUsable(rows, g.categories, g.channels) == FirstUsable(rows[i..], g.categories, g.channels)
    {
      assert rows[i..][1..] == rows[i + 1..];
      var found := FindCategoryById(g.categories, rows[i].id);
      if found.Some? && |CategoryChannels(g.channels, found.value.id)| < MaxChannels {
        cat := found.value;
        assert FirstUsable(rows, g.categories, g.channels) == Some(cat);
        return;
      }
    }
    assert FirstUsable(rows, g.categories, g.channels).None? by {
      assert rows[|rows|..] == [];
    }
    cat := CreateNewArchiveCategory(g, store);
  }

  /** `ArchiveCategory.make(guild)` */
  method Make(g: Guild, store: ArchiveStore) returns (cat: Category)
    modifies g, store
    ensures IsMadeArchive(old(store.rows), old(g.categories), old(g.channels), old(g.nextId), cat)
    ensures g.channels == old(g.channels) && g.roles == old(g.roles) && g.members == old(g.members)
    ensures CreatesArchive(old(store.rows), old(g.categories), old(g.channels), cat) ==>
              g.categories == old(g.categories) + [cat] && g.nextId == old(g.nextId) + 1
              && store.rows == Recorded(old(store.rows), cat.id, cat.name)
    ensures !CreatesArchive(old(store.rows), old(g.categories), old(g.channels), cat) ==> unchanged(g) && unchanged(store)
    ensures g.calls == old(g.calls) + MakeCalls(old(store.rows), old(g.categories), old(g.channels), cat)
  {
    cat := GetCurrentArchive(g, store);
  }

  /** `get_all(guild)`: the stored archives whose category still exists, in
      stored order. */
  function AllArchives(rows: seq<ArchiveRow>, cats: seq<Category>): (r: seq<Category>)
    ensures |r| <= |rows|
    ensures forall c :: c in r <==> exists i :: 0 <= i < |rows| && FindCategoryById(cats, rows[i].id) == Some(c)
    decreases |rows|
  {
    if rows == [] then []
    else
      var rest := AllArchives(rows[1..], cats);
      assert forall i :: 1 <= i < |rows| ==> rows[i] == rows[1..][i - 1];
      assert forall c :: (exists i :: 0 <= i < |rows[1..]| && FindCategoryById(cats, rows[1..][i].id) == Some(c))
                         ==> exists i :: 0 <= i < |rows| && FindCategoryById(cats, rows[i].id) == Some(c) by {
        forall c | exists i :: 0 <= i < |rows[1..]| && FindCategoryById(cats, rows[1..][i].id) == Some(c)
          ensures exists i :: 0 <= i < |rows| && FindCategoryById(cats, rows[i].id) == Some(c)
        {
          var i :| 0 <= i < |rows[1..]| && FindCategoryById(cats, rows[1..][i].id) == Some(c);
          assert FindCategoryById(cats, rows[i + 1].id) == Some(c);
        }
      }
      match FindCategoryById(cats, rows[0].id)
      case Some(c) => [c] + rest
      case None => rest
  }

  /** The archives of a split row list are those of its two halves, in
      order. */
  lemma {:induction false} AllArchivesSplit(a: seq<ArchiveRow>, b: seq<ArchiveRow>, cats: seq<Category>)
    ensures AllArchives(a + b, cats) == AllArchives(a, cats) + AllArchives(b, cats)
    decreases |a|
  {
    if a != [] {
      assert (a + b)[1..] == a[1..] + b;
      assert (a + b)[0] == a[0];
      AllArchivesSplit(a[1..], b, cats);
    } else {
      assert a + b == b;
    }
  }

  /** One stored row yields its category when it still exists, and nothing
      otherwise. */
  lemma AllArchivesSingle(row: ArchiveRow, cats: seq<Category>)
    ensures FindCategoryById(cats, row.id).Some? ==> AllArchives([row], cats) == [FindCategoryById(cats, row.id).value]
    ensures FindCategoryById(cats, row.id).None? ==> AllArchives([row], cats) == []
  {
    assert [row][1..] == [];
  }

  // ---------------------------------------------------------------------------
  // Capacity

  /** `can_add(channel)`: the channel is not in the category yet and the
      category has room. */
  predicate CanAdd(chs: seq<Channel>, cat: Id, channel: Id) {
    (forall c :: c in CategoryChannels(chs, cat) ==> c.id != channel)
    && |CategoryChannels(chs, cat)| < MaxChannels
  }

  /** Moving one channel into a category adds at most that channel to it,
      and adds it exactly when it was elsewhere. */
  lemma {:induction false} MovedCount(chs: seq<Channel>, id: Id, cat: Id)
    requires ChannelIdsUnique(chs)
    ensures |CategoryChannels(Moved(chs, id, cat), cat)| <= |CategoryChannels(chs, cat)| + 1
    ensures (exists k :: 0 <= k < |chs| && chs[k].id == id && chs[k].parent != Some(cat)) ==>
              |CategoryChannels(Moved(chs, id, cat), cat)| == |CategoryChannels(chs, cat)| + 1
    decreases |chs|
  {
    if chs != [] {
      var m := Moved(chs, id, cat);
      var rest := chs[1..];
      assert m[1..] == Moved(rest, id, cat);
      if chs[0].id == id {
        assert forall j :: 0 <= j < |rest| ==> rest[j].id != id by {
          forall j | 0 <= j < |rest|
            ensures rest[j].id != id
          {
            assert rest[j] == chs[j + 1];
          }
        }
        assert Moved(rest, id, cat) == rest;
      } else {
        assert forall j :: 0 <= j < |rest| ==> rest[j] == chs[j + 1];
        MovedCount(rest, id, cat);
        if exists k :: 0 <= k < |chs| && chs[k].id == id && chs[k].parent != Some(cat) {
          var k :| 0 <= k < |chs| && chs[k].id == id && chs[k].parent != Some(cat);
          assert rest[k - 1].id == id && rest[k - 1].parent != Some(cat);
        }
      }
    }
  }

  /** Moving a channel into a category that `can_add` accepts keeps the
      category within 50 channels. */
  lemma CanAddKeepsCapacity(chs: seq<Channel>, cat: Id, channel: Id)
    requires ChannelIdsUnique(chs) && CanAdd(chs, cat, channel)
    ensures |CategoryChannels(Moved(chs, channel, cat), cat)| <= MaxChannels
  {
    MovedCount(chs, channel, cat);
  }

  function AddFailure(channel: Channel, cat: Category): Error {
    CodeError("Cannot add channel " + channel.name + " to archive category " + cat.name
              + ". Either the channel is already in the archive or the archive is full.")
  }

  /** `add_channel(channel)` as written: `self.can_add(channel)` is a
      coroutine that is never awaited, so the test is always true and the
      move into this category is requested whatever its size. */
  method AddChannelAsWritten(g: Guild, cat: Category, channel: Channel) returns (r: Result<Id>)
    modifies g
    ensures MoveRefused(old(g.channels), channel.id, cat.id) ==> r == Err(CategoryFull) && g.channels == old(g.channels)
    ensures !MoveRefused(old(g.channels), channel.id, cat.id) ==>
              r == Ok(cat.id) && g.channels == Moved(old(g.channels), channel.id, cat.id)
    ensures g.categories == old(g.categories) && g.calls == old(g.calls) + [MoveChannelCall(channel.id, cat.id)]
  {
    var moved := g.MoveChannel(channel.id, cat.id);
    if moved.Failed? {
      return Err(moved.error);
    }
    r := Ok(cat.id);
  }

  /** The input that shows it: a full category (50 channels) and a channel
      outside it. `can_add` would have said no, but the as-written add
      requests the move anyway, Discord refuses it, and the add fails with
      the HTTP error instead of falling back to another archive. */
  lemma AsWrittenRefusedWhenFull(chs: seq<Channel>, cat: Id, channel: Channel)
    requires ChannelIdsUnique(chs) && channel in chs && channel.parent != Some(cat)
    requires |CategoryChannels(chs, cat)| == MaxChannels
    ensures !CanAdd(chs, cat, channel.id)
    ensures MoveRefused(chs, channel.id, cat)
  {
    forall c | c in CategoryChannels(chs, cat)
      ensures c.id != channel.id
    {
      var i :| 0 <= i < |chs| && chs[i] == c;
      var j :| 0 <= j < |chs| && chs[j] == channel;
      assert i != j;
    }
  }

  /** The same input with a usable stored archive that does not hold the
      channel: the corrected add can move the channel there, and Discord
      accepts that move. */
  lemma CorrectedFallsBack(rows: seq<ArchiveRow>, cats: seq<Category>, chs: seq<Channel>, channel: Channel, a: Category)
    requires ChannelIdsUnique(chs) && channel in chs
    requires FirstUsable(rows, cats, chs) == Some(a) && channel.parent != Some(a.id)
    ensures CanAdd(chs, a.id, channel.id)
    ensures !MoveRefused(chs, channel.id, a.id)
  {
    var k :| 0 <= k < |rows| && Usable(cats, chs, rows[k]) && Some(a) == FindCategoryById(cats, rows[k].id);
    assert a.id == rows[k].id;
    forall c | c in CategoryChannels(chs, a.id)
      ensures c.id != channel.id
    {
      var i :| 0 <= i < |chs| && chs[i] == c;
      var j :| 0 <= j < |chs| && chs[j] == channel;
      assert i != j;
    }
  }

  /** `add_channel(channel)` with `can_add` awaited: the channel goes into
      this category if it can; otherwise `make` settles on an archive
      (possibly creating it), the channel goes there if that one can take
      it, and the call fails when it cannot. `made` is the archive `make`
      returned, when it ran. */
  method AddChannel(g: Guild, store: ArchiveStore, cat: Category, channel: Channel)
    returns (r: Result<Id>, ghost made: Option<Category>)
    modifies g, store
    ensures g.roles == old(g.roles) && g.members == old(g.members)
    ensures CanAdd(old(g.channels), cat.id, channel.id) ==>
              made.None? && r == Ok(cat.id) && g.channels == Moved(old(g.channels), channel.id, cat.id)
              && g.categories == old(g.categories) && g.nextId == old(g.nextId) && unchanged(store)
              && g.calls == old(g.calls) + [MoveChannelCall(channel.id, cat.id)]
    ensures !CanAdd(old(g.channels), cat.id, channel.id) ==>
              made.Some? && IsMadeArchive(old(store.rows), old(g.categories), old(g.channels), old(g.nextId), made.value)
    ensures !CanAdd(old(g.channels), cat.id, channel.id) && made.Some? ==>
              var m := made.value;
              var makeCalls := MakeCalls(old(store.rows), old(g.categories), old(g.channels), m);
              (CreatesArchive(old(store.rows), old(g.categories), old(g.channels), m) ==>
                 g.categories == old(g.categories) + [m] && store.rows == Recorded(old(store.rows), m.id, m.name))
              && (!CreatesArchive(old(store.rows), old(g.categories), old(g.channels), m) ==>
                    g.categories == old(g.categories) && store.rows == old(store.rows))
              && (CanAdd(old(g.channels), m.id, channel.id) ==>
                    r == Ok(m.id) && g.channels == Moved(old(g.channels), channel.id, m.id)
                    && g.calls == old(g.calls) + makeCalls + [MoveChannelCall(channel.id, m.id)])
              && (!CanAdd(old(g.channels), m.id, channel.id) ==>
                    r == Err(AddFailure(channel, cat)) && g.channels == old(g.channels)
                    && g.calls == old(g.calls) + makeCalls)
    ensures r.Ok? && ChannelIdsUnique(old(g.channels)) ==> |CategoryChannels(g.channels, r.value)| <= MaxChannels
  {
    made := None;
    if CanAdd(g.channels, cat.id, channel.id) {
      var moved := g.MoveChannel(channel.id, cat.id);
      // `can_add` leaves room, so Discord accepts the move
      assert moved == Done;
      r := Ok(cat.id);
    } else {
      var newArchive := Make(g, store);
      made := Some(newArchive);
      if CanAdd(g.channels, newArchive.id, channel.id) {
        var moved := g.MoveChannel(channel.id, newArchive.id);
        assert moved == Done;
        r := Ok(newArchive.id);
      } else {
        r := Err(AddFailure(channel, cat));
      }
    }
    if r.Ok? && ChannelIdsUnique(old(g.channels)) {
      CanAddKeepsCapacity(old(g.channels), r.value, channel.id);
    }
  }
}
