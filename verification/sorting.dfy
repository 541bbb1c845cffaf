/** src/Coordination/sorting.py: ordering the channels of a teaching or
    archive category by lower-cased name, with `cmd` pinned first, and moving
    only the channels that are not already at their target index. */
module Sorting {
  import opened Wrappers
  import opened Text
  import opened Seqs
  import opened Platform
  import Environment

  const CmdName: string := "cmd"

  // ---------------------------------------------------------------------------
  // `_is_allowed_category`

  /** `_is_allowed_category(category)`: the stored teaching-category ids plus
      the archive category's id; the archive lookup raises when the guild has
      no '📚 Wissensbereich' category. */
  method IsAllowedCategory(teaching: seq<Id>, cats: seq<Category>, cat: Id) returns (r: Result<bool>)
    ensures r.Err? <==> Environment.GetArchiveCategory(cats).Err?
    ensures r.Err? ==> r.error == Environment.GetArchiveCategory(cats).error
    ensures r.Ok? ==> (r.value <==> cat in teaching || cat == Environment.GetArchiveCategory(cats).value.id)
  {
    var allowed := teaching;
    var archive :- Environment.GetArchiveCategory(cats);
    allowed := allowed + [archive.id];
    r := Ok(cat in allowed);
  }

  // ---------------------------------------------------------------------------
  // `sorted(category.channels, key=lambda c: c.name.lower())`

  function Key(c: Channel): string {
    LowerStr(c.name)
  }

  predicate KeyLe(a: Channel, b: Channel) {
    LexLe(Key(a), Key(b))
  }

  predicate SortedByKey(s: seq<Channel>) {
    forall i, j :: 0 <= i < j < |s| ==> KeyLe(s[i], s[j])
  }

  /** The channels whose lower-cased name is `k`. */
  function HasKey(k: string): Channel -> bool {
    c => Key(c) == k
  }

  /** Inserts `x` after every element whose key is not greater than its own. */
  function InsertByKey(s: seq<Channel>, x: Channel): seq<Channel>
    decreases |s|
  {
    if s == [] then [x]
    else if KeyLe(s[|s| - 1], x) then s + [x]
    else InsertByKey(s[..|s| - 1], x) + [s[|s| - 1]]
  }

  /** Python's stable `sorted` with the lower-cased name as key. */
  function SortByKey(xs: seq<Channel>): seq<Channel>
    decreases |xs|
  {
    if xs == [] then [] else InsertByKey(SortByKey(xs[..|xs| - 1]), xs[|xs| - 1])
  }

  lemma {:induction false} InsertPermutes(s: seq<Channel>, x: Channel)
    ensures multiset(InsertByKey(s, x)) == multiset(s) + multiset{x}
    decreases |s|
  {
    if s != [] && !KeyLe(s[|s| - 1], x) {
      var front := s[..|s| - 1];
      InsertPermutes(front, x);
      assert s == front + [s[|s| - 1]];
    }
  }

  lemma {:induction false} InsertSorted(s: seq<Channel>, x: Channel)
    requires SortedByKey(s)
    ensures SortedByKey(InsertByKey(s, x))
    decreases |s|
  {
    if s != [] {
      var last := s[|s| - 1];
      var front := s[..|s| - 1];
      if KeyLe(last, x) {
        forall i | 0 <= i < |s| - 1
          ensures KeyLe(s[i], x)
        {
          LexLeTransitive(Key(s[i]), Key(last), Key(x));
        }
      } else {
        InsertSorted(front, x);
        InsertPermutes(front, x);
        LexLeTotal(Key(last), Key(x));
        var r := InsertByKey(front, x);
        forall i | 0 <= i < |r|
          ensures KeyLe(r[i], last)
        {
          assert r[i] in multiset(r);
          if r[i] != x {
            assert r[i] in multiset(front);
            var k :| 0 <= k < |front| && front[k] == r[i];
            assert s[k] == r[i];
          }
        }
      }
    }
  }

  lemma {:induction false} InsertStable(s: seq<Channel>, x: Channel, k: string)
    ensures Filter(InsertByKey(s, x), HasKey(k)) == Filter(s, HasKey(k)) + (if Key(x) == k then [x] else [])
    decreases |s|
  {
    var p := HasKey(k);
    assert p(x) == (Key(x) == k);
    if s == [] {
      assert Filter([x], p) == (if p(x) then [x] else []) + Filter([x][1..], p);
    } else {
      var last := s[|s| - 1];
      var front := s[..|s| - 1];
      assert s == front + [last];
      if KeyLe(last, x) {
        FilterSnoc(s, x, p);
      } else {
        var inserted := InsertByKey(front, x);
        assert InsertByKey(s, x) == inserted + [last];
        InsertStable(front, x, k);
        FilterSnoc(inserted, last, p);
        FilterSnoc(front, last, p);
        LexLeReflexive(Key(x));
        assert !(p(x) && p(last));
      }
    }
  }

  /** `sorted` returns a permutation of its input, in key order, and keeps
      the input order of channels with equal keys. */
  lemma {:induction false} SortByKeyCorrect(xs: seq<Channel>)
    ensures multiset(SortByKey(xs)) == multiset(xs)
    ensures SortedByKey(SortByKey(xs))
    ensures forall k :: Filter(SortByKey(xs), HasKey(k)) == Filter(xs, HasKey(k))
    decreases |xs|
  {
    if xs != [] {
      var front := xs[..|xs| - 1];
      var x := xs[|xs| - 1];
      assert xs == front + [x];
      SortByKeyCorrect(front);
      InsertPermutes(SortByKey(front), x);
      InsertSorted(SortByKey(front), x);
      forall k
        ensures Filter(SortByKey(xs), HasKey(k)) == Filter(xs, HasKey(k))
      {
        InsertStable(SortByKey(front), x, k);
        FilterSnoc(front, x, HasKey(k));
      }
    }
  }

  // ---------------------------------------------------------------------------
  // Pinning `cmd`

  /** `discord.utils.get(category.channels, name='cmd')` */
  function FirstNamed(chs: seq<Channel>, name: string): (r: Option<Channel>)
    ensures r.Some? ==> exists k :: 0 <= k < |chs| && chs[k] == r.value && r.value.name == name
                                    && forall j :: 0 <= j < k ==> chs[j].name != name
    ensures r.None? <==> forall j :: 0 <= j < |chs| ==> chs[j].name != name
    decreases |chs|
  {
    if chs == [] then None
    else if chs[0].name == name then Some(chs[0])
    else
      var r := FirstNamed(chs[1..], name);
      assert forall j :: 1 <= j < |chs| ==> chs[j] == chs[1..][j - 1];
      r
  }

  /** `list.remove(x)`: drops the first element equal to `x`. */
  function RemoveFirst(s: seq<Channel>, x: Channel): seq<Channel>
    decreases |s|
  {
    if s == [] then []
    else if s[0] == x then s[1..]
    else [s[0]] + RemoveFirst(s[1..], x)
  }

  lemma {:induction false} RemoveFirstPermutes(s: seq<Channel>, x: Channel)
    ensures x in s ==> multiset(RemoveFirst(s, x)) == multiset(s) - multiset{x}
    ensures x !in s ==> RemoveFirst(s, x) == s
    decreases |s|
  {
    if s != [] {
      assert s == [s[0]] + s[1..];
      if s[0] != x {
        RemoveFirstPermutes(s[1..], x);
      }
    }
  }

  lemma {:induction false} RemoveFirstSorted(s: seq<Channel>, x: Channel)
    requires SortedByKey(s)
    ensures SortedByKey(RemoveFirst(s, x))
    decreases |s|
  {
    if s != [] && s[0] != x {
      var rest := s[1..];
      RemoveFirstSorted(rest, x);
      RemoveFirstWithin(rest, x);
      var r := RemoveFirst(rest, x);
      forall i | 0 <= i < |r|
        ensures KeyLe(s[0], r[i])
      {
        assert r[i] in r;
        var k :| 0 <= k < |rest| && rest[k] == r[i];
        assert s[k + 1] == r[i];
      }
      SortedCons(s[0], r);
    }
  }

  /** Every element left after removing `x` was there before. */
  lemma {:induction false} RemoveFirstWithin(s: seq<Channel>, x: Channel)
    ensures forall y :: y in RemoveFirst(s, x) ==> y in s
    decreases |s|
  {
    if s != [] && s[0] != x {
      RemoveFirstWithin(s[1..], x);
    }
  }

  /** A sorted sequence stays sorted behind a head no greater than any of
      its elements. */
  lemma SortedCons(h: Channel, r: seq<Channel>)
    requires SortedByKey(r)
    requires forall i :: 0 <= i < |r| ==> KeyLe(h, r[i])
    ensures SortedByKey([h] + r)
  {
    var hr := [h] + r;
    forall i, j | 0 <= i < j < |hr|
      ensures KeyLe(hr[i], hr[j])
    {
      assert hr[j] == r[j - 1];
      if i > 0 {
        assert hr[i] == r[i - 1];
      }
    }
  }

  /** Removing `x` commutes with filtering by a predicate `x` satisfies, and
      does nothing to the filtered sequence otherwise. */
  lemma {:induction false} FilterRemoveFirst(s: seq<Channel>, x: Channel, p: Channel -> bool)
    ensures Filter(RemoveFirst(s, x), p) == if p(x) then RemoveFirst(Filter(s, p), x) else Filter(s, p)
    decreases |s|
  {
    if s != [] {
      var head, tail := s[0], s[1..];
      var ft := Filter(tail, p);
      assert Filter(s, p) == (if p(head) then [head] else []) + ft;
      if head == x {
        assert RemoveFirst(s, x) == tail;
        if p(x) {
          assert ([x] + ft)[1..] == ft;
          assert RemoveFirst(Filter(s, p), x) == ft;
        } else {
          assert Filter(s, p) == ft;
        }
      } else {
        var removed := RemoveFirst(tail, x);
        FilterRemoveFirst(tail, x, p);
        assert ([head] + removed)[1..] == removed;
        assert Filter([head] + removed, p) == (if p(head) then [head] else []) + Filter(removed, p);
        if p(x) && p(head) {
          assert ([head] + ft)[1..] == ft;
          assert RemoveFirst([head] + ft, x) == [head] + RemoveFirst(ft, x);
          assert Filter(RemoveFirst(s, x), p) == RemoveFirst(Filter(s, p), x);
        } else if p(x) {
          assert Filter(s, p) == ft;
          assert Filter(RemoveFirst(s, x), p) == RemoveFirst(ft, x);
        } else {
          assert Filter(RemoveFirst(s, x), p) == Filter(s, p);
        }
      }
    }
  }

  /** The target order of lines 44-49: the sorted channels, with the first
      channel named `cmd` moved to the front. */
  function TargetOrder(cc: seq<Channel>): seq<Channel> {
    var sorted := SortByKey(cc);
    match FirstNamed(cc, CmdName)
    case Some(cmd) => [cmd] + RemoveFirst(sorted, cmd)
    case None => sorted
  }

  /** The channels after `cmd` (all of them when there is none). */
  function Rest(cc: seq<Channel>): seq<Channel> {
    match FirstNamed(cc, CmdName)
    case Some(cmd) => RemoveFirst(cc, cmd)
    case None => cc
  }

  /** The target order is a permutation of the category's channels; a
      channel named `cmd` is first; the others follow in key order, and
      channels with the same lower-cased name keep their original order. */
  lemma TargetOrderCorrect(cc: seq<Channel>)
    ensures multiset(TargetOrder(cc)) == multiset(cc)
    ensures FirstNamed(cc, CmdName).Some? ==> TargetOrder(cc)[0] == FirstNamed(cc, CmdName).value
    ensures var t := TargetOrder(cc);
            var others := if FirstNamed(cc, CmdName).Some? then t[1..] else t;
            SortedByKey(others) && forall k :: Filter(others, HasKey(k)) == Filter(Rest(cc), HasKey(k))
  {
    var sorted := SortByKey(cc);
    SortByKeyCorrect(cc);
    match FirstNamed(cc, CmdName)
    case None =>
    case Some(cmd) =>
      var t := TargetOrder(cc);
      assert cmd in cc;
      assert cmd in multiset(sorted);
      RemoveFirstPermutes(sorted, cmd);
      RemoveFirstSorted(sorted, cmd);
      assert t[1..] == RemoveFirst(sorted, cmd);
      forall k
        ensures Filter(t[1..], HasKey(k)) == Filter(Rest(cc), HasKey(k))
      {
        FilterRemoveFirst(sorted, cmd, HasKey(k));
        FilterRemoveFirst(cc, cmd, HasKey(k));
      }
  }

  // ---------------------------------------------------------------------------
  // The position edits

  /** The edits the loop of lines 54-57 issues for the first `n` targets. */
  function PositionEdits(t: seq<Channel>, n: nat): seq<Call>
    requires n <= |t|
  {
    if n == 0 then []
    else PositionEdits(t, n - 1)
         + (if t[n - 1].position != n - 1 then [SetPositionCall(t[n - 1].id, n - 1)] else [])
  }

  /** The channels after the edits for the first `n` targets. */
  function Repositioned(chs: seq<Channel>, t: seq<Channel>, n: nat): (r: seq<Channel>)
    requires n <= |t|
    ensures |r| == |chs|
    ensures forall i :: 0 <= i < |chs| ==> r[i] == chs[i].(position := r[i].position)
  {
    if n == 0 then chs
    else
      var prev := Repositioned(chs, t, n - 1);
      if t[n - 1].position != n - 1 then WithPosition(prev, t[n - 1].id, n - 1) else prev
  }

  /** A channel is edited exactly when its position differs from its target
      index, and the edit sets that index; nothing else is edited. */
  lemma {:induction false} EditsExact(t: seq<Channel>, n: nat)
    requires n <= |t|
    ensures forall k :: 0 <= k < n ==> (SetPositionCall(t[k].id, k) in PositionEdits(t, n) <==> t[k].position != k)
    ensures forall e :: e in PositionEdits(t, n) ==>
              exists k :: 0 <= k < n && t[k].position != k && e == SetPositionCall(t[k].id, k)
    ensures |PositionEdits(t, n)| <= n
  {
    if n > 0 {
      EditsExact(t, n - 1);
    }
  }

  lemma RepositionedInvariant(chs: seq<Channel>, t: seq<Channel>, n: nat)
    requires n <= |t| && ChannelIdsUnique(chs) && ChannelIdsUnique(t)
    requires forall k :: 0 <= k < |t| ==> t[k] in chs
    ensures forall i, k :: 0 <= i < |chs| && 0 <= k < n && chs[i].id == t[k].id ==>
              Repositioned(chs, t, n)[i].position == k
    ensures forall i :: 0 <= i < |chs| && (forall k :: 0 <= k < n ==> t[k].id != chs[i].id) ==>
              Repositioned(chs, t, n)[i] == chs[i]
  {
    RepositionedUntouched(chs, t, n);
    forall i, k | 0 <= i < |chs| && 0 <= k < n && chs[i].id == t[k].id
      ensures Repositioned(chs, t, n)[i].position == k
    {
      RepositionedAt(chs, t, n, i, k);
    }
  }

  /** The channel the `k`-th target names sits at index `k` once `n > k`
      steps have run. */
  lemma {:induction false} RepositionedAt(chs: seq<Channel>, t: seq<Channel>, n: nat, i: nat, k: nat)
    requires n <= |t| && ChannelIdsUnique(chs) && ChannelIdsUnique(t)
    requires forall j :: 0 <= j < |t| ==> t[j] in chs
    requires i < |chs| && k < n && chs[i].id == t[k].id
    ensures Repositioned(chs, t, n)[i].position == k
  {
    var x := t[n - 1];
    var prev := Repositioned(chs, t, n - 1);
    assert prev[i].id == chs[i].id;
    if k < n - 1 {
      RepositionedAt(chs, t, n - 1, i, k);
      assert t[k].id != x.id;
    } else if x.position == n - 1 {
      RepositionedUntouched(chs, t, n - 1);
      assert forall j :: 0 <= j < n - 1 ==> t[j].id != chs[i].id;
      var j :| 0 <= j < |chs| && chs[j] == x;
      assert chs[i] == x;
    }
  }

  /** A channel none of the first `n` targets names is left as it was. */
  lemma {:induction false} RepositionedUntouched(chs: seq<Channel>, t: seq<Channel>, n: nat)
    requires n <= |t|
    ensures forall i :: 0 <= i < |chs| && (forall k :: 0 <= k < n ==> t[k].id != chs[i].id) ==>
              Repositioned(chs, t, n)[i] == chs[i]
  {
    if n > 0 {
      RepositionedUntouched(chs, t, n - 1);
    }
  }

  /** After the loop every target channel sits at its target index. */
  lemma FinalPositions(chs: seq<Channel>, t: seq<Channel>)
    requires ChannelIdsUnique(chs) && ChannelIdsUnique(t)
    requires forall k :: 0 <= k < |t| ==> t[k] in chs
    ensures forall i, k :: 0 <= i < |chs| && 0 <= k < |t| && chs[i].id == t[k].id ==>
              Repositioned(chs, t, |t|)[i].position == k
  {
    RepositionedInvariant(chs, t, |t|);
  }

  lemma CountTwo(t: seq<Channel>, a: nat, b: nat)
    requires a < b < |t| && t[a] == t[b]
    ensures multiset(t)[t[a]] >= 2
  {
    assert t == t[..b] + [t[b]] + t[b + 1..];
    assert t[a] == t[..b][a];
  }

  lemma {:induction false} UniqueIdsCountOne(s: seq<Channel>, v: Channel)
    requires ChannelIdsUnique(s)
    ensures multiset(s)[v] <= 1
    decreases |s|
  {
    if s != [] {
      assert s == [s[0]] + s[1..];
      UniqueIdsCountOne(s[1..], v);
      if s[0] == v {
        assert forall j :: 0 <= j < |s[1..]| ==> s[1..][j] == s[j + 1];
        assert v !in s[1..];
      }
    }
  }

  /** Reordering channels keeps their ids distinct. */
  lemma PermutationKeepsIds(s: seq<Channel>, t: seq<Channel>)
    requires multiset(s) == multiset(t) && ChannelIdsUnique(s)
    ensures ChannelIdsUnique(t)
  {
    forall a, b | 0 <= a < b < |t|
      ensures t[a].id != t[b].id
    {
      if t[a] == t[b] {
        CountTwo(t, a, b);
        UniqueIdsCountOne(s, t[a]);
        assert false;
      } else {
        assert t[a] in multiset(s) && t[b] in multiset(s);
        var i :| 0 <= i < |s| && s[i] == t[a];
        var j :| 0 <= j < |s| && s[j] == t[b];
        assert i != j;
      }
    }
  }

  lemma {:induction false} CategoryChannelsUnique(chs: seq<Channel>, cat: Id)
    requires ChannelIdsUnique(chs)
    ensures ChannelIdsUnique(CategoryChannels(chs, cat))
    decreases |chs|
  {
    if chs != [] {
      var rest := chs[1..];
      assert forall j :: 0 <= j < |rest| ==> rest[j] == chs[j + 1];
      CategoryChannelsUnique(rest, cat);
      var cr := CategoryChannels(rest, cat);
      assert forall j :: 0 <= j < |cr| ==> cr[j] in rest;
    }
  }

  /** For a guild whose channel ids are distinct, sorting a category leaves
      each of its channels at the index the target order gives it. */
  lemma SortedPositions(chs: seq<Channel>, cat: Id)
    requires ChannelIdsUnique(chs)
    ensures var t := TargetOrder(CategoryChannels(chs, cat));
            forall i, k :: 0 <= i < |chs| && 0 <= k < |t| && chs[i].id == t[k].id ==>
              Repositioned(chs, t, |t|)[i].position == k
  {
    var cc := CategoryChannels(chs, cat);
    var t := TargetOrder(cc);
    TargetOrderCorrect(cc);
    CategoryChannelsUnique(chs, cat);
    PermutationKeepsIds(cc, t);
    forall k | 0 <= k < |t|
      ensures t[k] in chs
    {
      assert t[k] in multiset(cc);
    }
    FinalPositions(chs, t);
  }

  // ---------------------------------------------------------------------------
  // `sort_channels_in_category`

  /** `sort_channels_in_category(category)`: nothing is edited for a category
      that is not sortable; otherwise the target order is built in place and
      each channel whose position differs from its index is moved there. */
  method SortChannelsInCategory(g: Guild, teaching: seq<Id>, cat: Category) returns (r: Outcome)
    modifies g
    ensures r.Failed? <==> Environment.GetArchiveCategory(old(g.categories)).Err?
    ensures r.Failed? ==> r.error == Environment.GetArchiveCategory(old(g.categories)).error && unchanged(g)
    ensures (r.Done? && !(cat.id in teaching || cat.id == Environment.GetArchiveCategory(old(g.categories)).value.id))
              ==> unchanged(g)
    ensures (r.Done? && (cat.id in teaching || cat.id == Environment.GetArchiveCategory(old(g.categories)).value.id))
              ==> var t := TargetOrder(CategoryChannels(old(g.channels), cat.id));
                  g.calls == old(g.calls) + PositionEdits(t, |t|)
                  && g.channels == Repositioned(old(g.channels), t, |t|)
                  && g.roles == old(g.roles) && g.members == old(g.members)
                  && g.categories == old(g.categories) && g.nextId == old(g.nextId)
  {
    var allowed := IsAllowedCategory(teaching, g.categories, cat.id);
    if allowed.Err? {
      return Failed(allowed.error);
    }
    if !allowed.value {
      return Done;
    }
    var channels := CategoryChannels(g.channels, cat.id);
    var sorted := SortByKey(channels);
    var cmd := FirstNamed(channels, CmdName);
    if cmd.Some? {
      sorted := RemoveFirst(sorted, cmd.value);
      sorted := [cmd.value] + sorted;
    }
    assert sorted == TargetOrder(channels);
    MoveToTargets(g, sorted);
    r := Done;
  }

  /** The loop of lines 54-59 over `enumerate(sorted_channels)`. */
  method MoveToTargets(g: Guild, t: seq<Channel>)
    modifies g
    ensures g.calls == old(g.calls) + PositionEdits(t, |t|)
    ensures g.channels == Repositioned(old(g.channels), t, |t|)
    ensures g.roles == old(g.roles) && g.members == old(g.members)
    ensures g.categories == old(g.categories) && g.nextId == old(g.nextId)
  {
    for i := 0 to |t|
      invariant g.calls == old(g.calls) + PositionEdits(t, i)
      invariant g.channels == Repositioned(old(g.channels), t, i)
      invariant g.roles == old(g.roles) && g.members == old(g.members)
      invariant g.categories == old(g.categories) && g.nextId == old(g.nextId)
    {
      if t[i].position != i {
        g.SetPosition(t[i].id, i);
      }
    }
  }
}
