/**
 Grouping of song search results (bot/utils/search.go): variants of one song move together to where the
 first of them stood, explicit before clean before unrated. Lower-casing is Go's Unicode one; it is a
 parameter.
 */
module SongGroups {
  import GoStrings

  datatype Item = Item(id: string, url: string, name: string, artist: string, album: string, rating: string)

  type Lower = string -> string

  function SongGroupKey(lower: Lower, item: Item): string {
    var name, artist, album := GoStrings.TrimSpace(item.name), GoStrings.TrimSpace(item.artist), GoStrings.TrimSpace(item.album);
    if name == "" && artist == "" && album == "" then
      if item.id != "" then "id:" + item.id
      else if item.url != "" then "url:" + item.url
      else ""
    else lower(name + "|" + artist + "|" + album)
  }

  function RatingRank(lower: Lower, rating: string): nat {
    var r := lower(rating);
    if r == "explicit" then 0 else if r == "clean" then 1 else 2
  }

  // ---- what the order must be ---------------------------------------------

  /** Key and rank of every item, by position. */
  datatype Table = Table(keys: seq<string>, ranks: seq<nat>)

  predicate Valid(t: Table) {
    |t.keys| == |t.ranks|
  }

  function TableOf(lower: Lower, items: seq<Item>): (t: Table)
    ensures Valid(t) && |t.keys| == |items|
  {
    Table(seq(|items|, i requires 0 <= i < |items| => SongGroupKey(lower, items[i])),
          seq(|items|, i requires 0 <= i < |items| => RatingRank(lower, items[i].rating)))
  }

  function FirstWith(keys: seq<string>, key: string, j: nat): (r: nat)
    requires j <= |keys|
    ensures j <= r <= |keys| && (r < |keys| ==> keys[r] == key) && forall k :: j <= k < r ==> keys[k] != key
    decreases |keys| - j
  {
    if j == |keys| || keys[j] == key then j else FirstWith(keys, key, j + 1)
  }

  /** Where the song of position i first appears. An item without a key is a song of its own. */
  function Leader(t: Table, i: nat): (r: nat)
    requires i < |t.keys|
    ensures r <= i && (t.keys[i] != "" ==> t.keys[r] == t.keys[i])
  {
    if t.keys[i] == "" then i else FirstWith(t.keys, t.keys[i], 0)
  }

  /** By first appearance of the song, then rating, then original position. */
  predicate Before(t: Table, i: nat, j: nat)
    requires Valid(t) && i < |t.keys| && j < |t.keys|
  {
    Leader(t, i) < Leader(t, j) || (Leader(t, i) == Leader(t, j) && ByRank(t, i, j))
  }

  predicate ByRank(t: Table, i: nat, j: nat)
    requires i < |t.ranks| && j < |t.ranks|
  {
    t.ranks[i] < t.ranks[j] || (t.ranks[i] == t.ranks[j] && i < j)
  }

  predicate InRange(t: Table, s: seq<nat>) {
    Valid(t) && forall a :: 0 <= a < |s| ==> s[a] < |t.keys|
  }

  predicate Ordered(t: Table, s: seq<nat>) {
    InRange(t, s) && forall a, b :: 0 <= a < b < |s| ==> Before(t, s[a], s[b])
  }

  /** Every position once, in the required order. */
  predicate IsArrangement(t: Table, s: seq<nat>) {
    Ordered(t, s) && |s| == |t.keys| && forall i :: 0 <= i < |t.keys| ==> i in s
  }

  // ---- grouping -----------------------------------------------------------

  type Groups = seq<seq<nat>>

  /** The group of a key, or the number of groups. */
  function Find(keys: seq<string>, gs: Groups, key: string, k: nat): (r: nat)
    requires k <= |gs| && forall l :: 0 <= l < |gs| ==> gs[l] != [] && gs[l][0] < |keys|
    ensures k <= r <= |gs| && (r < |gs| ==> keys[gs[r][0]] == key) && forall l :: k <= l < r ==> keys[gs[l][0]] != key
    decreases |gs| - k
  {
    if k == |gs| || keys[gs[k][0]] == key then k else Find(keys, gs, key, k + 1)
  }

  predicate WellFormed(t: Table, gs: Groups) {
    Valid(t) && forall l :: 0 <= l < |gs| ==> gs[l] != [] && InRange(t, gs[l])
  }

  function WithItem(t: Table, gs: Groups, i: nat): (r: Groups)
    requires WellFormed(t, gs) && i < |t.keys|
    ensures WellFormed(t, r)
  {
    var k := if t.keys[i] == "" then |gs| else Find(t.keys, gs, t.keys[i], 0);
    if k == |gs| then gs + [[i]] else gs[k := gs[k] + [i]]
  }

  function GroupsUpTo(t: Table, n: nat): (r: Groups)
    requires Valid(t) && n <= |t.keys|
    ensures WellFormed(t, r)
  {
    if n == 0 then [] else WithItem(t, GroupsUpTo(t, n - 1), n - 1)
  }

  predicate Increasing(s: seq<nat>) {
    forall a, b :: 0 <= a < b < |s| ==> s[a] < s[b]
  }

  predicate OneSong(t: Table, g: seq<nat>)
    requires g != [] && InRange(t, g)
  {
    forall a :: 0 <= a < |g| ==> Leader(t, g[a]) == g[0]
  }

  predicate Holds(gs: Groups, i: nat) {
    exists k :: 0 <= k < |gs| && i in gs[k]
  }

  /** Each group is one song in original order, and the songs are in order of first appearance. */
  predicate Apart(t: Table, gs: Groups) {
    && WellFormed(t, gs)
    && (forall k :: 0 <= k < |gs| ==> OneSong(t, gs[k]) && Increasing(gs[k]))
    && (forall k, l :: 0 <= k < l < |gs| ==> gs[k][0] < gs[l][0])
  }

  /** The groups hold exactly the first n items. */
  predicate Grouped(t: Table, gs: Groups, n: nat) {
    && Apart(t, gs) && n <= |t.keys|
    && (forall k, a :: 0 <= k < |gs| && 0 <= a < |gs[k]| ==> gs[k][a] < n)
    && (forall i :: 0 <= i < n ==> Holds(gs, i))
  }

  lemma SameLeader(t: Table, i: nat, j: nat)
    requires i < |t.keys| && j < |t.keys| && t.keys[i] == t.keys[j] != ""
    ensures Leader(t, i) == Leader(t, j)
  {
  }

  /** A new key has no group yet, and a known one has the group of its leader. */
  lemma FindIsLeader(t: Table, gs: Groups, n: nat)
    requires Grouped(t, gs, n) && n < |t.keys| && t.keys[n] != ""
    ensures var k := Find(t.keys, gs, t.keys[n], 0); Leader(t, n) == if k == |gs| then n else gs[k][0]
  {
    var k := Find(t.keys, gs, t.keys[n], 0);
    if k < |gs| {
      SameLeader(t, gs[k][0], n);
      assert OneSong(t, gs[k]);
    } else {
      forall j: nat | j < n ensures t.keys[j] != t.keys[n] {
        assert Holds(gs, j);
        var l :| 0 <= l < |gs| && j in gs[l];
        assert OneSong(t, gs[l]);
        LeaderHasKey(t, j);
      }
    }
  }

  lemma WithItemKeepsApart(t: Table, gs: Groups, n: nat)
    requires Grouped(t, gs, n) && n < |t.keys|
    ensures Apart(t, WithItem(t, gs, n))
  {
    if t.keys[n] != "" {
      FindIsLeader(t, gs, n);
    }
    var gs' := WithItem(t, gs, n);
    forall k | 0 <= k < |gs'| ensures OneSong(t, gs'[k]) && Increasing(gs'[k]) {
      if k < |gs| {
        assert OneSong(t, gs[k]) && Increasing(gs[k]);
      }
    }
    forall k, l | 0 <= k < l < |gs'| ensures gs'[k][0] < gs'[l][0] {
      assert gs'[k][0] == gs[k][0] && (l < |gs| ==> gs'[l][0] == gs[l][0]);
    }
  }

  lemma WithItemHolds(t: Table, gs: Groups, n: nat, i: nat)
    requires WellFormed(t, gs) && n < |t.keys|
    ensures Holds(WithItem(t, gs, n), i) <==> i == n || Holds(gs, i)
  {
    var gs' := WithItem(t, gs, n);
    var k := if t.keys[n] == "" then |gs| else Find(t.keys, gs, t.keys[n], 0);
    assert n in gs'[k];
    if Holds(gs, i) {
      var l :| 0 <= l < |gs| && i in gs[l];
      assert i in gs'[l];
    }
    if Holds(gs', i) {
      var l :| 0 <= l < |gs'| && i in gs'[l];
      assert l < |gs| && i != n ==> i in gs[l];
    }
  }

  lemma WithItemKeepsGrouped(t: Table, gs: Groups, n: nat, gs': Groups, m: nat)
    requires Grouped(t, gs, n) && n < |t.keys| && m == n + 1 && gs' == WithItem(t, gs, n)
    ensures Grouped(t, gs', m)
  {
    WithItemKeepsApart(t, gs, n);
    forall i: nat | i < m ensures Holds(gs', i) {
      WithItemHolds(t, gs, n, i);
    }
    forall k, a | 0 <= k < |gs'| && 0 <= a < |gs'[k]| ensures gs'[k][a] < m {
      assert k < |gs| && a < |gs[k]| ==> gs'[k][a] == gs[k][a];
    }
  }

  lemma {:induction false} GroupsAreSongs(t: Table, n: nat)
    requires Valid(t) && n <= |t.keys|
    ensures Grouped(t, GroupsUpTo(t, n), n)
    decreases n
  {
    if n > 0 {
      GroupsAreSongs(t, n - 1);
      WithItemKeepsGrouped(t, GroupsUpTo(t, n - 1), n - 1, GroupsUpTo(t, n), n);
    }
  }

  // ---- stable sorting of one group ----------------------------------------

  function Insert(t: Table, x: nat, s: seq<nat>): (r: seq<nat>)
    requires x < |t.ranks| && forall a :: 0 <= a < |s| ==> s[a] < |t.ranks|
    ensures |r| == |s| + 1 && forall y :: y in r <==> y == x || y in s
  {
    if s == [] || t.ranks[x] <= t.ranks[s[0]] then [x] + s
    else
      assert s == [s[0]] + s[1..];
      [s[0]] + Insert(t, x, s[1..])
  }

  function StableSorted(t: Table, s: seq<nat>): (r: seq<nat>)
    requires forall a :: 0 <= a < |s| ==> s[a] < |t.ranks|
    ensures |r| == |s| && forall y :: y in r <==> y in s
  {
    if s == [] then []
    else
      assert s == [s[0]] + s[1..];
      var rest := StableSorted(t, s[1..]);
      assert forall a :: 0 <= a < |rest| ==> rest[a] in s[1..];
      Insert(t, s[0], rest)
  }

  predicate RankOrdered(t: Table, s: seq<nat>) {
    && (forall a :: 0 <= a < |s| ==> s[a] < |t.ranks|)
    && forall a, b :: 0 <= a < b < |s| ==> ByRank(t, s[a], s[b])
  }

  lemma {:induction false} InsertKeepsOrder(t: Table, x: nat, s: seq<nat>)
    requires x < |t.ranks| && RankOrdered(t, s) && forall a :: 0 <= a < |s| ==> x < s[a]
    ensures RankOrdered(t, Insert(t, x, s))
  {
    if s != [] && t.ranks[x] > t.ranks[s[0]] {
      InsertKeepsOrder(t, x, s[1..]);
      var rest := Insert(t, x, s[1..]);
      forall b | 0 <= b < |rest| ensures ByRank(t, s[0], rest[b]) {
        assert rest[b] == x || rest[b] in s[1..];
      }
    }
  }

  /** Within a group the order is by rank and, within a rank, the original one. */
  lemma {:induction false} StableSortedIsOrdered(t: Table, s: seq<nat>)
    requires Increasing(s) && forall a :: 0 <= a < |s| ==> s[a] < |t.ranks|
    ensures RankOrdered(t, StableSorted(t, s))
  {
    if s != [] {
      StableSortedIsOrdered(t, s[1..]);
      var rest := StableSorted(t, s[1..]);
      forall a | 0 <= a < |rest| ensures s[0] < rest[a] {
        assert rest[a] in s[1..];
      }
      InsertKeepsOrder(t, s[0], rest);
    }
  }

  // ---- putting the groups together ----------------------------------------

  /** The sorted groups, one after the other. */
  function Laid(t: Table, gs: Groups): (r: seq<nat>)
    requires WellFormed(t, gs)
    ensures InRange(t, r)
  {
    if gs == [] then []
    else
      var last := StableSorted(t, gs[|gs| - 1]);
      assert forall y :: y in last ==> y in gs[|gs| - 1];
      assert forall a :: 0 <= a < |last| ==> last[a] in last;
      Laid(t, gs[..|gs| - 1]) + last
  }

  function Arranged(t: Table): seq<nat>
    requires Valid(t)
  {
    Laid(t, GroupsUpTo(t, |t.keys|))
  }

  lemma {:induction false} LaidHolds(t: Table, gs: Groups, i: nat)
    requires WellFormed(t, gs)
    ensures i in Laid(t, gs) <==> Holds(gs, i)
  {
    if gs != [] {
      var before := gs[..|gs| - 1];
      LaidHolds(t, before, i);
      assert forall k :: 0 <= k < |before| ==> before[k] == gs[k];
      assert i in Laid(t, gs) <==> i in Laid(t, before) || i in gs[|gs| - 1];
    }
  }

  lemma EarlierSong(t: Table, gs: Groups, x: nat, y: nat)
    requires Apart(t, gs) && gs != [] && Holds(gs[..|gs| - 1], x) && y in gs[|gs| - 1]
    ensures x < |t.keys| && y < |t.keys| && Before(t, x, y)
  {
    var k :| 0 <= k < |gs| - 1 && x in gs[k];
    assert OneSong(t, gs[k]) && OneSong(t, gs[|gs| - 1]);
  }

  lemma ApartBefore(t: Table, gs: Groups)
    requires Apart(t, gs) && gs != []
    ensures Apart(t, gs[..|gs| - 1])
  {
    var before := gs[..|gs| - 1];
    forall k | 0 <= k < |before| ensures OneSong(t, before[k]) && Increasing(before[k]) {
      assert before[k] == gs[k];
    }
  }

  lemma OrderedConcat(t: Table, s: seq<nat>, r: seq<nat>)
    requires Ordered(t, s) && Ordered(t, r)
    requires forall a, b :: 0 <= a < |s| && 0 <= b < |r| ==> Before(t, s[a], r[b])
    ensures Ordered(t, s + r)
  {
  }

  lemma SortedGroupInOrder(t: Table, g: seq<nat>)
    requires g != [] && InRange(t, g) && OneSong(t, g) && Increasing(g)
    ensures Ordered(t, StableSorted(t, g))
  {
    StableSortedIsOrdered(t, g);
    var r := StableSorted(t, g);
    forall a | 0 <= a < |r| ensures r[a] in g {
      assert r[a] in r;
    }
  }

  lemma {:induction false} LaidInOrder(t: Table, gs: Groups)
    requires Apart(t, gs)
    ensures Ordered(t, Laid(t, gs))
  {
    if gs != [] {
      var before, g := gs[..|gs| - 1], gs[|gs| - 1];
      ApartBefore(t, gs);
      LaidInOrder(t, before);
      SortedGroupInOrder(t, g);
      var s, last := Laid(t, before), StableSorted(t, g);
      forall a, b | 0 <= a < |s| && 0 <= b < |last| ensures Before(t, s[a], last[b]) {
        assert s[a] in s && last[b] in last;
        LaidHolds(t, before, s[a]);
        EarlierSong(t, gs, s[a], last[b]);
      }
      OrderedConcat(t, s, last);
    }
  }

  function Total(gs: Groups): nat {
    if gs == [] then 0 else Total(gs[..|gs| - 1]) + |gs[|gs| - 1]|
  }

  lemma {:induction false} LaidLength(t: Table, gs: Groups)
    requires WellFormed(t, gs)
    ensures |Laid(t, gs)| == Total(gs)
  {
    if gs != [] {
      LaidLength(t, gs[..|gs| - 1]);
    }
  }

  lemma {:induction false} TotalOfLonger(gs: Groups, k: nat, i: nat)
    requires k < |gs|
    ensures Total(gs[k := gs[k] + [i]]) == Total(gs) + 1
    decreases |gs|
  {
    var longer := gs[k := gs[k] + [i]];
    if k < |gs| - 1 {
      TotalOfLonger(gs[..|gs| - 1], k, i);
      assert longer[..|gs| - 1] == gs[..|gs| - 1][k := gs[k] + [i]];
    } else {
      assert longer[..|gs| - 1] == gs[..|gs| - 1];
    }
  }

  lemma {:induction false} TotalIsCount(t: Table, n: nat)
    requires Valid(t) && n <= |t.keys|
    ensures Total(GroupsUpTo(t, n)) == n
  {
    if n > 0 {
      TotalIsCount(t, n - 1);
      var gs, i := GroupsUpTo(t, n - 1), n - 1;
      var k := if t.keys[i] == "" then |gs| else Find(t.keys, gs, t.keys[i], 0);
      if k < |gs| {
        TotalOfLonger(gs, k, i);
      } else {
        assert (gs + [[i]])[..|gs|] == gs;
      }
    }
  }

  /** The result is an arrangement of all positions in the required order. */
  lemma ArrangedIsArrangement(t: Table)
    requires Valid(t)
    ensures IsArrangement(t, Arranged(t))
  {
    var n := |t.keys|;
    var gs := GroupsUpTo(t, n);
    GroupsAreSongs(t, n);
    LaidInOrder(t, gs);
    LaidLength(t, gs);
    TotalIsCount(t, n);
    forall i | 0 <= i < n ensures i in Laid(t, gs) {
      LaidHolds(t, gs, i);
    }
  }

  /** There is only one such arrangement, so the order required is the order computed. */
  lemma {:induction false} ArrangementIsUnique(t: Table, s: seq<nat>, r: seq<nat>, k: nat)
    requires IsArrangement(t, s) && IsArrangement(t, r) && k <= |s|
    ensures s[..k] == r[..k]
    decreases k
  {
    if k > 0 {
      ArrangementIsUnique(t, s, r, k - 1);
      NextOfArrangement(t, s, r, k - 1);
      NextOfArrangement(t, r, s, k - 1);
      assert s[..k] == s[..k - 1] + [s[k - 1]] && r[..k] == r[..k - 1] + [r[k - 1]];
    }
  }

  /** After the same beginning, neither arrangement can go on with a later item than the other. */
  lemma NextOfArrangement(t: Table, s: seq<nat>, r: seq<nat>, k: nat)
    requires IsArrangement(t, s) && IsArrangement(t, r) && k < |s| && s[..k] == r[..k]
    ensures s[k] == r[k] || Before(t, s[k], r[k])
  {
    assert r[k] in s;
    var l :| 0 <= l < |s| && s[l] == r[k];
    forall a | 0 <= a < k ensures s[a] != r[k] {
      assert s[a] == s[..k][a] == r[..k][a] == r[a];
      assert Before(t, r[a], r[k]);
    }
  }

  /** Items of one song stand together. */
  lemma SongsAreContiguous(t: Table, s: seq<nat>, a: nat, b: nat, c: nat)
    requires IsArrangement(t, s) && a < b < c < |s| && t.keys[s[a]] == t.keys[s[c]] != ""
    ensures t.keys[s[b]] == t.keys[s[a]]
  {
    SameLeader(t, s[a], s[c]);
    assert Before(t, s[a], s[b]) && Before(t, s[b], s[c]);
    assert Leader(t, s[b]) == Leader(t, s[a]);
    LeaderHasKey(t, s[b]);
    LeaderHasKey(t, s[a]);
  }

  lemma LeaderHasKey(t: Table, i: nat)
    requires i < |t.keys|
    ensures t.keys[Leader(t, i)] == t.keys[i]
  {
  }

  // ---- the code -----------------------------------------------------------

  function Picked(items: seq<Item>, s: seq<nat>): (r: seq<Item>)
    requires forall a :: 0 <= a < |s| ==> s[a] < |items|
    ensures |r| == |s|
  {
    seq(|s|, a requires 0 <= a < |s| => items[s[a]])
  }

  lemma PickedConcat(items: seq<Item>, s: seq<nat>, r: seq<nat>)
    requires forall a :: 0 <= a < |s| ==> s[a] < |items|
    requires forall a :: 0 <= a < |r| ==> r[a] < |items|
    ensures Picked(items, s + r) == Picked(items, s) + Picked(items, r)
  {
  }

  function InsertItem(lower: Lower, x: Item, s: seq<Item>): seq<Item> {
    if s == [] || RatingRank(lower, x.rating) <= RatingRank(lower, s[0].rating) then [x] + s
    else [s[0]] + InsertItem(lower, x, s[1..])
  }

  /** sort.SliceStable by rating rank. */
  function SliceStable(lower: Lower, s: seq<Item>): seq<Item> {
    if s == [] then [] else InsertItem(lower, s[0], SliceStable(lower, s[1..]))
  }

  lemma {:induction false} PickedInsert(lower: Lower, items: seq<Item>, x: nat, s: seq<nat>)
    requires x < |items| && forall a :: 0 <= a < |s| ==> s[a] < |items|
    ensures var r := Insert(TableOf(lower, items), x, s);
            (forall a :: 0 <= a < |r| ==> r[a] < |items|) && Picked(items, r) == InsertItem(lower, items[x], Picked(items, s))
  {
    var t := TableOf(lower, items);
    var r := Insert(t, x, s);
    forall a | 0 <= a < |r| ensures r[a] < |items| {
      assert r[a] in r;
    }
    if s == [] || t.ranks[x] <= t.ranks[s[0]] {
      PickedConcat(items, [x], s);
      assert Picked(items, [x]) == [items[x]];
    } else {
      PickedInsert(lower, items, x, s[1..]);
      PickedConcat(items, [s[0]], Insert(t, x, s[1..]));
      assert Picked(items, [s[0]]) == [items[s[0]]];
      assert Picked(items, s)[1..] == Picked(items, s[1..]);
    }
  }

  lemma {:induction false} PickedSorted(lower: Lower, items: seq<Item>, s: seq<nat>)
    requires forall a :: 0 <= a < |s| ==> s[a] < |items|
    ensures var r := StableSorted(TableOf(lower, items), s);
            (forall a :: 0 <= a < |r| ==> r[a] < |items|) && Picked(items, r) == SliceStable(lower, Picked(items, s))
  {
    if s != [] {
      PickedSorted(lower, items, s[1..]);
      PickedInsert(lower, items, s[0], StableSorted(TableOf(lower, items), s[1..]));
      assert Picked(items, s)[1..] == Picked(items, s[1..]);
    }
  }

  lemma SliceStableShort(lower: Lower, s: seq<Item>)
    requires |s| <= 1
    ensures SliceStable(lower, s) == s
  {
    if |s| == 1 {
      assert s[1..] == [] && s == [s[0]];
    }
  }

  /** The map from keys to groups. */
  ghost predicate Indexes(index: map<string, nat>, t: Table, gs: Groups)
    requires WellFormed(t, gs)
  {
    forall key :: (key in index <==> key != "" && Find(t.keys, gs, key, 0) < |gs|) &&
                  (key in index ==> index[key] == Find(t.keys, gs, key, 0))
  }

  lemma {:induction false} FindWithItem(t: Table, gs: Groups, i: nat, key: string, k: nat)
    requires WellFormed(t, gs) && i < |t.keys| && k <= |gs|
    ensures var gs' := WithItem(t, gs, i);
            Find(t.keys, gs', key, k) == if Find(t.keys, gs, key, k) < |gs| || |gs'| == |gs| || t.keys[i] == key then Find(t.keys, gs, key, k) else |gs| + 1
    decreases |gs| - k
  {
    var gs' := WithItem(t, gs, i);
    if k < |gs| {
      assert gs'[k][0] == gs[k][0];
      FindWithItem(t, gs, i, key, k + 1);
    }
  }

  ghost predicate Mirrors(items: seq<Item>, groups: seq<seq<Item>>, t: Table, gs: Groups) {
    WellFormed(t, gs) && |t.keys| == |items| && |groups| == |gs| && forall k :: 0 <= k < |gs| ==> groups[k] == Picked(items, gs[k])
  }

  function Home(t: Table, gs: Groups, i: nat): nat
    requires WellFormed(t, gs) && i < |t.keys|
  {
    if t.keys[i] == "" then |gs| else Find(t.keys, gs, t.keys[i], 0)
  }

  lemma MirrorsWithItem(items: seq<Item>, groups: seq<seq<Item>>, t: Table, gs: Groups, i: nat)
    requires Mirrors(items, groups, t, gs) && i < |items|
    ensures var k := Home(t, gs, i);
            Mirrors(items, if k == |gs| then groups + [[items[i]]] else groups[k := groups[k] + [items[i]]], t, WithItem(t, gs, i))
  {
    var k := Home(t, gs, i);
    assert Picked(items, [i]) == [items[i]];
    if k < |gs| {
      PickedConcat(items, gs[k], [i]);
    }
  }

  lemma IndexesWithItem(index: map<string, nat>, t: Table, gs: Groups, i: nat)
    requires WellFormed(t, gs) && i < |t.keys| && Indexes(index, t, gs)
    ensures var key := t.keys[i];
            Indexes(if key == "" || key in index then index else index[key := |gs|], t, WithItem(t, gs, i))
  {
    forall key ensures Find(t.keys, WithItem(t, gs, i), key, 0) ==
                       if Find(t.keys, gs, key, 0) < |gs| || |WithItem(t, gs, i)| == |gs| || t.keys[i] == key then Find(t.keys, gs, key, 0) else |gs| + 1
    {
      FindWithItem(t, gs, i, key, 0);
    }
  }

  method PlaceItem(items: seq<Item>, ghost t: Table, i: nat, key: string, groups0: seq<seq<Item>>, index0: map<string, nat>, ghost gs: Groups)
    returns (groups: seq<seq<Item>>, index: map<string, nat>)
    requires Mirrors(items, groups0, t, gs) && Indexes(index0, t, gs) && i < |items| && t.keys[i] == key
    ensures Mirrors(items, groups, t, WithItem(t, gs, i)) && Indexes(index, t, WithItem(t, gs, i))
  {
    groups, index := groups0, index0;
    MirrorsWithItem(items, groups, t, gs, i);
    IndexesWithItem(index, t, gs, i);
    if key == "" {
      groups := groups + [[items[i]]];
    } else if key in index {
      var idx := index[key];
      groups := groups[idx := groups[idx] + [items[i]]];
    } else {
      index := index[key := |groups|];
      groups := groups + [[items[i]]];
    }
  }

  method BuildGroups(lower: Lower, items: seq<Item>, ghost t: Table) returns (groups: seq<seq<Item>>)
    requires t == TableOf(lower, items)
    ensures Mirrors(items, groups, t, GroupsUpTo(t, |items|))
  {
    groups := [];
    var index: map<string, nat> := map[];
    ghost var gs := GroupsUpTo(t, 0);
    for i := 0 to |items|
      invariant gs == GroupsUpTo(t, i) && Mirrors(items, groups, t, gs) && Indexes(index, t, gs)
    {
      groups, index := PlaceItem(items, t, i, SongGroupKey(lower, items[i]), groups, index, gs);
      gs := WithItem(t, gs, i);
    }
  }

  /** One group sorted and written. */
  lemma GroupWritten(lower: Lower, was: seq<Item>, t: Table, gs: Groups, k: nat, group: seq<Item>)
    requires t == TableOf(lower, was) && WellFormed(t, gs) && k < |gs| && group == Picked(was, gs[k])
    ensures Picked(was, Laid(t, gs[..k + 1])) == Picked(was, Laid(t, gs[..k])) + SliceStable(lower, group)
    ensures |Laid(t, gs[..k + 1])| == |Laid(t, gs[..k])| + |group|
  {
    PickedSorted(lower, was, gs[k]);
    LaidStep(t, gs, k);
    PickedConcat(was, Laid(t, gs[..k]), StableSorted(t, gs[k]));
  }

  method SortSongVariants(lower: Lower, items: array<Item>)
    modifies items
    ensures items[..] == Picked(old(items[..]), Arranged(TableOf(lower, old(items[..]))))
  {
    ghost var was := items[..];
    ghost var t := TableOf(lower, was);
    if items.Length < 2 {
      FewItems(t);
      return;
    }
    var groups := BuildGroups(lower, items[..], t);
    ghost var gs := GroupsUpTo(t, |was|);
    LaidLength(t, gs);
    TotalIsCount(t, |was|);
    var pos := 0;
    for k := 0 to |groups|
      invariant pos == |Laid(t, gs[..k])| <= items.Length && items[..pos] == Picked(was, Laid(t, gs[..k]))
    {
      var group := groups[k];
      GroupWritten(lower, was, t, gs, k, group);
      LaidFits(t, gs, k + 1);
      if |group| > 1 {
        group := SliceStable(lower, group);
      } else {
        SliceStableShort(lower, group);
      }
      pos := WriteGroup(items, pos, group);
    }
    assert gs[..|gs|] == gs;
  }

  lemma {:induction false} LaidFits(t: Table, gs: Groups, k: nat)
    requires WellFormed(t, gs) && k <= |gs|
    ensures |Laid(t, gs[..k])| <= |Laid(t, gs)|
    decreases |gs| - k
  {
    if k < |gs| {
      LaidStep(t, gs, k);
      LaidFits(t, gs, k + 1);
    } else {
      assert gs[..k] == gs;
    }
  }

  lemma LaidStep(t: Table, gs: Groups, k: nat)
    requires WellFormed(t, gs) && k < |gs|
    ensures Laid(t, gs[..k + 1]) == Laid(t, gs[..k]) + StableSorted(t, gs[k])
  {
    assert gs[..k + 1][..k] == gs[..k];
  }

  lemma FewItems(t: Table)
    requires Valid(t) && |t.keys| < 2
    ensures Arranged(t) == if |t.keys| == 0 then [] else [0]
  {
    ArrangedIsArrangement(t);
    if |t.keys| == 1 {
      assert 0 in Arranged(t);
    }
  }

  method WriteGroup(items: array<Item>, pos0: nat, group: seq<Item>) returns (pos: nat)
    requires pos0 + |group| <= items.Length
    modifies items
    ensures pos == pos0 + |group| && items[..pos] == old(items[..pos0]) + group
  {
    pos := pos0;
    for j := 0 to |group|
      invariant pos == pos0 + j && items[..pos] == old(items[..pos0]) + group[..j]
    {
      items[pos] := group[j];
      pos := pos + 1;
    }
  }
}
