/** GlobalController.planningRows: the planning hierarchy as a flat list of
    rows. Rows are compared with the paths from the roots to each item, in
    terms of which the result has a closed description: the listed paths in
    lexicographic order. */
module Planning {
  import opened Wrappers

  /** An empty parent id is None; `created` is the rank of created_at. */
  datatype Item = Item(id: string, parent: Option<string>, position: int, created: int)

  ghost predicate UniqueIds(all: seq<Item>) {
    forall i, j :: 0 <= i < j < |all| ==> all[i].id != all[j].id
  }

  /******* Order among siblings *******/

  predicate InOrder(a: Item, b: Item) {
    a.position < b.position || (a.position == b.position && a.created <= b.created)
  }

  ghost predicate Ordered(s: seq<Item>) {
    forall i, j :: 0 <= i < j < |s| ==> InOrder(s[i], s[j])
  }

  function Insert(x: Item, s: seq<Item>): seq<Item> {
    if s == [] then [x]
    else if InOrder(x, s[0]) then [x] + s
    else [s[0]] + Insert(x, s[1..])
  }

  /** Stable: an item goes before the equal ones that follow it. */
  function SortItems(s: seq<Item>): seq<Item> {
    if s == [] then [] else Insert(s[0], SortItems(s[1..]))
  }

  lemma {:induction false} InsertPermutes(x: Item, s: seq<Item>)
    ensures multiset(Insert(x, s)) == multiset(s) + multiset{x}
  {
    if s != [] && !InOrder(x, s[0]) {
      assert s == [s[0]] + s[1..];
      InsertPermutes(x, s[1..]);
    }
  }

  lemma {:induction false} SortPermutes(s: seq<Item>)
    ensures multiset(SortItems(s)) == multiset(s)
  {
    if s != [] {
      assert s == [s[0]] + s[1..];
      SortPermutes(s[1..]);
      InsertPermutes(s[0], SortItems(s[1..]));
    }
  }

  lemma {:induction false} InsertKeepsOrder(x: Item, s: seq<Item>)
    requires Ordered(s)
    ensures Ordered(Insert(x, s))
  {
    if s != [] && !InOrder(x, s[0]) {
      InsertKeepsOrder(x, s[1..]);
      InsertPermutes(x, s[1..]);
      var r := Insert(x, s[1..]);
      forall j | 0 <= j < |r| ensures InOrder(s[0], r[j]) {
        assert r[j] in multiset(r);
        assert r[j] == x || r[j] in s[1..];
      }
    }
  }

  lemma {:induction false} SortOrders(s: seq<Item>)
    ensures Ordered(SortItems(s))
  {
    if s != [] {
      SortOrders(s[1..]);
      InsertKeepsOrder(s[0], SortItems(s[1..]));
    }
  }

  lemma SortItemsOrdered(s: seq<Item>)
    ensures var r := SortItems(s);
            forall i, j :: 0 <= i < j < |r| ==>
              r[i].position <= r[j].position && (r[i].position == r[j].position ==> r[i].created <= r[j].created)
  {
    SortOrders(s);
  }

  predicate Tied(x: Item, y: Item) {
    x.position == y.position && x.created == y.created
  }

  /** The items that tie with `y`, in their order in `s`. */
  function Ties(y: Item, s: seq<Item>): seq<Item> {
    if s == [] then [] else if Tied(s[0], y) then [s[0]] + Ties(y, s[1..]) else Ties(y, s[1..])
  }

  lemma TiesStep(y: Item, x: Item, s: seq<Item>)
    ensures Ties(y, [x] + s) == if Tied(x, y) then [x] + Ties(y, s) else Ties(y, s)
  {
    assert ([x] + s)[1..] == s;
  }

  lemma {:induction false} InsertKeepsTies(x: Item, y: Item, s: seq<Item>)
    requires Ordered(s)
    ensures Ties(y, Insert(x, s)) == if Tied(x, y) then [x] + Ties(y, s) else Ties(y, s)
  {
    if s == [] || InOrder(x, s[0]) {
      assert s == [] ==> [x] == [x] + s;
      TiesStep(y, x, s);
    } else {
      InsertKeepsTies(x, y, s[1..]);
      TiesStep(y, s[0], Insert(x, s[1..]));
      assert !(Tied(x, y) && Tied(s[0], y));
    }
  }

  /** Items that tie stay in the order of the snapshot. */
  lemma {:induction false} SortIsStable(y: Item, s: seq<Item>)
    ensures Ties(y, SortItems(s)) == Ties(y, s)
  {
    if s != [] {
      SortIsStable(y, s[1..]);
      SortOrders(s[1..]);
      InsertKeepsTies(s[0], y, SortItems(s[1..]));
    }
  }

  lemma CountOfId(s: seq<Item>, i: int, j: int)
    requires 0 <= i < j < |s| && s[i] == s[j]
    ensures multiset(s)[s[i]] >= 2
  {
    assert s == s[..j] + [s[j]] + s[j + 1..];
    assert s[i] in s[..j];
  }

  lemma SortKeepsIdsUnique(s: seq<Item>)
    requires UniqueIds(s)
    ensures UniqueIds(SortItems(s)) && |SortItems(s)| == |s|
  {
    var r := SortItems(s);
    SortPermutes(s);
    assert |multiset(r)| == |multiset(s)|;
    forall i, j | 0 <= i < j < |r| ensures r[i].id != r[j].id {
      if r[i].id == r[j].id {
        assert r[i] in multiset(s) && r[j] in multiset(s);
        var a :| 0 <= a < |s| && s[a] == r[i];
        var b :| 0 <= b < |s| && s[b] == r[j];
        assert a == b;
        CountOfId(r, i, j);
        SingleCount(s, a);
      }
    }
  }

  lemma SingleCount(s: seq<Item>, a: int)
    requires UniqueIds(s) && 0 <= a < |s|
    ensures multiset(s)[s[a]] == 1
  {
    assert s == s[..a] + [s[a]] + s[a + 1..];
    assert s[a] !in s[..a] && s[a] !in s[a + 1..];
  }

  /******* Parents in scope *******/

  /** The `byId` map. */
  function IndexOf(all: seq<Item>, id: string): (r: Option<nat>)
    ensures r.Some? ==> r.value < |all| && all[r.value].id == id
  {
    if all == [] then None
    else if all[|all| - 1].id == id then Some(|all| - 1)
    else IndexOf(all[..|all| - 1], id)
  }

  lemma {:induction false} IndexFound(all: seq<Item>, k: nat)
    requires k < |all|
    ensures IndexOf(all, all[k].id).Some?
  {
    if all[|all| - 1].id != all[k].id {
      IndexFound(all[..|all| - 1], k);
    }
  }

  function ParentOf(all: seq<Item>, i: nat): (r: Option<nat>)
    requires i < |all|
    ensures r.Some? ==> r.value < |all|
  {
    if all[i].parent.None? then None else IndexOf(all, all[i].parent.value)
  }

  lemma ChildIff(all: seq<Item>, k: nat, i: nat)
    requires UniqueIds(all) && k < |all| && i < |all|
    ensures ParentOf(all, k) == Some(i) <==> all[k].parent == Some(all[i].id)
  {
    IndexFound(all, i);
  }

  /** A path from an item without an in-scope parent down to its last item. */
  ghost predicate IsPath(all: seq<Item>, p: seq<nat>) {
    && p != []
    && (forall t :: 0 <= t < |p| ==> p[t] < |all|)
    && ParentOf(all, p[0]).None?
    && forall t :: 0 < t < |p| ==> ParentOf(all, p[t]) == Some(p[t - 1])
  }

  lemma {:induction false} PathsAgree(all: seq<Item>, p: seq<nat>, q: seq<nat>)
    requires IsPath(all, p) && IsPath(all, q) && p[|p| - 1] == q[|q| - 1]
    ensures p == q
  {
    assert |p| > 1 ==> ParentOf(all, p[|p| - 1]) == Some(p[|p| - 2]);
    assert |q| > 1 ==> ParentOf(all, q[|q| - 1]) == Some(q[|q| - 2]);
    assert |p| > 1 <==> |q| > 1;
    if |p| > 1 {
      PathsAgree(all, p[..|p| - 1], q[..|q| - 1]);
      assert p == p[..|p| - 1] + [p[|p| - 1]] && q == q[..|q| - 1] + [q[|q| - 1]];
    }
  }

  lemma PathHasNoRepeat(all: seq<Item>, p: seq<nat>)
    requires IsPath(all, p)
    ensures NoDuplicates(p) && |p| <= |all|
  {
    forall s, t | 0 <= s < t < |p| ensures p[s] != p[t] {
      if p[s] == p[t] {
        PathsAgree(all, p[..s + 1], p[..t + 1]);
      }
    }
    Pigeonhole(p, |all|);
  }

  lemma {:induction false} Pigeonhole(p: seq<nat>, n: nat)
    requires NoDuplicates(p) && forall t :: 0 <= t < |p| ==> p[t] < n
    ensures |p| <= n
  {
    if p != [] {
      assert p[0] < n;
      if exists t :: 0 <= t < |p| && p[t] == n - 1 {
        var t :| 0 <= t < |p| && p[t] == n - 1;
        var rest := p[..t] + p[t + 1..];
        Pigeonhole(rest, n - 1);
      } else {
        Pigeonhole(p, n - 1);
      }
    }
  }

  /******* The climb to the ancestors *******/

  /** The item the climbing loop holds after `n` turns; None once it has ended. */
  function Climbed(all: seq<Item>, i: nat, n: nat): (r: Option<nat>)
    requires i < |all|
    ensures r.Some? ==> r.value < |all|
    decreases n
  {
    if n == 0 then Some(i)
    else if ParentOf(all, i).None? then None
    else Climbed(all, ParentOf(all, i).value, n - 1)
  }

  /** The path down to `i`, if the climb ends within `fuel` turns. */
  function PathTo(all: seq<Item>, i: nat, fuel: nat): (r: Option<seq<nat>>)
    requires i < |all|
    ensures r.Some? ==> r.value != [] && r.value[|r.value| - 1] == i
    decreases fuel
  {
    if ParentOf(all, i).None? then Some([i])
    else if fuel == 0 then None
    else match PathTo(all, ParentOf(all, i).value, fuel - 1)
      case None => None
      case Some(p) => Some(p + [i])
  }

  lemma {:induction false} PathToIsPath(all: seq<Item>, i: nat, fuel: nat)
    requires i < |all| && PathTo(all, i, fuel).Some?
    ensures IsPath(all, PathTo(all, i, fuel).value)
    decreases fuel
  {
    if ParentOf(all, i).Some? {
      PathToIsPath(all, ParentOf(all, i).value, fuel - 1);
    }
  }

  lemma {:induction false} PathFound(all: seq<Item>, p: seq<nat>, fuel: nat)
    requires IsPath(all, p) && |p| <= fuel + 1
    ensures PathTo(all, p[|p| - 1], fuel) == Some(p)
    decreases |p|
  {
    if |p| > 1 {
      var q := p[..|p| - 1];
      PathFound(all, q, fuel - 1);
      assert q[|q| - 1] == p[|p| - 2] && ParentOf(all, p[|p| - 1]) == Some(p[|p| - 2]);
      assert p == q + [p[|p| - 1]];
    } else {
      assert p == [p[0]];
    }
  }

  /** The ancestors of `i` end. */
  predicate Rooted(all: seq<Item>, i: nat)
    requires i < |all|
  {
    PathTo(all, i, |all|).Some?
  }

  function Path(all: seq<Item>, i: nat): (p: seq<nat>)
    requires i < |all| && Rooted(all, i)
    ensures p != [] && p[|p| - 1] == i
  {
    PathTo(all, i, |all|).value
  }

  lemma PathShape(all: seq<Item>, i: nat)
    requires i < |all| && Rooted(all, i)
    ensures IsPath(all, Path(all, i))
  {
    PathToIsPath(all, i, |all|);
  }

  lemma PathIs(all: seq<Item>, p: seq<nat>)
    requires IsPath(all, p)
    ensures Rooted(all, p[|p| - 1]) && Path(all, p[|p| - 1]) == p
  {
    PathHasNoRepeat(all, p);
    PathFound(all, p, |all|);
  }

  lemma {:induction false} ClimbEnds(all: seq<Item>, p: seq<nat>)
    requires IsPath(all, p)
    ensures Climbed(all, p[|p| - 1], |p|).None?
  {
    if |p| > 1 {
      var q := p[..|p| - 1];
      ClimbEnds(all, q);
      assert q[|q| - 1] == p[|p| - 2] && ParentOf(all, p[|p| - 1]) == Some(p[|p| - 2]);
    } else {
      assert p[|p| - 1] == p[0];
    }
  }

  lemma {:induction false} EndedClimb(all: seq<Item>, i: nat, n: nat)
    requires i < |all| && Climbed(all, i, n).None?
    ensures exists p :: IsPath(all, p) && p[|p| - 1] == i
    decreases n
  {
    if ParentOf(all, i).None? {
      assert IsPath(all, [i]);
    } else {
      EndedClimb(all, ParentOf(all, i).value, n - 1);
      var p :| IsPath(all, p) && p[|p| - 1] == ParentOf(all, i).value;
      assert IsPath(all, p + [i]);
    }
  }

  /** The loop over the ancestors of an item has no memory of where it has
      been. It ends exactly when a climb of as many turns as there are items ends. */
  lemma ClimbEndsIff(all: seq<Item>, i: nat)
    requires i < |all|
    ensures (exists n: nat :: Climbed(all, i, n).None?) <==> Rooted(all, i)
  {
    if n: nat :| Climbed(all, i, n).None? {
      EndedClimb(all, i, n);
      var p :| IsPath(all, p) && p[|p| - 1] == i;
      PathIs(all, p);
    }
    if Rooted(all, i) {
      PathShape(all, i);
      ClimbEnds(all, Path(all, i));
    }
  }

  /** Two items that are each other's parent keep the loop running for ever. */
  lemma {:induction false} MutualParentsNeverEnd(n: nat)
    ensures var all := [Item("a", Some("b"), 0, 0), Item("b", Some("a"), 1, 0)];
            UniqueIds(all) && Climbed(all, 0, n).Some? && Climbed(all, 1, n).Some?
  {
    var all := [Item("a", Some("b"), 0, 0), Item("b", Some("a"), 1, 0)];
    assert all[1].id == "b" && all[0].id == "a";
    ChildIff(all, 0, 1);
    ChildIff(all, 1, 0);
    if n > 0 {
      MutualParentsNeverEnd(n - 1);
    }
  }

  /******* The closed description *******/

  predicate Matches(query: bool, hits: set<string>, item: Item) {
    !query || item.id in hits
  }

  /** The item is a match or an ancestor of one. */
  ghost predicate Wanted(all: seq<Item>, query: bool, hits: set<string>, j: nat) {
    exists m: nat :: WantedFor(all, query, hits, m, j)
  }

  ghost predicate WantedFor(all: seq<Item>, query: bool, hits: set<string>, m: nat, j: nat) {
    m < |all| && (query ==> all[m].id in hits) && Rooted(all, m) && j in Path(all, m)
  }

  ghost function WantedIds(all: seq<Item>, query: bool, hits: set<string>): set<string> {
    set j | 0 <= j < |all| && Wanted(all, query, hits, j) :: all[j].id
  }

  /** The climb from every match ends. */
  ghost predicate MatchesRooted(all: seq<Item>, query: bool, hits: set<string>) {
    forall m :: 0 <= m < |all| && Matches(query, hits, all[m]) ==> Rooted(all, m)
  }

  /** The item has a path, and it goes through the end of `at`. */
  ghost predicate Under(all: seq<Item>, at: seq<nat>, j: nat) {
    j < |all| && Rooted(all, j) && at < Path(all, j)
  }

  /** No item of the path from position `from` on, but for the last, is folded. */
  ghost predicate OpenFrom(all: seq<Item>, folded: set<string>, p: seq<nat>, from: nat) {
    forall t :: from <= t < |p| - 1 ==> p[t] < |all| && all[p[t]].id !in folded
  }

  /** Listed below `at`: included, with no folded item between the two. */
  ghost predicate Listed(all: seq<Item>, included: set<string>, folded: set<string>, at: seq<nat>, j: nat) {
    Under(all, at, j) && all[j].id in included && OpenFrom(all, folded, Path(all, j), |at|)
  }

  /** Lexicographic order; a path precedes its extensions. */
  ghost predicate Precedes(p: seq<nat>, q: seq<nat>) {
    exists m: nat :: SplitsAt(p, q, m)
  }

  ghost predicate SplitsAt(p: seq<nat>, q: seq<nat>, m: nat) {
    m <= |p| && m < |q| && p[..m] == q[..m] && (m == |p| || p[m] < q[m])
  }

  ghost predicate InPathOrder(all: seq<Item>, w: seq<nat>) {
    && (forall x :: 0 <= x < |w| ==> w[x] < |all| && Rooted(all, w[x]))
    && forall x, y :: 0 <= x < y < |w| ==> Precedes(Path(all, w[x]), Path(all, w[y]))
  }

  lemma PrecedesIsStrict(p: seq<nat>, q: seq<nat>)
    requires q <= p
    ensures !Precedes(p, q)
  {
    forall m: nat | m < |q| ensures p[m] == q[m] { }
  }

  lemma PathOrderConcat(all: seq<Item>, u: seq<nat>, v: seq<nat>)
    requires InPathOrder(all, u) && InPathOrder(all, v)
    requires forall x, y :: x in u && y in v ==> Precedes(Path(all, x), Path(all, y))
    ensures InPathOrder(all, u + v)
  {
    var w := u + v;
    forall x | 0 <= x < |w| ensures w[x] < |all| && Rooted(all, w[x]) {
      if x >= |u| { assert w[x] == v[x - |u|]; }
    }
    forall x, y | 0 <= x < y < |w| ensures Precedes(Path(all, w[x]), Path(all, w[y])) {
      if x < |u| <= y {
        assert w[x] in u && w[y] == v[y - |u|] && w[y] in v;
      } else if |u| <= x {
        assert w[x] == v[x - |u|] && w[y] == v[y - |u|];
      }
    }
  }

  /******* The walk *******/

  predicate IsChild(all: seq<Item>, at: seq<nat>, k: nat)
    requires k < |all|
  {
    ParentOf(all, k) == if at == [] then None else Some(at[|at| - 1])
  }

  function Flatten(s: seq<seq<nat>>): seq<nat> {
    if s == [] then [] else s[0] + Flatten(s[1..])
  }

  lemma {:induction false} FlattenHas(s: seq<seq<nat>>, j: nat)
    ensures j in Flatten(s) <==> exists c :: 0 <= c < |s| && j in s[c]
  {
    if s != [] {
      FlattenHas(s[1..], j);
      if c :| 0 <= c < |s| && j in s[c] {
        if c > 0 { assert j in s[1..][c - 1]; }
      }
      if c :| 0 <= c < |s[1..]| && j in s[1..][c] {
        assert j in s[c + 1];
      }
    }
  }

  /** The rows of each candidate below the end of `at`: none for what is no child of it or not included. */
  function Blocks(all: seq<Item>, included: set<string>, folded: set<string>, at: seq<nat>): (blocks: seq<seq<nat>>)
    ensures |blocks| == |all|
    decreases |all| - |at|, 1
  {
    seq(|all|, k requires 0 <= k < |all| =>
      if IsChild(all, at, k) && all[k].id in included then Block(all, included, folded, at, k) else [])
  }

  /** An item's row and those below it. */
  function Block(all: seq<Item>, included: set<string>, folded: set<string>, at: seq<nat>, k: nat): seq<nat>
    requires k < |all|
    decreases |all| - |at|, 0
  {
    [k] + if all[k].id in folded || |at| >= |all| then [] else Flatten(Blocks(all, included, folded, at + [k]))
  }

  /** The rows below the end of `at` from its candidate child `k` on. */
  function Walk(all: seq<Item>, included: set<string>, folded: set<string>, at: seq<nat>, k: nat): seq<nat>
    requires k <= |all|
  {
    Flatten(Blocks(all, included, folded, at)[k..])
  }

  ghost predicate AllIncluded(all: seq<Item>, included: set<string>, p: seq<nat>) {
    forall t :: 0 <= t < |p| ==> p[t] < |all| && all[p[t]].id in included
  }

  /** What the walk needs of the included ids. */
  ghost predicate Closed(all: seq<Item>, included: set<string>) {
    forall j :: 0 <= j < |all| && all[j].id in included ==> Rooted(all, j) && AllIncluded(all, included, Path(all, j))
  }

  ghost predicate IsTrail(all: seq<Item>, at: seq<nat>) {
    at == [] || IsPath(all, at)
  }

  lemma WalkEnds(all: seq<Item>, included: set<string>, folded: set<string>, at: seq<nat>, before: seq<nat>)
    ensures before + Walk(all, included, folded, at, |all|) == before
  {
    assert Blocks(all, included, folded, at)[|all|..] == [];
  }

  lemma ChildTest(all: seq<Item>, at: seq<nat>, k: nat, i: nat)
    requires UniqueIds(all) && k < |all| && i < |all| && at != [] && at[|at| - 1] == i
    ensures all[k].parent == Some(all[i].id) <==> IsChild(all, at, k)
  {
    ChildIff(all, k, i);
  }

  lemma ChildPath(all: seq<Item>, at: seq<nat>, k: nat)
    requires IsTrail(all, at) && k < |all| && IsChild(all, at, k)
    ensures IsPath(all, at + [k]) && Rooted(all, k) && Path(all, k) == at + [k] && |at| < |all|
  {
    assert IsPath(all, at + [k]);
    PathIs(all, at + [k]);
    PathHasNoRepeat(all, at + [k]);
  }

  lemma PathStep(all: seq<Item>, p: seq<nat>, n: nat)
    requires IsPath(all, p) && n < |p|
    ensures p[n] < |all| && IsChild(all, p[..n], p[n]) && p[..n] + [p[n]] == p[..n + 1]
  {
    if n > 0 {
      assert p[..n][n - 1] == p[n - 1];
    }
  }

  /** The step of a path just below one of its prefixes is a child there. */
  lemma StepBelow(all: seq<Item>, at: seq<nat>, j: nat)
    requires IsTrail(all, at) && Under(all, at, j)
    ensures var k := Path(all, j)[|at|];
            k < |all| && IsChild(all, at, k) && at + [k] <= Path(all, j) && (|Path(all, j)| == |at| + 1 <==> j == k)
  {
    var p := Path(all, j);
    PathShape(all, j);
    PathStep(all, p, |at|);
    assert p[..|at|] == at;
    LastStep(all, at, j);
  }

  /** It is the last one exactly if it is the item itself: a path repeats nothing. */
  lemma LastStep(all: seq<Item>, at: seq<nat>, j: nat)
    requires Under(all, at, j)
    ensures |Path(all, j)| == |at| + 1 <==> j == Path(all, j)[|at|]
  {
    var p := Path(all, j);
    PathShape(all, j);
    PathHasNoRepeat(all, p);
    assert p[|p| - 1] == j;
  }

  /** A listed item hangs below an included child. */
  lemma ListedStep(all: seq<Item>, included: set<string>, folded: set<string>, at: seq<nat>, j: nat)
    requires Closed(all, included) && IsTrail(all, at) && Listed(all, included, folded, at, j)
    ensures var k := Path(all, j)[|at|]; k < |all| && IsChild(all, at, k) && all[k].id in included
  {
    StepBelow(all, at, j);
    assert AllIncluded(all, included, Path(all, j));
  }

  /** The child itself is the first below `at` on its own path ... */
  lemma ChildListed(all: seq<Item>, included: set<string>, folded: set<string>, at: seq<nat>, k: nat)
    requires IsTrail(all, at) && k < |all| && IsChild(all, at, k) && all[k].id in included
    ensures Listed(all, included, folded, at, k) && Path(all, k)[|at|] == k
  {
    ChildPath(all, at, k);
  }

  /** A path through the child goes on below it exactly if it is not the child's own. */
  lemma UnderChild(all: seq<Item>, at: seq<nat>, k: nat, j: nat)
    requires IsTrail(all, at)
    ensures Under(all, at + [k], j) <==> Under(all, at, j) && Path(all, j)[|at|] == k && j != k
  {
    if Under(all, at, j) {
      LastStep(all, at, j);
      var p := Path(all, j);
      assert at + [p[|at|]] == p[..|at| + 1];
    }
    if Under(all, at + [k], j) {
      assert at < Path(all, j) && Path(all, j)[|at|] == k;
    }
  }

  /** ... and what is listed below an unfolded child is what is listed through it. */
  lemma ListedBelow(all: seq<Item>, included: set<string>, folded: set<string>, at: seq<nat>, k: nat, j: nat)
    requires IsTrail(all, at) && k < |all| && all[k].id !in folded
    ensures Listed(all, included, folded, at + [k], j) <==>
            Listed(all, included, folded, at, j) && Path(all, j)[|at|] == k && j != k
  {
    UnderChild(all, at, k, j);
    if Under(all, at, j) && Path(all, j)[|at|] == k {
      OpenAbove(all, folded, Path(all, j), |at|);
    }
  }

  lemma OpenAbove(all: seq<Item>, folded: set<string>, p: seq<nat>, from: nat)
    requires from < |p| && p[from] < |all| && all[p[from]].id !in folded
    ensures OpenFrom(all, folded, p, from) <==> OpenFrom(all, folded, p, from + 1)
  {
  }

  /** Through a folded child nothing but itself is listed. */
  lemma FoldedStops(all: seq<Item>, included: set<string>, folded: set<string>, at: seq<nat>, k: nat, j: nat)
    requires IsTrail(all, at) && k < |all| && all[k].id in folded
    requires Listed(all, included, folded, at, j) && Path(all, j)[|at|] == k
    ensures j == k
  {
    StepBelow(all, at, j);
  }

  /** The rows of candidate `k` come before those of the next ones. */
  lemma WalkUnfolds(all: seq<Item>, included: set<string>, folded: set<string>, at: seq<nat>, k: nat)
    requires k < |all|
    ensures Walk(all, included, folded, at, k) == BlockIf(all, included, folded, at, k) + Walk(all, included, folded, at, k + 1)
  {
    var blocks := Blocks(all, included, folded, at);
    assert blocks[k..][0] == blocks[k] && blocks[k..][1..] == blocks[k + 1..];
  }

  function BlockIf(all: seq<Item>, included: set<string>, folded: set<string>, at: seq<nat>, k: nat): seq<nat>
    requires k < |all|
  {
    if IsChild(all, at, k) && all[k].id in included then Block(all, included, folded, at, k) else []
  }

  lemma BlockInWalk(all: seq<Item>, included: set<string>, folded: set<string>, at: seq<nat>, k: nat, c: nat, j: nat)
    requires k <= c < |all| && IsChild(all, at, c) && all[c].id in included && j in Block(all, included, folded, at, c)
    ensures j in Walk(all, included, folded, at, k)
  {
    var rest := Blocks(all, included, folded, at)[k..];
    assert j in rest[c - k];
    FlattenHas(rest, j);
  }

  lemma WalkHasBlock(all: seq<Item>, included: set<string>, folded: set<string>, at: seq<nat>, k: nat, j: nat) returns (c: nat)
    requires k <= |all| && j in Walk(all, included, folded, at, k)
    ensures k <= c < |all| && IsChild(all, at, c) && all[c].id in included && j in Block(all, included, folded, at, c)
  {
    var rest := Blocks(all, included, folded, at)[k..];
    FlattenHas(rest, j);
    var i :| 0 <= i < |rest| && j in rest[i];
    c := k + i;
  }

  lemma BlockUnfolds(all: seq<Item>, included: set<string>, folded: set<string>, at: seq<nat>, k: nat)
    requires k < |all|
    ensures Block(all, included, folded, at, k) ==
            [k] + if all[k].id in folded || |at| >= |all| then [] else Walk(all, included, folded, at + [k], 0)
  {
    assert Blocks(all, included, folded, at + [k])[0..] == Blocks(all, included, folded, at + [k]);
  }

  lemma WalkLists(all: seq<Item>, included: set<string>, folded: set<string>, at: seq<nat>, k: nat, j: nat)
    requires Closed(all, included) && IsTrail(all, at) && k <= |all|
    ensures j in Walk(all, included, folded, at, k) <==>
            Listed(all, included, folded, at, j) && Path(all, j)[|at|] >= k
    decreases |all| - |at|, 2
  {
    if j in Walk(all, included, folded, at, k) {
      var c := WalkHasBlock(all, included, folded, at, k, j);
      BlockLists(all, included, folded, at, c, j);
    }
    if Listed(all, included, folded, at, j) && Path(all, j)[|at|] >= k {
      ListedInWalk(all, included, folded, at, k, j);
    }
  }

  lemma ListedInWalk(all: seq<Item>, included: set<string>, folded: set<string>, at: seq<nat>, k: nat, j: nat)
    requires Closed(all, included) && IsTrail(all, at) && k <= |all|
    requires Listed(all, included, folded, at, j) && Path(all, j)[|at|] >= k
    ensures j in Walk(all, included, folded, at, k)
    decreases |all| - |at|, 1
  {
    var c := Path(all, j)[|at|];
    ListedStep(all, included, folded, at, j);
    BlockLists(all, included, folded, at, c, j);
    BlockInWalk(all, included, folded, at, k, c, j);
  }

  lemma {:induction false} BlockLists(all: seq<Item>, included: set<string>, folded: set<string>, at: seq<nat>, k: nat, j: nat)
    requires Closed(all, included) && IsTrail(all, at) && k < |all| && IsChild(all, at, k) && all[k].id in included
    ensures j in Block(all, included, folded, at, k) <==>
            Listed(all, included, folded, at, j) && Path(all, j)[|at|] == k
    decreases |all| - |at|, 0
  {
    ChildPath(all, at, k);
    ChildListed(all, included, folded, at, k);
    BlockUnfolds(all, included, folded, at, k);
    if all[k].id !in folded {
      WalkLists(all, included, folded, at + [k], 0, j);
      ListedBelow(all, included, folded, at, k, j);
    } else if Listed(all, included, folded, at, j) && Path(all, j)[|at|] == k {
      FoldedStops(all, included, folded, at, k, j);
    }
  }

  /** Paths that part after a common prefix are ordered by their next steps. */
  lemma PartAfter(p: seq<nat>, q: seq<nat>, at: seq<nat>)
    requires at < p && at < q && p[|at|] < q[|at|]
    ensures Precedes(p, q)
  {
    assert SplitsAt(p, q, |at|);
  }

  lemma BlockBeforeRest(all: seq<Item>, included: set<string>, folded: set<string>, at: seq<nat>, k: nat, x: nat, y: nat)
    requires Closed(all, included) && IsTrail(all, at) && k < |all| && IsChild(all, at, k) && all[k].id in included
    requires x in Block(all, included, folded, at, k) && y in Walk(all, included, folded, at, k + 1)
    ensures x < |all| && y < |all| && Rooted(all, x) && Rooted(all, y) && Precedes(Path(all, x), Path(all, y))
  {
    BlockLists(all, included, folded, at, k, x);
    WalkLists(all, included, folded, at, k + 1, y);
    PartAfter(Path(all, x), Path(all, y), at);
  }

  lemma {:induction false} WalkSorted(all: seq<Item>, included: set<string>, folded: set<string>, at: seq<nat>, k: nat)
    requires Closed(all, included) && IsTrail(all, at) && k <= |all|
    ensures InPathOrder(all, Walk(all, included, folded, at, k))
    decreases |all| - |at|, |all| - k
  {
    if k < |all| {
      WalkUnfolds(all, included, folded, at, k);
      WalkSorted(all, included, folded, at, k + 1);
      if IsChild(all, at, k) && all[k].id in included {
        BlockSorted(all, included, folded, at, k);
        var block, rest := Block(all, included, folded, at, k), Walk(all, included, folded, at, k + 1);
        forall x, y | x in block && y in rest ensures Precedes(Path(all, x), Path(all, y)) {
          BlockBeforeRest(all, included, folded, at, k, x, y);
        }
        PathOrderConcat(all, block, rest);
      } else {
        assert Walk(all, included, folded, at, k) == [] + Walk(all, included, folded, at, k + 1);
      }
    }
  }

  lemma ChildBeforeBelow(all: seq<Item>, included: set<string>, folded: set<string>, at: seq<nat>, k: nat, y: nat)
    requires Closed(all, included) && IsTrail(all, at) && k < |all| && IsChild(all, at, k)
    requires IsPath(all, at + [k]) && y in Walk(all, included, folded, at + [k], 0)
    ensures y < |all| && Rooted(all, k) && Rooted(all, y) && Precedes(Path(all, k), Path(all, y))
  {
    ChildPath(all, at, k);
    WalkLists(all, included, folded, at + [k], 0, y);
    assert SplitsAt(Path(all, k), Path(all, y), |at| + 1);
  }

  lemma FirstOfBlock(all: seq<Item>, included: set<string>, folded: set<string>, at: seq<nat>, k: nat)
    requires Closed(all, included) && IsTrail(all, at) && k < |all| && IsChild(all, at, k)
    requires IsPath(all, at + [k]) && InPathOrder(all, Walk(all, included, folded, at + [k], 0))
    ensures InPathOrder(all, [k] + Walk(all, included, folded, at + [k], 0))
  {
    ChildPath(all, at, k);
    forall y | y in Walk(all, included, folded, at + [k], 0)
      ensures y < |all| && Rooted(all, y) && Precedes(Path(all, k), Path(all, y))
    {
      ChildBeforeBelow(all, included, folded, at, k, y);
    }
    PathOrderConcat(all, [k], Walk(all, included, folded, at + [k], 0));
  }

  lemma {:induction false} BlockSorted(all: seq<Item>, included: set<string>, folded: set<string>, at: seq<nat>, k: nat)
    requires Closed(all, included) && IsTrail(all, at) && k < |all| && IsChild(all, at, k) && all[k].id in included
    ensures InPathOrder(all, Block(all, included, folded, at, k))
    decreases |all| - |at|, 0
  {
    ChildPath(all, at, k);
    BlockUnfolds(all, included, folded, at, k);
    if all[k].id !in folded {
      WalkSorted(all, included, folded, at + [k], 0);
      FirstOfBlock(all, included, folded, at, k);
    } else {
      assert InPathOrder(all, [k]);
    }
  }

  /******* The rows *******/

  function Folded(query: bool, collapsed: set<string>): set<string> {
    if query then {} else collapsed
  }

  ghost function RowIndices(all: seq<Item>, query: bool, hits: set<string>, collapsed: set<string>): seq<nat> {
    Walk(all, WantedIds(all, query, hits), Folded(query, collapsed), [], 0)
  }

  /** No item between the top and this one is collapsed. */
  ghost predicate Unfolded(all: seq<Item>, collapsed: set<string>, j: nat)
    requires j < |all| && Rooted(all, j)
  {
    OpenFrom(all, collapsed, Path(all, j), 0)
  }

  lemma WantedMember(all: seq<Item>, query: bool, hits: set<string>, j: nat)
    requires UniqueIds(all) && j < |all|
    ensures all[j].id in WantedIds(all, query, hits) <==> Wanted(all, query, hits, j)
  {
    if all[j].id in WantedIds(all, query, hits) {
      var i :| 0 <= i < |all| && Wanted(all, query, hits, i) && all[i].id == all[j].id;
      assert i == j;
    }
  }

  lemma WantedIsClosed(all: seq<Item>, query: bool, hits: set<string>)
    requires UniqueIds(all)
    ensures Closed(all, WantedIds(all, query, hits))
  {
    var included := WantedIds(all, query, hits);
    forall j | 0 <= j < |all| && all[j].id in included
      ensures Rooted(all, j) && AllIncluded(all, included, Path(all, j))
    {
      WantedMember(all, query, hits, j);
      WantedPath(all, query, hits, j);
    }
  }

  lemma WantedPath(all: seq<Item>, query: bool, hits: set<string>, j: nat)
    requires UniqueIds(all) && j < |all| && Wanted(all, query, hits, j)
    ensures Rooted(all, j) && AllIncluded(all, WantedIds(all, query, hits), Path(all, j))
  {
    var m: nat :| WantedFor(all, query, hits, m, j);
    AncestorPath(all, m, j);
    PathShape(all, j);
    forall t | 0 <= t < |Path(all, j)|
      ensures Path(all, j)[t] < |all| && all[Path(all, j)[t]].id in WantedIds(all, query, hits)
    {
      assert WantedFor(all, query, hits, m, Path(all, j)[t]);
      assert Wanted(all, query, hits, Path(all, j)[t]);
    }
  }

  lemma AncestorPath(all: seq<Item>, m: nat, j: nat)
    requires m < |all| && Rooted(all, m) && j in Path(all, m)
    ensures j < |all| && Rooted(all, j) && Path(all, j) <= Path(all, m)
  {
    PathShape(all, m);
    var p := Path(all, m);
    var t :| 0 <= t < |p| && p[t] == j;
    assert IsPath(all, p[..t + 1]) && p[..t + 1][t] == j;
    PathIs(all, p[..t + 1]);
  }

  lemma ListedAtTop(all: seq<Item>, included: set<string>, folded: set<string>, j: nat)
    ensures Listed(all, included, folded, [], j) <==>
            j < |all| && Rooted(all, j) && all[j].id in included && Unfolded(all, folded, j)
  {
  }

  lemma SelfWanted(all: seq<Item>, query: bool, hits: set<string>, j: nat)
    requires j < |all| && Rooted(all, j) && Matches(query, hits, all[j])
    ensures Wanted(all, query, hits, j)
  {
    assert Path(all, j)[|Path(all, j)| - 1] == j;
    assert WantedFor(all, query, hits, j, j);
  }

  lemma RowIff(all: seq<Item>, query: bool, hits: set<string>, collapsed: set<string>, j: nat)
    requires UniqueIds(all) && Closed(all, WantedIds(all, query, hits))
    ensures j in RowIndices(all, query, hits, collapsed) <==>
            j < |all| && Rooted(all, j) && if query then Wanted(all, query, hits, j) else Unfolded(all, collapsed, j)
  {
    WalkLists(all, WantedIds(all, query, hits), Folded(query, collapsed), [], 0, j);
    ListedAtTop(all, WantedIds(all, query, hits), Folded(query, collapsed), j);
    if j < |all| && Rooted(all, j) {
      WantedMember(all, query, hits, j);
      if !query { SelfWanted(all, query, hits, j); }
    }
  }

  /** The rows are exactly the items with no collapsed ancestor in scope - or,
      under a query, the matches and their ancestors, collapsed or not - once
      each, in the lexicographic order of their paths. */
  lemma RowsAre(all: seq<Item>, query: bool, hits: set<string>, collapsed: set<string>)
    requires UniqueIds(all) && MatchesRooted(all, query, hits)
    ensures InPathOrder(all, RowIndices(all, query, hits, collapsed))
    ensures forall j: nat :: j in RowIndices(all, query, hits, collapsed) <==>
              j < |all| && Rooted(all, j) && if query then Wanted(all, query, hits, j) else Unfolded(all, collapsed, j)
  {
    WantedIsClosed(all, query, hits);
    WalkSorted(all, WantedIds(all, query, hits), Folded(query, collapsed), [], 0);
    forall j: nat ensures j in RowIndices(all, query, hits, collapsed) <==>
      j < |all| && Rooted(all, j) && if query then Wanted(all, query, hits, j) else Unfolded(all, collapsed, j)
    {
      RowIff(all, query, hits, collapsed, j);
    }
  }

  /** In such an order no row repeats, and an item's in-scope parent comes before it. */
  lemma ParentsFirst(all: seq<Item>, rows: seq<nat>, x: nat, y: nat)
    requires InPathOrder(all, rows) && x < |rows| && y < |rows|
    requires x < y
    ensures rows[x] != rows[y] && ParentOf(all, rows[x]) != Some(rows[y])
  {
    var p, q := Path(all, rows[x]), Path(all, rows[y]);
    PathShape(all, rows[x]);
    PathShape(all, rows[y]);
    if q <= p { PrecedesIsStrict(p, q); }
    if ParentOf(all, rows[x]) == Some(rows[y]) {
      assert IsPath(all, q + [rows[x]]);
      PathsAgree(all, p, q + [rows[x]]);
    }
  }

  /** The in-scope parent of a listed item is listed, ... */
  lemma ParentListed(all: seq<Item>, query: bool, hits: set<string>, collapsed: set<string>, j: nat)
    requires UniqueIds(all)
    requires j in RowIndices(all, query, hits, collapsed) && j < |all| && ParentOf(all, j).Some?
    ensures ParentOf(all, j).value in RowIndices(all, query, hits, collapsed)
  {
    WantedIsClosed(all, query, hits);
    RowIff(all, query, hits, collapsed, j);
    ParentPath(all, j);
    if query { ParentWanted(all, query, hits, j); } else { ParentUnfolded(all, collapsed, j); }
    RowIff(all, query, hits, collapsed, ParentOf(all, j).value);
  }

  lemma ParentUnfolded(all: seq<Item>, collapsed: set<string>, j: nat)
    requires j < |all| && Rooted(all, j) && ParentOf(all, j).Some? && Rooted(all, ParentOf(all, j).value)
    requires Path(all, j) == Path(all, ParentOf(all, j).value) + [j] && Unfolded(all, collapsed, j)
    ensures Unfolded(all, collapsed, ParentOf(all, j).value)
  {
    var p, q := Path(all, j), Path(all, ParentOf(all, j).value);
    forall t | 0 <= t < |q| - 1 ensures q[t] < |all| && all[q[t]].id !in collapsed {
      assert q[t] == p[t];
    }
  }

  /** ... and comes before it. */
  lemma ParentComesBefore(all: seq<Item>, rows: seq<nat>, y: nat)
    requires InPathOrder(all, rows) && y < |rows|
    requires ParentOf(all, rows[y]).Some? && ParentOf(all, rows[y]).value in rows
    ensures exists x :: 0 <= x < y && rows[x] == ParentOf(all, rows[y]).value
  {
    var x :| 0 <= x < |rows| && rows[x] == ParentOf(all, rows[y]).value;
    if y < x { ParentsFirst(all, rows, y, x); }
    ParentPath(all, rows[y]);
    assert x != y;
  }

  lemma ParentPath(all: seq<Item>, j: nat)
    requires j < |all| && Rooted(all, j) && ParentOf(all, j).Some?
    ensures var parent := ParentOf(all, j).value; Rooted(all, parent) && Path(all, j) == Path(all, parent) + [j]
  {
    PathShape(all, j);
    var p, parent := Path(all, j), ParentOf(all, j).value;
    assert |p| > 1 && p[|p| - 2] == parent;
    var q := p[..|p| - 1];
    assert IsPath(all, q) && q[|q| - 1] == parent && p == q + [j];
    PathIs(all, q);
  }

  lemma ParentWanted(all: seq<Item>, query: bool, hits: set<string>, j: nat)
    requires j < |all| && Rooted(all, j) && ParentOf(all, j).Some? && Wanted(all, query, hits, j)
    ensures Wanted(all, query, hits, ParentOf(all, j).value)
  {
    var m: nat :| WantedFor(all, query, hits, m, j);
    AncestorPath(all, m, j);
    ParentPath(all, j);
    var parent := ParentOf(all, j).value;
    assert Path(all, parent)[|Path(all, parent)| - 1] == parent;
    assert parent in Path(all, j);
    assert WantedFor(all, query, hits, m, parent);
  }

  /** Siblings, with everything below them, come in the order of their items. */
  lemma SiblingsInOrder(all: seq<Item>, rows: seq<nat>, x: nat, y: nat)
    requires Ordered(all) && InPathOrder(all, rows) && x < y < |rows|
    requires ParentOf(all, rows[x]) == ParentOf(all, rows[y])
    ensures var a, b := all[rows[x]], all[rows[y]];
            a.position <= b.position && (a.position == b.position ==> a.created <= b.created)
  {
    var p, q := Path(all, rows[x]), Path(all, rows[y]);
    var m: nat :| SplitsAt(p, q, m);
    SiblingPaths(all, rows[x], rows[y]);
    forall t | 0 <= t < |p| - 1 ensures p[t] == q[t] {
      assert p[..|p| - 1][t] == q[..|p| - 1][t];
    }
  }

  lemma SiblingPaths(all: seq<Item>, i: nat, j: nat)
    requires i < |all| && j < |all| && Rooted(all, i) && Rooted(all, j) && ParentOf(all, i) == ParentOf(all, j)
    ensures |Path(all, i)| == |Path(all, j)| && Path(all, i)[..|Path(all, i)| - 1] == Path(all, j)[..|Path(all, i)| - 1]
  {
    var p, q := Path(all, i), Path(all, j);
    PathShape(all, i);
    PathShape(all, j);
    assert |p| > 1 ==> ParentOf(all, i) == Some(p[|p| - 2]);
    assert |q| > 1 ==> ParentOf(all, j) == Some(q[|q| - 2]);
    assert |p| == 1 ==> p[0] == i;
    assert |q| == 1 ==> q[0] == j;
    if |p| > 1 {
      PathsAgree(all, p[..|p| - 1], q[..|q| - 1]);
    }
  }

  /******* planningRows *******/

  ghost predicate InRange(all: seq<Item>, rows: seq<nat>) {
    forall x :: 0 <= x < |rows| ==> rows[x] < |all|
  }

  ghost predicate SeenIn(all: seq<Item>, seen: set<string>, rows: seq<nat>) {
    forall j :: 0 <= j < |all| ==> (all[j].id in seen <==> j in rows)
  }

  function ItemsAt(all: seq<Item>, rows: seq<nat>): (r: seq<Item>)
    requires InRange(all, rows)
    ensures |r| == |rows|
  {
    seq(|rows|, x requires 0 <= x < |rows| => all[rows[x]])
  }

  /** The three locals that the closures of planningRows share. */
  class Planner {
    const all: seq<Item>
    const query: bool
    const collapsed: set<string>
    var included: set<string>
    var seen: set<string>
    var ordered: seq<Item>
    ghost var rows: seq<nat>

    ghost predicate Valid()
      reads this
    {
      UniqueIds(all) && InRange(all, rows) && ordered == ItemsAt(all, rows) && SeenIn(all, seen, rows)
    }

    constructor (all: seq<Item>, query: bool, collapsed: set<string>)
      requires UniqueIds(all)
      ensures this.all == all && this.query == query && this.collapsed == collapsed
      ensures Valid() && rows == []
    {
      this.all, this.query, this.collapsed := all, query, collapsed;
      included, seen, ordered, rows := {}, {}, [], [];
    }

    /** The matches, and then their ancestors. */
    method Include(hits: set<string>)
      requires UniqueIds(all) && MatchesRooted(all, query, hits)
      modifies this`included
      ensures included == WantedIds(all, query, hits)
    {
      included := MatchIds(all, query, hits);
      NoMatchYet(all, query, hits);
      for m := 0 to |all|
        invariant included == IncludedAfter(all, query, hits, m)
      {
        NextMatch(all, query, hits, m);
        if Matches(query, hits, all[m]) {
          Climb(m);
        }
      }
      AllMatches(all, query, hits);
    }

    method Climb(m: nat)
      requires m < |all| && Rooted(all, m) && all[m].id in included
      modifies this`included
      ensures included == old(included) + PathIds(all, Path(all, m))
    {
      var item := m;
      ghost var p := Path(all, m);
      ghost var t := |p| - 1;
      PathShape(all, m);
      LastOfPath(all, p);
      while ParentOf(all, item).Some?
        invariant 0 <= t < |p| && item == p[t]
        invariant included == old(included) + PathIds(all, p[t..])
        decreases t
      {
        PathFrom(all, p, t);
        item := ParentOf(all, item).value;
        included := included + {all[item].id};
        t := t - 1;
      }
      PathStart(all, p, t);
    }

    /** `seen.add(item.id); ordered.push(item)`. */
    method Record(i: nat)
      requires Valid() && i < |all| && i !in rows
      modifies this`seen, this`ordered, this`rows
      ensures Valid() && rows == old(rows) + [i]
    {
      seen := seen + {all[i].id};
      ordered := ordered + [all[i]];
      rows := rows + [i];
    }

    method Visit(i: nat, ghost at: seq<nat>)
      requires Valid() && i < |all| && Closed(all, included)
      requires all[i].id in included ==>
                 && IsTrail(all, at) && IsChild(all, at, i)
                 && NoDuplicates(rows + Block(all, included, Folded(query, collapsed), at, i))
      modifies this`seen, this`ordered, this`rows
      ensures Valid()
      ensures rows == old(rows) + if all[i].id in included then Block(all, included, Folded(query, collapsed), at, i) else []
      decreases if all[i].id in included then |all| - |at| else 0, 0
    {
      if all[i].id !in included {
        return;
      }
      ghost var goal := rows + Block(all, included, Folded(query, collapsed), at, i);
      BlockAhead(all, included, Folded(query, collapsed), at, i, rows);
      if all[i].id in seen {
        return;
      }
      Record(i);
      if all[i].id in collapsed && !query {
        return;
      }
      VisitChildren(i, at + [i], goal);
    }

    /** A loop over candidates has come to `k`, and is to end with `goal`. */
    ghost predicate Towards(at: seq<nat>, k: nat, goal: seq<nat>)
      reads this
    {
      && k <= |all| && Valid() && NoDuplicates(goal)
      && goal == rows + Walk(all, included, Folded(query, collapsed), at, k)
    }

    /** One turn of such a loop. */
    method VisitCandidate(k: nat, child: bool, ghost at: seq<nat>, ghost goal: seq<nat>)
      requires k < |all| && Towards(at, k, goal)
      requires Closed(all, included) && IsTrail(all, at) && |at| <= |all|
      requires child <==> IsChild(all, at, k)
      modifies this`seen, this`ordered, this`rows
      ensures Towards(at, k + 1, goal)
      decreases |all| - |at|, 1
    {
      WalkStep(all, included, Folded(query, collapsed), at, k, rows);
      ghost var before := rows;
      ghost var block := if child && all[k].id in included then Block(all, included, Folded(query, collapsed), at, k) else [];
      if child {
        Visit(k, at);
      }
      assert rows == before + block;
    }

    /** The loop over the children of `i`. */
    method VisitChildren(i: nat, ghost at: seq<nat>, ghost goal: seq<nat>)
      requires i < |all| && Towards(at, 0, goal)
      requires Closed(all, included) && IsTrail(all, at) && |at| <= |all| && at != [] && at[|at| - 1] == i
      modifies this`seen, this`ordered, this`rows
      ensures Valid() && rows == goal
      decreases |all| - |at|, 2
    {
      var k := 0;
      while k < |all|
        invariant Towards(at, k, goal)
      {
        var child := all[k].parent == Some(all[i].id);
        ChildTest(all, at, k, i);
        VisitCandidate(k, child, at, goal);
        k := k + 1;
      }
      AtTheEnd(at, goal);
    }

    lemma AtTheEnd(at: seq<nat>, goal: seq<nat>)
      requires Towards(at, |all|, goal)
      ensures Valid() && rows == goal
    {
      WalkEnds(all, included, Folded(query, collapsed), at, rows);
    }

    method VisitRoots()
      requires Valid() && Closed(all, included) && rows == []
      modifies this`seen, this`ordered, this`rows
      ensures Valid() && rows == Walk(all, included, Folded(query, collapsed), [], 0)
    {
      ghost var goal := Walk(all, included, Folded(query, collapsed), [], 0);
      WalkRepeatsNothing(all, included, Folded(query, collapsed), [], 0);
      assert goal == rows + goal;
      var k := 0;
      while k < |all|
        invariant Towards([], k, goal)
      {
        VisitCandidate(k, ParentOf(all, k).None?, [], goal);
        k := k + 1;
      }
      AtTheEnd([], goal);
    }

    /** hiddenByCollapsedAncestor: also a parent out of scope may be collapsed. */
    method Hidden(i: nat) returns (hidden: bool)
      requires UniqueIds(all) && i < |all| && (query || Rooted(all, i))
      ensures hidden <==> !query && HiddenBy(all, collapsed, Path(all, i))
    {
      if query {
        return false;
      }
      ghost var p := Path(all, i);
      ghost var t: int := |p| - 1;
      PathShape(all, i);
      var parent := all[i].parent;
      var chain: set<string> := {};
      while parent.Some? && parent.value !in chain
        invariant -1 <= t < |p|
        invariant parent == if t >= 0 then all[p[t]].parent else None
        invariant forall id :: id in chain ==> exists s :: t < s < |p| && all[p[s]].parent == Some(id)
        invariant forall s :: t < s < |p| ==> !HangsFolded(all, collapsed, p[s])
        decreases t
      {
        if parent.value in collapsed {
          assert HangsFolded(all, collapsed, p[t]);
          return true;
        }
        PathStart(all, p, t);
        chain := chain + {parent.value};
        var above := IndexOf(all, parent.value);
        parent := if above.Some? then all[above.value].parent else None;
        t := t - 1;
      }
      if t >= 0 {
        if parent.Some? {
          var s :| t < s < |p| && all[p[s]].parent == parent;
          ParentsDiffer(all, p, t, s);
        }
        PathStart(all, p, t);
      }
      hidden := false;
    }
  }

  /** The parent an item names is collapsed, in scope or not. */
  predicate HangsFolded(all: seq<Item>, collapsed: set<string>, i: nat)
    requires i < |all|
  {
    all[i].parent.Some? && all[i].parent.value in collapsed
  }

  ghost predicate HiddenBy(all: seq<Item>, collapsed: set<string>, p: seq<nat>) {
    exists t :: 0 <= t < |p| && p[t] < |all| && HangsFolded(all, collapsed, p[t])
  }

  lemma ParentsDiffer(all: seq<Item>, p: seq<nat>, t: nat, s: nat)
    requires UniqueIds(all) && IsPath(all, p) && t < s < |p| && all[p[t]].parent.Some?
    ensures all[p[s]].parent != all[p[t]].parent
  {
    PathHasNoRepeat(all, p);
    assert ParentOf(all, p[s]) == Some(p[s - 1]);
    if t > 0 { assert ParentOf(all, p[t]) == Some(p[t - 1]); }
  }

  lemma PartsRepeatNothing(before: seq<nat>, u: seq<nat>, v: seq<nat>)
    requires NoDuplicates(before + (u + v))
    ensures NoDuplicates(before + u) && before + u + v == before + (u + v)
    ensures forall j :: j in before ==> j !in u
  {
    var w := before + (u + v);
    assert before + u == w[..|before| + |u|];
    forall j | j in before ensures j !in u {
      var x :| 0 <= x < |before| && before[x] == j;
      forall y | 0 <= y < |u| ensures u[y] != j {
        assert w[|before| + y] == u[y] && w[x] == j;
      }
    }
  }

  /** What is ahead when a visit begins: the item itself, then what is below it. */
  lemma BlockAhead(all: seq<Item>, included: set<string>, folded: set<string>, at: seq<nat>, i: nat, before: seq<nat>)
    requires IsTrail(all, at) && i < |all| && IsChild(all, at, i)
    requires NoDuplicates(before + Block(all, included, folded, at, i))
    ensures i !in before && IsTrail(all, at + [i]) && |at + [i]| <= |all|
    ensures before + Block(all, included, folded, at, i) ==
            before + [i] + if all[i].id in folded then [] else Walk(all, included, folded, at + [i], 0)
  {
    ChildPath(all, at, i);
    BlockUnfolds(all, included, folded, at, i);
    PartsRepeatNothing(before, [i], if all[i].id in folded then [] else Walk(all, included, folded, at + [i], 0));
    assert i in [i];
  }

  lemma WalkStep(all: seq<Item>, included: set<string>, folded: set<string>, at: seq<nat>, k: nat, before: seq<nat>)
    requires k < |all|
    requires NoDuplicates(before + Walk(all, included, folded, at, k))
    ensures var block := if IsChild(all, at, k) && all[k].id in included then Block(all, included, folded, at, k) else [];
            && NoDuplicates(before + block)
            && before + block + Walk(all, included, folded, at, k + 1) == before + Walk(all, included, folded, at, k)
  {
    var block := if IsChild(all, at, k) && all[k].id in included then Block(all, included, folded, at, k) else [];
    WalkUnfolds(all, included, folded, at, k);
    PartsRepeatNothing(before, block, Walk(all, included, folded, at, k + 1));
  }

  lemma OrderRepeatsNothing(all: seq<Item>, w: seq<nat>)
    requires InPathOrder(all, w)
    ensures NoDuplicates(w)
  {
    forall x, y | 0 <= x < y < |w| ensures w[x] != w[y] {
      if w[x] == w[y] { PrecedesIsStrict(Path(all, w[x]), Path(all, w[y])); }
    }
  }

  lemma WalkRepeatsNothing(all: seq<Item>, included: set<string>, folded: set<string>, at: seq<nat>, k: nat)
    requires Closed(all, included) && IsTrail(all, at) && k <= |all|
    ensures NoDuplicates(Walk(all, included, folded, at, k))
  {
    WalkSorted(all, included, folded, at, k);
    OrderRepeatsNothing(all, Walk(all, included, folded, at, k));
  }

  function MatchIds(all: seq<Item>, query: bool, hits: set<string>): set<string> {
    set item | item in all && Matches(query, hits, item) :: item.id
  }

  ghost function PathIds(all: seq<Item>, p: seq<nat>): set<string> {
    set j | j in p && j < |all| :: all[j].id
  }

  lemma LastOfPath(all: seq<Item>, p: seq<nat>)
    requires IsPath(all, p)
    ensures PathIds(all, p[|p| - 1..]) == {all[p[|p| - 1]].id}
  {
    assert p[|p| - 1..] == [p[|p| - 1]];
  }

  lemma PathStart(all: seq<Item>, p: seq<nat>, t: nat)
    requires IsPath(all, p) && t < |p|
    ensures ParentOf(all, p[t]).None? <==> t == 0
    ensures p[0..] == p
  {
    assert p[0..] == p;
    if t > 0 {
      assert ParentOf(all, p[t]) == Some(p[t - 1]);
    } else {
      assert p[t] == p[0];
    }
  }

  lemma PathFrom(all: seq<Item>, p: seq<nat>, t: nat)
    requires IsPath(all, p) && t < |p| && ParentOf(all, p[t]).Some?
    ensures t > 0 && ParentOf(all, p[t]).value == p[t - 1]
    ensures PathIds(all, p[t - 1..]) == PathIds(all, p[t..]) + {all[p[t - 1]].id}
  {
    assert p[t - 1..] == [p[t - 1]] + p[t..];
  }

  ghost predicate WantedBefore(all: seq<Item>, query: bool, hits: set<string>, bound: nat, j: nat) {
    exists m: nat :: m < bound && m < |all| && Matches(query, hits, all[m]) && Rooted(all, m) && j in Path(all, m)
  }

  ghost function IdsBefore(all: seq<Item>, query: bool, hits: set<string>, bound: nat): set<string> {
    set j | 0 <= j < |all| && WantedBefore(all, query, hits, bound, j) :: all[j].id
  }

  ghost function IncludedAfter(all: seq<Item>, query: bool, hits: set<string>, bound: nat): set<string> {
    MatchIds(all, query, hits) + IdsBefore(all, query, hits, bound)
  }

  lemma NoMatchYet(all: seq<Item>, query: bool, hits: set<string>)
    ensures IncludedAfter(all, query, hits, 0) == MatchIds(all, query, hits)
  {
  }

  lemma WantedBeforeNext(all: seq<Item>, query: bool, hits: set<string>, m: nat, j: nat)
    requires m < |all| && MatchesRooted(all, query, hits)
    ensures WantedBefore(all, query, hits, m + 1, j) <==>
            WantedBefore(all, query, hits, m, j) || (Matches(query, hits, all[m]) && j in Path(all, m))
  {
  }

  lemma IdsBeforeNext(all: seq<Item>, query: bool, hits: set<string>, m: nat, p: seq<nat>)
    requires forall j: nat :: j < |all| ==>
      (WantedBefore(all, query, hits, m + 1, j) <==> WantedBefore(all, query, hits, m, j) || j in p)
    ensures IdsBefore(all, query, hits, m + 1) == IdsBefore(all, query, hits, m) + PathIds(all, p)
  {
  }

  lemma NextMatch(all: seq<Item>, query: bool, hits: set<string>, m: nat)
    requires m < |all| && MatchesRooted(all, query, hits)
    ensures Matches(query, hits, all[m]) ==> all[m].id in IncludedAfter(all, query, hits, m)
    ensures IncludedAfter(all, query, hits, m + 1)
            == IncludedAfter(all, query, hits, m) + if Matches(query, hits, all[m]) then PathIds(all, Path(all, m)) else {}
  {
    var p := if Matches(query, hits, all[m]) then Path(all, m) else [];
    forall j: nat | j < |all|
      ensures WantedBefore(all, query, hits, m + 1, j) <==> WantedBefore(all, query, hits, m, j) || j in p
    {
      WantedBeforeNext(all, query, hits, m, j);
    }
    IdsBeforeNext(all, query, hits, m, p);
    assert PathIds(all, []) == {};
  }

  lemma AllMatches(all: seq<Item>, query: bool, hits: set<string>)
    requires MatchesRooted(all, query, hits)
    ensures IncludedAfter(all, query, hits, |all|) == WantedIds(all, query, hits)
  {
    forall id | id in MatchIds(all, query, hits) ensures id in WantedIds(all, query, hits) {
      var j :| 0 <= j < |all| && all[j].id == id && Matches(query, hits, all[j]);
      SelfWanted(all, query, hits, j);
    }
    forall j | 0 <= j < |all|
      ensures WantedBefore(all, query, hits, |all|, j) <==> Wanted(all, query, hits, j)
    {
      if WantedBefore(all, query, hits, |all|, j) {
        var m: nat :| m < |all| && Matches(query, hits, all[m]) && Rooted(all, m) && j in Path(all, m);
        assert WantedFor(all, query, hits, m, j);
      }
      if Wanted(all, query, hits, j) {
        var m: nat :| WantedFor(all, query, hits, m, j);
        assert Matches(query, hits, all[m]);
      }
    }
  }

  lemma NotListed(all: seq<Item>, query: bool, hits: set<string>, collapsed: set<string>, i: nat)
    requires UniqueIds(all) && i < |all|
    requires all[i].id in WantedIds(all, query, hits) && i !in RowIndices(all, query, hits, collapsed)
    ensures !query && Rooted(all, i) && !Unfolded(all, collapsed, i)
  {
    WantedIsClosed(all, query, hits);
    RowIff(all, query, hits, collapsed, i);
  }

  lemma HiddenIfNotListed(all: seq<Item>, query: bool, hits: set<string>, collapsed: set<string>, i: nat)
    requires UniqueIds(all) && i < |all|
    requires all[i].id in WantedIds(all, query, hits) && i !in RowIndices(all, query, hits, collapsed)
    ensures !query && Rooted(all, i)
    ensures HiddenBy(all, collapsed, Path(all, i))
  {
    NotListed(all, query, hits, collapsed, i);
    FoldedAbove(all, collapsed, i);
  }

  lemma FoldedAbove(all: seq<Item>, collapsed: set<string>, i: nat)
    requires i < |all| && Rooted(all, i) && !Unfolded(all, collapsed, i)
    ensures HiddenBy(all, collapsed, Path(all, i))
  {
    var p := Path(all, i);
    PathShape(all, i);
    var t :| 0 <= t < |p| - 1 && all[p[t]].id in collapsed;
    assert ParentOf(all, p[t + 1]) == Some(p[t]);
    assert HangsFolded(all, collapsed, p[t + 1]);
  }

  /** planningRows on the items in scope. Its second loop, over items that the
      first one has not seen, adds nothing. */
  method PlanningRows(items: seq<Item>, query: bool, hits: set<string>, collapsed: set<string>) returns (rows: seq<Item>)
    requires UniqueIds(items) && MatchesRooted(SortItems(items), query, hits)
    ensures var all := SortItems(items);
            var r := RowIndices(all, query, hits, collapsed);
            InRange(all, r) && rows == ItemsAt(all, r)
  {
    var all := SortItems(items);
    SortKeepsIdsUnique(items);
    RowsAre(all, query, hits, collapsed);
    WantedIsClosed(all, query, hits);
    var planner := new Planner(all, query, collapsed);
    planner.Include(hits);
    planner.VisitRoots();
    for i := 0 to |all|
      invariant planner.Valid() && planner.included == WantedIds(all, query, hits)
      invariant planner.rows == RowIndices(all, query, hits, collapsed)
    {
      if all[i].id !in planner.seen {
        if all[i].id in planner.included {
          HiddenIfNotListed(all, query, hits, collapsed, i);
        }
        var hidden := planner.Hidden(i);
        if !hidden {
          planner.Visit(i, []);
        }
      }
    }
    rows := planner.ordered;
  }
}
