/** The quota tree: what is charged, and the group a subvolume is born into
  * (agent/guestagent/qgroup.go). */
module QuotaTree {
  import opened Options

  const HASHES: nat := 0x100_0000_0000 // forty bits of the app's hash

  type Hash = h: nat | h < HASHES

  datatype Id = Id(level: nat, number: nat)

  // A row of the tree; a limit of -1 is none.
  datatype Group = Group(referenced: int, limit: int, parents: seq<Id>)

  type Tree = map<Id, Group>

  datatype StorageTier = DataTier | FilesTier

  // An app's areas: its settings, its cache and what it keeps without copies are all its data.
  datatype Kind = DataArea | CacheArea | UnversionedArea | FilesArea

  datatype Area = Area(kind: Kind, hash: Hash)

  function TierNumber(t: StorageTier): nat {
    match t case DataTier => 1 case FilesTier => 2
  }

  function TierOf(a: Area): StorageTier {
    if a.kind == FilesArea then FilesTier else DataTier
  }

  function AppGroup(t: StorageTier, h: Hash): Id {
    Id(1, TierNumber(t) * HASHES + h)
  }

  function Aggregate(t: StorageTier): Id {
    Id(2, TierNumber(t) * HASHES)
  }

  /** A group's number says its tier and its app's hash: no two are the same. */
  lemma {:induction false} GroupsAreDistinct(t: StorageTier, h: Hash, t': StorageTier, h': Hash)
    ensures AppGroup(t, h) == AppGroup(t', h') <==> t == t' && h == h'
    ensures AppGroup(t, h) != Aggregate(t') && (Aggregate(t) == Aggregate(t') <==> t == t')
  {
    assert TierNumber(t) == 1 || TierNumber(t) == 2;
  }

  // ---------------------------------------------------------------- what is charged

  ghost function Sum(w: map<Id, int>, s: set<Id>): int
    requires s <= w.Keys
  {
    if s == {} then 0 else
      var x :| x in s;
      w[x] + Sum(w, s - {x})
  }

  lemma {:induction false} SumTakes(w: map<Id, int>, s: set<Id>, x: Id)
    requires s <= w.Keys && x in s
    ensures Sum(w, s) == w[x] + Sum(w, s - {x})
    decreases s
  {
    var y :| y in s && Sum(w, s) == w[y] + Sum(w, s - {y});
    if y != x {
      SumTakes(w, s - {y}, x);
      SumTakes(w, s - {x}, y);
      assert s - {y} - {x} == s - {x} - {y};
    }
  }

  lemma {:induction false} SumSplits(w: map<Id, int>, a: set<Id>, b: set<Id>)
    requires a <= w.Keys && b <= w.Keys && a !! b
    ensures Sum(w, a + b) == Sum(w, a) + Sum(w, b)
    decreases a
  {
    if a == {} {
      assert a + b == b;
    } else {
      var x :| x in a;
      SumTakes(w, a, x);
      SumTakes(w, a + b, x);
      assert a + b - {x} == (a - {x}) + b;
      SumSplits(w, a - {x}, b);
    }
  }

  lemma {:induction false} SumNonNegative(w: map<Id, int>, s: set<Id>)
    requires s <= w.Keys && forall x | x in s :: w[x] >= 0
    ensures Sum(w, s) >= 0
    decreases s
  {
    if s != {} {
      var x :| x in s;
      SumTakes(w, s, x);
      SumNonNegative(w, s - {x});
    }
  }

  lemma {:induction false} SumSame(w: map<Id, int>, v: map<Id, int>, s: set<Id>)
    requires s <= w.Keys && s <= v.Keys && forall x | x in s :: w[x] == v[x]
    ensures Sum(w, s) == Sum(v, s)
    decreases s
  {
    if s != {} {
      var x :| x in s;
      SumTakes(w, s, x);
      SumTakes(v, s, x);
      SumSame(w, v, s - {x});
    }
  }

  ghost predicate Refers(t: Tree, w: map<Id, int>) {
    w.Keys == t.Keys && forall id | id in t :: w[id] == t[id].referenced
  }

  lemma {:induction false} SomethingRefers(t: Tree)
    ensures exists w :: Refers(t, w)
    decreases t.Keys
  {
    if t == map[] {
      assert Refers(t, map[]);
    } else {
      var id :| id in t;
      SomethingRefers(t - {id});
      var w :| Refers(t - {id}, w);
      assert Refers(t, w[id := t[id].referenced]);
    }
  }

  ghost function Referenced(t: Tree): (w: map<Id, int>)
    ensures w.Keys == t.Keys
    ensures forall id | id in t :: w[id] == t[id].referenced
  {
    SomethingRefers(t);
    var w :| Refers(t, w);
    w
  }

  ghost function Parentless(t: Tree): set<Id> {
    set id | id in t && t[id].parents == []
  }

  ghost function Subvolumes(t: Tree): set<Id> {
    set id | id in t && id.level == 0
  }

  ghost function Children(t: Tree, p: Id): set<Id> {
    set id | id in t && p in t[id].parents
  }

  ghost function Under(t: Tree, ps: set<Id>): set<Id> {
    set id | id in t && exists p | p in ps :: p in t[id].parents
  }

  /** The strict hierarchy: one parent at most, a parent is a group over others, and it holds what
    * its children hold. */
  ghost predicate Strict(t: Tree) {
    && (forall id | id in t :: |t[id].parents| <= 1)
    && (forall id, p | id in t && p in t[id].parents :: p in t && p.level > 0)
    && (forall p | p in t && p.level > 0 :: t[p].referenced == Sum(Referenced(t), Children(t, p)))
    && (forall id | id in t :: t[id].referenced >= 0)
  }

  /** charged: one pass over the tree, in whatever order the map gives. */
  method Charged(t: Tree) returns (n: int)
    ensures n == Sum(Referenced(t), Parentless(t))
  {
    n := 0;
    var todo := t.Keys;
    ghost var done: set<Id> := {};
    while todo != {}
      invariant todo <= t.Keys && done == (set id | id in Parentless(t) && id !in todo)
      invariant n == Sum(Referenced(t), done)
      decreases todo
    {
      var id :| id in todo;
      todo := todo - {id};
      if |t[id].parents| == 0 {
        n := n + t[id].referenced;
        assert (done + {id}) - {id} == done;
        SumTakes(Referenced(t), done + {id}, id);
        done := done + {id};
      }
    }
    assert done == Parentless(t);
  }

  // The groups over these parents hold, together, what they do.
  lemma {:induction false} ParentsHoldChildren(t: Tree, ps: set<Id>)
    requires Strict(t) && ps <= t.Keys && forall p | p in ps :: p.level > 0
    ensures Sum(Referenced(t), ps) == Sum(Referenced(t), Under(t, ps))
    decreases ps
  {
    var w := Referenced(t);
    if ps == {} {
      assert Under(t, ps) == {};
    } else {
      var p :| p in ps;
      SumTakes(w, ps, p);
      ParentsHoldChildren(t, ps - {p});
      forall id | id in Children(t, p) ensures id !in Under(t, ps - {p}) {
        assert t[id].parents == [p];
      }
      SumSplits(w, Children(t, p), Under(t, ps - {p}));
      assert Under(t, ps) == Children(t, p) + Under(t, ps - {p}) by {
        forall id | id in Under(t, ps) ensures id in Children(t, p) + Under(t, ps - {p}) {
          var q :| q in ps && q in t[id].parents;
        }
        forall id | id in Children(t, p) ensures id in Under(t, ps) {
          assert p in t[id].parents;
        }
      }
    }
  }

  /** Each byte once: in a strict tree what is charged is what the subvolumes hold. */
  lemma {:induction false} ChargedOnce(t: Tree)
    requires Strict(t)
    ensures Sum(Referenced(t), Parentless(t)) == Sum(Referenced(t), Subvolumes(t))
  {
    var w := Referenced(t);
    var groups := t.Keys - Subvolumes(t);
    WithParents(t);
    ParentsHoldChildren(t, groups);
    assert Subvolumes(t) + groups == t.Keys;
    SumSplits(w, Subvolumes(t), groups);
    SumSplits(w, Parentless(t), Under(t, groups));
  }

  // Every group is in nothing or under a group of a level above.
  lemma {:induction false} WithParents(t: Tree)
    requires Strict(t)
    ensures var under := Under(t, t.Keys - Subvolumes(t)); Parentless(t) !! under && Parentless(t) + under == t.Keys
  {
    var groups := t.Keys - Subvolumes(t);
    forall id | id in t && id !in Parentless(t) ensures id in Under(t, groups) {
      var p := t[id].parents[0];
      assert p in groups && p in t[id].parents;
    }
  }

  /** What is charged outside one aggregate is never negative, and holds every other aggregate. */
  lemma {:induction false} OutsideAggregate(t: Tree, agg: Id)
    requires Strict(t) && agg in t && t[agg].parents == []
    ensures Sum(Referenced(t), Parentless(t)) - t[agg].referenced == Sum(Referenced(t), Parentless(t) - {agg}) >= 0
    ensures forall other | other in Parentless(t) && other != agg ::
              t[other].referenced <= Sum(Referenced(t), Parentless(t)) - t[agg].referenced
  {
    var w := Referenced(t);
    SumTakes(w, Parentless(t), agg);
    SumNonNegative(w, Parentless(t) - {agg});
    forall other | other in Parentless(t) && other != agg
      ensures t[other].referenced <= Sum(w, Parentless(t) - {agg})
    {
      SumTakes(w, Parentless(t) - {agg}, other);
      SumNonNegative(w, Parentless(t) - {agg} - {other});
    }
  }

  /** A group holds no more than the group it is in. */
  lemma {:induction false} ChildHoldsNoMore(t: Tree, id: Id, p: Id)
    requires Strict(t) && id in t && p in t[id].parents
    ensures p in t && t[id].referenced <= t[p].referenced
  {
    SumTakes(Referenced(t), Children(t, p), id);
    SumNonNegative(Referenced(t), Children(t, p) - {id});
  }

  // ---------------------------------------------------------------- the group of an area

  predicate Holds(t: Tree, group: Id, agg: Id) {
    agg in t && group in t && agg in t[group].parents
  }

  // A new group, empty and in nothing; an id that is there is refused.
  function Created(t: Tree, id: Id): Tree {
    if id in t then t else t[id := Group(0, -1, [])]
  }

  /** Making a group charges nobody anything, and bounds nobody. */
  lemma {:induction false} CreateChargesNothing(t: Tree, id: Id)
    ensures Sum(Referenced(Created(t, id)), Parentless(Created(t, id))) == Sum(Referenced(t), Parentless(t))
    ensures id !in t ==> id in Created(t, id) && Created(t, id)[id].limit == -1
  {
    var t' := Created(t, id);
    if id !in t {
      assert Parentless(t') == Parentless(t) + {id};
      assert Parentless(t') - {id} == Parentless(t);
      SumTakes(Referenced(t'), Parentless(t'), id);
    }
    SumSame(Referenced(t), Referenced(t'), Parentless(t));
  }

  predicate Assignable(t: Tree, group: Id, agg: Id) {
    group in t && agg in t && agg !in t[group].parents
  }

  function Assigned(t: Tree, group: Id, agg: Id): Tree {
    if Assignable(t, group, agg) then t[group := t[group].(parents := t[group].parents + [agg])] else t
  }

  // The two groups of an area.
  function GroupOf(a: Area): Id {
    AppGroup(TierOf(a), a.hash)
  }

  function AggregateOf(a: Area): Id {
    Aggregate(TierOf(a))
  }

  /** Where an area's bytes are charged: a files area's in tier 2, and every other area's, the cache's
    * and the unversioned one's too, in tier 1; the app's group is the tier's number over forty bits
    * of hash, and its aggregate the same number over none. */
  predicate ChargedIn(a: Area, group: Id, agg: Id) {
    match a.kind
    case FilesArea => group == Id(1, 0x200_0000_0000 + a.hash) && agg == Id(2, 0x200_0000_0000)
    case DataArea => group == Id(1, 0x100_0000_0000 + a.hash) && agg == Id(2, 0x100_0000_0000)
    case CacheArea => group == Id(1, 0x100_0000_0000 + a.hash) && agg == Id(2, 0x100_0000_0000)
    case UnversionedArea => group == Id(1, 0x100_0000_0000 + a.hash) && agg == Id(2, 0x100_0000_0000)
  }

  /** Every group is in nothing or in its own tier's aggregate, once; an aggregate is in nothing. */
  ghost predicate Sound(t: Tree) {
    && (forall a: Area | GroupOf(a) in t ::
          t[GroupOf(a)].parents == [] || (t[GroupOf(a)].parents == [AggregateOf(a)] && AggregateOf(a) in t))
    && (forall tier: StorageTier | Aggregate(tier) in t :: t[Aggregate(tier)].parents == [])
  }

  /** What the callers of areaGroup, and the writers between them, do to the tree: groups are only
    * added, and a group once in its aggregate stays in it. */
  ghost predicate Grown(t: Tree, t': Tree) {
    && (Sound(t) ==> Sound(t'))
    && t.Keys <= t'.Keys
    && forall id, p | id in t && p in t[id].parents :: p in t'[id].parents
  }

  lemma {:induction false} CreatedGrows(t: Tree, a: Area)
    ensures Grown(t, Created(t, GroupOf(a))) && Grown(t, Created(t, AggregateOf(a)))
  {
    SoundAfterCreate(t, GroupOf(a));
    SoundAfterCreate(t, AggregateOf(a));
  }

  lemma {:induction false} SoundAfterCreate(t: Tree, id: Id)
    ensures Sound(t) ==> Sound(Created(t, id))
  {
    if Sound(t) {
      var t' := Created(t, id);
      forall a: Area | GroupOf(a) in t'
        ensures t'[GroupOf(a)].parents == [] || (t'[GroupOf(a)].parents == [AggregateOf(a)] && AggregateOf(a) in t')
      {
        assert GroupOf(a) in t || GroupOf(a) == id;
      }
      forall tier: StorageTier | Aggregate(tier) in t' ensures t'[Aggregate(tier)].parents == [] {
        assert Aggregate(tier) in t || Aggregate(tier) == id;
      }
    }
  }

  lemma {:induction false} AssignedGrows(t: Tree, a: Area)
    ensures Grown(t, Assigned(t, GroupOf(a), AggregateOf(a)))
  {
    var t' := Assigned(t, GroupOf(a), AggregateOf(a));
    if Sound(t) && t' != t {
      assert t[GroupOf(a)].parents == [];
      assert t'[GroupOf(a)].parents == [AggregateOf(a)];
      forall b: Area | GroupOf(b) in t'
        ensures t'[GroupOf(b)].parents == [] || (t'[GroupOf(b)].parents == [AggregateOf(b)] && AggregateOf(b) in t')
      {
        GroupsAreDistinct(TierOf(a), a.hash, TierOf(b), b.hash);
        assert GroupOf(b) in t;
      }
      forall tier: StorageTier | Aggregate(tier) in t' ensures t'[Aggregate(tier)].parents == [] {
        GroupsAreDistinct(TierOf(a), a.hash, tier, 0);
        assert Aggregate(tier) in t;
      }
    }
  }

  lemma {:induction false} GrownTwice(t: Tree, t': Tree, t'': Tree)
    requires Grown(t, t') && Grown(t', t'')
    ensures Grown(t, t'')
  {
  }

  // ---- one caller, with others at work between any two of its commands

  class Volume {
    var tree: Tree
    var faulted: bool // a command of this caller's failed for a reason of its own

    constructor (tree: Tree)
      ensures this.tree == tree && !faulted
    {
      this.tree, faulted := tree, false;
    }

    /** Any number of other callers, and writers of data, between two commands. */
    method Others()
      modifies `tree
      ensures Grown(old(tree), tree)
    {
      var more: bool := *;
      var rounds: int := *;
      while more && rounds > 0
        invariant Grown(old(tree), tree)
        decreases rounds
      {
        var a: Area := *;
        var act: int := *;
        ghost var before := tree;
        CreatedGrows(tree, a);
        AssignedGrows(tree, a);
        if act == 0 {
          tree := Created(tree, GroupOf(a));
        } else if act == 1 {
          tree := Created(tree, AggregateOf(a));
        } else if act == 2 {
          tree := Assigned(tree, GroupOf(a), AggregateOf(a));
        } else if GroupOf(a) in tree {
          var bytes: int := *;
          tree := tree[GroupOf(a) := tree[GroupOf(a)].(referenced := bytes)];
        }
        GrownTwice(old(tree), before, tree);
        rounds := rounds - 1;
        more := *;
      }
    }

    method Create(id: Id)
      modifies this
      ensures tree == old(tree) || tree == Created(old(tree), id)
      ensures faulted || (id in tree && faulted == old(faulted))
      ensures old(faulted) ==> faulted
    {
      var fault: bool := *;
      faulted := faulted || fault;
      if !fault { tree := Created(tree, id); }
    }

    method Assign(group: Id, agg: Id)
      modifies this
      ensures tree == old(tree) || tree == Assigned(old(tree), group, agg)
      ensures faulted || tree == Assigned(old(tree), group, agg)
      ensures old(faulted) ==> faulted
    {
      var fault: bool := *;
      faulted := faulted || fault;
      if !fault { tree := Assigned(tree, group, agg); }
    }

    method Read() returns (t: Option<Tree>)
      modifies `faulted
      ensures t == None ==> faulted
      ensures t.Some? ==> t.value == tree && faulted == old(faulted)
      ensures old(faulted) ==> faulted
    {
      var fault: bool := *;
      faulted := faulted || fault;
      t := if fault then None else Some(tree);
    }

    /** areaGroup: the group this area's subvolumes are born into, made if it is not there. Losing
      * a race for any part of it is not a failure. */
    method AreaGroup(a: Area) returns (r: Option<Id>)
      modifies this
      ensures Grown(old(tree), tree)
      ensures r.Some? ==> r.value == GroupOf(a) && Holds(tree, GroupOf(a), AggregateOf(a))
      ensures r.Some? ==> ChargedIn(a, r.value, AggregateOf(a))
      ensures r.Some? && Sound(old(tree)) ==> tree[r.value].parents == [AggregateOf(a)]
      ensures r.None? ==> faulted
    {
      var group, agg := GroupOf(a), AggregateOf(a);
      Others();
      var first := Read();
      if first.None? { return None; }
      if Holds(first.value, group, agg) { return Some(group); }
      MakeGroup(a, first.value);
      Others();
      var second := Read();
      if second.None? { return None; }
      r := if Holds(second.value, group, agg) then Some(group) else None;
    }

    // The missing parts, each tried whatever became of the one before.
    method MakeGroup(a: Area, seen: Tree)
      requires seen.Keys <= tree.Keys
      modifies this
      ensures Grown(old(tree), tree)
      ensures old(faulted) ==> faulted
      ensures faulted || Holds(tree, GroupOf(a), AggregateOf(a))
    {
      var group, agg := GroupOf(a), AggregateOf(a);
      Others();
      CreatedGrows(tree, a);
      if agg !in seen { Create(agg); }
      Others();
      CreatedGrows(tree, a);
      if group !in seen { Create(group); }
      Others();
      AssignedGrows(tree, a);
      Assign(group, agg);
    }
  }

  // ---- any number of callers, in any order

  datatype Pc =
    | Begun
    | ToMake(agg: bool, group: bool) // read, and not held: what the read did not show
    | ToGroup(group: bool)
    | ToAssign
    | ToReread
    | Finished(ok: bool)

  datatype Caller = Caller(area: Area, pc: Pc)

  datatype World = World(tree: Tree, callers: seq<Caller>)

  // One command of one caller, none failing but on an id or an assignment that is there.
  function Next(t: Tree, c: Caller): (Tree, Pc) {
    var group, agg := GroupOf(c.area), AggregateOf(c.area);
    match c.pc
    case Begun => (t, if Holds(t, group, agg) then Finished(true) else ToMake(agg !in t, group !in t))
    case ToMake(mAgg, mGroup) => (if mAgg then Created(t, agg) else t, ToGroup(mGroup))
    case ToGroup(mGroup) => (if mGroup then Created(t, group) else t, ToAssign)
    case ToAssign => (Assigned(t, group, agg), ToReread)
    case ToReread => (t, Finished(Holds(t, group, agg)))
    case Finished(_) => (t, c.pc)
  }

  function Schedule(w: World, order: seq<nat>): World
    decreases |order|
  {
    if order == [] then w else
      var w' := Schedule(w, order[..|order| - 1]);
      var i := order[|order| - 1];
      if i >= |w'.callers| then w' else
        var (t, pc) := Next(w'.tree, w'.callers[i]);
        World(t, w'.callers[i := w'.callers[i].(pc := pc)])
  }

  // What a caller has seen or made is still there.
  predicate OnCourse(t: Tree, c: Caller) {
    var group, agg := GroupOf(c.area), AggregateOf(c.area);
    match c.pc
    case Begun => true
    case ToMake(mAgg, mGroup) => (mAgg || agg in t) && (mGroup || group in t)
    case ToGroup(mGroup) => agg in t && (mGroup || group in t)
    case ToAssign => agg in t && group in t
    case ToReread => Holds(t, group, agg)
    case Finished(ok) => ok && Holds(t, group, agg)
  }

  function Left(pc: Pc): nat {
    match pc
    case Begun => 5
    case ToMake(_, _) => 4
    case ToGroup(_) => 3
    case ToAssign => 2
    case ToReread => 1
    case Finished(_) => 0
  }

  function Turns(order: seq<nat>, i: nat): nat {
    if order == [] then 0
    else Turns(order[..|order| - 1], i) + (if order[|order| - 1] == i then 1 else 0)
  }

  lemma {:induction false} NextGrows(t: Tree, c: Caller)
    requires OnCourse(t, c)
    ensures var (t', pc) := Next(t, c);
      && Grown(t, t')
      && OnCourse(t', c.(pc := pc))
      && (Left(pc) < Left(c.pc) || Left(c.pc) == 0 == Left(pc))
  {
    CreatedGrows(t, c.area);
    AssignedGrows(t, c.area);
  }

  /** Any number of callers for any areas, however their commands fall: none fails, each is done
    * after five turns, and every group any of them was given is in its own aggregate alone. */
  lemma {:induction false} CallersSucceed(w: World, order: seq<nat>)
    requires Sound(w.tree) && forall c | c in w.callers :: c.pc == Begun
    ensures var w' := Schedule(w, order);
      && Sound(w'.tree) && |w'.callers| == |w.callers|
      && (forall i | 0 <= i < |w.callers| ::
            && w'.callers[i].area == w.callers[i].area
            && OnCourse(w'.tree, w'.callers[i])
            && (Left(w'.callers[i].pc) <= 5 - Turns(order, i) || Left(w'.callers[i].pc) == 0))
      && (forall i | 0 <= i < |w.callers| && Turns(order, i) >= 5 ::
            && w'.callers[i].pc == Finished(true)
            && ChargedIn(w.callers[i].area, GroupOf(w.callers[i].area), AggregateOf(w.callers[i].area))
            && w'.tree[GroupOf(w.callers[i].area)].parents == [AggregateOf(w.callers[i].area)])
    decreases |order|
  {
    if order != [] {
      var before := order[..|order| - 1];
      CallersSucceed(w, before);
      var w1 := Schedule(w, before);
      var i := order[|order| - 1];
      if i < |w1.callers| {
        NextGrows(w1.tree, w1.callers[i]);
        var (t, pc) := Next(w1.tree, w1.callers[i]);
        forall j | 0 <= j < |w.callers| && j != i ensures OnCourse(t, w1.callers[j]) {
        }
      }
    }
  }
}
