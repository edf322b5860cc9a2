/** Compile-time resolution of captured variables: resolve_upvalue and add_upvalue. */
module Upvalues {
  import opened Syntax

  /** `slot` is a local of the directly enclosing compiler if `islocal`, else one of its
      captured variables. */
  datatype Upvalue = Upvalue(slot: nat, islocal: bool)

  /** What a compiler knows about variables. `captured` are the slots marked as captured. */
  datatype Level = Level(locals: seq<Name>, captured: set<nat>, ups: seq<Upvalue>)

  const LOCAL_COUNT: nat := 255

  /** Where a descriptor leads: slot `slot` of compiler `level`. */
  datatype Place = Place(level: nat, slot: nat) | Lost

  /** Follow descriptor `k` of compiler `i` outward. */
  function Follow(ls: seq<Level>, i: nat, k: nat): Place
    decreases |ls| - i
  {
    if i + 1 >= |ls| || k >= |ls[i].ups| then Lost
    else
      var u := ls[i].ups[k];
      if u.islocal then Place(i + 1, u.slot) else Follow(ls, i + 1, u.slot)
  }

  /** The innermost compiler strictly around `i` that has a local of that name, or |ls|. */
  function Owner(ls: seq<Level>, i: nat, x: Name): (j: nat)
    requires i < |ls|
    ensures i < j <= |ls|
    ensures j < |ls| ==> x in ls[j].locals
    ensures forall m :: i < m < j ==> x !in ls[m].locals
    decreases |ls| - i
  {
    if i + 1 == |ls| then |ls|
    else if x in ls[i + 1].locals then i + 1
    else Owner(ls, i + 1, x)
  }

  /** The index of a descriptor, or the length. */
  function Position(ups: seq<Upvalue>, u: Upvalue): (k: nat)
    ensures k <= |ups| && (k < |ups| ==> ups[k] == u) && u !in ups[..k]
  {
    if ups == [] then 0 else if ups[0] == u then 0 else 1 + Position(ups[1..], u)
  }

  predicate DistinctUps(ups: seq<Upvalue>) {
    forall a, b :: 0 <= a < b < |ups| ==> ups[a] != ups[b]
  }

  /** What the arrays of the compilers hold, and descriptors of one compiler are different. */
  predicate Good(ls: seq<Level>) {
    forall i :: 0 <= i < |ls| ==> |ls[i].ups| <= LOCAL_COUNT && |ls[i].locals| <= LOCAL_COUNT && DistinctUps(ls[i].ups)
  }

  /** The descriptor is there already, or the array has room for it. */
  predicate HasRoom(l: Level, u: Upvalue) {
    u in l.ups || |l.ups| < LOCAL_COUNT
  }

  /** Descriptors are only added at the end; locals stay. */
  predicate Extends(ls: seq<Level>, ls': seq<Level>) {
    && |ls'| == |ls|
    && forall i :: 0 <= i < |ls| ==>
         ls'[i].locals == ls[i].locals && ls[i].ups <= ls'[i].ups && ls[i].captured <= ls'[i].captured
  }

  /** The compilers of nested functions, innermost first. `past` is set once a descriptor has been
      stored behind the array of a compiler. */
  class Chain {
    var levels: seq<Level>
    var flag: bool
    var past: bool

    constructor (levels: seq<Level>)
      ensures this.levels == levels && !flag && !past
    {
      this.levels, flag, past := levels, false, false;
    }

    /** `resolve_local` in compiler `i`. */
    method ResolveLocal(i: nat, x: Name) returns (k: int)
      requires i < |levels|
      ensures k == Newest(levels[i].locals, x)
    {
      var ns := levels[i].locals;
      k := |ns| - 1;
      while k >= 0 && ns[k] != x
        invariant -1 <= k < |ns| && forall j :: k < j < |ns| ==> ns[j] != x
      {
        k := k - 1;
      }
    }

    /** `add_upvalue`: an equal descriptor is found again, otherwise one is appended. The check for
        too many comes one too late. */
    method AddUpvalue(i: nat, slot: nat, islocal: bool) returns (k: nat)
      requires i < |levels| && slot < 256
      modifies this
      ensures |levels| == |old(levels)| && forall j :: 0 <= j < |levels| && j != i ==> levels[j] == old(levels[j])
      ensures old(past) ==> past
      ensures |old(levels[i].ups)| <= LOCAL_COUNT ==>
                && flag == old(flag) && past == (old(past) || !HasRoom(old(levels[i]), Upvalue(slot, islocal)))
                && k == Position(old(levels[i].ups), Upvalue(slot, islocal))
                && (HasRoom(old(levels[i]), Upvalue(slot, islocal)) ==>
                     levels == old(levels)[i := Added(old(levels[i]), Upvalue(slot, islocal))])
    {
      var ups := levels[i].ups;
      var u := Upvalue(slot, islocal);
      k := 0;
      while k < |ups|
        invariant k <= |ups| && u !in ups[..k] && levels == old(levels) && flag == old(flag) && past == old(past)
      {
        if ups[k] == u {
          PositionIs(ups, u, k);
          return;
        }
        assert ups[..k + 1] == ups[..k] + [ups[k]];
        k := k + 1;
      }
      assert ups[..k] == ups;
      PositionIs(ups, u, k);
      if |ups| > LOCAL_COUNT {
        flag, k := true, 0;
        return;
      }
      past := past || |ups| == LOCAL_COUNT;
      levels := levels[i := levels[i].(ups := ups + [u])];
    }

    method Capture(i: nat, slot: nat)
      requires i < |levels|
      modifies this
      ensures flag == old(flag) && past == old(past)
      ensures levels == old(levels)[i := old(levels[i]).(captured := old(levels[i].captured) + {slot})]
    {
      levels := levels[i := levels[i].(captured := levels[i].captured + {slot})];
    }

    /** `resolve_upvalue`: exact as long as the descriptors it needs fit, and otherwise it has stored
        one behind an array without any error. */
    method ResolveUpvalue(i: nat, x: Name) returns (k: int)
      requires i < |levels| && Good(levels)
      modifies this
      ensures |levels| == |old(levels)| && forall j :: 0 <= j < i ==> levels[j] == old(levels[j])
      ensures flag == old(flag) && past == (old(past) || !Fits(old(levels), i, x))
      ensures Fits(old(levels), i, x) ==> var r := Resolved(old(levels), i, x); k == r.k && levels == r.levels
      decreases |levels| - i
    {
      hide DistinctUps, Added, HasRoom, Newest, Position;
      ghost var was := levels;
      if i + 1 == |levels| {
        return -1;
      }
      var slot := ResolveLocal(i + 1, x);
      if slot != -1 {
        NewestBelow(was[i + 1].locals, x);
        Capture(i + 1, slot);
        k := AddUpvalue(i, slot, true);
        return;
      }
      var up := ResolveUpvalue(i + 1, x);
      if Fits(was, i + 1, x) {
        ResolvedKeeps(was, i + 1, x);
      }
      k := -1;
      if up != -1 {
        k := AddUpvalue(i, up % 256, false);
      }
    }
  }

  lemma NewestBelow(ns: seq<Name>, x: Name)
    ensures -1 <= Newest(ns, x) < |ns|
  {
  }

  function Added(l: Level, u: Upvalue): Level {
    if Position(l.ups, u) < |l.ups| then l else l.(ups := l.ups + [u])
  }

  lemma {:induction false} PositionIs(ups: seq<Upvalue>, u: Upvalue, k: nat)
    requires k <= |ups| && u !in ups[..k] && (k < |ups| ==> ups[k] == u)
    ensures Position(ups, u) == k
    decreases k
  {
    if k > 0 {
      assert ups[..k][0] == ups[0];
      assert ups[1..][..k - 1] == ups[..k][1..];
      PositionIs(ups[1..], u, k - 1);
    }
  }

  datatype Answer = Answer(k: int, levels: seq<Level>)

  /** What `resolve_upvalue` finds and leaves behind. */
  function Resolved(ls: seq<Level>, i: nat, x: Name): (r: Answer)
    requires i < |ls|
    ensures |r.levels| == |ls|
    decreases |ls| - i
  {
    if i + 1 == |ls| then Answer(-1, ls)
    else
      var slot := Newest(ls[i + 1].locals, x);
      if slot != -1 then
        var marked := ls[i + 1 := ls[i + 1].(captured := ls[i + 1].captured + {slot})];
        Answer(Position(ls[i].ups, Upvalue(slot, true)), marked[i := Added(ls[i], Upvalue(slot, true))])
      else
        var r := Resolved(ls, i + 1, x);
        if r.k < 0 then Answer(-1, r.levels)
        else Answer(Position(ls[i].ups, Upvalue(r.k, false)), r.levels[i := Added(ls[i], Upvalue(r.k, false))])
  }

  /** The descriptors that resolving `x` needs are there, or have room. */
  predicate Fits(ls: seq<Level>, i: nat, x: Name)
    requires i < |ls|
    decreases |ls| - i
  {
    if i + 1 == |ls| then true
    else
      var slot := Newest(ls[i + 1].locals, x);
      if slot != -1 then HasRoom(ls[i], Upvalue(slot, true))
      else Fits(ls, i + 1, x) && var k := Resolved(ls, i + 1, x).k; k < 0 || HasRoom(ls[i], Upvalue(k, false))
  }

  lemma AddedKeeps(l: Level, u: Upvalue)
    requires DistinctUps(l.ups)
    ensures var m := Added(l, u); var k := Position(l.ups, u);
            l.ups <= m.ups && m.locals == l.locals && m.captured == l.captured && DistinctUps(m.ups) && k < |m.ups|
              && m.ups[k] == u && |m.ups| <= |l.ups| + 1
              && (HasRoom(l, u) && |l.ups| <= LOCAL_COUNT ==> k < LOCAL_COUNT && |m.ups| <= LOCAL_COUNT)
  {
    var k := Position(l.ups, u);
    if k == |l.ups| {
      assert l.ups[..k] == l.ups;
    }
  }

  /** No descriptor is renumbered or duplicated, no local touched; what lies inside `i` stays. */
  lemma {:induction false} ResolvedKeeps(ls: seq<Level>, i: nat, x: Name)
    requires i < |ls| && Good(ls) && Fits(ls, i, x)
    ensures var r := Resolved(ls, i, x);
            && -1 <= r.k < LOCAL_COUNT
            && Extends(ls, r.levels)
            && Good(r.levels) && (forall j :: 0 <= j < |ls| ==> |r.levels[j].ups| <= |ls[j].ups| + 1)
            && (forall j :: 0 <= j < i ==> r.levels[j] == ls[j])
    decreases |ls| - i
  {
    hide Added, HasRoom, DistinctUps, Position, Newest;
    if i + 1 < |ls| {
      var slot := Newest(ls[i + 1].locals, x);
      if slot != -1 {
        AddedKeeps(ls[i], Upvalue(slot, true));
      } else {
        ResolvedKeeps(ls, i + 1, x);
        var r := Resolved(ls, i + 1, x);
        if r.k >= 0 {
          AddedKeeps(ls[i], Upvalue(r.k, false));
        }
      }
    }
  }

  /** A name resolves exactly when a strictly enclosing compiler has a local of that name, and
      its descriptor leads to the newest such local of the innermost such compiler. */
  lemma {:induction false} ResolvedLeads(ls: seq<Level>, i: nat, x: Name)
    requires i < |ls| && Good(ls) && Fits(ls, i, x)
    ensures var r, j := Resolved(ls, i, x), Owner(ls, i, x);
            && (r.k >= 0 <==> exists m :: i < m < |ls| && x in ls[m].locals)
            && (r.k >= 0 ==>
                 j < |ls| && Follow(r.levels, i, r.k) == Place(j, Newest(ls[j].locals, x))
                   && Newest(ls[j].locals, x) >= 0)
    decreases |ls| - i
  {
    hide Added, HasRoom, DistinctUps, Position;
    if i + 1 < |ls| {
      var slot := Newest(ls[i + 1].locals, x);
      ResolvedKeeps(ls, i, x);
      if slot != -1 {
        AddedKeeps(ls[i], Upvalue(slot, true));
        assert x in ls[i + 1].locals;
      } else {
        ResolvedLeads(ls, i + 1, x);
        ResolvedKeeps(ls, i + 1, x);
        var s := Resolved(ls, i + 1, x);
        if s.k >= 0 {
          AddedKeeps(ls[i], Upvalue(s.k, false));
          var r := Resolved(ls, i, x);
          FollowOutside(s.levels, r.levels, i + 1, s.k);
        }
      }
    }
  }

  /** Following depends on the levels from `i` outward only. */
  lemma {:induction false} FollowOutside(ls: seq<Level>, ls': seq<Level>, i: nat, k: nat)
    requires |ls| == |ls'| && forall j :: i <= j < |ls| ==> ls'[j] == ls[j]
    ensures Follow(ls', i, k) == Follow(ls, i, k)
    decreases |ls| - i
  {
    if i + 1 < |ls| && k < |ls[i].ups| && !ls[i].ups[k].islocal {
      FollowOutside(ls, ls', i + 1, ls[i].ups[k].slot);
    }
  }

  /** Descriptors handed out before keep leading where they led. */
  lemma {:induction false} EarlierStay(ls: seq<Level>, ls': seq<Level>, i: nat, k: nat)
    requires Extends(ls, ls') && Follow(ls, i, k) != Lost
    ensures Follow(ls', i, k) == Follow(ls, i, k)
    decreases |ls| - i
  {
    assert ls[i].ups[k] == ls'[i].ups[k];
    if !ls[i].ups[k].islocal {
      EarlierStay(ls, ls', i + 1, ls[i].ups[k].slot);
    }
  }
}
