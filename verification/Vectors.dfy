/** The growable one-dimensional vector of vector.c. */
module Vectors {

  /** `T_GEN` marks a vector that has held nothing yet. */
  datatype Tag = Generic | Tagged(t: nat)

  /** A value with its type. The vector stores payloads only, and one type for all of them. */
  datatype Scalar = Scalar(t: nat, payload: int)

  /** What an operation answers. `Refused` ends the program with a message; `Outside` touches a
      cell outside the array, or takes an element from a vector that has none. */
  datatype Answer = NullValue | Value(e: Scalar) | Did | Refused | Outside

  function Inserted<T>(s: seq<T>, i: nat, x: T): seq<T>
    requires i <= |s|
  {
    s[..i] + [x] + s[i..]
  }

  function Deleted<T>(s: seq<T>, i: nat): seq<T>
    requires i < |s|
  {
    s[..i] + s[i + 1..]
  }

  /** Inserting and then deleting at one index is the identity, and so is the reverse with the
      deleted value. */
  lemma InsertDelete<T>(s: seq<T>, i: nat, x: T)
    requires i <= |s|
    ensures Deleted(Inserted(s, i, x), i) == s
    ensures i < |s| ==> Inserted(Deleted(s, i), i, s[i]) == s
  {
  }

  lemma InsertedAt<T>(s: seq<T>, i: nat, x: T)
    requires i <= |s|
    ensures |Inserted(s, i, x)| == |s| + 1 && Inserted(s, i, x)[i] == x
    ensures forall k :: 0 <= k < i ==> Inserted(s, i, x)[k] == s[k]
    ensures forall k :: i < k <= |s| ==> Inserted(s, i, x)[k] == s[k - 1]
  {
  }

  class Vector {
    var of: array<int>
    var count: nat
    var len: nat
    var kind: Tag

    ghost predicate Valid()
      reads this, of
    {
      0 < len <= of.Length && count <= len && (kind == Generic ==> count == 0)
    }

    /** The vector as a plain sequence. */
    ghost function Contents(): (s: seq<Scalar>)
      reads this, of
      requires Valid()
      ensures |s| == count
    {
      seq(count, i requires 0 <= i < count reads this, of requires Valid() =>
        Scalar(if kind.Tagged? then kind.t else 0, of[i]))
    }

    constructor (size: nat)
      requires size > 0
      ensures Valid() && fresh(of) && Contents() == [] && kind == Generic
    {
      of := new int[size](_ => 0);
      count, len, kind := 0, size, Generic;
    }

    /** `_realloc_vector`: the length field doubles, whatever the size. */
    method Grow(size: nat)
      requires Valid() && size >= 2 * len
      modifies this
      ensures Valid() && fresh(of) && len == 2 * old(len) && count == old(count) && kind == old(kind)
      ensures of[..count] == old(of[..count]) && of.Length == size
    {
      var bigger := new int[size](_ => 0);
      var i := 0;
      while i < count
        invariant i <= count == old(count) && of == old(of) && len == old(len) && kind == old(kind)
                  && of[..] == old(of[..])
        invariant bigger[..i] == of[..i]
      {
        bigger[i] := of[i];
        i := i + 1;
      }
      of := bigger;
      len := len * 2;
    }

    /** The first element fixes the type; another type ends the program. */
    method Admit(t: nat) returns (fine: bool)
      requires Valid()
      modifies this`kind
      ensures of == old(of) && fine == (old(kind) == Generic || old(kind) == Tagged(t))
      ensures kind == if fine then Tagged(t) else old(kind)
    {
      if kind == Generic {
        kind := Tagged(t);
      } else if kind != Tagged(t) {
        return false;
      }
      fine := true;
    }

    /** `push_value`. */
    method Push(e: Scalar) returns (r: Answer)
      requires Valid()
      modifies this, of
      ensures Valid() && (of == old(of) || fresh(of))
      ensures r == if old(kind) == Generic || old(kind) == Tagged(e.t) then Did else Refused
      ensures Contents() == if r == Did then old(Contents()) + [e] else old(Contents())
      ensures kind == if r == Did then Tagged(e.t) else old(kind)
    {
      ghost var was := Contents();
      if len < count + 1 {
        Grow(len * 2);
      }
      var fine := Admit(e.t);
      if fine {
        of[count] := e.payload;
        count := count + 1;
      }
      r := if fine then Did else Refused;
      assert forall i :: 0 <= i < |was| ==> Contents()[i] == was[i];
    }

    /** `pop_value`: Null from an empty vector. */
    method Pop() returns (r: Answer)
      requires Valid()
      modifies this`count
      ensures Valid() && kind == old(kind)
      ensures old(count) == 0 ==> r == NullValue && Contents() == []
      ensures old(count) > 0 ==>
              r == Value(old(Contents())[old(count) - 1]) && Contents() == old(Contents())[..old(count) - 1]
    {
      if count == 0 {
        return NullValue;
      }
      count := count - 1;
      r := Value(Scalar(kind.t, of[count]));
    }

    /** `insert_value`. Up to the count the elements behind move up. Above it nothing moves: the
        vector gains whatever lies in its next cell, and the value goes to a cell not in use, or
        behind the array. */
    method Insert(index: nat, e: Scalar) returns (r: Answer)
      requires Valid()
      modifies this, of
      ensures Valid() && (of == old(of) || fresh(of))
      ensures r == Refused <==> !(old(kind) == Generic || old(kind) == Tagged(e.t))
      ensures r == Outside ==> index == len > old(count)
      ensures r == Did || r == Refused || r == Outside
      ensures kind == if r == Refused then old(kind) else Tagged(e.t)
      ensures r == Refused ==> Contents() == old(Contents())
      ensures r == Did && index <= old(count) ==> Contents() == Inserted(old(Contents()), index, e)
      ensures r == Did && index > old(count) ==> count == old(count) + 1 && Contents()[..old(count)] == old(Contents())
                                                 && index < of.Length && of[index] == e.payload
    {
      ghost var was := Contents();
      Room(index);
      var fine := Admit(e.t);
      if !fine {
        return Refused;
      }
      if index >= of.Length {
        return Outside;
      }
      assert Contents() == was;
      Place(index, e);
      r := Did;
    }

    method Room(index: nat)
      requires Valid()
      modifies this
      ensures Valid() && (of == old(of) || fresh(of)) && count == old(count) < len && kind == old(kind)
      ensures Contents() == old(Contents()) && (index < of.Length || index == len)
    {
      ghost var was := Contents();
      if count + 1 > len {
        Grow(len * 2);
      }
      if index > len {
        Grow(index * 2);
      }
      assert forall i :: 0 <= i < |was| ==> Contents()[i] == was[i];
    }

    method Place(index: nat, e: Scalar)
      requires Valid() && count < len && index < of.Length && kind == Tagged(e.t)
      modifies this`count, of
      ensures Valid() && count == old(count) + 1 && of[index] == e.payload
      ensures if index <= old(count) then Contents() == Inserted(old(Contents()), index, e)
              else Contents()[..old(count)] == old(Contents())
    {
      ghost var was := Contents();
      assert forall i :: 0 <= i < |was| ==> was[i] == Scalar(kind.t, of[i]);
      hide *;
      count := count + 1;
      ShiftUp(index);
      of[index] := e.payload;
      if index < count {
        InsertedAt(was, index, e);
        ContentsAre(Inserted(was, index, e));
      } else {
        ContentsAre(was + [Scalar(e.t, of[count - 1])]);
      }
    }

    lemma ContentsAre(s: seq<Scalar>)
      requires Valid() && |s| == count
      requires forall k :: 0 <= k < count ==> s[k] == Scalar(if kind.Tagged? then kind.t else 0, of[k])
      ensures Contents() == s
    {
    }

    /** Makes room at `index`: the last cell in use is free. */
    method ShiftUp(index: nat)
      requires 0 < count <= of.Length
      modifies of
      ensures forall k :: 0 <= k < of.Length && (k <= index || count <= k) ==> of[k] == old(of[k])
      ensures forall k :: index < k < count ==> of[k] == old(of[k - 1])
    {
      var i := count - 1;
      while i > index
        invariant 0 <= i < count && (i < index ==> i == count - 1)
        invariant forall k :: 0 <= k < of.Length && (k <= i || count <= k) ==> of[k] == old(of[k])
        invariant forall k :: i < k < count ==> of[k] == old(of[k - 1])
      {
        of[i] := of[i - 1];
        i := i - 1;
      }
    }

    /** `delete_value_index`; an index above the length ends the program. The whole tail is
        shifted, unused cells included, and the last element goes if the index is above the
        count. */
    method Delete(index: nat) returns (r: Answer)
      requires Valid()
      modifies this`count, of
      ensures Valid() && kind == old(kind)
      ensures r == if index > len then Refused else if old(count) == 0 then Outside else Did
      ensures r != Did ==> Contents() == old(Contents())
      ensures r == Did ==> Contents() == Deleted(old(Contents()), if index < old(count) then index else old(count) - 1)
    {
      if index > len {
        return Refused;
      }
      if count == 0 {
        return Outside;
      }
      ghost var was := Contents();
      var i := index;
      while i < len - 1
        invariant index <= i && (i < len || i == index) && Valid() && count == old(count)
        invariant forall k :: 0 <= k < index && k < of.Length ==> of[k] == old(of[k])
        invariant forall k :: index <= k < i ==> of[k] == old(of[k + 1])
        invariant forall k :: i <= k < of.Length ==> of[k] == old(of[k])
      {
        of[i] := of[i + 1];
        i := i + 1;
      }
      count := count - 1;
      r := Did;
      ghost var at := if index < count + 1 then index else count;
      assert forall k :: 0 <= k < count ==> Contents()[k] == Deleted(was, at)[k];
    }

    /** `get_vector_index`: Null above the length, and a cell that is not in use above the count. */
    method Get(index: nat) returns (r: Answer)
      requires Valid()
      ensures index < count ==> r == Value(Contents()[index])
      ensures index > len ==> r == NullValue
      ensures count <= index <= len ==> if index < of.Length then r.Value? && r.e.payload == of[index] else r == Outside
    {
      if index > len {
        return NullValue;
      }
      if index >= of.Length {
        return Outside;
      }
      r := Value(Scalar(if kind.Tagged? then kind.t else 0, of[index]));
    }

    /** `set_vector_index`; an index above the length ends the program. Above the count nothing is
        set that anyone sees. */
    method Set(index: nat, e: Scalar) returns (r: Answer)
      requires Valid()
      modifies this`kind, of
      ensures Valid()
      ensures r == Refused <==> index > len || !(old(kind) == Generic || old(kind) == Tagged(e.t))
      ensures r == Outside <==> index == of.Length == len && (old(kind) == Generic || old(kind) == Tagged(e.t))
      ensures r == Did || r == Refused || r == Outside
      ensures kind == if r == Refused then old(kind) else Tagged(e.t)
      ensures Contents() == if r == Did && index < count then old(Contents())[index := e] else old(Contents())
    {
      if index > len {
        return Refused;
      }
      var fine := Admit(e.t);
      if !fine {
        return Refused;
      }
      if index >= of.Length {
        return Outside;
      }
      of[index] := e.payload;
      r := Did;
    }
  }

  /** The operations, as data. */
  datatype Op =
    | Push(e: Scalar)
    | Pop
    | Insert(i: nat, e: Scalar)
    | Delete(i: nat)
    | Get(i: nat)
    | Set(i: nat, e: Scalar)

  /** The same operations on a plain sequence with a type. */
  datatype Plain = Plain(kind: Tag, s: seq<Scalar>)

  predicate Legal(v: Plain, op: Op) {
    match op
    case Insert(i, _) => i <= |v.s|
    case Delete(i) => i < |v.s|
    case Get(i) => i < |v.s|
    case Set(i, _) => i < |v.s|
    case _ => true
  }

  predicate Accepts(v: Plain, e: Scalar) {
    v.kind == Generic || v.kind == Tagged(e.t)
  }

  function Do(v: Plain, op: Op): Plain
    requires Legal(v, op)
  {
    match op
    case Push(e) => if Accepts(v, e) then Plain(Tagged(e.t), v.s + [e]) else v
    case Pop => if v.s == [] then v else Plain(v.kind, v.s[..|v.s| - 1])
    case Insert(i, e) => if Accepts(v, e) then Plain(Tagged(e.t), Inserted(v.s, i, e)) else v
    case Delete(i) => Plain(v.kind, Deleted(v.s, i))
    case Get(_) => v
    case Set(i, e) => if Accepts(v, e) then Plain(Tagged(e.t), v.s[i := e]) else v
  }

  function Reply(v: Plain, op: Op): Answer
    requires Legal(v, op)
  {
    match op
    case Pop => if v.s == [] then NullValue else Value(v.s[|v.s| - 1])
    case Get(i) => Value(v.s[i])
    case Delete(_) => Did
    case Push(e) => if Accepts(v, e) then Did else Refused
    case Insert(_, e) => if Accepts(v, e) then Did else Refused
    case Set(_, e) => if Accepts(v, e) then Did else Refused
  }

  predicate LegalRun(v: Plain, ops: seq<Op>)
    decreases |ops|
  {
    ops == [] || (Legal(v, ops[0]) && LegalRun(Do(v, ops[0]), ops[1..]))
  }

  function Run(v: Plain, ops: seq<Op>): Plain
    requires LegalRun(v, ops)
    decreases |ops|
  {
    if ops == [] then v else Run(Do(v, ops[0]), ops[1..])
  }

  function Replies(v: Plain, ops: seq<Op>): seq<Answer>
    requires LegalRun(v, ops)
    decreases |ops|
  {
    if ops == [] then [] else [Reply(v, ops[0])] + Replies(Do(v, ops[0]), ops[1..])
  }

  /** One type for all elements, kept by every run and never changed once fixed. */
  predicate OneType(v: Plain) {
    (v.kind == Generic ==> v.s == []) && forall i :: 0 <= i < |v.s| ==> v.kind == Tagged(v.s[i].t)
  }

  lemma {:induction false} RunKeepsType(v: Plain, ops: seq<Op>)
    requires OneType(v) && LegalRun(v, ops)
    ensures OneType(Run(v, ops)) && (v.kind != Generic ==> Run(v, ops).kind == v.kind)
    decreases |ops|
  {
    if ops != [] {
      RunKeepsType(Do(v, ops[0]), ops[1..]);
    }
  }

  /** Any run on a vector, through every doubling, gives the answers and leaves the contents of the
      same run on a plain sequence. */
  method RunVector(v: Vector, ops: seq<Op>) returns (answers: seq<Answer>)
    requires v.Valid() && LegalRun(Plain(v.kind, v.Contents()), ops)
    modifies v, v.of
    ensures v.Valid() && (v.of == old(v.of) || fresh(v.of))
    ensures Plain(v.kind, v.Contents()) == Run(old(Plain(v.kind, v.Contents())), ops)
    ensures answers == Replies(old(Plain(v.kind, v.Contents())), ops)
    decreases |ops|
  {
    answers := [];
    if ops != [] {
      var first := RunOne(v, ops[0]);
      var rest := RunVector(v, ops[1..]);
      answers := [first] + rest;
    }
  }

  method RunOne(v: Vector, op: Op) returns (r: Answer)
    requires v.Valid() && Legal(Plain(v.kind, v.Contents()), op)
    modifies v, v.of
    ensures v.Valid() && (v.of == old(v.of) || fresh(v.of))
    ensures Plain(v.kind, v.Contents()) == Do(old(Plain(v.kind, v.Contents())), op)
    ensures r == Reply(old(Plain(v.kind, v.Contents())), op)
  {
    match op
    case Push(e) => r := v.Push(e);
    case Pop => r := v.Pop();
    case Insert(i, e) => r := v.Insert(i, e);
    case Delete(i) => r := v.Delete(i);
    case Get(i) => r := v.Get(i);
    case Set(i, e) => r := v.Set(i, e);
  }
}
