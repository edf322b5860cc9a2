/** The growing arrays of stack.c and chunk.c. */
module Buffers {
  import opened Values
  import opened Bytecode

  /** The value stack. */
  class Stack {
    var cells: array<Element>
    var count: nat
    var len: nat

    ghost predicate Valid()
      reads this, cells
    {
      count <= len == cells.Length && len > 0
    }

    ghost function Contents(): seq<Element>
      reads this, cells
      requires Valid()
    {
      cells[..count]
    }

    /** `_stack`. */
    constructor (size: nat)
      requires size > 0
      ensures Valid() && fresh(cells) && Contents() == [] && len == size
    {
      cells := new Element[size](_ => Null);
      count, len := 0, size;
    }

    /** `realloc_stack` to twice the length. */
    method Grow()
      requires Valid()
      modifies this
      ensures Valid() && fresh(cells) && len == 2 * old(len) && Contents() == old(Contents())
    {
      var bigger := new Element[len * 2](_ => Null);
      var i := 0;
      while i < count
        invariant i <= count == old(count) && cells == old(cells) && len == old(len) && cells[..] == old(cells[..])
        invariant bigger[..i] == cells[..i]
      {
        bigger[i] := cells[i];
        i := i + 1;
      }
      cells := bigger;
      len := len * 2;
    }

    method Push(e: Element)
      requires Valid()
      modifies this, cells
      ensures Valid() && Contents() == old(Contents()) + [e]
      ensures cells == old(cells) <==> old(count) < old(len)
      ensures cells == old(cells) || (fresh(cells) && len == 2 * old(len))
    {
      if count + 1 > len {
        Grow();
      }
      cells[count] := e;
      count := count + 1;
    }

    /** The cell that was on top; on an empty stack the first cell, and nothing changes. */
    method Pop() returns (e: Element)
      requires Valid()
      modifies this`count
      ensures Valid()
      ensures old(count) > 0 ==> old(Contents()) == Contents() + [e]
      ensures old(count) == 0 ==> Contents() == [] && e == cells[0]
    {
      if count == 0 {
        return cells[0];
      }
      count := count - 1;
      e := cells[count];
    }

    /** The count never falls below zero. A negative operand brings cells back that were popped, as
        far as the array reaches. */
    method Popn(n: int)
      requires Valid() && count - n <= len
      modifies this`count
      ensures Valid() && count == if n <= old(count) then old(count) - n else 0
      ensures n >= 0 ==> Contents() == old(Contents())[..count]
      ensures n < 0 ==> old(Contents()) <= Contents() && Contents() == cells[..count]
    {
      count := if n <= count then count - n else 0;
    }
  }

  /** The chunk under construction: code bytes and line numbers grow together. */
  class CodeBuffer {
    var ip: array<Byte>
    var lines: array<nat>
    var count: nat
    var len: nat
    const constants: Stack

    ghost predicate Valid()
      reads this, ip, lines, constants, constants.cells
    {
      && count <= len == ip.Length == lines.Length && len > 0
      && constants.Valid()
    }

    ghost function Code(): seq<Byte>
      reads this, ip, lines, constants, constants.cells
      requires Valid()
    {
      ip[..count]
    }

    ghost function Lines(): seq<nat>
      reads this, ip, lines, constants, constants.cells
      requires Valid()
    {
      lines[..count]
    }

    /** `init_chunk`. */
    constructor ()
      ensures Valid() && fresh(ip) && fresh(lines) && fresh(constants) && fresh(constants.cells)
      ensures Code() == [] && Lines() == [] && constants.Contents() == []
    {
      ip := new Byte[STACK_SIZE](_ => 0);
      lines := new nat[STACK_SIZE](_ => 0);
      count, len := 0, STACK_SIZE;
      constants := new Stack(STACK_SIZE);
    }

    /** Both arrays at twice the length, with what they held. */
    method Grow()
      requires Valid()
      modifies this
      ensures Valid() && fresh(ip) && fresh(lines) && count == old(count) && len == 2 * old(len)
      ensures Code() == old(Code()) && Lines() == old(Lines())
    {
      var moreIp := new Byte[len * 2](_ => 0);
      var moreLines := new nat[len * 2](_ => 0);
      var i := 0;
      while i < len
        invariant i <= len && unchanged(this) && unchanged(ip) && unchanged(lines)
        invariant moreIp[..i] == ip[..i] && moreLines[..i] == lines[..i]
      {
        moreIp[i], moreLines[i] := ip[i], lines[i];
        i := i + 1;
      }
      assert moreIp[..count] == ip[..count] && moreLines[..count] == lines[..count];
      ip, lines, len := moreIp, moreLines, len * 2;
    }

    /** `write_chunk`: whatever was written before, patches included, survives the growth. */
    method WriteChunk(b: Byte, line: nat)
      requires Valid()
      modifies this, ip, lines
      ensures Valid() && (ip == old(ip) || fresh(ip)) && (lines == old(lines) || fresh(lines))
      ensures Code() == old(Code()) + [b] && Lines() == old(Lines()) + [line]
    {
      if len < count + 1 {
        Grow();
      }
      lines[count] := line;
      ip[count] := b;
      count := count + 1;
    }

    /** The two operand bytes of a jump: no other byte changes. */
    method Patch(off: nat, hi: Byte, lo: Byte)
      requires Valid() && off + 1 < count
      modifies ip
      ensures Valid() && Code() == old(Code())[off := hi][off + 1 := lo] && Lines() == old(Lines())
    {
      ip[off] := hi;
      ip[off + 1] := lo;
    }

    /** `add_constant`. */
    method AddConstant(e: Element) returns (k: nat)
      requires Valid()
      modifies constants, constants.cells
      ensures Valid() && constants.Contents() == old(constants.Contents()) + [e] && k == |old(constants.Contents())|
      ensures Code() == old(Code()) && Lines() == old(Lines())
    {
      constants.Push(e);
      k := constants.count - 1;
    }
  }

  /** A patched jump keeps its operand through any number of later writes. */
  method PatchSurvives(c: CodeBuffer, off: nat, hi: Byte, lo: Byte, more: seq<Byte>, line: nat)
    requires c.Valid() && off + 1 < c.count
    modifies c, c.ip, c.lines
    ensures c.Valid() && c.Code() == old(c.Code())[off := hi][off + 1 := lo] + more
    ensures c.Code()[off] == hi && c.Code()[off + 1] == lo
  {
    c.Patch(off, hi, lo);
    ghost var was := c.Code();
    var i := 0;
    while i < |more|
      invariant i <= |more| && c.Valid() && c.Code() == was + more[..i]
      invariant (c.ip == old(c.ip) || fresh(c.ip)) && (c.lines == old(c.lines) || fresh(c.lines))
    {
      c.WriteChunk(more[i], line);
      assert more[..i + 1] == more[..i] + [more[i]];
      i := i + 1;
    }
    assert more[..i] == more;
  }
}
