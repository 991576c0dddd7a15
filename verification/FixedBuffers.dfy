/** The fixed-capacity buffer of clia/clia/container/fixed_buffer.h. */
module FixedBuffers {

  class FixedBuffer {
    const data: array<char>
    var cur: nat

    /** The write position never reaches the end: every advance leaves at least one free cell. */
    ghost predicate Valid()
      reads this
    {
      cur < data.Length
    }

    ghost function Contents(): seq<char>
      reads this, data
      requires cur <= data.Length
    {
      data[..cur]
    }

    constructor (capacity: nat)
      requires capacity > 0
      ensures Valid() && fresh(data) && data.Length == capacity && Contents() == [] && cur == 0
    {
      data := new char[capacity](_ => '\0');
      cur := 0;
    }

    function Size(): nat
      reads this
    {
      cur
    }

    function Avail(): int
      reads this
    {
      data.Length - cur
    }

    method Reset()
      requires Valid()
      modifies this
      ensures Valid() && Contents() == []
    {
      cur := 0;
    }

    /** `add`: advances over cells that the caller has filled. */
    method Add(len: nat)
      requires Valid() && Avail() > len
      modifies this
      ensures Valid() && cur == old(cur) + len
    {
      cur := cur + len;
    }

    /** One value; the advance wants a second free cell. */
    method AppendOne(value: char)
      requires Valid() && Avail() > 1
      modifies this, data
      ensures Valid() && Contents() == old(Contents()) + [value]
    {
      data[cur] := value;
      Add(1);
    }

    method Append(values: seq<char>)
      requires Valid() && |values| < Avail()
      modifies this, data
      ensures Valid() && Contents() == old(Contents()) + values
    {
      for k := 0 to |values|
        modifies data
        invariant data[..cur] == old(data[..cur])
        invariant data[cur..cur + k] == values[..k]
      {
        data[cur + k] := values[k];
      }
      assert data[..cur + |values|] == data[..cur] + data[cur..cur + |values|];
      Add(|values|);
    }
  }
}
