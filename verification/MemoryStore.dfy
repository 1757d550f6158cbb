/** The in-process store, internal/store/memory.go: bytes copied in and copied out. */
module MemoryStore {
  import opened Wrappers

  class Memory {
    var data: array?<bv8>

    /** What is stored; None until something was saved, which differs from saving no bytes. */
    function Contents(): Option<seq<bv8>>
      reads this, data
    {
      if data == null then None else Some(data[..])
    }

    constructor ()
      ensures Contents() == None
    {
      data := null;
    }

    method Load() returns (out: Option<array<bv8>>)
      ensures Contents() == old(Contents())
      ensures out.Some? <==> Contents().Some?
      ensures out.Some? ==> fresh(out.value) && out.value[..] == Contents().value
    {
      if data == null { return None; }
      var copy := new bv8[data.Length];
      for i := 0 to data.Length
        invariant copy[..i] == data[..i]
      {
        copy[i] := data[i];
      }
      assert copy[..] == data[..];
      return Some(copy);
    }

    method Save(bytes: array<bv8>)
      modifies this
      ensures data != null && fresh(data) && Contents() == Some(old(bytes[..]))
    {
      var copy := new bv8[bytes.Length];
      for i := 0 to bytes.Length
        invariant copy[..i] == bytes[..i]
      {
        copy[i] := bytes[i];
      }
      assert copy[..] == bytes[..];
      data := copy;
    }
  }

  /** Nobody outside can reach the stored bytes: not through what was saved, not through what was loaded. */
  method Overwrite(m: Memory, bytes: array<bv8>, junk: bv8)
    modifies m, bytes
    ensures m.Contents() == Some(old(bytes[..]))
  {
    m.Save(bytes);
    for i := 0 to bytes.Length
      invariant m.data != null && m.data != bytes && m.Contents() == Some(old(bytes[..]))
    {
      bytes[i] := junk;
    }
    var loaded := m.Load();
    ghost var out := loaded.value;
    for i := 0 to loaded.value.Length
      invariant m.data != null && m.data != loaded.value && m.Contents() == Some(old(bytes[..]))
    {
      loaded.value[i] := junk;
    }
  }
}
