/** Writing into a buffer. */
module Buffers {
  method Put(buf: array<char>, pos: nat, text: string)
    requires pos + |text| <= buf.Length
    modifies buf
    ensures buf[..pos + |text|] == old(buf[..pos]) + text
  {
    for k := 0 to |text|
      invariant buf[..pos + k] == old(buf[..pos]) + text[..k]
    {
      buf[pos + k] := text[k];
      assert text[..k + 1] == text[..k] + [text[k]];
      assert buf[..pos + k + 1] == buf[..pos + k] + [text[k]];
    }
    assert text[..|text|] == text;
  }
}
