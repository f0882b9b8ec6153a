/** Bytes and C strings. */
module Bytes {
  type Byte = x: int | 0 <= x < 256

  /** The C string held by a buffer: up to the first NUL. */
  function CString(s: seq<Byte>): (r: seq<Byte>)
    ensures |r| <= |s| && r == s[..|r|]
    ensures 0 !in s ==> r == s
  {
    if s == [] || s[0] == 0 then []
    else
      var r := CString(s[1..]);
      assert [s[0]] + s[1..][..|r|] == s[..|r| + 1];
      [s[0]] + r
  }
}
