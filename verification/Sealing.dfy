/** Authenticated encryption, symbolically: what is sealed under a key opens under that key only. */
module Sealing {
  import opened Values

  datatype Sealed = Sealed(key: bytes, text: string)

  function Open(key: bytes, s: Sealed): Option<string>
  {
    if s.key == key then Some(s.text) else None
  }
}
