/** The few JavaScript string and array operations the authentication code relies on,
    each with a lemma tying it to Dafny's own notion. */
module Js {
  import opened Wrappers

  /** `s.startsWith(prefix)`: compares the two strings character by character. */
  function StartsWith(s: string, prefix: string): bool
    decreases prefix
  {
    if prefix == [] then true
    else if s == [] then false
    else s[0] == prefix[0] && StartsWith(s[1..], prefix[1..])
  }

  /** `startsWith` is exactly the sequence-prefix relation. */
  lemma {:induction false} StartsWithIsPrefix(s: string, prefix: string)
    ensures StartsWith(s, prefix) <==> prefix <= s
    decreases prefix
  {
    if prefix != [] && s != [] {
      StartsWithIsPrefix(s[1..], prefix[1..]);
      assert prefix <= s <==> s[0] == prefix[0] && prefix[1..] <= s[1..];
    }
  }

  /** `list.includes(x)`: a linear scan of the list. */
  function Includes(list: seq<string>, x: string): bool
    decreases list
  {
    if list == [] then false
    else list[0] == x || Includes(list[1..], x)
  }

  /** `includes` is exactly sequence membership. */
  lemma {:induction false} IncludesIsMembership(list: seq<string>, x: string)
    ensures Includes(list, x) <==> x in list
    decreases list
  {
    if list != [] {
      IncludesIsMembership(list[1..], x);
      assert list == [list[0]] + list[1..];
    }
  }

  /** JavaScript truthiness of a value that is a string or undefined: `undefined`
      and the empty string are falsy, every other string is truthy. */
  predicate Truthy(v: Option<string>) {
    v.Some? && v.value != ""
  }
}
